/** Colour codes in a `/g online` reply are invisible to the parser and to the collector
    (apps/bridge-bot/src/roster.ts:61-63, 101-103). */
module RosterColors {
  import opened Prelude
  import opened ChatText
  import opened RosterText
  import RosterLines
  import opened Roster
  import opened RosterRoundTrip

  /** One code for each letter. */
  function Codes(letters: string): string {
    if letters == [] then [] else [SECTION_SIGN, letters[0]] + Codes(letters[1..])
  }

  /** The text with codes before every character and at the end. */
  function Paint(text: string, paint: seq<string>): string
    requires |paint| == |text| + 1
  {
    Codes(paint[0]) + if text == [] then [] else [text[0]] + Paint(text[1..], paint[1..])
  }

  predicate PaintOk(text: string, paint: seq<string>) {
    |paint| == |text| + 1 && forall letters :: letters in paint ==> OneLine(letters)
  }

  lemma {:induction false} StripCodes(letters: string, rest: string)
    requires OneLine(letters)
    ensures StripColors(Codes(letters) + rest) == StripColors(rest)
  {
    if letters == [] {
      assert Codes(letters) + rest == rest;
    } else {
      var s := Codes(letters) + rest;
      assert s[0] == SECTION_SIGN && s[1] == letters[0] && s[2..] == Codes(letters[1..]) + rest;
      StripCodes(letters[1..], rest);
    }
  }

  /** What was painted is what is left when the colours go. */
  lemma {:induction false} PaintGoes(text: string, paint: seq<string>)
    requires PaintOk(text, paint) && SECTION_SIGN !in text
    ensures StripColors(Paint(text, paint)) == text
  {
    var rest := if text == [] then [] else [text[0]] + Paint(text[1..], paint[1..]);
    StripCodes(paint[0], rest);
    if text != [] {
      PaintGoes(text[1..], paint[1..]);
      assert rest[0] == text[0] && rest[1..] == Paint(text[1..], paint[1..]);
    }
  }

  // ----- whole blocks

  /** Both blocks say the same once the colours are gone. */
  predicate SameWords(a: seq<string>, b: seq<string>) {
    |a| == |b| && forall i :: 0 <= i < |a| ==> StripColors(a[i]) == StripColors(b[i])
  }

  lemma {:induction false} FoldSameWords(p: Parse, a: seq<string>, b: seq<string>)
    requires SameWords(a, b)
    ensures Fold(p, a) == Fold(p, b)
  {
    if a != [] {
      var n := |a| - 1;
      FoldSameWords(p, a[..n], b[..n]);
      hide StripColors, StepClean, Fold;
      assert Clean(a[n]) == Clean(b[n]);
    }
  }

  predicate PaintsOk(lines: seq<string>, paints: seq<seq<string>>) {
    |paints| == |lines| && forall i :: 0 <= i < |lines| ==> PaintOk(lines[i], paints[i])
  }

  function Painted(lines: seq<string>, paints: seq<seq<string>>): seq<string>
    requires PaintsOk(lines, paints)
  {
    seq(|lines|, i requires 0 <= i < |lines| && PaintOk(lines[i], paints[i]) => Paint(lines[i], paints[i]))
  }

  /** Colours anywhere in a printed block change nothing of what is read, nor of where the collector stops. */
  lemma ColoursAreInvisible(l: Layout, paints: seq<seq<string>>)
    requires LayoutOk(l) && PaintsOk(Print(l), paints) && forall line :: line in Print(l) ==> SECTION_SIGN !in line
    ensures var painted := Painted(Print(l), paints);
            && RosterOf(painted) == (if Recognisable(l) then Some(Denoted(l)) else None)
            && forall i :: 0 <= i < |painted| ==> (IsRosterEnd(painted[i]) <==> IsRosterEnd(Print(l)[i]))
  {
    var lines := Print(l);
    var painted := Painted(lines, paints);
    hide Print, LayoutOk, Recognisable, Denoted, Fold, StripColors, Paint, CountOf, PaintOk;
    forall i | 0 <= i < |lines| ensures StripColors(painted[i]) == StripColors(lines[i]) {
      PaintGoes(lines[i], paints[i]);
      RosterLines.StripColorsNone(lines[i]);
    }
    FoldSameWords(START, lines, painted);
    ReadsWhatWasPrinted(l);
  }
}
