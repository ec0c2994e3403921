# Bridge verification model

A Dafny model of the stateful protocols of the SBR platform, and proofs of what they keep over every run. Objects
whose methods update fields are classes; each method is proved equal to a specification function on values, and the
theorems are lemmas about runs of those functions. `dafny verify dfyconfig.toml` checks everything.

## What is modelled

- **The outbound command pipeline** (`CommandQueue*`, `ModNotice`, `NoticeExactly`, `TypedLines`, `CommandEcho`, `Outbound*`). A
  paced serial queue with two priority levels, a bounded backlog, displacement, ageing and hold-without-session; the watcher that matches
  Hypixel's replies to typed commands; the bridge that answers every bus message; the memory of outstanding commands.
  A run is a list of steps (bus message, guild lookup done, staff command, queue timer, chat line) with a clock that
  never goes back. Timers may fire late in the safety theorems; the latency theorem assumes a live session and timers
  on time.
- **The telemetry pipe** (`Telemetry*`, `Capture*`). Listener callbacks and completed sends come between pumps in any
  order, for any socket.
- **Durable sweeps** (`SweepTrace`, `Announcers*`, `Reminder*`, `EventBoard*`). The database row and the Discord message
  are two systems; a pass is a trace of calls that a crash may cut off anywhere.
- **Rate and window machines** (`FloodHash`, `FloodControl`, `FloodHistory`, `JoinWindow`, `Autoresponder`, `Watchtower`,
  `Reconnect`), each against a specification that remembers its whole history.
- **The guild roster** (`Roster*`): the parser of `/g online` against a printer that varies every decoration the parser
  promises to tolerate, with chat between the lines and colours anywhere.
- **The role effector** (`RolePreflight`, `RoleEffector`, `RoleAccounting`): what its reports are worth.
- **Chart axes** (`Chart`) over exact reals.

## Where the code differs from what is said about it

- `levels.ts:93-94` says only sent rows count towards the limit. Opt-outs count as well (line 95), so a batch of
  opt-outs does end a pass (`Announcers.OptOutsEndThePass`). The count reaches min(limit, n) if and only if nobody among
  the rows reached has opted out (`Announcers.FrontDelivered`, in the contract of `Announcers.AnnounceOnce`).
- `milestones.ts:49-52` says a guild without a channel does not block the head of the queue. Four of them do
  (`AnnouncersStarved.FourGuildsStarveThePass`); a pass calls about nobody if and only if its four fetches return only rows of
  such guilds, and with three it always gets through (`Announcers.AnnounceOnce`).
- `event-board.ts:372-373` says a crash costs a stale link and not a second native event. A crash between the two calls
  does leave a second one (`EventBoard.CrashDuplicatesNative`); `EventBoard.NativesAccountedFor` says exactly how many.
- `event-board.ts:137-142` calls the post path idempotent. Line 264 reads a search that fails as no board, which leaves
  two (`EventBoard.MissedSearchDuplicatesBoard`), and so do failed edits of a board that is there
  (`EventBoardTwins.FailedEditsDuplicateBoard`). `EventBoardTwins.TwinExactly` says exactly when a publish leaves a second
  board; with crashes and deletions in between there is one more at most for each miss (`EventBoard.BoardsCounted`).
- `raid-gate.ts:51-58`, called at 149, prunes every guild with one guild's window. A count is exact if and only if
  nothing inside the window was forgotten (`JoinWindow.CountExactUnlessForgotten`);
  `JoinWindow.ForeignWindowUndercounts` is a concrete miscount.
- `transport.ts:1454-1463` says WRONG_GUILD of commands that are not this bridge's. Line 1467 says it of this guild's own
  when the lookup fails (`OutboundLookups.OwnMessageCalledForeign`, exactly when: `OutboundLookups.WrongGuildExactly`).
- `command-echo.ts:188` keeps a kick at exactly the memory, line 204 forgets it (`OutboundGuarantees.ClaimAtTheBoundary`);
  `OutboundGuarantees.ClaimBounds` says exactly when a kick is claimed.
- `command-echo.ts:147` tries refusals on every line, guild chat included; only confirmations exclude chat lines. A member
  who says what a pattern matches has a typed kick answered REFUSED_INGAME (`OutboundRefusals.RefusedBySteve`); a chat
  line settles something if and only if a pattern matches and a command is watched (`OutboundRefusals.ChannelLineOnlyRefuses`).
- `socket.js:103-122` does not schedule a retry, so a reconnect after a close is not always spaced by the backoff
  (`TelemetryBackoff.ReconnectWithoutBackoff`). An ask waits exactly for the last retry scheduled since the last start
  (`TelemetryBackoff.AsksWaitForTheLastRetry`); a scheduled retry does hold its delay, short of a start, a connect by hand
  or a handshake (`TelemetryBackoff.RetryHoldsItsDelay`, `TelemetryBackoff.HandshakeShortensTheWait`).
- `internal-api.ts:655-658` promises that a repeated call costs nothing. It holds exactly when no grantable role is asked
  for in both directions (`RoleAccounting.RepeatIsIdleExactly`); such a role flips on every call.
- `internal-api.ts:706-710`: the preflight reports a dangerous permission before the position, so a removal is attempted
  on a role above the bot (`RoleAccounting.RemovalAboveTheBotIsAttempted`).
- `watchtower.ts:18-20` describes a grace pass per service. It counts bad readings of the whole fleet
  (`Watchtower.GraceIsNotPerService`); `Watchtower.GraceIsPerFleet` says exactly which announced silences follow two
  misses of their service. A rejected health probe reads as no unwell component (`Watchtower.FailedProbeIsUnseen`).
- `watchtower.ts:134-136` records a status before its post lands, so the channel may repeat itself
  (`Watchtower.LostRecoveryRepeats`), exactly when the posts lost between two landed ones leave those alike
  (`Watchtower.ChannelRepeatsExactly`); the decisions to speak never do.

## Model

| member | source | states |
|---|---|---|
| `CommandQueue.CommandQueue.Push` | apps/bridge-bot/src/command-queue.ts:166-198 | queueing one command: refused, or inserted behind its class after at most one displacement, with the loop started when it was idle; the new state is the specification function of the old |
| `CommandQueue.CommandQueue.DisplaceOrdinary` | apps/bridge-bot/src/command-queue.ts:211-222 | removes the newest ordinary command, and none when all are urgent |
| `CommandQueue.CommandQueue.Place` | apps/bridge-bot/src/command-queue.ts:184-194 | an urgent command goes behind the urgent block, an ordinary one to the end |
| `CommandQueue.CommandQueue.Drain` | apps/bridge-bot/src/command-queue.ts:229-258 | the loop from one sleep to the next: age out, hold without a session, pace, type |
| `CommandQueue.CommandQueue.Wake` | apps/bridge-bot/src/command-queue.ts:229-258 | a sleep of the loop ends and the loop goes on |
| `CommandQueue.DrainExtendsLog` | apps/bridge-bot/src/command-queue.ts:229-258 | draining only adds to what left the queue |
| `CommandQueue.PushExtendsLog` | apps/bridge-bot/src/command-queue.ts:166-198 | pushing only adds to what left the queue |
| `CommandQueueRuns.EveryCommandAccountedFor` | apps/bridge-bot/src/command-queue.ts:93-96 | in every reachable state an accepted command has had no hook called while it waits and exactly one after it left; accepted = sent + expired + evicted + waiting; the backlog bound holds |
| `CommandQueueRuns.BacklogOrder` | apps/bridge-bot/src/command-queue.ts:177-189 | the backlog is always an urgent block and then an ordinary block, each in push order |
| `CommandQueueRuns.ClassesTypedInOrder` | apps/bridge-bot/src/command-queue.ts:177-222 | each class leaves from the head in push order, and only ordinary commands are ever displaced |
| `CommandQueueRuns.OrdinaryNeverOvertakes` | apps/bridge-bot/src/command-queue.ts:177-189 | when an ordinary command is typed, every urgent one pushed before that moment has already left |
| `CommandQueueRuns.PacedAndFresh` | apps/bridge-bot/src/command-queue.ts:237-256 | deliveries are at least the spacing apart, a typed command is strictly younger than its own limit, a discarded one is not |
| `CommandQueueRuns.PushOutcome` | apps/bridge-bot/src/command-queue.ts:166-222 | a push is refused exactly when the backlog is full and the command is ordinary or all waiting ones are urgent; otherwise it costs at most the newest ordinary one |
| `CommandQueueContents.AcceptedAsPushed` | apps/bridge-bot/src/command-queue.ts:166-194 | over every run the k-th accepted command has the text, guild, class and hooks of the k-th push that was taken, the time of that push, and its own limit or else the queue's |
| `CommandQueueContents.TypedAsPushed` | apps/bridge-bot/src/command-queue.ts:237-256 | whatever leaves the queue, typed or not, is one of those |
| `CommandQueueContents.HeldForASpacing` | apps/bridge-bot/src/command-queue.ts:246-254 | without a session the command at the head stays and the next try is one spacing away |
| `CommandQueueContents.RefusedPushOnlyCounts` | apps/bridge-bot/src/command-queue.ts:177-182 | a push that is refused changes nothing but the counter of drops |
| `CommandQueueContents.WakeMovesOn` | apps/bridge-bot/src/command-queue.ts:229-258 | a timer that fires in a live session lets the head leave at that moment, typed exactly when it is young enough; the backlog gets shorter and the next timer lies ahead |
| `CommandQueueContents.WakesEmptyTheQueue` | apps/bridge-bot/src/command-queue.ts:229-258 | in a live session n timers, each fired when due, take at least n commands from the queue |
| `CommandQueueRuns.PushKeeps` | apps/bridge-bot/src/command-queue.ts:166-198 | a push keeps the ledger, the waiting order, the log rules and the ages |
| `CommandQueueRuns.DrainKeeps` | apps/bridge-bot/src/command-queue.ts:229-258 | so does draining |
| `CommandQueueLatency.UrgentLatency` | apps/bridge-bot/src/command-queue.ts:166-262 | with a live session and timers on time, an accepted urgent command behind k urgent ones leaves within (k+1) spacings of its push, typed unless its own limit is no longer than that |
| `CommandQueueLatency.JoinAnswersNeverAgeOut` | apps/bridge-bot/src/transport.ts:630-633 | with the shipped spacing and backlog a join answer whose window is longer than a minute is typed within a minute |
| `ModNotice.IntentRoundTrip` | apps/bridge-bot/src/command-echo.ts:71-81 | every moderation line the platform types is recognised for its kind and lower-cased name, whatever reason follows |
| `TypedLines.IntentExactly` | apps/bridge-bot/src/command-echo.ts:71-81 | a typed line is watched exactly when it is one of five verbs behind /g or /guild, in any case, and a whole name; kind and lower-cased target are those |
| `ModNotice.JoinAnswerIsNotWatched` | apps/bridge-bot/src/transport.ts:643 | an answer to a join request is never mistaken for a watched moderation line |
| `TypedLines.JoinAnswersExactly` | apps/bridge-bot/src/transport.ts:643 | a line answers a join request exactly when it is /g or /guild, accept or deny, in any case, and a name |
| `ModNotice.KickNoticeRoundTrip` | apps/bridge-bot/src/mod-notice.ts:108-133 | a printed kick with an actor is read back as exactly that notice, for any rank tags |
| `ModNotice.PassiveKickRoundTrip` | apps/bridge-bot/src/mod-notice.ts:108-133 | a printed kick that names nobody is read back without an actor |
| `ModNotice.MuteNoticeRoundTrip` | apps/bridge-bot/src/mod-notice.ts:108-133 | a printed mute is read back with its target, actor and length, for any rank tags |
| `NoticeExactly.LengthsRead` | apps/bridge-bot/src/mod-notice.ts:53-62 | a whole number with s, m, h or d is that many seconds, minutes, hours or days; zero is no length |
| `ModNotice.UnmuteNoticeRoundTrip` | apps/bridge-bot/src/mod-notice.ts:108-133 | a printed unmute is read back with its target and actor |
| `ModNotice.NotKickedBy` | apps/bridge-bot/src/mod-notice.ts:83-92 | the form that names an actor does not match the shorter kick line |
| `NoticeExactly.NoticeReadExactly` | apps/bridge-bot/src/mod-notice.ts:108-133 | a line is read as a notice exactly when it is no chat and has one of the four punitive forms with names where names belong, the more specific form first; kind, target, actor and length are those of the form |
| `NoticeExactly.KickSubjectExactly` | apps/bridge-bot/src/mod-notice.ts:83-92 | a kick line is split exactly where its marker stands behind one or two tokens |
| `NoticeExactly.BareNameExactly` | apps/bridge-bot/src/mod-notice.ts:45-47 | a name is read off a text exactly when the text is that name, padded and with at most one rank tag before it |
| `CommandEcho.CommandEcho.StartWatch` | apps/bridge-bot/src/command-echo.ts:123-128 | a typed moderation line is watched from now on; the expired watches go first |
| `CommandEcho.CommandEcho.Observe` | apps/bridge-bot/src/command-echo.ts:138-176 | a refusal settles the oldest watch, a punitive notice the oldest watch it names, anything else none |
| `CommandEcho.CommandEcho.Expire` | apps/bridge-bot/src/command-echo.ts:196-205 | drops exactly the watches past the window and the kicks past the memory |
| `CommandEcho.CommandEcho.ClaimedKick` | apps/bridge-bot/src/command-echo.ts:184-193 | whether a kick notice is one of ours; an outdated memory of it is dropped |
| `Outbound.Bridge.SendGameCommand` | apps/bridge-bot/src/transport.ts:1367-1384 | only a command of this guild reaches the queue; the answer is whether it was accepted |
| `Outbound.Bridge.HandleBusMessage` | apps/bridge-bot/src/composition.ts:1038-1062 | a message is answered EXPIRED at once without a sink, else its guild is looked up |
| `Outbound.Bridge.HandleResolved` | apps/bridge-bot/src/transport.ts:1435-1469 | the looked-up message is queued, or answered REFUSED_BACKLOG or WRONG_GUILD |
| `Outbound.Bridge.RunHook` | apps/bridge-bot/src/transport.ts:1444-1452 | a command that left is answered TYPED and watched, or answered EXPIRED |
| `Outbound.Bridge.RunNewHooks` | apps/bridge-bot/src/transport.ts:1444-1452 | hooks run once per command that left, in the order they left |
| `Outbound.Bridge.HandleTimer` | apps/bridge-bot/src/command-queue.ts:229-258 | a timer of the queue moves the queue and runs the new hooks |
| `Outbound.Bridge.HandleChatLine` | apps/bridge-bot/src/transport.ts:1692-1702 | a chat line settles a watch, or is our own kick coming back, or is a decision made in game that is recorded if the guild is known or found |
| `Outbound.Bridge.RecordNotice` | apps/bridge-bot/src/transport.ts:1409-1419 | a notice is written into the history of the resolved guild; while the guild is unresolved it is dropped |
| `OutboundRuns.ApplyKeeps` | apps/bridge-bot/src/transport.ts:1435-1469 | every step keeps the conservation of answers, the watcher in order and the memory of kicks exact |
| `OutboundGuarantees.EveryMessageAnsweredOnce` | apps/bridge-bot/src/transport.ts:1435-1469 | for every id: messages received = held + delivery answers; in-game answers never outnumber TYPED, and TYPED counts the typed lines |
| `OutboundGuarantees.DistinctIdsAnsweredOnce` | apps/bridge-bot/src/transport.ts:1435-1469 | with distinct ids a message gets at most one of TYPED, EXPIRED, REFUSED_BACKLOG and WRONG_GUILD, exactly one once it is no longer held, and at most one in-game answer |
| `OutboundGuarantees.SettledSoonAfterTyped` | apps/bridge-bot/src/command-echo.ts:138-175 | an in-game answer follows a TYPED on the same id by less than the echo window |
| `OutboundGuarantees.OnlyOwnGuildTyped` | apps/bridge-bot/src/transport.ts:1376-1379 | nothing addressed to another guild is ever typed or even queued, and no notice is recorded for another guild |
| `OutboundGuarantees.RefusalsAreTruthful` | apps/bridge-bot/src/transport.ts:1454-1463 | while lookups succeed WRONG_GUILD is said only about other guilds, TYPED and REFUSED_BACKLOG only about this one |
| `OutboundLookups.WrongGuildExactly` | apps/bridge-bot/src/transport.ts:1442-1468 | a completed lookup says WRONG_GUILD exactly when the lookup was needed and failed or named another guild, or the guild known beforehand is another; and then says nothing else |
| `OutboundLookups.OnlyLookupsSayWrongGuild` | apps/bridge-bot/src/transport.ts:1454-1468 | no other step ever says WRONG_GUILD |
| `OutboundLookups.OwnMessageCalledForeign` | apps/bridge-bot/src/transport.ts:1465-1468 | an input: the lookup of a message of our own guild fails although the guild has become known meanwhile |
| `OutboundGuarantees.QueueProjection` | apps/bridge-bot/src/transport.ts:1367-1384 | the queue inside the pipeline takes a run of its own, so every queue theorem applies to it |
| `OutboundGuarantees.TypedLinesArePaced` | apps/bridge-bot/src/command-queue.ts:237-256 | what the pipeline types is spaced and fresh |
| `OutboundGuarantees.WatcherStaysSmall` | apps/bridge-bot/src/command-echo.ts:123-128 | the watcher never follows more than floor((window-1)/spacing)+1 commands |
| `OutboundGuarantees.NineWatchesAtMost` | apps/bridge-bot/src/command-echo.ts:25 | with the shipped window and spacing: nine |
| `OutboundKicks.KicksFollowAnswers` | apps/bridge-bot/src/command-echo.ts:160-175 | over every run a kick of a name counts as confirmed, at t, exactly when the last answer that confirmed a typed kick of that name was read at t |
| `OutboundKicks.OwnKickNeverMirrored` | apps/bridge-bot/src/transport.ts:1692-1702 | of the lines that answer nothing exactly the kicks, mutes and unmutes are recorded, except a kick whose confirmation this bridge read within the memory, and only when the guild is known or found |
| `OutboundKicks.RepeatedKickIsOurs` | apps/bridge-bot/src/transport.ts:1696-1699 | before the memory is over our own kick printed again is recorded as nobody's decision |
| `OutboundGuarantees.ClaimExact` | apps/bridge-bot/src/command-echo.ts:184-205 | right after an expiry pass a kick is claimed exactly when it was confirmed less than the memory ago |
| `OutboundGuarantees.ClaimBounds` | apps/bridge-bot/src/command-echo.ts:184-205 | asked on its own the claim holds exactly for a kick younger than the memory, or one exactly as old that no expiry pass has dropped yet |
| `OutboundGuarantees.ClaimAtTheBoundary` | apps/bridge-bot/src/command-echo.ts:188-204 | at exactly the memory the two expiry tests disagree: claimed before a pass, forgotten after it |
| `OutboundGuarantees.AskingForgetsOldKicks` | apps/bridge-bot/src/command-echo.ts:184-192 | asking about a kick forgets it when it is older than the memory, and touches nothing else |
| `OutboundGuarantees.PromotionsAreNeverConfirmed` | apps/bridge-bot/src/command-echo.ts:161 | a typed promotion or demotion is never confirmed, only refused or aged out |
| `OutboundGuarantees.KickConfirmedByItsNotice` | apps/bridge-bot/src/command-echo.ts:123-175 | whatever else is watched, the printed notice of a typed kick confirms the oldest live command for that name; with no other command for it, that is the kick typed, exactly inside the window |
| `OutboundGuarantees.MuteConfirmedByItsNotice` | apps/bridge-bot/src/command-echo.ts:123-175 | the same for a mute |
| `OutboundGuarantees.UnmuteConfirmedByItsNotice` | apps/bridge-bot/src/command-echo.ts:123-175 | the same for an unmute |
| `OutboundAnswers.ChatAnswers` | apps/bridge-bot/src/transport.ts:1430-1434 | a chat line adds one answer if it settles a command: CONFIRMED_INGAME or REFUSED_INGAME, on its id and for its guild; else none |
| `OutboundAnswers.AnswersFollowTheTable` | apps/bridge-bot/src/command-echo.ts:147-175 | a line outside the refusal table never adds REFUSED_INGAME, a line inside it never CONFIRMED_INGAME |
| `OutboundAnswers.SettledIsUnwatched` | apps/bridge-bot/src/command-echo.ts:147-165 | the settled command is watched no longer, the other young ones are |
| `OutboundAnswers.KickAnsweredOnTheBus` | apps/bridge-bot/src/command-echo.ts:160-175 | from the typed kick to its printed notice: exactly one answer CONFIRMED_INGAME on its id inside the window, none after it |
| `OutboundAnswers.MuteAnsweredOnTheBus` | apps/bridge-bot/src/command-echo.ts:160-175 | the same for a mute |
| `OutboundAnswers.UnmuteAnsweredOnTheBus` | apps/bridge-bot/src/command-echo.ts:160-175 | the same for an unmute |
| `OutboundAnswers.KickConfirmedInGame` | apps/bridge-bot/src/transport.ts:1435-1469 | a run: a kick arrives, is typed, its notice is read, and the answers are TYPED and CONFIRMED_INGAME |
| `OutboundAnswers.TimerAnswers` | apps/bridge-bot/src/transport.ts:1444-1452 | a timer answers TYPED for each command typed and EXPIRED for each other that leaves, in that order, and nothing else |
| `OutboundAnswers.ArrivalAnswers` | apps/bridge-bot/src/composition.ts:1038-1062 | a message without a session is EXPIRED at once, any other waits for its guild |
| `OutboundAnswers.LookupAnswers` | apps/bridge-bot/src/transport.ts:1442-1468 | a lookup that ends says WRONG_GUILD, REFUSED_BACKLOG, or what leaves the queue at that moment, by whether the guild fits and the queue takes the command |
| `OutboundAnswers.TypedIsWatched` | apps/bridge-bot/src/command-echo.ts:123-128 | a moderation line typed for a message is watched from then on |
| `OutboundContents.QueuedAsAsked` | apps/bridge-bot/src/transport.ts:1367-1384 | the queue takes a command with the text, guild and id it was asked for, join answers first and for the join window |
| `OutboundContents.EveryCommandIsAMessage` | apps/bridge-bot/src/transport.ts:1435-1469 | over every run every command that leaves the queue for a message carries that message, and every answer and watch is about a message, on its id and for its guild |
| `OutboundContents.TypedIsTheMessage` | apps/bridge-bot/src/transport.ts:1443-1447 | with distinct ids what is typed under an id is the command of the message with that id |
| `OutboundRefusals.ChannelLineOnlyRefuses` | apps/bridge-bot/src/command-echo.ts:138-163 | a line of guild or officer chat settles a command exactly when the refusal table matches it and something is watched: the oldest live command, as refused |
| `OutboundRefusals.ChatRefusesAKick` | apps/bridge-bot/src/command-echo.ts:147-158 | a run in which any such line makes a typed kick REFUSED_INGAME |
| `OutboundRefusals.SteveSaysInvalidUsage` | apps/bridge-bot/src/command-echo.ts:51 | a member saying the words of a pattern is such a line |
| `OutboundRefusals.RefusedBySteve` | apps/bridge-bot/src/command-echo.ts:147-158 | on the bridge itself: a kick typed and then refused by what a guild member said |
| `OutboundLatency.JoinAnswersAnsweredInTime` | apps/bridge-bot/src/transport.ts:1373-1384 | with a live session and timers on time, a join answer from the bus accepted behind k urgent commands gets a new answer of its own within (k+1) spacings: TYPED, or EXPIRED when its own window is no longer than that |
| `OutboundLatency.JoinAnswersTypedWithinAMinute` | apps/bridge-bot/src/transport.ts:630-643 | with the shipped spacing and backlog and a join window over a minute: typed within the minute after it was accepted |
| `OutboundLatency.RunAnswered` | apps/bridge-bot/src/transport.ts:1444-1452 | over any stretch of a run every command that leaves the queue with hooks is answered within that stretch, at the moment it leaves |
| `OutboundMemory.Memory.HandleMessage` | apps/bridge-bot/src/composition.ts:1042-1046 | a message is remembered, the oldest row making room at the bound |
| `OutboundMemory.Memory.PublishAck` | apps/bridge-bot/src/composition.ts:856-869 | an answer finds the command, and any answer but TYPED forgets it |
| `OutboundMemory.MemoryBounded` | apps/bridge-bot/src/composition.ts:848 | never more than 200 rows, one an id |
| `OutboundMemory.RowRetained` | apps/bridge-bot/src/composition.ts:846-869 | a row outlives any run with too few newer messages that does not settle or repeat its id |
| `OutboundMemory.MessageRetained` | apps/bridge-bot/src/composition.ts:846-869 | from a fresh message on, its command is known until it is settled or 200 newer messages came in |
| `OutboundMemory.OldestDropped` | apps/bridge-bot/src/composition.ts:1042-1045 | the bound is tight: one message more drops the oldest row |
| `OutboundMemory.LatestKnown` | apps/bridge-bot/src/composition.ts:856-869 | a repeated id is known under its newest text, a settled one is known no longer |
| `OutboundMemory.KnownWasTold` | apps/bridge-bot/src/composition.ts:1042-1046 | what is known about an id is what a message with that id said |
| `TelemetryQueue.BoundedQueue.Push` | ctjs-module/sbr-dungeon-tracker/queue.js:24-31 | appends and drops the oldest beyond the limit, counting them |
| `TelemetryQueue.BoundedQueue.Take` | ctjs-module/sbr-dungeon-tracker/queue.js:33-40 | takes the first records in order |
| `TelemetryQueue.BoundedQueue.UnshiftAll` | ctjs-module/sbr-dungeon-tracker/queue.js:42-48 | puts records back in front |
| `TelemetryQueue.PushDropsOldest` | ctjs-module/sbr-dungeon-tracker/queue.js:24-31 | a push costs at most the one oldest record, and only on a full queue |
| `TelemetryQueue.TakeThenReturn` | ctjs-module/sbr-dungeon-tracker/queue.js:33-48 | taking a batch and returning it restores the queue exactly |
| `TelemetrySocket.Socket.Connect` | ctjs-module/sbr-dungeon-tracker/socket.js:126-150 | asks for a socket unless one is open or opening; a throw schedules a retry |
| `TelemetrySocket.Socket.SendRaw` | ctjs-module/sbr-dungeon-tracker/socket.js:189-206 | a frame is handed to the socket and its future kept, or the socket is given up |
| `TelemetrySocket.Socket.Pump` | ctjs-module/sbr-dungeon-tracker/socket.js:208-270 | one tick of the pipe in each phase |
| `TelemetrySocket.Socket.Transmit` | ctjs-module/sbr-dungeon-tracker/socket.js:232-264 | with nothing in flight: the handshake first, then one batch |
| `TelemetrySocket.Socket.Start` | ctjs-module/sbr-dungeon-tracker/socket.js:283-289 | starting resets the backoff and pumps at once |
| `TelemetrySocket.Socket.HandleOpen` | ctjs-module/sbr-dungeon-tracker/socket.js:79-87 | the listener's open callback |
| `TelemetrySocket.Socket.HandleClosed` | ctjs-module/sbr-dungeon-tracker/socket.js:103-122 | the listener's error and close callbacks, which schedule nothing |
| `TelemetryRuns.HandshakeFirstAndOneInFlight` | ctjs-module/sbr-dungeon-tracker/socket.js:208-264 | for any interleaving of callbacks: the first frame on every socket is the handshake and no other is, and no socket has two sends in flight |
| `TelemetryRuns.StreamConserved` | ctjs-module/sbr-dungeon-tracker/socket.js:253-281 | accepted frames followed by the queue are an order-preserving part of what was offered; offered = sent + queued + dropped + cleared; batches hold 1 to 100 records |
| `TelemetryRuns.FailedBatchRestored` | ctjs-module/sbr-dungeon-tracker/socket.js:253-264 | a batch whose send fails goes back exactly and nothing is dropped |
| `TelemetryRuns.RetryDelay` | ctjs-module/sbr-dungeon-tracker/socket.js:152-155 | after j retries since the last start or handshake the next one waits min(2000*2^j, 60000) |
| `TelemetryProgress.PumpSends` | ctjs-module/sbr-dungeon-tracker/socket.js:253-270 | a tick of a free greeted pipe sends the oldest records, at most a hundred, in one frame, and keeps the others in order |
| `TelemetryProgress.PumpGreets` | ctjs-module/sbr-dungeon-tracker/socket.js:240-251 | a tick of a free ungreeted pipe sends the handshake alone and clears the backoff |
| `TelemetryProgress.PumpGivesUp` | ctjs-module/sbr-dungeon-tracker/socket.js:189-206 | a send that throws gives the socket up, schedules the next attempt and moves no record |
| `TelemetryProgress.PumpWaits` | ctjs-module/sbr-dungeon-tracker/socket.js:227-238 | while a send is in flight a tick does nothing |
| `TelemetryProgress.PumpTimesOut` | ctjs-module/sbr-dungeon-tracker/socket.js:211-219 | a connection is given up after fifteen seconds and not before |
| `TelemetryProgress.BacklogGetsOut` | ctjs-module/sbr-dungeon-tracker/socket.js:253-270 | n queued records are out, all of them and in order, after ceil(n/100) ticks that succeed and complete |
| `TelemetryProgress.BacklogGetsOutOnANewSocket` | ctjs-module/sbr-dungeon-tracker/socket.js:240-270 | on a new socket it takes one tick more |
| `TelemetryProgress.ConnectAsks` | ctjs-module/sbr-dungeon-tracker/socket.js:126-150 | asking for a socket: when that throws the pipe is closed and the next attempt scheduled |
| `TelemetryProgress.OpenedSocketIsGreeted` | ctjs-module/sbr-dungeon-tracker/socket.js:79-89 | a socket that opens is greeted at the next tick once the last send has completed |
| `TelemetryProgress.StopThenStart` | ctjs-module/sbr-dungeon-tracker/socket.js:283-294 | a stop gives up the socket and empties the queue; a later start asks for a socket at once |
| `TelemetryProgress.OfferQueues` | ctjs-module/sbr-dungeon-tracker/queue.js:24-31 | a captured record waits last; a full queue loses its oldest for it and counts it |
| `TelemetryProgress.LimitRead` | ctjs-module/sbr-dungeon-tracker/queue.js:18-19 | a limit that is no positive number means five hundred |
| `TelemetryBackoff.PumpAsksExactly` | ctjs-module/sbr-dungeon-tracker/socket.js:208-224 | a tick asks for a socket exactly when the pipe is closed, has an address and the next attempt is due |
| `TelemetryBackoff.AskAfterClose` | ctjs-module/sbr-dungeon-tracker/socket.js:103-122 | after a close or an error the next ask waits for the attempt that was due before, and for nothing else |
| `TelemetryBackoff.AsksWaitForTheLastRetry` | ctjs-module/sbr-dungeon-tracker/socket.js:152-155 | in every reachable state an ask waits exactly for the last retry scheduled since the last start |
| `TelemetryBackoff.RetryHoldsItsDelay` | ctjs-module/sbr-dungeon-tracker/socket.js:152-155 | after a scheduled retry no socket is asked for until its delay is over, unless the pipe is started or connected by hand or a handshake goes out |
| `TelemetryBackoff.ReconnectWithoutBackoff` | ctjs-module/sbr-dungeon-tracker/socket.js:113-122 | started, opened, greeted and closed at one instant, the pipe asks again at that instant |
| `TelemetryBackoff.HandshakeShortensTheWait` | ctjs-module/sbr-dungeon-tracker/socket.js:208-270 | a late handshake does shorten a wait already scheduled |
| `Capture.Capture.Start` | ctjs-module/sbr-dungeon-tracker/capture.js:71-89 | a new session: the buffer is written, the counters restart, the session opens with its own record |
| `Capture.Capture.Log` | ctjs-module/sbr-dungeon-tracker/capture.js:115-146 | a record is numbered, counted, buffered and handed on, or counted as dropped at the cap |
| `Capture.Capture.Flush` | ctjs-module/sbr-dungeon-tracker/capture.js:150-161 | the buffer is appended as one write |
| `Capture.Capture.Stop` | ctjs-module/sbr-dungeon-tracker/capture.js:91-98 | the session closes with its own record and everything is written |
| `Capture.SumBump` | ctjs-module/sbr-dungeon-tracker/capture.js:126-128 | counting an event raises the sum of the counters by one |
| `Capture.EveryRecordWrittenOnce` | ctjs-module/sbr-dungeon-tracker/capture.js:115-161 | every record is appended once and in order or still buffered, fewer than 200 wait, the event counters add up to the number |
| `Capture.NumberedIsOrdered` | ctjs-module/sbr-dungeon-tracker/capture.js:120-124 | numbers increase within a session and sessions follow each other |
| `Capture.FramesInCaptureOrder` | ctjs-module/sbr-dungeon-tracker/capture.js:115-146 | whatever was lost on the way, the records in the accepted frames carry strictly increasing numbers |
| `CaptureHistory.DeliveredIsCaptured` | ctjs-module/sbr-dungeon-tracker/capture.js:71-161 | over every run the records are exactly the captured ones, with event, session and number; the refused ones are counted |
| `CaptureHistory.CountersAreRight` | ctjs-module/sbr-dungeon-tracker/capture.js:71-161 | each event's counter is the number of its records in the current session |
| `CaptureHistory.RecordsWaitForTheBatch` | ctjs-module/sbr-dungeon-tracker/capture.js:71-161 | records are written two hundred at a time in one append, and not before |
| `CaptureHistory.FlushWrites` | ctjs-module/sbr-dungeon-tracker/capture.js:71-161 | a flush writes everything that waits as one append |
| `SweepTrace.CrashIsCareful` | apps/bridge-bot/src/milestones.ts:88-96 | cutting a pass off at any call leaves nothing cleared that was not earned |
| `SweepTrace.MarkedEarned` | apps/bridge-bot/src/milestones.ts:88-96 | a cleared row had a post that landed or was waived |
| `SweepTrace.NothingLost` | apps/bridge-bot/src/milestones.ts:64-109 | over any number of passes each cut off anywhere, a row leaves the pending set only after a post that landed or a waiver |
| `Announcers.ListPending` | apps/bridge-bot/src/milestones.ts:65 | the query never returns more than it was asked for |
| `Announcers.AnnounceOnce` | apps/bridge-bot/src/levels.ts:47-107 | one pass: the count, the cleared rows and the calls are those of at most four turns, each of which fetches the oldest waiting rows of the guilds not put aside, calls about each whose guild has a channel, clears what was settled, and ends the pass when it puts no guild aside; every call is about a row of a bound guild, a post when its owner listens and a waiver when not; rows are cleared only when earned and none is posted twice after landing; nobody is called about exactly when each of the four fetches returns only rows of unbound guilds; with at most three guilds without a channel and landing posts exactly the oldest min(limit, n) deliverable rows are called about once, in order, and cleared, and the count is that number less the opt-outs among them |
| `Announcers.TurnCallsOldest` | apps/bridge-bot/src/milestones.ts:64-99 | every fetch, not only the first, calls about the oldest deliverable rows as far as its batch reaches; what it did not settle stays deliverable, in its old place |
| `Announcers.OptOutsEndThePass` | apps/bridge-bot/src/levels.ts:91-98 | a whole batch of opt-outs is cleared, nothing is posted and the next row is not reached |
| `AnnouncersStarved.FourGuildsStarveThePass` | apps/bridge-bot/src/milestones.ts:41-100 | for every positive limit: four unbound guilds with a full batch of rows each at the head of the queue keep a deliverable row from being posted, so three is the most a pass is sure to get past |
| `Announcers.StarvedEnds` | apps/bridge-bot/src/milestones.ts:64-99 | a pass that ends without a call is one whose four fetches were all barren, also when it stopped early because a fetch excluded nobody new |
| `Announcers.AnnounceMilestonesOnce` | apps/bridge-bot/src/milestones.ts:53-110 | the same without opt-outs: with at most three unbound guilds and landing posts exactly min(limit, n) posts; nothing is posted exactly when all four fetches return only rows of unbound guilds; in every case the outcome is that of the turns |
| `Announcers.FetchRound` | apps/bridge-bot/src/milestones.ts:64-100 | one fetch: each row of a bound guild is called about once, in order, and what it clears and excludes |
| `Announcers.DeliverRound` | apps/bridge-bot/src/levels.ts:64-89 | the inner loop posts each row of a bound guild whose owner listens, waives the others, and excludes the guilds without a channel |
| `Announcers.ClearFront` | apps/bridge-bot/src/milestones.ts:93-96 | clearing the first k deliverable rows leaves the others in order |
| `Announcers.FetchedFront` | apps/bridge-bot/src/milestones.ts:65 | the deliverable rows of a fetch are the first deliverable rows of all |
| `Announcers.ExclusionHarmless` | apps/bridge-bot/src/milestones.ts:65 | excluding guilds without a channel does not change what is deliverable |
| `Announcers.NothingExcluded` | apps/bridge-bot/src/milestones.ts:98-99 | a round that excludes nobody new delivered all it fetched |
| `Reminders.SweepRemindersOnce` | apps/bridge-bot/src/reminders.ts:40-75 | every due reminder is posted exactly once, oldest first; one is cleared exactly when its post landed or it is more than a day overdue, given up only after a failed post; the count is the landed posts; when all land, all due ones are cleared and counted |
| `ReminderRuns.SweepLeavesSwept` | apps/bridge-bot/src/reminders.ts:40-75 | what is delivered after a pass is what was, and the rows of its batch whose post landed or that are more than a day overdue |
| `ReminderRuns.PassStandsStillExactly` | apps/bridge-bot/src/reminders.ts:51-73 | a pass clears nothing exactly when no post of its batch lands and no row of it is more than a day overdue |
| `ReminderRuns.FullBatchBlocks` | apps/bridge-bot/src/reminders.ts:16-31 | a full batch whose posts fail keeps every later reminder unposted for as long as none of its rows is more than a day overdue |
| `ReminderRuns.ReminderGetsThrough` | apps/bridge-bot/src/reminders.ts:24-31 | once the n undelivered rows ahead of a due reminder are all more than a day overdue it is posted in pass floor(n/limit), counted from zero, and in none before |
| `Reminders.DeliverAll` | apps/bridge-bot/src/reminders.ts:51-71 | the loop posts each due reminder once, in order, and settles those that landed or are a day overdue |
| `EventBoard.EventBoardGateway.Publish` | apps/bridge-bot/src/event-board.ts:229-281 | the calls of a publish, in order, as the step-by-step machine of the model makes them; no result when a write fails uncaught |
| `EventBoard.EventBoardGateway.EditOrPost` | apps/bridge-bot/src/event-board.ts:255-262 | the stored message is edited; without one, or when that fails, a board is adopted or posted |
| `EventBoard.EventBoardGateway.MirrorEvent` | apps/bridge-bot/src/event-board.ts:350-376 | the native event is updated, created and recorded, or left alone |
| `EventBoard.EventBoardGateway.AdoptOrPost` | apps/bridge-bot/src/event-board.ts:264-281 | a board that is found is adopted before a new message is posted |
| `EventBoard.EventBoardGateway.Adopt` | apps/bridge-bot/src/event-board.ts:265-270 | the board found is edited and recorded, or forgotten and replaced; a failed record rejects |
| `EventBoard.EventBoardGateway.PostFresh` | apps/bridge-bot/src/event-board.ts:272-281 | a new message is posted and recorded, or the record is cleared; only that clearing may fail silently |
| `EventBoard.OneBoardPerEvent` | apps/bridge-bot/src/event-board.ts:229-281 | with no board missed, an event never has two board messages, whatever crashes, write failures and deletions |
| `EventBoard.BoardsCounted` | apps/bridge-bot/src/event-board.ts:229-281 | over any run with crashes and deletions an event has one board message, and one more at most for each search that missed a board or edit of a found board that failed |
| `EventBoard.MissedSearchDuplicatesBoard` | apps/bridge-bot/src/event-board.ts:264 | a crash and then one failed search leave two boards |
| `EventBoardTwins.SearchAdds` | apps/bridge-bot/src/event-board.ts:264-279 | from the search on, one board is added exactly when the channel has none and the post lands, or it has one and the search fails and the post lands, or the search finds it, its edit fails, forgetting it is written down and the post lands |
| `EventBoardTwins.MessageAdds` | apps/bridge-bot/src/event-board.ts:255-279 | with a stored id the same one call later, unless the edit of the stored message lands |
| `EventBoardTwins.PublishAdds` | apps/bridge-bot/src/event-board.ts:229-281 | the whole publish left to itself: the messages afterwards are those before, and one new one exactly under that condition, whatever the channel lookup and the mirror take |
| `EventBoardTwins.TwinExactly` | apps/bridge-bot/src/event-board.ts:137-142 | in every reachable state with one board a publish left to itself leaves two if and only if that condition holds |
| `EventBoardTwins.FailedEditsDuplicateBoard` | apps/bridge-bot/src/event-board.ts:255-279 | a run in which the board is stored and there, both edits of it fail, and the publish leaves two |
| `EventBoard.OkNamesTheBoard` | apps/bridge-bot/src/event-board.ts:255-281 | an ok result names a message that shows the row the publish read, with buttons exactly when the event is not final, and the stored id names that message |
| `EventBoardResults.PublishAnswers` | apps/bridge-bot/src/event-board.ts:229-281 | NO_EVENT exactly for another guild's event, NO_CHANNEL exactly without a stored or bound channel, and then nothing is touched; else the publish works in the stored channel or else the bound one, its result names it, and other channels are left alone |
| `EventBoardResults.FailuresAreForgotten` | apps/bridge-bot/src/event-board.ts:266-278 | a failed post is written down as no message, and a found board that cannot be edited is forgotten before anything is posted |
| `EventBoardResults.NativeIsRecorded` | apps/bridge-bot/src/event-board.ts:360-376 | the native event that is made is the one recorded |
| `EventBoard.NativesAccountedFor` | apps/bridge-bot/src/event-board.ts:350-376 | native events = the recorded one + one being recorded + one per record lost |
| `EventBoard.CrashDuplicatesNative` | apps/bridge-bot/src/event-board.ts:370-374 | a crash between creating and recording the native event leaves two |
| `EventBoard.CallsRunOut` | apps/bridge-bot/src/event-board.ts:229-281 | left alone a publish ends |
| `FloodHash.SimpleHash` | apps/bridge-bot/src/adapters.ts:313-319 | the hash loop is the base-31 polynomial modulo 2^32, in base 36 |
| `FloodHash.PolynomialSnoc` | apps/bridge-bot/src/adapters.ts:315-317 | one more character multiplies by 31 and adds it |
| `FloodHash.Base36RoundTrip` | apps/bridge-bot/src/adapters.ts:318 | the base-36 form loses nothing |
| `FloodHash.SameKey` | apps/bridge-bot/src/adapters.ts:313-319 | two messages share a key exactly when their polynomials agree modulo 2^32 |
| `FloodControl.FloodControlImpl.AllowMessage` | apps/bridge-bot/src/adapters.ts:267-296 | duplicates, the flood window and the cooldown in that order, with the keys each call leaves behind |
| `FloodControl.FloodIsLimited` | apps/bridge-bot/src/adapters.ts:33-35 | over any run: at most 12 messages of an author in any ten seconds, equal messages at least eight seconds apart, messages that met a cooldown at least that far apart |
| `FloodHistory.VerdictIsHistory` | apps/bridge-bot/src/adapters.ts:267-296 | over any run each verdict follows from the history: duplicate exactly when a message of the guild with an equal polynomial of author, colon and text modulo 2^32 was counted in the last eight seconds, rate exactly when the ten-second window holds six already or a cooldown met before has not run out, else allowed |
| `FloodHistory.VerdictIsLocal` | apps/bridge-bot/src/adapters.ts:278-279 | a verdict depends only on earlier calls of the same author and on those of the guild whose author and text collide with it |
| `FloodHistory.SameTextTwice` | apps/bridge-bot/src/adapters.ts:278-279 | another author's message, even with the same text, changes nothing unless the two collide |
| `JoinWindow.JoinWindow.Record` | apps/admin-bot/src/raid-gate.ts:42-48 | keeps the joins inside the window and this one, and counts them |
| `JoinWindow.JoinWindow.Prune` | apps/admin-bot/src/raid-gate.ts:51-58 | one window is applied to every guild and empty lists go |
| `JoinWindow.StoredIsHistory` | apps/admin-bot/src/raid-gate.ts:42-58 | for any interleaving and any windows, what is stored is the full history minus what some cutoff passed |
| `JoinWindow.CountExactUnlessForgotten` | apps/admin-bot/src/raid-gate.ts:42-48 | the count equals the joins ever recorded inside the window exactly when none of them was forgotten under another window |
| `JoinWindow.SharedWindowCountsEverything` | apps/admin-bot/src/raid-gate.ts:42-58 | with one shared window the count is the full history's, whatever prunes interleave |
| `JoinWindow.ForeignWindowUndercounts` | apps/admin-bot/src/raid-gate.ts:149 | a prune with another guild's short window makes a guild undercount |
| `Autoresponder.Autoresponder.Respond` | apps/bridge-bot/src/autoresponder.ts:70-93 | blank and over-long messages and misses are ignored; a hit is answered unless its pair is still quiet, and silences it for a minute |
| `Autoresponder.Autoresponder.Sweep` | apps/bridge-bot/src/autoresponder.ts:88-90 | the sweep drops exactly the pairs that may fire again |
| `Autoresponder.SweepIsUnobservable` | apps/bridge-bot/src/autoresponder.ts:80-90 | the swept map agrees with a memory of every answer at every later moment |
| `Autoresponder.AnswersUnlessRecent` | apps/bridge-bot/src/autoresponder.ts:80-84 | a matching message is answered exactly when the same tag did not answer in that channel in the last minute |
| `Autoresponder.AnswersAreApart` | apps/bridge-bot/src/autoresponder.ts:22 | answers of one tag in one channel are a minute apart |
| `Autoresponder.LargeMapIsLive` | apps/bridge-bot/src/autoresponder.ts:86-90 | whenever more than a thousand pairs remain after an answer, all of them are still quiet |
| `Autoresponder.AnsweredPerChannelAndTag` | apps/bridge-bot/src/autoresponder.ts:70-93 | over any run, channel by channel and tag by tag, a hit is answered exactly when the same tag was not answered in the same channel in the last minute |
| `Autoresponder.SmallMapIsKept` | apps/bridge-bot/src/autoresponder.ts:84-90 | up to a thousand pairs nothing is swept |
| `Watchtower.ReadFleet` | apps/admin-bot/src/watchtower.ts:65-97 | a watched service is silent exactly when no parseable beat of it is recent; down and ok are decided by silent services and unwell components, and a probe that rejects counts as no unwell component |
| `Watchtower.Watchtower.WatchOnce` | apps/admin-bot/src/watchtower.ts:112-137 | one pass: the new state, and what was said |
| `Watchtower.StateIsHistory` | apps/admin-bot/src/watchtower.ts:99-104 | strikes is the length of the bad run in progress, last is the latest reading that was not the first of a bad run |
| `Watchtower.BelievedIsConfirmed` | apps/admin-bot/src/watchtower.ts:112-137 | announcements are exactly the changes of the confirmed status |
| `Watchtower.NeverRepeats` | apps/admin-bot/src/watchtower.ts:15-17 | neighbouring announcements differ and the first is an outage, so a recovery follows an unrecovered outage |
| `Watchtower.OutagesAreConfirmed` | apps/admin-bot/src/watchtower.ts:130-132 | every announced outage follows two consecutive bad readings |
| `Watchtower.GraceIsNotPerService` | apps/admin-bot/src/watchtower.ts:18-20 | the input: one service misses one check, another the next, and the second pass posts an outage |
| `Watchtower.OneMissEach` | apps/admin-bot/src/watchtower.ts:127-132 | the same over any two reports, each silent about one service |
| `Watchtower.GraceIsPerFleet` | apps/admin-bot/src/watchtower.ts:126-137 | an announced silence follows two misses of that service unless, exactly, the service answered the check before, something else was wrong at that check, and the status is not the one confirmed last |
| `Watchtower.FailedProbeIsUnseen` | apps/admin-bot/src/watchtower.ts:79-97 | when the health probe rejects the status is decided by the silent services alone |
| `Watchtower.ChannelRepeatsExactly` | apps/admin-bot/src/watchtower.ts:134-149 | the channel says the same twice running exactly when the posts lost between two that landed leave those two alike, and then at least one was lost |
| `Watchtower.NothingLostNothingRepeated` | apps/admin-bot/src/watchtower.ts:134-149 | with every post landing no two neighbours in the channel are alike |
| `Watchtower.LostRecoveryRepeats` | apps/admin-bot/src/watchtower.ts:139-149 | a recovery post that does not land lets the channel show the same outage twice |
| `RosterText.HeaderExactly` | apps/bridge-bot/src/roster.ts:34 | apart from dividers a line opens a section exactly when two dashes open and close it with something between |
| `RosterText.Names` | apps/bridge-bot/src/roster.ts:45 | every token it yields is a name of 1 to 16 word characters |
| `RosterLines.CleanPadded` | apps/bridge-bot/src/roster.ts:103 | padding is invisible and inner white space collapses |
| `RosterLines.HeaderRead` | apps/bridge-bot/src/roster.ts:34 | a printed header is read back as its rank, and is no divider |
| `RosterLines.HeaderOfDashes` | apps/bridge-bot/src/roster.ts:34 | two runs of dashes around one blank open a section too, named by the dash the second run can spare |
| `RosterRoundTrip.StepChat` | apps/bridge-bot/src/roster.ts:80-81 | a line of channel chat is skipped wherever it lands, whatever is said in it |
| `RosterRoundTrip.StepUntitled` | apps/bridge-bot/src/roster.ts:37-39 | a title without a value is skipped |
| `RosterLines.DecimalRoundTrip` | apps/bridge-bot/src/roster.ts:37-38 | a printed count is read back |
| `RosterMembersLine.ScanTokens` | apps/bridge-bot/src/roster.ts:80-87 | names, tags, dots and gaps in any layout scan to the names in order |
| `RosterMembersLine.MembersRead` | apps/bridge-bot/src/roster.ts:80-87 | a printed member line gives back its names |
| `Roster.ParseGuildOnline` | apps/bridge-bot/src/roster.ts:94-154 | the loop over the lines is the fold of the model |
| `Roster.StepExtends` | apps/bridge-bot/src/roster.ts:102-142 | one more line only extends the ranks |
| `Roster.PrefixIsHonest` | apps/bridge-bot/src/roster.ts:94-154 | reading any first lines of any block yields ranks and members that the whole block extends |
| `Roster.RanksArePeopled` | apps/bridge-bot/src/roster.ts:146-151 | the ranks read are exactly the sections with somebody under them |
| `RosterRoundTrip.StepPeople` | apps/bridge-bot/src/roster.ts:141 | inside a section a member line adds its names |
| `RosterRoundTrip.StepHeader` | apps/bridge-bot/src/roster.ts:131-137 | a printed header opens a section |
| `RosterRoundTrip.ReadsWhatWasPrinted` | apps/bridge-bot/src/roster.ts:94-154 | a printed roster is read back minus its empty ranks, whatever decorates it or is said in between, and pure decoration is read as nothing |
| `RosterRoundTrip.CollectorStopsInTime` | apps/bridge-bot/src/roster.ts:61-63 | no line before the online count ends the collection, that one does, and what was collected reads as the whole block |
| `RosterColors.PaintGoes` | apps/bridge-bot/src/roster.ts:103 | colour codes before any characters leave the text that was painted |
| `RosterColors.ColoursAreInvisible` | apps/bridge-bot/src/roster.ts:94-154 | painting the lines of a printed roster anywhere changes nothing of what is read, nor of where the collector stops |
| `RolePreflight.AssignableExactly` | apps/admin-bot/src/role-preflight.ts:83-93 | a role is assignable exactly when it exists, is ordinary and unmanaged, carries no authority and sits strictly below a bot that may manage roles |
| `RolePreflight.ReasonsInOrder` | apps/admin-bot/src/role-preflight.ts:83-93 | which of several obstacles is named: the first of permission, unknown role, everyone, managed, authority, position |
| `RolePreflight.RemovableExactly` | apps/admin-bot/src/internal-api.ts:706-710 | the looser screen for removals ignores the position of a role that carries authority |
| `RoleEffector.Ids` | apps/admin-bot/src/internal-api.ts:195-205 | reads the id list of a body |
| `RoleEffector.IdsSound` | apps/admin-bot/src/internal-api.ts:195-205 | the list is distinct, capped at 25 and holds nothing but trimmed non-blank strings of the body |
| `RoleEffector.IdsComplete` | apps/admin-bot/src/internal-api.ts:195-205 | below the cap every non-blank string of the body is on the list |
| `RoleEffector.IdsInOrder` | apps/admin-bot/src/internal-api.ts:195-205 | the ids come in the order of the body, so the cap keeps the first ones |
| `RoleEffector.Screen` | apps/admin-bot/src/internal-api.ts:702-717 | which ids go through in one direction and which are refused, with the reason |
| `RoleEffector.Member.ApplyRoles` | apps/admin-bot/src/internal-api.ts:666-742 | one call: the roles afterwards and the report, for every answer Discord can give; nothing is written when nothing is left to do |
| `RoleAccounting.SuccessIsAccounted` | apps/admin-bot/src/internal-api.ts:719-741 | on success held' = (held + added) - removed and every requested id is satisfied, applied or refused exactly once |
| `RoleAccounting.OnlyPermittedMoves` | apps/admin-bot/src/internal-api.ts:716-735 | whatever the writes do, only requested and permitted roles move, reports name only what happened, and a failed call reports nothing |
| `RoleAccounting.OutcomesExactly` | apps/admin-bot/src/internal-api.ts:666-742 | when a call succeeds and which error it names otherwise, exactly |
| `RoleAccounting.FailedAddEndsTheCall` | apps/admin-bot/src/internal-api.ts:719-728 | an add that fails ends the call: what landed stays and nothing is removed |
| `RoleAccounting.FailedRemoveTakesItsPart` | apps/admin-bot/src/internal-api.ts:719-728 | a removal that fails leaves what the add landed and takes only what it got done |
| `RoleAccounting.RemovalAboveTheBotIsAttempted` | apps/admin-bot/src/internal-api.ts:706-711 | a removal is attempted on a role above the bot when it carries authority |
| `RoleAccounting.RepeatIsIdleExactly` | apps/admin-bot/src/internal-api.ts:655-658 | after a success the same call writes nothing exactly when no grantable role was asked for in both directions |
| `RoleAccounting.ContestedFlips` | apps/admin-bot/src/internal-api.ts:716-717 | a grantable role asked for in both directions is flipped by every successful call |
| `RoleAccounting.NothingRefusedIsEverHeld` | apps/admin-bot/src/internal-api.ts:716-735 | over any run and any failures, a role held at the end was held at the start or granted by a call that let it through |
| `RoleAccounting.LedgerIsTruth` | apps/admin-bot/src/internal-api.ts:655-660 | as long as no write fails the ledger of reports is the member's roles |
| `Chart.FloorLog10` | apps/web-panel/client/chart.ts:39 | the exponent of the power of ten at or below a positive number |
| `Chart.NiceMaxHoldsThePeak` | apps/web-panel/client/chart.ts:37-45 | peak <= niceMax(peak) < 2*peak |
| `Chart.NiceMaxIsLeast` | apps/web-panel/client/chart.ts:36-45 | no smaller round number holds the peak |
| `Chart.NiceMaxIsNice` | apps/web-panel/client/chart.ts:40-43 | the axis top is a round number |
| `Chart.NiceMaxIsStable` | apps/web-panel/client/chart.ts:37-45 | an axis top is its own axis top |
| `Chart.AxisWithoutData` | apps/web-panel/client/chart.ts:37-45 | without a positive peak the axis goes to one, as it does for a peak of one |
| `Chart.TicksAreEven` | apps/web-panel/client/chart.ts:48-52 | labels run from the first bucket to the last with gaps that differ by at most one |
| `Chart.TicksIncrease` | apps/web-panel/client/chart.ts:48-52 | label indices are strictly increasing bucket indices |
| `Reconnect.Reconnect.ScheduleReconnect` | apps/bridge-bot/src/transport.ts:1759-1764 | one timer at a time, with the doubled delay |
| `Reconnect.Reconnect.OnTimer` | apps/bridge-bot/src/transport.ts:1766-1779 | the timer opens a connection, or schedules again when that throws |
| `Reconnect.BotOrTimer` | apps/bridge-bot/src/transport.ts:1752-1780 | until the process stops there is a bot or a pending reconnect, never both and never neither |
| `Reconnect.BackoffDoubles` | apps/bridge-bot/src/transport.ts:1742-1763 | after j reconnects since the last spawn the next waits min(5000*2^j, 300000); opening a connection does not reset it |
| `Reconnect.RunFollowsEvents` | apps/bridge-bot/src/transport.ts:1742-1783 | over every run timers, bots, waits and the record of them follow from the spawns, ends, timers and the stop alone |
| `Reconnect.OpeningsAreSpaced` | apps/bridge-bot/src/transport.ts:1759-1780 | connections open at least five seconds apart |
| `Reconnect.StopIsFinal` | apps/bridge-bot/src/transport.ts:2228-2229 | after a stop nothing is scheduled or opened |

## Left out

- CommandQueueLatency.UrgentLatency: assumes `deliver` answers the same throughout and every sleep ends on time; the safety theorems assume neither.
- CommandQueue.CommandQueue.Drain: `deliver` is one boolean per step and does not throw; a session that drops inside one step is the next step's boolean.
- CommandEcho.CommandEcho.Observe: whether a line matches the table of refusals is one boolean per line.
- ModNotice.KickNoticeRoundTrip: the promotion and demotion notices are not parsed; they come last and never reach the watcher or the record.
- ModNotice.MuteNoticeRoundTrip: a length beyond double precision is kept exactly.
- Outbound.Bridge.HandleChatLine: the presence, join and roster lines that the transport returns on before the watcher sees them are not steps; looking up the guild of a notice is part of the step.
- OutboundGuarantees.RefusalsAreTruthful: requires that lookups succeed; OutboundLookups.WrongGuildExactly says what happens when they do not.
- OutboundMemory.Memory.PublishAck: the wait for the relay log between finding and forgetting a row, and its failure, are not modelled.
- TelemetrySocket.Socket.Pump: at most one runtime call per tick may throw, and callbacks do not interleave inside a tick; incoming text is ignored.
- Capture.Capture.Start: file names, time stamps and payloads; a failed append keeps its lines in the ledger of writes, marked failed.
- Announcers.AnnounceOnce: channel and opt-out lookups answer alike throughout a pass, and `limit` ties are broken by the order of the rows.
- OutboundRefusals.SteveSaysInvalidUsage: one pattern of the table is spelled out; the others are the boolean of the line.
- OutboundLatency.JoinAnswersAnsweredInTime: assumes a live session and timers on time, as the bound on the queue does.
- FloodHistory.VerdictIsHistory: assumes a clock that does not go back.
- ReminderRuns.ReminderGetsThrough: the table of reminders is fixed over the passes; a cancelled reminder leaves it earlier, and one made later stands where its due time puts it.
- EventBoardTwins.PublishAdds: nothing happens to the messages while the publish runs.
- Reminders.SweepRemindersOnce: a due time that does not parse is not modelled (the source keeps retrying it).
- EventBoard.BoardsCounted: assumes publishes that do not overlap and one channel; a search that fails and one that looks past the board are the same miss.
- EventBoard.EventBoardGateway.Publish: the read of the row and of the channel do not reject; either would end the publish before anything is written.
- EventBoard.OkNamesTheBoard: the card shows the row; standings and unlinked members on it, and the end time of the native event, are not modelled.
- FloodControl.FloodIsLimited: the calls to Redis of one message are atomic, a key is alive until its expiry, and the cooldown setting is an input.
- Autoresponder.AnsweredPerChannelAndTag: channel ids hold no colon, as the ids of Discord do not.
- TelemetryProgress.BacklogGetsOut: sends succeed, each is completed before the next tick, and nothing is captured meanwhile.
- Autoresponder.Autoresponder.Respond: the tag cache and the patterns; the matched tag is an input.
- Watchtower.Watchtower.WatchOnce: the wording of the posts.
- Roster.ParseGuildOnline: the fetch time; counts beyond double precision are kept exactly.
- RoleEffector.Member.ApplyRoles: the cached roles are the member's roles; wording and logging; permission bits are named flags.
- Chart.TickIndices: one wanted label for more than one bucket divides by zero in the source and is excluded; no caller asks for it.
- Chart.NiceMaxHoldsThePeak: rounding of the floating-point logarithm and products.
- Reconnect.BotOrTimer: the first connection is assumed to start; a bot ends at most once.
- Discord, Mineflayer, Redis, Prisma and HTTP appear only as answers to the calls made to them.
- The schedulers around the sweeps, the watchtower and the queue are one step each.
- Relay formatting, welcome, tickets, stickies, triggers, playtime, the panel and configuration loading.
