/** Whether the bot may hand out a role, decided from facts alone (apps/admin-bot/src/role-preflight.ts). */
module RolePreflight {
  import opened Prelude

  /** The eight permissions that make a role a grant of authority, and all the others. */
  datatype Permission =
    | Administrator | ManageServer | ManageRoles | ManageChannels
    | ManageWebhooks | BanMembers | KickMembers | TimeoutMembers
    | Ordinary(bit: nat)

  const DANGEROUS_PERMISSIONS: seq<Permission> :=
    [Administrator, ManageServer, ManageRoles, ManageChannels,
     ManageWebhooks, BanMembers, KickMembers, TimeoutMembers]

  datatype RoleFacts = RoleFacts(position: int, managed: bool, isEveryone: bool, permissions: set<Permission>)

  datatype BotFacts = BotFacts(highestPosition: int, canManageRoles: bool)

  datatype RoleRefusal =
    | BotLacksManageRoles | UnknownRole | Everyone | Managed | DangerousPermission | AboveBot

  function Carried(permissions: set<Permission>): Permission -> bool {
    (p: Permission) => p in permissions
  }

  function DangerousPermissionsOf(permissions: set<Permission>): seq<Permission> {
    Filter(DANGEROUS_PERMISSIONS, Carried(permissions))
  }

  function RefuseRole(role: Option<RoleFacts>, bot: BotFacts): Option<RoleRefusal> {
    if !bot.canManageRoles then Some(BotLacksManageRoles)
    else if role.None? then Some(UnknownRole)
    else if role.value.isEveryone then Some(Everyone)
    else if role.value.managed then Some(Managed)
    else if |DangerousPermissionsOf(role.value.permissions)| > 0 then Some(DangerousPermission)
    else if role.value.position >= bot.highestPosition then Some(AboveBot)
    else None
  }

  lemma DangerousExactly(permissions: set<Permission>)
    ensures DangerousPermissionsOf(permissions) == [] <==> forall p :: p in permissions ==> p.Ordinary?
  {
  }

  /** A role is assignable exactly when it is an ordinary role strictly below a bot that may manage roles, carrying
      nothing but ordinary permissions. */
  lemma AssignableExactly(role: Option<RoleFacts>, bot: BotFacts)
    ensures RefuseRole(role, bot).None? <==>
            && bot.canManageRoles && role.Some? && !role.value.isEveryone && !role.value.managed
            && role.value.position < bot.highestPosition
            && forall p :: p in role.value.permissions ==> p.Ordinary?
  {
    hide DangerousPermissionsOf;
    if role.Some? {
      DangerousExactly(role.value.permissions);
    }
  }

  /** Which of several obstacles is named: the first in this order. */
  lemma ReasonsInOrder(role: Option<RoleFacts>, bot: BotFacts)
    ensures var reason := RefuseRole(role, bot);
            && (reason == Some(BotLacksManageRoles) <==> !bot.canManageRoles)
            && (reason == Some(UnknownRole) <==> bot.canManageRoles && role.None?)
            && (bot.canManageRoles && role.Some? ==>
                  var f := role.value;
                  var authority := exists p :: p in f.permissions && !p.Ordinary?;
                  && (reason == Some(Everyone) <==> f.isEveryone)
                  && (reason == Some(Managed) <==> !f.isEveryone && f.managed)
                  && (reason == Some(DangerousPermission) <==> !f.isEveryone && !f.managed && authority)
                  && (reason == Some(AboveBot) <==>
                        !f.isEveryone && !f.managed && !authority && f.position >= bot.highestPosition))
  {
    hide DangerousPermissionsOf;
    if role.Some? {
      DangerousExactly(role.value.permissions);
    }
  }

  /** Removal is screened more loosely: authority may always be taken away. */
  predicate Removable(role: Option<RoleFacts>, bot: BotFacts) {
    RefuseRole(role, bot) in {None, Some(DangerousPermission)}
  }

  /** The loose screen for removals looks at the position only of roles that carry no authority: a role that does is
      let through wherever it sits. */
  lemma RemovableExactly(role: Option<RoleFacts>, bot: BotFacts)
    ensures Removable(role, bot) <==>
            && bot.canManageRoles && role.Some? && !role.value.isEveryone && !role.value.managed
            && (role.value.position < bot.highestPosition || exists p :: p in role.value.permissions && !p.Ordinary?)
  {
    AssignableExactly(role, bot);
    if role.Some? {
      AssignableExactly(Some(role.value.(position := bot.highestPosition - 1)), bot);
    }
  }
}
