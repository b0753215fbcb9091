/** The role hierarchy: a fixed ordered list of role names, compared by
    position after upper-casing (utils/roles.js). */
module Roles {
  import opened Strings

  /** `roles`: ascending privilege. */
  const RoleList: seq<string> := ["USER", "AUTHOR", "ADMIN", "SUPERADMIN"]

  /** `roles.indexOf(name)`, without case conversion (the model hooks use this). */
  function Rank(name: string): int
  {
    IndexOf(RoleList, name)
  }

  /** `roles.indexOf(role.toUpperCase())`, as both exported functions compute it. */
  function RoleIndex(role: string): int
  {
    Rank(ToUpper(role))
  }

  /** A name the role list knows once upper-cased. */
  predicate KnownRole(role: string)
  {
    ToUpper(role) in RoleList
  }

  /** The four names and their positions; everything else is -1. */
  lemma RankTable(name: string)
    ensures Rank("USER") == 0 && Rank("AUTHOR") == 1 && Rank("ADMIN") == 2 && Rank("SUPERADMIN") == 3
    ensures name !in RoleList <==> Rank(name) == -1
    ensures name in RoleList ==> 0 <= Rank(name) <= 3 && RoleList[Rank(name)] == name
  {
    assert RoleList[0] == "USER" && RoleList[1] == "AUTHOR";
    assert RoleList[2] == "ADMIN" && RoleList[3] == "SUPERADMIN";
    assert RoleList[..1] == ["USER"] && RoleList[..2] == ["USER", "AUTHOR"];
    assert RoleList[..3] == ["USER", "AUTHOR", "ADMIN"];
  }

  /** `hasPermission(currentRole, minimumRole)` */
  function HasPermission(currentRole: string, minimumRole: string): (r: bool)
    ensures r ==> KnownRole(currentRole) && KnownRole(minimumRole)
    ensures r <==> RoleIndex(currentRole) != -1 && RoleIndex(minimumRole) != -1
                   && RoleIndex(currentRole) >= RoleIndex(minimumRole)
  {
    var currentRoleIndex := RoleIndex(currentRole);
    var minimumRoleIndex := RoleIndex(minimumRole);
    currentRoleIndex != -1 && minimumRoleIndex != -1 && currentRoleIndex >= minimumRoleIndex
  }

  /** `canModifyTargetUserRole(modifierRole, targetUserRole, newRole)`, with
      the operator grouping of the source: the SUPERADMIN disjunct stands
      outside the "all known and modifier outranks target" conjunction. */
  function CanModifyTargetUserRole(modifierRole: string, targetUserRole: string, newRole: string): bool
  {
    var modifierRoleIndex := RoleIndex(modifierRole);
    var targetRoleIndex := RoleIndex(targetUserRole);
    var newRoleIndex := RoleIndex(newRole);
    ((modifierRoleIndex != -1 && targetRoleIndex != -1 && newRoleIndex != -1 &&
      modifierRoleIndex > targetRoleIndex) &&
     (modifierRoleIndex == Rank("ADMIN") && newRoleIndex <= Rank("AUTHOR"))) ||
    (modifierRoleIndex == Rank("SUPERADMIN") && newRoleIndex <= Rank("ADMIN"))
  }

  /** Upper-casing twice is upper-casing once, so a role's position does not
      depend on the case it is written in. */
  lemma RoleIndexCaseInsensitive(role: string)
    ensures RoleIndex(ToUpper(role)) == RoleIndex(role)
    ensures RoleIndex(ToLower(role)) == RoleIndex(role)
  {
    ToUpperIdempotent(role);
    ToUpperOfToLower(role);
  }

  /** Positions run from -1 (unknown) to 3, and -1 means unknown. */
  lemma RoleIndexRange(role: string)
    ensures -1 <= RoleIndex(role) <= 3
    ensures RoleIndex(role) == -1 <==> !KnownRole(role)
  {
  }

  /** Fail closed: an unknown name on either side never has permission. */
  lemma HasPermissionFailsClosed(currentRole: string, minimumRole: string)
    requires !KnownRole(currentRole) || !KnownRole(minimumRole)
    ensures !HasPermission(currentRole, minimumRole)
  {
  }

  /** Every known role reaches its own level. */
  lemma HasPermissionReflexive(role: string)
    requires KnownRole(role)
    ensures HasPermission(role, role)
  {
  }

  /** Case does not matter on either side: "admin" is "ADMIN". */
  lemma HasPermissionCaseInsensitive(currentRole: string, minimumRole: string)
    ensures HasPermission(ToLower(currentRole), minimumRole) == HasPermission(currentRole, minimumRole)
    ensures HasPermission(currentRole, ToLower(minimumRole)) == HasPermission(currentRole, minimumRole)
    ensures HasPermission(ToUpper(currentRole), ToUpper(minimumRole)) == HasPermission(currentRole, minimumRole)
  {
    RoleIndexCaseInsensitive(currentRole);
    RoleIndexCaseInsensitive(minimumRole);
  }

  /** A role at least as high as one that has permission has it too. */
  lemma HasPermissionMonotone(a: string, c: string, minimumRole: string)
    requires HasPermission(a, minimumRole)
    requires RoleIndex(c) >= RoleIndex(a)
    ensures HasPermission(c, minimumRole)
  {
  }

  /** Permission composes along the order. */
  lemma HasPermissionTransitive(a: string, b: string, c: string)
    requires HasPermission(a, b) && HasPermission(b, c)
    ensures HasPermission(a, c)
  {
  }

  /** An ADMIN may act only on USER or AUTHOR accounts, granting only USER
      or AUTHOR, and all three names must be known. */
  lemma AdminModifier(modifierRole: string, targetUserRole: string, newRole: string)
    requires RoleIndex(modifierRole) == 2
    ensures CanModifyTargetUserRole(modifierRole, targetUserRole, newRole) <==>
              (RoleIndex(targetUserRole) == 0 || RoleIndex(targetUserRole) == 1) &&
              (RoleIndex(newRole) == 0 || RoleIndex(newRole) == 1)
  {
    RankTable("");
    RoleIndexRange(targetUserRole);
    RoleIndexRange(newRole);
  }

  /** A SUPERADMIN may grant any position up to ADMIN's, whatever the target's
      role is and including an unknown new role (position -1). */
  lemma SuperadminModifier(modifierRole: string, targetUserRole: string, newRole: string)
    requires RoleIndex(modifierRole) == 3
    ensures CanModifyTargetUserRole(modifierRole, targetUserRole, newRole) <==> RoleIndex(newRole) <= 2
  {
    RankTable("");
  }

  /** USER and AUTHOR modifiers, and unknown ones, are always refused. */
  lemma LowModifierRefused(modifierRole: string, targetUserRole: string, newRole: string)
    requires RoleIndex(modifierRole) < 2
    ensures !CanModifyTargetUserRole(modifierRole, targetUserRole, newRole)
  {
    RankTable("");
  }

  /** No modifier can ever grant SUPERADMIN, and an ADMIN cannot grant ADMIN. */
  lemma NeverGrantsSuperadmin(modifierRole: string, targetUserRole: string, newRole: string)
    requires CanModifyTargetUserRole(modifierRole, targetUserRole, newRole)
    ensures RoleIndex(newRole) != 3
    ensures RoleIndex(modifierRole) == 2 ==> RoleIndex(newRole) <= 1
  {
    RankTable("");
  }

  /** The position of a name that is already upper case. */
  lemma UpperNameIndex(name: string)
    requires forall i :: 0 <= i < |name| ==> !('a' <= name[i] <= 'z')
    ensures RoleIndex(name) == Rank(name)
  {
    ToUpperOfUpper(name);
  }

  lemma UserIndex()
    ensures RoleIndex("USER") == 0
  {
    UpperNameIndex("USER");
    RankTable("");
  }

  lemma AuthorIndex()
    ensures RoleIndex("AUTHOR") == 1
  {
    UpperNameIndex("AUTHOR");
    RankTable("");
  }

  lemma AdminIndex()
    ensures RoleIndex("ADMIN") == 2
  {
    UpperNameIndex("ADMIN");
    RankTable("");
  }

  lemma SuperadminIndex()
    ensures RoleIndex("SUPERADMIN") == 3
  {
    UpperNameIndex("SUPERADMIN");
    RankTable("");
  }

  lemma EditorIndex()
    ensures RoleIndex("EDITOR") == -1
  {
    UpperNameIndex("EDITOR");
    RankTable("EDITOR");
  }

  /** A name on the list is its own upper-case form, so both ways of
      looking it up agree. */
  lemma ListedRoleIndex(name: string)
    requires name in RoleList
    ensures RoleIndex(name) == Rank(name)
    ensures 0 <= Rank(name) <= 3
  {
    RankTable(name);
    if name == "USER" { UserIndex(); }
    else if name == "AUTHOR" { AuthorIndex(); }
    else if name == "ADMIN" { AdminIndex(); }
    else { SuperadminIndex(); }
  }

  /** The positions of the four names as written in the source, and of a
      name that is not a role. */
  lemma NamedRoleIndices()
    ensures RoleIndex("USER") == 0 && RoleIndex("AUTHOR") == 1
    ensures RoleIndex("ADMIN") == 2 && RoleIndex("SUPERADMIN") == 3
    ensures RoleIndex("EDITOR") == -1
  {
    UserIndex();
    AuthorIndex();
    AdminIndex();
    SuperadminIndex();
    EditorIndex();
  }

  /** Because of the operator grouping, a SUPERADMIN passes the check against
      another SUPERADMIN account and with a new role that is not a role at
      all; an "all conditions at once" reading would refuse both. */
  lemma SuperadminBranchIgnoresTarget()
    ensures CanModifyTargetUserRole("SUPERADMIN", "SUPERADMIN", "USER")
    ensures CanModifyTargetUserRole("SUPERADMIN", "USER", "EDITOR")
    ensures !(RoleIndex("SUPERADMIN") > RoleIndex("SUPERADMIN"))
    ensures RoleIndex("EDITOR") == -1
  {
    NamedRoleIndices();
    RankTable("");
  }

  /** Four sample decisions of the role rule. */
  lemma SampleRoleDecisions()
    ensures !CanModifyTargetUserRole("ADMIN", "USER", "ADMIN")
    ensures CanModifyTargetUserRole("ADMIN", "USER", "AUTHOR")
    ensures !CanModifyTargetUserRole("SUPERADMIN", "ADMIN", "SUPERADMIN")
    ensures !CanModifyTargetUserRole("USER", "USER", "ADMIN")
  {
    NamedRoleIndices();
    RankTable("");
  }
}
