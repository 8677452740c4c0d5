/**
 * Authorization predicates over a guild member: the ids of the member's
 * roles, the guild owner's id, the member's guild permission flags and the
 * position of the member's highest role.
 */
module Permissions {

  const MODERATOR_ROLE_ID: int := 1393754910088101958

  datatype Member = Member(
    id: int,
    roleIds: seq<int>,
    guildOwnerId: int,
    permissions: map<string, bool>,
    topRole: int)

  predicate IsGuildOwner(u: Member) {
    u.guildOwnerId == u.id
  }

  /** The value of a permission flag; a name that is not a flag reads as false. */
  predicate Flag(u: Member, name: string) {
    name in u.permissions && u.permissions[name]
  }

  /** Scans the roles in order and stops at the first one with the id. */
  function HasRoleWithId(roles: seq<int>, id: int): (found: bool)
    ensures found <==> id in roles
  {
    if roles == [] then false
    else if roles[0] == id then true
    else HasRoleWithId(roles[1..], id)
  }

  /** The member holds the moderator role, owns the guild, or is an administrator. */
  function HasModeratorRole(u: Member): (r: bool)
    ensures r <==> MODERATOR_ROLE_ID in u.roleIds || IsGuildOwner(u) || Flag(u, "administrator")
  {
    if HasRoleWithId(u.roleIds, MODERATOR_ROLE_ID) then true
    else if IsGuildOwner(u) then true
    else if Flag(u, "administrator") then true
    else false
  }

  /** Moderator status grants every permission; otherwise the named flag decides. */
  function HasPermission(u: Member, permission: string): (r: bool)
    ensures HasModeratorRole(u) ==> r
    ensures !HasModeratorRole(u) ==> (r <==> permission in u.permissions && u.permissions[permission])
  {
    if HasModeratorRole(u) then true else Flag(u, permission)
  }

  function IsModeratorOrHigher(u: Member): (r: bool)
    ensures r <==> MODERATOR_ROLE_ID in u.roleIds || IsGuildOwner(u) || Flag(u, "administrator")
  {
    HasModeratorRole(u)
  }

  /**
   * A moderator may act on a target ranked strictly below them (the guild
   * owner is exempt from that rule), and nobody may act on the guild owner.
   */
  function CanModerateMember(moderator: Member, target: Member): (r: bool)
    ensures r <==>
      && HasModeratorRole(moderator)
      && (target.topRole < moderator.topRole || IsGuildOwner(moderator))
      && !IsGuildOwner(target)
  {
    if !HasModeratorRole(moderator) then false
    else if target.topRole >= moderator.topRole && moderator.guildOwnerId != moderator.id then false
    else if target.guildOwnerId == target.id then false
    else true
  }

  lemma NonModeratorCannotModerate(moderator: Member, target: Member)
    requires !HasModeratorRole(moderator)
    ensures !CanModerateMember(moderator, target)
  {
  }

  lemma OutrankedModeratorCannotModerate(moderator: Member, target: Member)
    requires target.topRole >= moderator.topRole && !IsGuildOwner(moderator)
    ensures !CanModerateMember(moderator, target)
  {
  }

  /** Even the guild owner cannot act on the guild owner. */
  lemma OwnerCannotBeModerated(moderator: Member, target: Member)
    requires IsGuildOwner(target)
    ensures !CanModerateMember(moderator, target)
  {
  }

  /** The owner passes the rank rule whatever the ranks are. */
  lemma OwnerMayModerateAnyRank(owner: Member, target: Member)
    requires IsGuildOwner(owner) && !IsGuildOwner(target)
    ensures CanModerateMember(owner, target)
  {
  }
}
