/** Organization roles and the rules about who may do what to whom. */
module Roles {
  datatype Role = Owner | Admin | Member

  /** `update_membership`. */
  predicate MayUpdate(actorRole: Role, targetRole: Role, newRole: Role) {
    if actorRole == Admin then targetRole == Member && newRole == Member else actorRole == Owner
  }

  /** `remove_membership`. */
  predicate MayRemove(actorRole: Role, targetRole: Role) {
    !(actorRole == Admin && targetRole != Member) && (actorRole == Owner || actorRole == Admin)
  }

  /** `ensure_invitation_role`. */
  predicate MayInvite(actorRole: Role, role: Role) {
    actorRole == Owner || (actorRole == Admin && role == Member)
  }
}
