/** Where privileges come from: serial runs of the organization, membership and invitation
    requests. A refused request leaves the state as it was. */
module Provenance {
  import opened Roles

  type OrgId = nat
  type UserId = nat
  type InvitationId = nat

  datatype Invitation = Invitation(org: OrgId, invitee: UserId, role: Role, accepted: bool)

  datatype State = State(
    known: set<OrgId>, roles: map<(OrgId, UserId), Role>, invitations: map<InvitationId, Invitation>)

  datatype Request =
    | Create(org: OrgId, user: UserId)
    | Delete(org: OrgId, actor: UserId)
    | Update(org: OrgId, actor: UserId, target: UserId, newRole: Role)
    | Remove(org: OrgId, actor: UserId, target: UserId)
    | Invite(org: OrgId, actor: UserId, id: InvitationId, invitee: UserId, role: Role)
    | Accept(id: InvitationId, user: UserId, expired: bool)

  predicate HasRole(s: State, org: OrgId, user: UserId, role: Role) {
    (org, user) in s.roles && s.roles[(org, user)] == role
  }

  predicate IsOwner(s: State, org: OrgId, user: UserId) {
    HasRole(s, org, user, Owner)
  }

  predicate AnotherOwner(s: State, org: OrgId, user: UserId) {
    exists k | k in s.roles :: k.0 == org && k.1 != user && s.roles[k] == Owner
  }

  predicate Granted(s: State, r: Request) {
    match r
    case Create(org, _) => org !in s.known
    case Delete(org, actor) => IsOwner(s, org, actor)
    case Update(org, actor, target, newRole) =>
      && (org, actor) in s.roles && (org, target) in s.roles
      && (var actorRole, targetRole := s.roles[(org, actor)], s.roles[(org, target)];
          && MayUpdate(actorRole, targetRole, newRole)
          && (targetRole == Owner && newRole != Owner ==> AnotherOwner(s, org, target)))
    case Remove(org, actor, target) =>
      && (org, actor) in s.roles && (org, target) in s.roles
      && (var actorRole, targetRole := s.roles[(org, actor)], s.roles[(org, target)];
          && MayRemove(actorRole, targetRole)
          && (targetRole == Owner ==> AnotherOwner(s, org, target)))
    case Invite(org, actor, id, invitee, role) =>
      && (org, actor) in s.roles && MayInvite(s.roles[(org, actor)], role)
      && id !in s.invitations && (org, invitee) !in s.roles
    case Accept(id, user, expired) =>
      && id in s.invitations && !s.invitations[id].accepted && !expired
      && s.invitations[id].invitee == user && (s.invitations[id].org, user) !in s.roles
  }

  function Do(s: State, r: Request): State {
    if !Granted(s, r) then s
    else
      match r
      case Create(org, user) => s.(known := s.known + {org}, roles := s.roles[(org, user) := Owner])
      case Delete(org, _) =>
        s.(roles := map k | k in s.roles && k.0 != org :: s.roles[k],
           invitations := map i | i in s.invitations && s.invitations[i].org != org :: s.invitations[i])
      case Update(org, _, target, newRole) => s.(roles := s.roles[(org, target) := newRole])
      case Remove(org, _, target) => s.(roles := s.roles - {(org, target)})
      case Invite(org, _, id, invitee, role) =>
        s.(invitations := s.invitations[id := Invitation(org, invitee, role, false)])
      case Accept(id, user, _) =>
        var i := s.invitations[id];
        s.(roles := s.roles[(i.org, user) := i.role], invitations := s.invitations[id := i.(accepted := true)])
  }

  /** The actor is an owner, or an administrator where that is enough. */
  predicate Entitled(s: State, org: OrgId, actor: UserId, adminsToo: bool) {
    (org, actor) in s.roles && (s.roles[(org, actor)] == Owner || (adminsToo && s.roles[(org, actor)] == Admin))
  }

  predicate IsPlain(s: State, org: OrgId, user: UserId) {
    (org, user) in s.roles && s.roles[(org, user)] == Member
  }

  /** When requests go through and what they then do. Founding takes a new organization; deleting takes
      an owner; owners change, remove and invite anyone, administrators plain members only, and the
      last owner stays; an invitation is accepted once, in time, by its invitee if no member yet. */
  lemma RequestSucceedsIff(s: State, r: Request)
    ensures match r
      case Create(org, user) =>
        && (Granted(s, r) <==> org !in s.known)
        && (Granted(s, r) ==> Do(s, r).roles == s.roles[(org, user) := Owner])
      case Delete(org, actor) =>
        && (Granted(s, r) <==> Entitled(s, org, actor, false))
        && (Granted(s, r) ==>
              && (forall k :: k in Do(s, r).roles <==> k in s.roles && k.0 != org)
              && (forall k | k in Do(s, r).roles :: Do(s, r).roles[k] == s.roles[k])
              && (forall i :: i in Do(s, r).invitations <==> i in s.invitations && s.invitations[i].org != org)
              && (forall i | i in Do(s, r).invitations :: Do(s, r).invitations[i] == s.invitations[i]))
      case Update(org, actor, target, newRole) =>
        && (Granted(s, r) <==>
              && Entitled(s, org, actor, IsPlain(s, org, target) && newRole == Member) && (org, target) in s.roles
              && (s.roles[(org, target)] == Owner && newRole != Owner ==>
                    exists k | k in s.roles :: k.0 == org && k.1 != target && s.roles[k] == Owner))
        && (Granted(s, r) ==> Do(s, r).roles == s.roles[(org, target) := newRole])
      case Remove(org, actor, target) =>
        && (Granted(s, r) <==>
              && Entitled(s, org, actor, IsPlain(s, org, target)) && (org, target) in s.roles
              && (s.roles[(org, target)] == Owner ==>
                    exists k | k in s.roles :: k.0 == org && k.1 != target && s.roles[k] == Owner))
        && (Granted(s, r) ==> Do(s, r).roles == s.roles - {(org, target)})
      case Invite(org, actor, id, invitee, role) =>
        && (Granted(s, r) <==>
              Entitled(s, org, actor, role == Member) && id !in s.invitations && (org, invitee) !in s.roles)
        && (Granted(s, r) ==> Do(s, r) == s.(invitations := s.invitations[id := Invitation(org, invitee, role, false)]))
      case Accept(id, user, expired) =>
        && (Granted(s, r) <==>
              && id in s.invitations && !s.invitations[id].accepted && !expired && s.invitations[id].invitee == user
              && (s.invitations[id].org, user) !in s.roles)
        && (Granted(s, r) ==>
              && Do(s, r).roles == s.roles[(s.invitations[id].org, user) := s.invitations[id].role]
              && Do(s, r).invitations == s.invitations[id := s.invitations[id].(accepted := true)])
  {
  }

  /** The state before request `n` of a run from the empty state. */
  function At(run: seq<Request>, n: nat): State
    requires n <= |run|
  {
    if n == 0 then State({}, map[], map[]) else Do(At(run, n - 1), run[n - 1])
  }

  // ----- Provenance -----

  /** How a user came by a role: by founding the organization, by a grant, or by an invitation
      made at `k` and accepted at `j`. `via` is how the granter became an owner. */
  datatype Path =
    | Founded(k: nat)
    | Promoted(k: nat, granter: UserId, via: Path)
    | Joined(k: nat, granter: UserId, j: nat, via: Path)

  /** Request `k` was granted, and its actor was an owner at that moment, for the reason `via`. */
  ghost predicate ByOwner(run: seq<Request>, k: nat, org: OrgId, granter: UserId, via: Path)
    requires k < |run|
    decreases via, 1
  {
    Granted(At(run, k), run[k]) && IsOwner(At(run, k), org, granter) && Traces(run, k, org, granter, Owner, via)
  }

  /** The path accounts for the role with requests before `n`, back to the founder. */
  ghost predicate Traces(run: seq<Request>, n: nat, org: OrgId, user: UserId, role: Role, path: Path)
    requires n <= |run|
    decreases path, 0
  {
    match path
    case Founded(k) => k < n && run[k] == Create(org, user) && Granted(At(run, k), run[k]) && role == Owner
    case Promoted(k, granter, via) =>
      k < n && run[k] == Update(org, granter, user, role) && ByOwner(run, k, org, granter, via)
    case Joined(k, granter, j, via) =>
      && k < j < n && ByOwner(run, k, org, granter, via)
      && run[k].Invite? && run[k] == Invite(org, granter, run[k].id, user, role)
      && run[j].Accept? && run[j].id == run[k].id && run[j].user == user && Granted(At(run, j), run[j])
  }

  ghost predicate InviteTraces(run: seq<Request>, n: nat, id: InvitationId, i: Invitation, k: nat, granter: UserId,
      via: Path)
    requires n <= |run|
  {
    k < n && run[k] == Invite(i.org, granter, id, i.invitee, i.role) && ByOwner(run, k, i.org, granter, via)
  }

  /** Every invitation to a privileged role was made by someone who was an owner then. */
  lemma {:induction false} InvitationProvenance(run: seq<Request>, n: nat, id: InvitationId)
    returns (k: nat, granter: UserId, via: Path)
    requires n <= |run| && id in At(run, n).invitations && At(run, n).invitations[id].role != Member
    ensures InviteTraces(run, n, id, At(run, n).invitations[id], k, granter, via)
    decreases n, 0
  {
    var before, r := At(run, n - 1), run[n - 1];
    if r.Invite? && r.id == id && Granted(before, r) {
      k, granter := n - 1, r.actor;
      via := RoleProvenance(run, n - 1, r.org, r.actor);
    } else {
      k, granter, via := InvitationProvenance(run, n - 1, id);
    }
  }

  /** Role provenance: in every serial run, every OWNER or ADMIN role traces, through grants and
      accepted invitations each made by someone who was OWNER at that moment, back to the
      organization's creator. */
  lemma {:induction false} RoleProvenance(run: seq<Request>, n: nat, org: OrgId, user: UserId) returns (path: Path)
    requires n <= |run| && (org, user) in At(run, n).roles && At(run, n).roles[(org, user)] != Member
    ensures Traces(run, n, org, user, At(run, n).roles[(org, user)], path)
    decreases n, 1
  {
    var before, r := At(run, n - 1), run[n - 1];
    var role := At(run, n).roles[(org, user)];
    if HasRole(before, org, user, role) {
      path := RoleProvenance(run, n - 1, org, user);
    } else if r.Create? {
      path := Founded(n - 1);
    } else if r.Update? {
      var via := RoleProvenance(run, n - 1, org, r.actor);
      path := Promoted(n - 1, r.actor, via);
    } else {
      var k, granter, via := InvitationProvenance(run, n - 1, r.id);
      path := Joined(k, granter, n - 1, via);
    }
  }

  // ----- What the rules forbid -----

  /** Nobody promotes themselves: the role of a member who is not an owner changes only by an
      update whose actor is an owner, hence someone else. */
  lemma NobodyPromotesThemselves(run: seq<Request>, n: nat, org: OrgId, user: UserId)
    requires n < |run|
    requires (org, user) in At(run, n).roles && At(run, n).roles[(org, user)] != Owner
    requires (org, user) in At(run, n + 1).roles && At(run, n + 1).roles[(org, user)] != At(run, n).roles[(org, user)]
    ensures run[n].Update? && run[n].target == user && run[n].actor != user && IsOwner(At(run, n), org, run[n].actor)
  {
    RolesAreKnown(run, n);
  }

  /** An owner or administrator leaves only at the hand of an owner; so does an owner's role. */
  lemma PrivilegeIsLostOnlyToOwners(run: seq<Request>, n: nat, org: OrgId, user: UserId)
    requires n < |run|
    requires (org, user) in At(run, n).roles && At(run, n).roles[(org, user)] != Member
    requires (org, user) !in At(run, n + 1).roles || At(run, n + 1).roles[(org, user)] != At(run, n).roles[(org, user)]
    ensures (run[n].Delete? || run[n].Update? || run[n].Remove?) && IsOwner(At(run, n), org, run[n].actor)
  {
    RolesAreKnown(run, n);
  }

  lemma {:induction false} RolesAreKnown(run: seq<Request>, n: nat)
    requires n <= |run|
    ensures forall k | k in At(run, n).roles :: k.0 in At(run, n).known
    ensures forall i | i in At(run, n).invitations :: At(run, n).invitations[i].org in At(run, n).known
    decreases n
  {
    if n > 0 {
      RolesAreKnown(run, n - 1);
    }
  }
}
