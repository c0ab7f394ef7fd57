/** Invitations: creation under the locks of the organization and of the inviter's membership,
    acceptance under the invitation lock and the unique index on (user, organization), interleaved
    step by step with role changes and removals. As in `Owners`, the session loads the actor's row
    before it is locked and keeps showing the loaded role. Here a role change looks for another owner
    when it commits, without the locks of the scan in `Owners`, and a removal happens at any time its
    row is unlocked: more behaviours than the code has. Clock readings are given by the environment;
    nothing is assumed about their order. */
module Invitations {
  import opened Options
  import opened Roles

  type OrgId = nat
  type UserId = nat
  type InvitationId = nat
  type MemberId = nat
  type TxnId = nat

  datatype Invitation = Invitation(org: OrgId, email: string, role: Role, created: int, expires: int, accepted: bool)
  datatype Membership = Membership(org: OrgId, user: UserId, role: Role)

  /** `own` and `belief` are the actor's row and role as the session loaded them. */
  datatype Txn =
    | Creating(org: OrgId, email: string, role: Role, actor: UserId, own: MemberId, belief: Role, create: CreatePhase)
    | Changing(
        org: OrgId, target: MemberId, role: Role, actor: UserId, own: MemberId, belief: Role, change: ChangePhase)
    | Accepting(id: InvitationId, user: UserId, now: int, accept: AcceptPhase)

  datatype CreatePhase =
    | Waiting
    | OrgHeld
    | ActorHeld(inviter: MemberId, shown: Role)
    | Checked(inviter: MemberId, shown: Role, now: int)
  datatype ChangePhase =
    | Loaded
    | ChangerHeld(changer: MemberId, shown: Role)
    | TargetHeld(changer: MemberId, shown: Role, seen: Role)
  datatype AcceptPhase = Asked | Found(row: Invitation) | Inserted(row: Invitation)

  datatype Resource =
    | OrgLock(org: OrgId)
    | MemberLock(m: MemberId)
    | InvitationLock(id: InvitationId)
    | MemberKey(org: OrgId, user: UserId)

  /** `ids` are the membership ids ever used; new rows get new ids. `joined` is history: the
      invitations that memberships came from. */
  datatype Db = Db(
    orgs: set<OrgId>, emails: map<UserId, string>, lifetime: nat,
    invitations: map<InvitationId, Invitation>, ids: set<MemberId>, members: map<MemberId, Membership>,
    joined: multiset<InvitationId>)

  datatype State = State(db: Db, locks: map<Resource, TxnId>, txns: map<TxnId, Txn>)

  datatype Action =
    | CreateOrg(org: OrgId, m: MemberId, user: UserId)
    | RemoveMember(m: MemberId)
    | Begin(t: TxnId, txn: Txn)
    | LockOrg(t: TxnId)
    | LockActor(t: TxnId, m: MemberId)
    | LockTarget(t: TxnId)
    | Check(t: TxnId, now: int)
    | LockInvitation(t: TxnId)
    | Insert(t: TxnId)
    | CommitCreate(t: TxnId, id: InvitationId)
    | CommitChange(t: TxnId)
    | CommitAccept(t: TxnId, m: MemberId)
    | Abort(t: TxnId)

  predicate Active(i: Invitation, now: int) {
    !i.accepted && i.expires > now
  }

  predicate SameAddress(i: Invitation, org: OrgId, email: string) {
    i.org == org && i.email == email
  }

  predicate IsMember(members: map<MemberId, Membership>, org: OrgId, user: UserId) {
    exists m | m in members :: members[m].org == org && members[m].user == user
  }

  /** Nobody in the organization has the address. */
  predicate AddressIsFree(db: Db, org: OrgId, email: string) {
    forall m | m in db.members && db.members[m].org == org ::
      db.members[m].user in db.emails ==> db.emails[db.members[m].user] != email
  }

  predicate AnotherOwner(members: map<MemberId, Membership>, org: OrgId, target: MemberId) {
    exists m | m in members :: m != target && members[m].org == org && members[m].role == Owner
  }

  predicate IsTableStep(a: Action) {
    a.CreateOrg? || a.RemoveMember?
  }

  /** The session has just loaded the actor's row, of an owner or administrator. */
  predicate JustLoaded(db: Db, txn: Txn)
    requires !txn.Accepting?
  {
    && txn.own in db.members && db.members[txn.own] == Membership(txn.org, txn.actor, txn.belief)
    && txn.belief != Member
  }

  predicate Fresh(db: Db, txn: Txn) {
    match txn
    case Creating(_, _, _, _, _, _, create) => create.Waiting? && JustLoaded(db, txn)
    case Changing(_, _, _, _, _, _, change) => change.Loaded? && JustLoaded(db, txn)
    case Accepting(_, _, _, accept) => accept.Asked?
  }

  /** The row a transaction has locked for its actor, and the role the session shows for it. */
  datatype Sight = Sight(row: MemberId, role: Role)

  function ActsAs(txn: Txn): Option<Sight> {
    match txn
    case Creating(_, _, _, _, _, _, ActorHeld(m, shown)) => Some(Sight(m, shown))
    case Creating(_, _, _, _, _, _, Checked(m, shown, _)) => Some(Sight(m, shown))
    case Changing(_, _, _, _, _, _, ChangerHeld(m, shown)) => Some(Sight(m, shown))
    case Changing(_, _, _, _, _, _, TargetHeld(m, shown, _)) => Some(Sight(m, shown))
    case _ => None
  }

  /** The role a locking read shows: the loaded object for the actor's own row, else the row. */
  function Seen(db: Db, txn: Txn, m: MemberId): Role
    requires !txn.Accepting? && m in db.members
  {
    if m == txn.own then txn.belief else db.members[m].role
  }

  predicate Enabled(s: State, a: Action) {
    match a
    case CreateOrg(org, m, _) => org !in s.db.orgs && m !in s.db.ids
    case RemoveMember(m) => m in s.db.members && MemberLock(m) !in s.locks
    case Begin(t, txn) => t !in s.txns && Fresh(s.db, txn)
    case LockOrg(t) =>
      && t in s.txns && s.txns[t].Creating? && s.txns[t].create.Waiting?
      && s.txns[t].org in s.db.orgs && OrgLock(s.txns[t].org) !in s.locks
    case LockActor(t, m) =>
      && t in s.txns && m in s.db.members && MemberLock(m) !in s.locks
      && (match s.txns[t]
          case Creating(org, _, _, actor, _, _, create) =>
            // This query asks for an owner or administrator, so it filters on the committed role.
            && create.OrgHeld? && s.db.members[m].org == org && s.db.members[m].user == actor
            && s.db.members[m].role != Member
          case Changing(org, _, _, actor, _, _, change) =>
            change.Loaded? && s.db.members[m].org == org && s.db.members[m].user == actor
          case Accepting(_, _, _, _) => false)
    case LockTarget(t) =>
      && t in s.txns && s.txns[t].Changing? && s.txns[t].change.ChangerHeld?
      && s.txns[t].target in s.db.members && s.db.members[s.txns[t].target].org == s.txns[t].org
      && (MemberLock(s.txns[t].target) in s.locks ==> s.locks[MemberLock(s.txns[t].target)] == t)
    case Check(t, now) =>
      && t in s.txns && s.txns[t].Creating? && s.txns[t].create.ActorHeld?
      && MayInvite(s.txns[t].create.shown, s.txns[t].role)
      && AddressIsFree(s.db, s.txns[t].org, s.txns[t].email)
      && CheckedOk(s.db.invitations, s.txns[t].org, s.txns[t].email, now)
    case LockInvitation(t) =>
      && t in s.txns && s.txns[t].Accepting? && s.txns[t].accept.Asked?
      && s.txns[t].id in s.db.invitations && InvitationLock(s.txns[t].id) !in s.locks
    case Insert(t) =>
      && t in s.txns && s.txns[t].Accepting? && s.txns[t].accept.Found?
      && (var i, user := s.txns[t].accept.row, s.txns[t].user;
          && Active(i, s.txns[t].now)
          && user in s.db.emails && s.db.emails[user] == i.email
          && !IsMember(s.db.members, i.org, user)
          // The unique index makes a second inserter of the same pair wait for the first.
          && MemberKey(i.org, user) !in s.locks)
    case CommitCreate(t, id) =>
      t in s.txns && s.txns[t].Creating? && s.txns[t].create.Checked? && id !in s.db.invitations
    case CommitChange(t) =>
      && t in s.txns && s.txns[t].Changing? && s.txns[t].change.TargetHeld?
      && MayUpdate(s.txns[t].change.shown, s.txns[t].change.seen, s.txns[t].role)
      && (s.txns[t].change.seen == Owner && s.txns[t].role != Owner ==>
            AnotherOwner(s.db.members, s.txns[t].org, s.txns[t].target))
    case CommitAccept(t, m) =>
      t in s.txns && s.txns[t].Accepting? && s.txns[t].accept.Inserted? && m !in s.db.ids
    case Abort(t) => t in s.txns
  }

  function Ended(s: State, t: TxnId, db: Db): State {
    State(db, map r | r in s.locks && s.locks[r] != t :: s.locks[r], s.txns - {t})
  }

  function Take(s: State, t: TxnId, txn: Txn, r: Resource): State {
    s.(locks := s.locks[r := t], txns := s.txns[t := txn])
  }

  /** The flushed change; the ORM writes nothing when the role it shows is already the new one. */
  function Changed(members: map<MemberId, Membership>, txn: Txn): map<MemberId, Membership>
    requires txn.Changing? && txn.change.TargetHeld?
  {
    if txn.target !in members || txn.change.seen == txn.role then members
    else members[txn.target := members[txn.target].(role := txn.role)]
  }

  function Do(s: State, a: Action): State
    requires Enabled(s, a)
  {
    match a
    case CreateOrg(org, m, user) =>
      s.(db := s.db.(orgs := s.db.orgs + {org}, ids := s.db.ids + {m},
                     members := s.db.members[m := Membership(org, user, Owner)]))
    case RemoveMember(m) => s.(db := s.db.(members := s.db.members - {m}))
    case Begin(t, txn) => s.(txns := s.txns[t := txn])
    case LockOrg(t) => Take(s, t, s.txns[t].(create := OrgHeld), OrgLock(s.txns[t].org))
    case LockActor(t, m) =>
      var shown := Seen(s.db, s.txns[t], m);
      var held := if s.txns[t].Creating? then s.txns[t].(create := ActorHeld(m, shown))
                  else s.txns[t].(change := ChangerHeld(m, shown));
      Take(s, t, held, MemberLock(m))
    case LockTarget(t) =>
      var p, target := s.txns[t].change, s.txns[t].target;
      var seen := Seen(s.db, s.txns[t], target);
      Take(s, t, s.txns[t].(change := TargetHeld(p.changer, p.shown, seen)), MemberLock(target))
    case Check(t, now) =>
      var p := s.txns[t].create;
      s.(txns := s.txns[t := s.txns[t].(create := Checked(p.inviter, p.shown, now))])
    case LockInvitation(t) =>
      Take(s, t, s.txns[t].(accept := Found(s.db.invitations[s.txns[t].id])), InvitationLock(s.txns[t].id))
    case Insert(t) =>
      var row := s.txns[t].accept.row;
      Take(s, t, s.txns[t].(accept := Inserted(row)), MemberKey(row.org, s.txns[t].user))
    case CommitCreate(t, id) =>
      var txn := s.txns[t];
      var now := txn.create.now;
      Ended(s, t, s.db.(invitations := s.db.invitations[id :=
        Invitation(txn.org, txn.email, txn.role, now, now + s.db.lifetime, false)]))
    case CommitChange(t) => Ended(s, t, s.db.(members := Changed(s.db.members, s.txns[t])))
    case CommitAccept(t, m) =>
      var id, row := s.txns[t].id, s.txns[t].accept.row;
      Ended(s, t, s.db.(
        invitations := s.db.invitations[id := row.(accepted := true)],
        ids := s.db.ids + {m},
        members := s.db.members[m := Membership(row.org, s.txns[t].user, row.role)],
        joined := s.db.joined + multiset{id}))
    case Abort(t) => Ended(s, t, s.db)
  }

  predicate Init(s: State) {
    && s.db.orgs == {} && s.db.invitations == map[] && s.db.ids == {} && s.db.members == map[]
    && s.db.joined == multiset{}
    && s.locks == map[] && s.txns == map[]
  }

  predicate ValidRun(s: State, run: seq<Action>)
    decreases |run|
  {
    run == [] || (Enabled(s, run[0]) && ValidRun(Do(s, run[0]), run[1..]))
  }

  function After(s: State, run: seq<Action>): State
    requires ValidRun(s, run)
    decreases |run|
  {
    if run == [] then s else After(Do(s, run[0]), run[1..])
  }

  // ----- Invariant -----

  /** Of two invitations to one address, one is accepted or had expired when the other was made. */
  predicate Exclusive(a: Invitation, b: Invitation) {
    SameAddress(a, b.org, b.email) ==>
      a.accepted || b.accepted || a.expires <= b.created || b.expires <= a.created
  }

  predicate InvitationsOk(all: map<InvitationId, Invitation>, joined: multiset<InvitationId>) {
    && (forall a, b | a in all && b in all && a != b :: Exclusive(all[a], all[b]))
    && (forall id | id in joined :: id in all)
    && (forall id | id in all :: joined[id] == if all[id].accepted then 1 else 0)
  }

  predicate MembersOk(members: map<MemberId, Membership>) {
    forall a, b | a in members && b in members && a != b ::
      members[a].org != members[b].org || members[a].user != members[b].user
  }

  predicate Holds(s: State, t: TxnId, r: Resource) {
    r in s.locks && s.locks[r] == t
  }

  predicate CheckedOk(all: map<InvitationId, Invitation>, org: OrgId, email: string, now: int) {
    forall i | i in all && SameAddress(all[i], org, email) :: !Active(all[i], now)
  }

  /** The loaded row, while it exists, still belongs to the actor; the locked one, too, and the role
      shown for it is the belief if it is the loaded row. */
  predicate ActorOk(s: State, t: TxnId, txn: Txn)
    requires !txn.Accepting?
  {
    && txn.own in s.db.ids && txn.belief != Member
    && (txn.own in s.db.members ==> s.db.members[txn.own].org == txn.org && s.db.members[txn.own].user == txn.actor)
    && (ActsAs(txn).Some? ==>
          var m := ActsAs(txn).value.row;
          && Holds(s, t, MemberLock(m)) && m in s.db.members
          && s.db.members[m].org == txn.org && s.db.members[m].user == txn.actor
          && ActsAs(txn).value.role == Seen(s.db, txn, m))
  }

  /** Rows belong to organizations that exist, and membership ids are not reused. */
  predicate RowsOk(db: Db) {
    && (forall m | m in db.members :: m in db.ids && db.members[m].org in db.orgs)
    && (forall i | i in db.invitations :: db.invitations[i].org in db.orgs)
  }

  predicate TxnOk(s: State, t: TxnId)
    requires t in s.txns
  {
    match s.txns[t]
    case Creating(org, email, role, actor, own, belief, create) =>
      && ActorOk(s, t, s.txns[t])
      && (!create.Waiting? ==> Holds(s, t, OrgLock(org)) && org in s.db.orgs)
      && (create.ActorHeld? || create.Checked? ==> s.db.members[create.inviter].role != Member)
      && (create.Checked? ==> MayInvite(create.shown, role) && CheckedOk(s.db.invitations, org, email, create.now))
    case Changing(org, target, _, _, _, _, change) =>
      && ActorOk(s, t, s.txns[t])
      && (change.TargetHeld? ==>
            && Holds(s, t, MemberLock(target)) && target in s.db.members && s.db.members[target].org == org
            && change.seen == Seen(s.db, s.txns[t], target))
    case Accepting(id, _, _, Found(row)) =>
      Holds(s, t, InvitationLock(id)) && id in s.db.invitations && s.db.invitations[id] == row
    case Accepting(id, user, now, Inserted(row)) =>
      && Holds(s, t, InvitationLock(id)) && id in s.db.invitations && s.db.invitations[id] == row
      && Active(row, now) && user in s.db.emails && s.db.emails[user] == row.email
      && Holds(s, t, MemberKey(row.org, user)) && !IsMember(s.db.members, row.org, user)
    case _ => true
  }

  ghost predicate Inv(s: State) {
    && InvitationsOk(s.db.invitations, s.db.joined) && MembersOk(s.db.members) && RowsOk(s.db)
    && forall t | t in s.txns :: TxnOk(s, t)
  }

  lemma CreateTables(all: map<InvitationId, Invitation>, joined: multiset<InvitationId>, id: InvitationId,
      i: Invitation)
    requires InvitationsOk(all, joined) && id !in all && !i.accepted && CheckedOk(all, i.org, i.email, i.created)
    ensures InvitationsOk(all[id := i], joined)
  {
    assert id !in joined;
    forall a | a in all ensures Exclusive(all[a], i) && Exclusive(i, all[a]) {
    }
  }

  lemma AcceptTables(all: map<InvitationId, Invitation>, joined: multiset<InvitationId>, id: InvitationId)
    requires InvitationsOk(all, joined) && id in all && !all[id].accepted
    ensures InvitationsOk(all[id := all[id].(accepted := true)], joined + multiset{id})
  {
  }

  predicate IsCommit(a: Action) {
    a.CommitCreate? || a.CommitChange? || a.CommitAccept?
  }

  lemma CommitTables(s: State, a: Action)
    requires Inv(s) && Enabled(s, a) && IsCommit(a)
    ensures InvitationsOk(Do(s, a).db.invitations, Do(s, a).db.joined) && MembersOk(Do(s, a).db.members)
    ensures RowsOk(Do(s, a).db)
  {
    hide InvitationsOk;
    assert TxnOk(s, a.t);
    if a.CommitCreate? {
      CreateTables(s.db.invitations, s.db.joined, a.id, Do(s, a).db.invitations[a.id]);
    } else if a.CommitAccept? {
      AcceptTables(s.db.invitations, s.db.joined, s.txns[a.t].id);
    }
  }

  /** A commit of one transaction and the state another transaction relies on. */
  lemma OtherCommits(s: State, a: Action, u: TxnId)
    requires Enabled(s, a) && IsCommit(a) && u in s.txns && u != a.t
    requires RowsOk(s.db) && TxnOk(s, u) && TxnOk(s, a.t)
    ensures u in Do(s, a).txns && TxnOk(Do(s, a), u)
  {
    var s' := Do(s, a);
    assert s'.txns[u] == s.txns[u];
    assert forall r | Holds(s, u, r) :: Holds(s', u, r);
  }

  lemma OtherSteps(s: State, a: Action, u: TxnId)
    requires Enabled(s, a) && !IsCommit(a) && u in s.txns && (IsTableStep(a) || u != a.t)
    requires RowsOk(s.db) && TxnOk(s, u)
    ensures u in Do(s, a).txns && TxnOk(Do(s, a), u)
  {
    var s' := Do(s, a);
    assert s'.txns[u] == s.txns[u];
    assert forall r | Holds(s, u, r) :: Holds(s', u, r);
  }

  lemma OwnTxn(s: State, a: Action)
    requires Inv(s) && Enabled(s, a) && !IsTableStep(a) && a.t in Do(s, a).txns
    ensures TxnOk(Do(s, a), a.t)
  {
    hide InvitationsOk, MembersOk, Exclusive;
    assert a.t in s.txns ==> TxnOk(s, a.t);
  }

  lemma StepKeeps(s: State, a: Action)
    requires Inv(s) && Enabled(s, a)
    ensures Inv(Do(s, a))
  {
    hide TxnOk, InvitationsOk;
    var s' := Do(s, a);
    if IsCommit(a) {
      CommitTables(s, a);
    }
    forall u | u in s'.txns ensures TxnOk(s', u) {
      if IsTableStep(a) || u != a.t {
        assert TxnOk(s, u);
        if IsCommit(a) {
          assert TxnOk(s, a.t);
          OtherCommits(s, a, u);
        } else {
          OtherSteps(s, a, u);
        }
      } else {
        OwnTxn(s, a);
      }
    }
  }

  lemma {:induction false} RunKeeps(s: State, run: seq<Action>)
    requires Inv(s) && ValidRun(s, run)
    ensures Inv(After(s, run))
    decreases |run|
  {
    hide Inv, Enabled;
    if run != [] {
      StepKeeps(s, run[0]);
      RunKeeps(Do(s, run[0]), run[1..]);
    }
  }

  lemma InitEstablishes(s: State)
    requires Init(s)
    ensures Inv(s)
  {
  }

  // ----- Main results -----

  /** At any time from the latest creation onward, at most one unaccepted, unexpired invitation
      exists per organization and address, whatever the interleaving. */
  lemma OneActiveInvitation(s: State, run: seq<Action>, now: int, a: InvitationId, b: InvitationId)
    requires Init(s) && ValidRun(s, run)
    requires var all := After(s, run).db.invitations;
      && a in all && b in all && SameAddress(all[a], all[b].org, all[b].email)
      && (forall i | i in all && SameAddress(all[i], all[b].org, all[b].email) :: all[i].created <= now)
      && Active(all[a], now) && Active(all[b], now)
    ensures a == b
  {
    hide IsMember, MembersOk;
    InitEstablishes(s);
    RunKeeps(s, run);
  }

  /** Each invitation has yielded one membership if it is accepted and none otherwise, and a user
      has at most one membership in an organization. */
  lemma OneMembershipPerInvitation(s: State, run: seq<Action>, id: InvitationId)
    requires Init(s) && ValidRun(s, run)
    ensures var db := After(s, run).db;
      && db.joined[id] == (if id in db.invitations && db.invitations[id].accepted then 1 else 0)
      && MembersOk(db.members)
  {
    hide IsMember, MembersOk;
    InitEstablishes(s);
    RunKeeps(s, run);
  }

  /** A membership is created by an invitation that was unaccepted, had not expired at the
      acceptor's clock reading, was addressed to that user, and named that role. */
  lemma MembershipMatchesInvitation(s: State, run: seq<Action>, a: Action)
    requires Init(s) && ValidRun(s, run) && Enabled(After(s, run), a)
    requires a.CommitAccept?
    ensures var s1 := After(s, run);
      var s2, id, user := Do(s1, a), s1.txns[a.t].id, s1.txns[a.t].user;
      && id in s1.db.invitations && Active(s1.db.invitations[id], s1.txns[a.t].now)
      && user in s1.db.emails && s1.db.emails[user] == s1.db.invitations[id].email
      && s2.db.members == s1.db.members[a.m := Membership(s1.db.invitations[id].org, user, s1.db.invitations[id].role)]
      && s2.db.invitations == s1.db.invitations[id := s1.db.invitations[id].(accepted := true)]
  {
    hide IsMember, MembersOk, InvitationsOk;
    InitEstablishes(s);
    RunKeeps(s, run);
    assert TxnOk(After(s, run), a.t);
  }

  /** Commit and rollback free all locks of the transaction and no other; rollback changes no row. */
  lemma EndFreesLocks(s: State, a: Action)
    requires Enabled(s, a) && (IsCommit(a) || a.Abort?)
    ensures Do(s, a).txns == s.txns - {a.t}
    ensures forall r :: r in Do(s, a).locks <==> r in s.locks && s.locks[r] != a.t
    ensures forall r | r in Do(s, a).locks :: Do(s, a).locks[r] == s.locks[r]
    ensures a.Abort? ==> Do(s, a).db == s.db
  {
    hide Changed, AnotherOwner, MayUpdate;
  }

  lemma {:induction false} RemovedStays(s: State, run: seq<Action>, m: MemberId)
    requires m in s.db.ids && m !in s.db.members && ValidRun(s, run)
    ensures m !in After(s, run).db.members
    decreases |run|
  {
    hide CheckedOk, AddressIsFree, AnotherOwner, IsMember, JustLoaded, Seen;
    if run != [] {
      RemovedStays(Do(s, run[0]), run[1..], m);
    }
  }

  /** A membership that is removed is gone for good, and no later request can act on it. */
  lemma RemovalIsFinal(s: State, m: MemberId, later: seq<Action>, t: TxnId)
    requires Inv(s) && Enabled(s, RemoveMember(m)) && ValidRun(Do(s, RemoveMember(m)), later)
    ensures Do(s, RemoveMember(m)).db.members == s.db.members - {m}
    ensures m !in After(Do(s, RemoveMember(m)), later).db.members
    ensures !Enabled(After(Do(s, RemoveMember(m)), later), LockActor(t, m))
  {
    hide InvitationsOk, MembersOk, TxnOk;
    RemovedStays(Do(s, RemoveMember(m)), later, m);
  }

  // ----- Undisturbed requests -----

  lemma RunCons(s: State, a: Action, rest: seq<Action>)
    ensures ValidRun(s, [a] + rest) <==> Enabled(s, a) && ValidRun(Do(s, a), rest)
    ensures ValidRun(s, [a] + rest) ==> After(s, [a] + rest) == After(Do(s, a), rest)
  {
    hide Enabled, Do;
    assert ([a] + rest)[1..] == rest;
  }

  lemma EmptyRun(s: State)
    ensures ValidRun(s, []) && After(s, []) == s
  {
  }

  function CreationRun(t: TxnId, txn: Txn, now: int, id: InvitationId): seq<Action>
    requires txn.Creating?
  {
    [Begin(t, txn)] + ([LockOrg(t)] + ([LockActor(t, txn.own)] + ([Check(t, now)] + ([CommitCreate(t, id)] + []))))
  }

  /** The inviter is an owner, or an administrator who invites a plain member; nobody in the
      organization has the address, and every invitation to it is accepted or has expired. */
  predicate MayCreate(db: Db, txn: Txn, now: int)
    requires txn.Creating?
  {
    && txn.own in db.members && db.members[txn.own] == Membership(txn.org, txn.actor, txn.belief)
    && txn.org in db.orgs && (txn.belief == Owner || (txn.belief == Admin && txn.role == Member))
    && (forall m | m in db.members && db.members[m].org == txn.org && db.members[m].user in db.emails ::
          db.emails[db.members[m].user] != txn.email)
    && (forall i | i in db.invitations && db.invitations[i].org == txn.org && db.invitations[i].email == txn.email ::
          db.invitations[i].accepted || db.invitations[i].expires <= now)
  }

  lemma MayCreateMeans(db: Db, txn: Txn, now: int)
    requires txn.Creating?
    ensures MayCreate(db, txn, now) <==>
      && txn.own in db.members && db.members[txn.own] == Membership(txn.org, txn.actor, txn.belief)
      && txn.org in db.orgs && MayInvite(txn.belief, txn.role)
      && AddressIsFree(db, txn.org, txn.email) && CheckedOk(db.invitations, txn.org, txn.email, now)
  {
  }

  function Created(db: Db, txn: Txn, now: int, id: InvitationId): Db
    requires txn.Creating?
  {
    var i := Invitation(txn.org, txn.email, txn.role, now, now + db.lifetime, false);
    db.(invitations := db.invitations[id := i])
  }

  /** The creating transaction at a phase, holding the organization and perhaps the inviter's row. */
  function CreatingAt(s: State, t: TxnId, txn: Txn, create: CreatePhase): State
    requires txn.Creating?
  {
    var locks := s.locks[OrgLock(txn.org) := t];
    s.(txns := s.txns[t := txn.(create := create)],
       locks := if create.OrgHeld? then locks else locks[MemberLock(txn.own) := t])
  }

  lemma CreationOpens(s: State, t: TxnId, txn: Txn)
    requires t !in s.txns && txn.Creating? && txn.create == Waiting && OrgLock(txn.org) !in s.locks
    requires Fresh(s.db, txn)
    ensures Enabled(s, Begin(t, txn)) && (Enabled(Do(s, Begin(t, txn)), LockOrg(t)) <==> txn.org in s.db.orgs)
    ensures txn.org in s.db.orgs ==> Do(Do(s, Begin(t, txn)), LockOrg(t)) == CreatingAt(s, t, txn, OrgHeld)
  {
  }

  lemma CreationLocks(s: State, t: TxnId, txn: Txn)
    requires txn.Creating? && Fresh(s.db, txn) && MemberLock(txn.own) !in s.locks
    ensures var held := CreatingAt(s, t, txn, OrgHeld);
      && Enabled(held, LockActor(t, txn.own))
      && Do(held, LockActor(t, txn.own)) == CreatingAt(s, t, txn, ActorHeld(txn.own, txn.belief))
  {
  }

  lemma CreationCommits(s: State, t: TxnId, txn: Txn, now: int, id: InvitationId)
    requires t !in s.txns && txn.Creating? && id !in s.db.invitations
    requires OrgLock(txn.org) !in s.locks && MemberLock(txn.own) !in s.locks
    ensures var held := CreatingAt(s, t, txn, ActorHeld(txn.own, txn.belief));
      && (Enabled(held, Check(t, now)) <==>
            && MayInvite(txn.belief, txn.role) && AddressIsFree(s.db, txn.org, txn.email)
            && CheckedOk(s.db.invitations, txn.org, txn.email, now))
      && (Enabled(held, Check(t, now)) ==>
            && Enabled(Do(held, Check(t, now)), CommitCreate(t, id))
            && Do(Do(held, Check(t, now)), CommitCreate(t, id)) == Ended(s, t, Created(s.db, txn, now, id)))
  {
    hide CheckedOk, AddressIsFree, AnotherOwner, IsMember, Active, MayInvite, MayUpdate, Seen, JustLoaded, Changed;
    var held := CreatingAt(s, t, txn, ActorHeld(txn.own, txn.belief));
    if Enabled(held, Check(t, now)) {
      assert Do(Do(held, Check(t, now)), CommitCreate(t, id)).txns == s.txns - {t};
    }
  }

  /** Undisturbed, an invitation is created if and only if the organization exists, the inviter's
      role allows the invited one, no member has the address, and no invitation to it is still
      active; it then lasts the configured time. */
  lemma CreationSucceedsIff(s: State, t: TxnId, txn: Txn, now: int, id: InvitationId)
    requires t !in s.txns && txn.Creating? && txn.create == Waiting && id !in s.db.invitations
    requires OrgLock(txn.org) !in s.locks && MemberLock(txn.own) !in s.locks
    ensures var run := CreationRun(t, txn, now, id);
      && (ValidRun(s, run) <==> MayCreate(s.db, txn, now))
      && (ValidRun(s, run) ==> After(s, run) == Ended(s, t, Created(s.db, txn, now, id)))
  {
    MayCreateMeans(s.db, txn, now);
    hide CheckedOk, AddressIsFree, MayCreate, ValidRun, After;
    var a, b, c, d, e := Begin(t, txn), LockOrg(t), LockActor(t, txn.own), Check(t, now), CommitCreate(t, id);
    RunCons(s, a, [b] + ([c] + ([d] + ([e] + []))));
    if Fresh(s.db, txn) {
      CreationOpens(s, t, txn);
      CreationLocks(s, t, txn);
      CreationCommits(s, t, txn, now, id);
      hide Enabled, Do, Ended, Created;
      var held := CreatingAt(s, t, txn, ActorHeld(txn.own, txn.belief));
      RunCons(Do(s, a), b, [c] + ([d] + ([e] + [])));
      RunCons(CreatingAt(s, t, txn, OrgHeld), c, [d] + ([e] + []));
      RunCons(held, d, [e] + []);
      if Enabled(held, d) {
        RunCons(Do(held, d), e, []);
        EmptyRun(Do(Do(held, d), e));
      }
    }
  }

  function ChangeRun(t: TxnId, txn: Txn): seq<Action>
    requires txn.Changing?
  {
    [Begin(t, txn)] + ([LockActor(t, txn.own)] + ([LockTarget(t)] + ([CommitChange(t)] + [])))
  }

  /** The target is a member of the same organization. An owner may give it any role, as long as an
      owner remains; an administrator may only keep a plain member one. */
  predicate MayChange(db: Db, txn: Txn)
    requires txn.Changing?
  {
    && txn.own in db.members && db.members[txn.own] == Membership(txn.org, txn.actor, txn.belief)
    && txn.target in db.members && db.members[txn.target].org == txn.org
    && (match txn.belief
        case Owner => true
        case Admin => db.members[txn.target].role == Member && txn.role == Member
        case Member => false)
    && (db.members[txn.target].role == Owner && txn.role != Owner ==>
          exists m | m in db.members ::
            m != txn.target && db.members[m].org == txn.org && db.members[m].role == Owner)
  }

  lemma MayChangeMeans(db: Db, txn: Txn)
    requires txn.Changing?
    ensures MayChange(db, txn) <==>
      && txn.own in db.members && db.members[txn.own] == Membership(txn.org, txn.actor, txn.belief)
      && txn.target in db.members && db.members[txn.target].org == txn.org
      && txn.belief != Member && MayUpdate(txn.belief, db.members[txn.target].role, txn.role)
      && (db.members[txn.target].role == Owner && txn.role != Owner ==> AnotherOwner(db.members, txn.org, txn.target))
  {
  }

  function WithRole(db: Db, m: MemberId, role: Role): Db
    requires m in db.members
  {
    db.(members := db.members[m := db.members[m].(role := role)])
  }

  /** The changing transaction with the changer's row locked, then with the target's locked too. */
  function ChangerAt(s: State, t: TxnId, txn: Txn): State
    requires txn.Changing?
  {
    Take(s, t, txn.(change := ChangerHeld(txn.own, txn.belief)), MemberLock(txn.own))
  }

  function TargetAt(s: State, t: TxnId, txn: Txn): State
    requires txn.Changing? && txn.target in s.db.members
  {
    Take(ChangerAt(s, t, txn), t, txn.(change := TargetHeld(txn.own, txn.belief, s.db.members[txn.target].role)),
      MemberLock(txn.target))
  }

  lemma ChangeLocks(s: State, t: TxnId, txn: Txn)
    requires t !in s.txns && txn.Changing? && Fresh(s.db, txn) && MemberLock(txn.own) !in s.locks
    ensures var a, b := Begin(t, txn), LockActor(t, txn.own);
      Enabled(s, a) && Enabled(Do(s, a), b) && Do(Do(s, a), b) == ChangerAt(s, t, txn)
  {
  }

  lemma ChangeTargets(s: State, t: TxnId, txn: Txn)
    requires txn.Changing? && Fresh(s.db, txn) && MemberLock(txn.target) !in s.locks
    ensures var held := ChangerAt(s, t, txn);
      && (Enabled(held, LockTarget(t)) <==> txn.target in s.db.members && s.db.members[txn.target].org == txn.org)
      && (Enabled(held, LockTarget(t)) ==> Do(held, LockTarget(t)) == TargetAt(s, t, txn))
  {
  }

  lemma ChangeCommits(s: State, t: TxnId, txn: Txn)
    requires txn.Changing? && txn.target in s.db.members && t !in s.txns
    requires MemberLock(txn.own) !in s.locks && MemberLock(txn.target) !in s.locks
    ensures var held, role := TargetAt(s, t, txn), s.db.members[txn.target].role;
      && (Enabled(held, CommitChange(t)) <==>
            && MayUpdate(txn.belief, role, txn.role)
            && (role == Owner && txn.role != Owner ==> AnotherOwner(s.db.members, txn.org, txn.target)))
      && (Enabled(held, CommitChange(t)) ==>
            Do(held, CommitChange(t)) == Ended(s, t, WithRole(s.db, txn.target, txn.role)))
  {
    hide MayUpdate, AnotherOwner;
    assert TargetAt(s, t, txn).txns - {t} == s.txns - {t};
  }

  /** Undisturbed, a role change commits if and only if both are members of the organization and
      the changer's role allows it and an owner remains; it then sets exactly that role. */
  lemma ChangeSucceedsIff(s: State, t: TxnId, txn: Txn)
    requires t !in s.txns && txn.Changing? && txn.change == Loaded
    requires MemberLock(txn.own) !in s.locks && MemberLock(txn.target) !in s.locks
    ensures var run := ChangeRun(t, txn);
      && (ValidRun(s, run) <==> MayChange(s.db, txn))
      && (ValidRun(s, run) ==> After(s, run) == Ended(s, t, WithRole(s.db, txn.target, txn.role)))
  {
    MayChangeMeans(s.db, txn);
    hide MayUpdate, AnotherOwner, MayChange, ValidRun, After;
    var a, b, c, d := Begin(t, txn), LockActor(t, txn.own), LockTarget(t), CommitChange(t);
    RunCons(s, a, [b] + ([c] + ([d] + [])));
    if Fresh(s.db, txn) {
      ChangeLocks(s, t, txn);
      ChangeTargets(s, t, txn);
      hide Enabled, Do, Ended, WithRole, ChangerAt, TargetAt;
      var held := ChangerAt(s, t, txn);
      RunCons(Do(s, a), b, [c] + ([d] + []));
      RunCons(held, c, [d] + []);
      if Enabled(held, c) {
        ChangeCommits(s, t, txn);
        RunCons(TargetAt(s, t, txn), d, []);
        if Enabled(TargetAt(s, t, txn), d) {
          EmptyRun(Do(TargetAt(s, t, txn), d));
        }
      }
    }
  }

  function AcceptanceRun(t: TxnId, id: InvitationId, user: UserId, now: int, m: MemberId): seq<Action> {
    [Begin(t, Accepting(id, user, now, Asked))] + ([LockInvitation(t)] + ([Insert(t)] + ([CommitAccept(t, m)] + [])))
  }

  /** The invitation is addressed to the user, unaccepted and unexpired; the user is no member. */
  predicate MayAccept(db: Db, id: InvitationId, user: UserId, now: int) {
    && id in db.invitations && !db.invitations[id].accepted && now < db.invitations[id].expires
    && user in db.emails && db.emails[user] == db.invitations[id].email
    && forall m | m in db.members && db.members[m].org == db.invitations[id].org :: db.members[m].user != user
  }

  lemma MayAcceptMeans(db: Db, id: InvitationId, user: UserId, now: int)
    ensures MayAccept(db, id, user, now) <==>
      && id in db.invitations && Active(db.invitations[id], now)
      && user in db.emails && db.emails[user] == db.invitations[id].email
      && !IsMember(db.members, db.invitations[id].org, user)
  {
  }

  function Joined(db: Db, id: InvitationId, user: UserId, m: MemberId): Db
    requires id in db.invitations
  {
    var row := db.invitations[id];
    db.(invitations := db.invitations[id := row.(accepted := true)],
        ids := db.ids + {m}, members := db.members[m := Membership(row.org, user, row.role)],
        joined := db.joined + multiset{id})
  }

  /** Undisturbed, an invitation is accepted if and only if it exists, is unaccepted and unexpired,
      is addressed to the user, and the user is no member yet. */
  lemma AcceptanceSucceedsIff(s: State, t: TxnId, id: InvitationId, user: UserId, now: int, m: MemberId)
    requires t !in s.txns && s.locks == map[] && m !in s.db.ids
    ensures var run := AcceptanceRun(t, id, user, now, m);
      && (ValidRun(s, run) <==> MayAccept(s.db, id, user, now))
      && (ValidRun(s, run) ==> After(s, run) == Ended(s, t, Joined(s.db, id, user, m)))
  {
    MayAcceptMeans(s.db, id, user, now);
    hide IsMember, MayAccept, ValidRun, After;
    var a, b, c, d := Begin(t, Accepting(id, user, now, Asked)), LockInvitation(t), Insert(t), CommitAccept(t, m);
    RunCons(s, a, [b] + ([c] + ([d] + [])));
    var s1 := Do(s, a);
    RunCons(s1, b, [c] + ([d] + []));
    if Enabled(s1, b) {
      var s2 := Do(s1, b);
      RunCons(s2, c, [d] + []);
      if Enabled(s2, c) {
        RunCons(Do(s2, c), d, []);
        EmptyRun(Do(Do(s2, c), d));
        assert Do(Do(s2, c), d).txns == s.txns - {t};
      }
    }
  }

  // ----- What a stale role lets through -----

  /** In every interleaving, a committing invitation exceeds what the inviter's committed role
      allows if and only if the session had loaded an OWNER, the row has become ADMIN, and the
      invited role is privileged. */
  lemma InvitationExceedsIff(s0: State, run: seq<Action>, t: TxnId, id: InvitationId)
    requires Init(s0) && ValidRun(s0, run) && Enabled(After(s0, run), CommitCreate(t, id))
    ensures var s, txn := After(s0, run), After(s0, run).txns[t];
      var m := txn.create.inviter;
      && m in s.db.members && s.db.members[m].org == txn.org && s.db.members[m].user == txn.actor
      && s.db.members[m].role != Member
      && (!MayInvite(s.db.members[m].role, txn.role) <==>
            txn.belief == Owner && s.db.members[m].role == Admin && txn.role != Member)
  {
    hide InvitationsOk, MembersOk, CheckedOk;
    InitEstablishes(s0);
    RunKeeps(s0, run);
    assert TxnOk(After(s0, run), t);
  }

  // ----- Such a run exists -----

  lemma {:induction false} RunConcat(s: State, run: seq<Action>, more: seq<Action>)
    requires ValidRun(s, run)
    ensures ValidRun(s, run + more) <==> ValidRun(After(s, run), more)
    ensures ValidRun(s, run + more) ==> After(s, run + more) == After(After(s, run), more)
    decreases |run|
  {
    hide Enabled, Do;
    if run == [] {
      assert run + more == more;
    } else {
      assert (run + more)[1..] == run[1..] + more;
      RunConcat(Do(s, run[0]), run[1..], more);
    }
  }

  const EMAILS: map<UserId, string> := map[1 := "second"]
  const Second: Txn := Creating(0, "second", Owner, 0, 0, Owner, Waiting)
  const Third: Txn := Creating(0, "third", Owner, 0, 0, Owner, Waiting)
  const Demotion: Txn := Changing(0, 0, Admin, 1, 1, Owner, Loaded)

  function Empty(): State {
    State(Db({}, EMAILS, 7, map[], {}, map[], multiset{}), map[], map[])
  }

  function Founded(): State {
    State(Db({0}, EMAILS, 7, map[], {0}, map[0 := Membership(0, 0, Owner)], multiset{}), map[], map[])
  }

  /** Two owners: the founder, and the user the founder has invited. */
  function TwoOwners(): State {
    State(Joined(Created(Founded().db, Second, 0, 0), 0, 1, 1), map[], map[])
  }

  /** The founder creates the organization and invites a second owner, who accepts. */
  function Growing(): seq<Action> {
    [CreateOrg(0, 0, 0)] + (CreationRun(1, Second, 0, 0) + AcceptanceRun(2, 0, 1, 0, 1))
  }

  /** The founder's session loads it as OWNER for another invitation; the second owner makes it
      ADMIN; then the invitation goes on. */
  function Exceeding(): seq<Action> {
    [Begin(3, Third)] + (ChangeRun(4, Demotion) + ([LockOrg(3)] + ([LockActor(3, 0)] + ([Check(3, 0)] + []))))
  }

  lemma InvitationOfSecond()
    ensures MayCreate(Founded().db, Second, 0)
    ensures var db := Created(Founded().db, Second, 0, 0);
      && Ended(Founded(), 1, db) == Founded().(db := db)
      && MayAccept(db, 0, 1, 0) && Ended(Founded().(db := db), 2, Joined(db, 0, 1, 1)) == TwoOwners()
  {
    assert (map r: Resource | r in Founded().locks && Founded().locks[r] != 1 :: Founded().locks[r]) == map[];
  }

  lemma GrowingSteps()
    ensures ValidRun(Empty(), Growing()) && After(Empty(), Growing()) == TwoOwners()
  {
    InvitationOfSecond();
    assert Enabled(Empty(), CreateOrg(0, 0, 0)) && Do(Empty(), CreateOrg(0, 0, 0)) == Founded();
    hide ValidRun, After, Enabled, Do, CreationRun, AcceptanceRun, MayCreate, MayAccept, Ended, Joined;
    var invited := Founded().(db := Created(Founded().db, Second, 0, 0));
    RunCons(Empty(), CreateOrg(0, 0, 0), CreationRun(1, Second, 0, 0) + AcceptanceRun(2, 0, 1, 0, 1));
    CreationSucceedsIff(Founded(), 1, Second, 0, 0);
    RunConcat(Founded(), CreationRun(1, Second, 0, 0), AcceptanceRun(2, 0, 1, 0, 1));
    AcceptanceSucceedsIff(invited, 2, 0, 1, 0, 1);
  }

  function Demoted(): Db {
    TwoOwners().db.(members := map[0 := Membership(0, 0, Admin), 1 := Membership(0, 1, Owner)])
  }

  function Inviting(db: Db, create: CreatePhase, locks: map<Resource, TxnId>): State {
    State(db, locks, map[3 := Third.(create := create)])
  }

  const HELD: map<Resource, TxnId> := map[OrgLock(0) := 3, MemberLock(0) := 3]

  lemma ExceedingLoads()
    ensures Enabled(TwoOwners(), Begin(3, Third))
    ensures Do(TwoOwners(), Begin(3, Third)) == Inviting(TwoOwners().db, Waiting, map[])
    ensures MayChange(TwoOwners().db, Demotion)
    ensures var s := Inviting(TwoOwners().db, Waiting, map[]);
      Ended(s, 4, WithRole(TwoOwners().db, 0, Admin)) == Inviting(Demoted(), Waiting, map[])
  {
    assert TwoOwners().db.members[1] == Membership(0, 1, Owner);
  }

  lemma ExceedingLocks()
    ensures var s, s' := Inviting(Demoted(), Waiting, map[]), Inviting(Demoted(), OrgHeld, map[OrgLock(0) := 3]);
      && Enabled(s, LockOrg(3)) && Do(s, LockOrg(3)) == s'
      && Enabled(s', LockActor(3, 0)) && Do(s', LockActor(3, 0)) == Inviting(Demoted(), ActorHeld(0, Owner), HELD)
  {
  }

  lemma ExceedingChecks()
    ensures var s := Inviting(Demoted(), ActorHeld(0, Owner), HELD);
      && Enabled(s, Check(3, 0)) && Do(s, Check(3, 0)) == Inviting(Demoted(), Checked(0, Owner, 0), HELD)
  {
    assert "second"[0] != "third"[0];
  }

  lemma ExceedingSteps()
    ensures ValidRun(TwoOwners(), Exceeding())
    ensures After(TwoOwners(), Exceeding()) == Inviting(Demoted(), Checked(0, Owner, 0), HELD)
  {
    var a, b, c, d, e := Begin(3, Third), ChangeRun(4, Demotion), LockOrg(3), LockActor(3, 0), Check(3, 0);
    var s1, s2 := Inviting(TwoOwners().db, Waiting, map[]), Inviting(Demoted(), Waiting, map[]);
    var s3 := Inviting(Demoted(), OrgHeld, map[OrgLock(0) := 3]);
    var s4, end := Inviting(Demoted(), ActorHeld(0, Owner), HELD), Inviting(Demoted(), Checked(0, Owner, 0), HELD);
    ExceedingLoads();
    ExceedingLocks();
    ExceedingChecks();
    ChangeSucceedsIff(s1, 4, Demotion);
    hide ValidRun, After, Enabled, Do, TwoOwners, Demoted, Inviting, ChangeRun, MayChange, Ended, WithRole;
    RunCons(s4, e, []);
    EmptyRun(end);
    RunCons(s3, d, [e] + []);
    RunCons(s2, c, [d] + ([e] + []));
    RunConcat(s1, b, [c] + ([d] + ([e] + [])));
    RunCons(TwoOwners(), a, b + ([c] + ([d] + ([e] + []))));
  }

  /** An administrator can commit the invitation of an owner: it loads itself as owner, the other
      owner makes it administrator, as an owner may, and its invitation then commits on the stale
      role. */
  lemma StaleInvitation()
    ensures var s, run := Empty(), Growing() + Exceeding();
      && Init(s) && ValidRun(s, run)
      && var s1 := After(s, run);
         && Enabled(s1, CommitCreate(3, 1)) && s1.txns[3].actor == 0
         && s1.db.members == map[0 := Membership(0, 0, Admin), 1 := Membership(0, 1, Owner)]
         && Do(s1, CommitCreate(3, 1)).db.invitations[1] == Invitation(0, "third", Owner, 0, 7, false)
         && !MayInvite(Admin, Owner) && MayUpdate(Owner, Owner, Admin)
  {
    GrowingSteps();
    ExceedingSteps();
    hide ValidRun, After, Growing, Exceeding;
    RunConcat(Empty(), Growing(), Exceeding());
  }
}
