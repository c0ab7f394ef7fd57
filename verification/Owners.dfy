/** Role changes and removals as transactions that interleave at row-lock granularity, under READ
    COMMITTED: a locking read waits, then sees the latest committed row; an unlocked one may be
    stale. The session loads the actor's row, unlocked, before the service runs, and its ORM keeps
    handing out that loaded object for that row, so the role it shows may be out of date. */
module Owners {
  import opened Roles

  type OrgId = nat
  type UserId = nat
  type MemberId = nat
  type TxnId = nat

  datatype Row = Row(org: OrgId, user: UserId, role: Role)

  datatype Request =
    | Update(org: OrgId, target: MemberId, actor: UserId, newRole: Role)
    | Remove(org: OrgId, target: MemberId, actor: UserId)

  /** `own` and `belief` are the actor's row and role as the session loaded them. */
  datatype Txn = Txn(request: Request, own: MemberId, belief: Role, phase: Phase)

  datatype Phase =
    | Loaded
    | ActorLocked(actor: MemberId, actorRole: Role)
    | TargetLocked(actor: MemberId, actorRole: Role, targetRole: Role)
    | Scanning(actor: MemberId, actorRole: Role, targetRole: Role, ahead: set<MemberId>, owners: set<MemberId>)
    | Cleared(actor: MemberId, actorRole: Role, targetRole: Role, other: MemberId)

  /** `ids` are the membership ids ever used; new rows get new ids. */
  datatype State = State(
    orgs: set<OrgId>, ids: set<MemberId>, members: map<MemberId, Row>,
    locks: map<MemberId, TxnId>, txns: map<TxnId, Txn>)

  datatype Action =
    | CreateOrg(org: OrgId, m: MemberId, user: UserId)
    | DeleteOrg(org: OrgId, m: MemberId)
    | AddMember(m: MemberId, row: Row)
    | Begin(t: TxnId, request: Request, own: MemberId)
    | LockActor(t: TxnId, m: MemberId)
    | LockTarget(t: TxnId)
    | StartScan(t: TxnId)
    | ScanRow(t: TxnId, m: MemberId)
    | FinishScan(t: TxnId, other: MemberId)
    | Commit(t: TxnId)
    | Abort(t: TxnId)

  // ----- The decisions of the service -----

  predicate Allowed(r: Request, actorRole: Role, targetRole: Role) {
    match r
    case Update(_, _, _, newRole) => MayUpdate(actorRole, targetRole, newRole)
    case Remove(_, _, _) => MayRemove(actorRole, targetRole)
  }

  predicate LosesOwner(r: Request, targetRole: Role) {
    targetRole == Owner && (r.Update? ==> r.newRole != Owner)
  }

  // ----- Steps -----

  predicate CanLock(s: State, t: TxnId, m: MemberId) {
    m in s.members && (m in s.locks ==> s.locks[m] == t)
  }

  predicate OwnerOf(s: State, m: MemberId, org: OrgId) {
    m in s.members && s.members[m].org == org && s.members[m].role == Owner
  }

  predicate Free(s: State, org: OrgId, user: UserId) {
    forall m | m in s.members :: !(s.members[m].org == org && s.members[m].user == user)
  }

  predicate Enabled(s: State, a: Action) {
    match a
    case CreateOrg(org, m, _) => org !in s.orgs && m !in s.ids
    case DeleteOrg(org, m) =>
      // The cascade needs every member row of the organization unlocked.
      org in s.orgs && OwnerOf(s, m, org) && forall x | x in s.members && s.members[x].org == org :: x !in s.locks
    case AddMember(m, row) => m !in s.ids && row.org in s.orgs && Free(s, row.org, row.user)
    case Begin(t, r, own) =>
      && t !in s.txns && own in s.members && s.members[own].org == r.org && s.members[own].user == r.actor
      && s.members[own].role != Member
    case LockActor(t, m) =>
      && t in s.txns && s.txns[t].phase.Loaded? && CanLock(s, t, m)
      && s.members[m].org == s.txns[t].request.org && s.members[m].user == s.txns[t].request.actor
    case LockTarget(t) =>
      && t in s.txns && s.txns[t].phase.ActorLocked? && CanLock(s, t, s.txns[t].request.target)
      && s.members[s.txns[t].request.target].org == s.txns[t].request.org
    case StartScan(t) =>
      && t in s.txns && s.txns[t].phase.TargetLocked?
      && Allowed(s.txns[t].request, s.txns[t].phase.actorRole, s.txns[t].phase.targetRole)
      && LosesOwner(s.txns[t].request, s.txns[t].phase.targetRole)
    case ScanRow(t, m) =>
      && t in s.txns && s.txns[t].phase.Scanning? && m in s.txns[t].phase.ahead
      && (m in s.members ==> CanLock(s, t, m))
    case FinishScan(t, other) =>
      && t in s.txns && s.txns[t].phase.Scanning? && s.txns[t].phase.ahead == {}
      && other in s.txns[t].phase.owners && other != s.txns[t].request.target
    case Commit(t) =>
      && t in s.txns
      && (|| s.txns[t].phase.Cleared?
          || (&& s.txns[t].phase.TargetLocked?
              && Allowed(s.txns[t].request, s.txns[t].phase.actorRole, s.txns[t].phase.targetRole)
              && !LosesOwner(s.txns[t].request, s.txns[t].phase.targetRole)))
    case Abort(t) => t in s.txns
  }

  function Unlocked(locks: map<MemberId, TxnId>, t: TxnId): map<MemberId, TxnId> {
    map m | m in locks && locks[m] != t :: locks[m]
  }

  function Move(s: State, t: TxnId, phase: Phase): State
    requires t in s.txns
  {
    s.(txns := s.txns[t := s.txns[t].(phase := phase)])
  }

  /** The role a locking read shows: the loaded object for the actor's own row, else the row. */
  function Seen(s: State, t: TxnId, m: MemberId): Role
    requires t in s.txns && m in s.members
  {
    if m == s.txns[t].own then s.txns[t].belief else s.members[m].role
  }

  /** The flushed change; the ORM writes nothing when the role it shows is already the new one. */
  function Written(members: map<MemberId, Row>, r: Request, targetRole: Role): map<MemberId, Row> {
    if r.target !in members then members
    else
      match r
      case Update(_, target, _, newRole) =>
        if targetRole == newRole then members else members[target := members[target].(role := newRole)]
      case Remove(_, target, _) => members - {target}
  }

  function Do(s: State, a: Action): State
    requires Enabled(s, a)
  {
    match a
    case CreateOrg(org, m, user) =>
      s.(orgs := s.orgs + {org}, ids := s.ids + {m}, members := s.members[m := Row(org, user, Owner)])
    case DeleteOrg(org, _) =>
      s.(orgs := s.orgs - {org}, members := map m | m in s.members && s.members[m].org != org :: s.members[m])
    case AddMember(m, row) => s.(ids := s.ids + {m}, members := s.members[m := row])
    case Begin(t, r, own) => s.(txns := s.txns[t := Txn(r, own, s.members[own].role, Loaded)])
    case LockActor(t, m) => Move(s, t, ActorLocked(m, Seen(s, t, m))).(locks := s.locks[m := t])
    case LockTarget(t) =>
      var target := s.txns[t].request.target;
      var p := s.txns[t].phase;
      Move(s, t, TargetLocked(p.actor, p.actorRole, Seen(s, t, target))).(locks := s.locks[target := t])
    case StartScan(t) =>
      var p, org := s.txns[t].phase, s.txns[t].request.org;
      Move(s, t, Scanning(p.actor, p.actorRole, p.targetRole, set m | m in s.members && OwnerOf(s, m, org), {}))
    case ScanRow(t, m) =>
      var p := s.txns[t].phase.(ahead := s.txns[t].phase.ahead - {m});
      if OwnerOf(s, m, s.txns[t].request.org)
      then Move(s, t, p.(owners := p.owners + {m})).(locks := s.locks[m := t])
      else Move(s, t, p)
    case FinishScan(t, other) =>
      var p := s.txns[t].phase;
      Move(s, t, Cleared(p.actor, p.actorRole, p.targetRole, other))
    case Commit(t) =>
      var members := Written(s.members, s.txns[t].request, s.txns[t].phase.targetRole);
      State(s.orgs, s.ids, members, Unlocked(s.locks, t), s.txns - {t})
    case Abort(t) => s.(locks := Unlocked(s.locks, t), txns := s.txns - {t})
  }

  predicate Init(s: State) {
    s == State({}, {}, map[], map[], map[])
  }

  predicate ValidRun(s: State, run: seq<Action>)
    decreases |run|
  {
    run == [] || (Enabled(s, run[0]) && ValidRun(Do(s, run[0]), run[1..]))
  }

  function After(s: State, run: seq<Action>): State
    requires ValidRun(s, run)
    decreases |run|
  {
    if run == [] then s else After(Do(s, run[0]), run[1..])
  }

  // ----- Invariant -----

  ghost predicate HasOwner(s: State, org: OrgId) {
    exists m :: OwnerOf(s, m, org)
  }

  predicate UniqueMembers(s: State) {
    forall a, b | a in s.members && b in s.members && a != b ::
      s.members[a].org != s.members[b].org || s.members[a].user != s.members[b].user
  }

  predicate Holds(s: State, t: TxnId, m: MemberId) {
    m in s.locks && s.locks[m] == t
  }

  /** The session's loaded row, while it exists, still belongs to the actor. */
  predicate OwnOk(s: State, txn: Txn) {
    txn.own in s.members ==> s.members[txn.own].org == txn.request.org && s.members[txn.own].user == txn.request.actor
  }

  /** The actor's row is locked; the role shown for it is the belief if it is the loaded row. */
  predicate ActorOk(s: State, t: TxnId, txn: Txn, actor: MemberId, actorRole: Role) {
    && Holds(s, t, actor) && actor in s.members
    && s.members[actor].org == txn.request.org && s.members[actor].user == txn.request.actor
    && actorRole == (if actor == txn.own then txn.belief else s.members[actor].role)
  }

  predicate TargetOk(s: State, t: TxnId, txn: Txn, targetRole: Role) {
    var target := txn.request.target;
    && Holds(s, t, target) && target in s.members && s.members[target].org == txn.request.org
    && targetRole == (if target == txn.own then txn.belief else s.members[target].role)
  }

  ghost predicate TxnOk(s: State, t: TxnId)
    requires t in s.txns
  {
    var txn := s.txns[t];
    && txn.own in s.ids && OwnOk(s, txn) && txn.belief != Member
    && match txn.phase
       case Loaded => true
       case ActorLocked(actor, actorRole) => ActorOk(s, t, txn, actor, actorRole)
       case TargetLocked(actor, actorRole, targetRole) =>
         ActorOk(s, t, txn, actor, actorRole) && TargetOk(s, t, txn, targetRole)
       case Scanning(actor, actorRole, targetRole, _, owners) =>
         && ActorOk(s, t, txn, actor, actorRole) && TargetOk(s, t, txn, targetRole)
         && Allowed(txn.request, actorRole, targetRole)
         && forall m | m in owners :: Holds(s, t, m) && OwnerOf(s, m, txn.request.org)
       case Cleared(actor, actorRole, targetRole, other) =>
         && ActorOk(s, t, txn, actor, actorRole) && TargetOk(s, t, txn, targetRole)
         && Allowed(txn.request, actorRole, targetRole)
         && other != txn.request.target && Holds(s, t, other) && OwnerOf(s, other, txn.request.org)
  }

  ghost predicate Inv(s: State) {
    && UniqueMembers(s)
    && (forall m | m in s.members :: m in s.ids && s.members[m].org in s.orgs)
    && (forall m | m in s.locks :: m in s.members)
    && (forall org | org in s.orgs :: HasOwner(s, org))
    && (forall t | t in s.txns :: TxnOk(s, t))
  }

  /** The stale belief cannot hide an owner: a change that skips the scan leaves the owners alone. */
  lemma UnscannedChangeIsHarmless(s: State, t: TxnId, m: MemberId)
    requires Inv(s) && Enabled(s, Commit(t)) && s.txns[t].phase.TargetLocked?
    requires OwnerOf(s, m, s.txns[t].request.org)
    ensures OwnerOf(Do(s, Commit(t)), m, s.txns[t].request.org)
  {
    assert TxnOk(s, t);
  }

  lemma CommitKeepsOwners(s: State, t: TxnId, org: OrgId)
    requires Inv(s) && Enabled(s, Commit(t)) && org in s.orgs
    ensures HasOwner(Do(s, Commit(t)), org)
  {
    var s', r := Do(s, Commit(t)), s.txns[t].request;
    assert TxnOk(s, t);
    var m :| OwnerOf(s, m, org);
    if org != r.org {
      assert OwnerOf(s', m, org);
    } else if s.txns[t].phase.Cleared? {
      assert OwnerOf(s', s.txns[t].phase.other, org);
    } else {
      UnscannedChangeIsHarmless(s, t, m);
    }
  }

  /** What a transaction relies on: its locks, the rows it has locked, and who a row belongs to. */
  lemma Framed(s: State, s': State, u: TxnId)
    requires u in s.txns && TxnOk(s, u)
    requires u in s'.txns && s'.txns[u] == s.txns[u] && s.ids <= s'.ids
    requires forall m | Holds(s, u, m) ::
      Holds(s', u, m) && (m in s.members ==> m in s'.members && s'.members[m] == s.members[m])
    requires forall m | m in s'.members && m in s.ids ::
      && m in s.members && s'.members[m].org == s.members[m].org && s'.members[m].user == s.members[m].user
    ensures TxnOk(s', u)
  {
    hide Allowed, LosesOwner;
  }

  /** A commit and the other transactions: what they have locked does not change. */
  lemma CommitFrames(s: State, t: TxnId, u: TxnId)
    requires Inv(s) && Enabled(s, Commit(t)) && u in s.txns && u != t
    ensures u in Do(s, Commit(t)).txns && TxnOk(Do(s, Commit(t)), u)
  {
    hide UniqueMembers, HasOwner, Allowed, LosesOwner;
    assert TxnOk(s, t);
    hide TxnOk;
    Framed(s, Do(s, Commit(t)), u);
  }

  lemma CommitKeeps(s: State, t: TxnId)
    requires Inv(s) && Enabled(s, Commit(t))
    ensures Inv(Do(s, Commit(t)))
  {
    hide TxnOk, HasOwner;
    var s' := Do(s, Commit(t));
    CommitLocks(s, t);
    forall org | org in s'.orgs ensures HasOwner(s', org) {
      CommitKeepsOwners(s, t, org);
    }
    forall u | u in s'.txns ensures TxnOk(s', u) {
      CommitFrames(s, t, u);
    }
  }

  lemma CommitLocks(s: State, t: TxnId)
    requires Inv(s) && Enabled(s, Commit(t))
    ensures forall m | m in Do(s, Commit(t)).locks :: m in Do(s, Commit(t)).members
  {
    assert TxnOk(s, t);
  }

  predicate IsTableStep(a: Action) {
    a.CreateOrg? || a.DeleteOrg? || a.AddMember?
  }

  lemma TableStepOwners(s: State, a: Action, org: OrgId)
    requires Inv(s) && Enabled(s, a) && IsTableStep(a) && org in Do(s, a).orgs
    ensures HasOwner(Do(s, a), org)
  {
    hide TxnOk, UniqueMembers;
    if a.CreateOrg? && org == a.org {
      assert OwnerOf(Do(s, a), a.m, org);
    } else {
      assert HasOwner(s, org);
      var m :| OwnerOf(s, m, org);
      assert OwnerOf(Do(s, a), m, org);
    }
  }

  lemma TableStepRows(s: State, a: Action)
    requires Inv(s) && Enabled(s, a) && IsTableStep(a)
    ensures var s' := Do(s, a);
      && UniqueMembers(s')
      && (forall m | m in s'.members :: m in s'.ids && s'.members[m].org in s'.orgs)
      && (forall m | m in s'.locks :: m in s'.members)
      && s'.txns == s.txns
  {
    hide TxnOk, HasOwner;
  }

  /** Creation, deletion and joining: owners stay, and rows that are locked are not touched. */
  lemma TableStepKeeps(s: State, a: Action)
    requires Inv(s) && Enabled(s, a) && IsTableStep(a)
    ensures Inv(Do(s, a))
  {
    hide TxnOk, HasOwner, UniqueMembers, Enabled, Do;
    TableStepRows(s, a);
    forall org | org in Do(s, a).orgs ensures HasOwner(Do(s, a), org) {
      TableStepOwners(s, a, org);
    }
    forall u | u in Do(s, a).txns ensures TxnOk(Do(s, a), u) {
      TableStepFrames(s, a, u);
    }
  }

  lemma TableStepFrames(s: State, a: Action, u: TxnId)
    requires Inv(s) && Enabled(s, a) && IsTableStep(a) && u in s.txns
    ensures u in Do(s, a).txns && TxnOk(Do(s, a), u)
  {
    hide UniqueMembers, HasOwner, TxnOk;
    Framed(s, Do(s, a), u);
  }

  lemma LockStepKeeps(s: State, a: Action)
    requires Inv(s) && Enabled(s, a) && !IsTableStep(a) && !a.Commit?
    ensures Inv(Do(s, a))
  {
    hide TxnOk;
    var s' := Do(s, a);
    forall org | org in s'.orgs ensures HasOwner(s', org) {
      var m :| OwnerOf(s, m, org);
      assert OwnerOf(s', m, org);
    }
    forall u | u in s'.txns ensures TxnOk(s', u) {
      if u == a.t && IsScanStep(a) {
        ScanStepOwn(s, a);
      } else if u == a.t {
        LockStepOwn(s, a);
      } else {
        LockStepOther(s, a, u);
      }
    }
  }

  predicate IsScanStep(a: Action) {
    a.StartScan? || a.ScanRow? || a.FinishScan?
  }

  lemma ScanStepOwn(s: State, a: Action)
    requires Inv(s) && Enabled(s, a) && IsScanStep(a)
    ensures TxnOk(Do(s, a), a.t)
  {
    hide HasOwner, UniqueMembers, Allowed, LosesOwner;
    assert TxnOk(s, a.t);
  }

  lemma LockStepOwn(s: State, a: Action)
    requires Inv(s) && Enabled(s, a) && !IsTableStep(a) && !IsScanStep(a) && !a.Commit?
    requires a.t in Do(s, a).txns
    ensures TxnOk(Do(s, a), a.t)
  {
    hide HasOwner, Allowed, LosesOwner;
    assert a.t in s.txns ==> TxnOk(s, a.t);
  }

  lemma LockStepOther(s: State, a: Action, u: TxnId)
    requires Inv(s) && Enabled(s, a) && !IsTableStep(a) && !a.Commit?
    requires u != a.t && u in s.txns
    ensures u in Do(s, a).txns && TxnOk(Do(s, a), u)
  {
    hide UniqueMembers, HasOwner, TxnOk, Allowed, LosesOwner;
    Framed(s, Do(s, a), u);
  }

  lemma {:induction false} RunKeeps(s: State, run: seq<Action>)
    requires Inv(s) && ValidRun(s, run)
    ensures Inv(After(s, run))
    decreases |run|
  {
    hide Inv, Enabled;
    if run != [] {
      var a := run[0];
      if a.Commit? {
        CommitKeeps(s, a.t);
      } else if IsTableStep(a) {
        TableStepKeeps(s, a);
      } else {
        LockStepKeeps(s, a);
      }
      RunKeeps(Do(s, a), run[1..]);
    }
  }

  /** In every committed state of every interleaving, each existing organization has an owner, and
      a user has at most one membership in it. */
  lemma EveryOrganizationHasAnOwner(s: State, run: seq<Action>, org: OrgId)
    requires Init(s) && ValidRun(s, run) && org in After(s, run).orgs
    ensures HasOwner(After(s, run), org)
    ensures UniqueMembers(After(s, run))
  {
    hide HasOwner, UniqueMembers;
    InitEstablishes(s);
    RunKeeps(s, run);
  }

  lemma InitEstablishes(s: State)
    requires Init(s)
    ensures Inv(s)
  {
  }

  /** Commit and rollback free all locks of the transaction and no other; rollback changes no row. */
  lemma EndFreesLocks(s: State, a: Action)
    requires Enabled(s, a) && (a.Commit? || a.Abort?)
    ensures Do(s, a).txns == s.txns - {a.t}
    ensures forall m :: m in Do(s, a).locks <==> m in s.locks && s.locks[m] != a.t
    ensures forall m | m in Do(s, a).locks :: Do(s, a).locks[m] == s.locks[m]
    ensures a.Abort? ==> Do(s, a).members == s.members && Do(s, a).orgs == s.orgs
  {
  }

  // ----- What a stale role lets through -----

  function Rank(role: Role): int {
    match role
    case Owner => 2
    case Admin => 1
    case Member => 0
  }

  /** The change is allowed by the roles that the rows of actor and target have in the table. */
  predicate AllowedNow(s: State, t: TxnId)
    requires t in s.txns && !s.txns[t].phase.Loaded? && s.txns[t].phase.actor in s.members
    requires s.txns[t].request.target in s.members
  {
    Allowed(s.txns[t].request, s.members[s.txns[t].phase.actor].role, s.members[s.txns[t].request.target].role)
  }

  lemma CommitSees(s: State, t: TxnId)
    requires Inv(s) && Enabled(s, Commit(t))
    ensures var txn := s.txns[t];
      && !txn.phase.Loaded? && !txn.phase.ActorLocked?
      && ActorOk(s, t, txn, txn.phase.actor, txn.phase.actorRole) && TargetOk(s, t, txn, txn.phase.targetRole)
      && Allowed(txn.request, txn.phase.actorRole, txn.phase.targetRole) && txn.belief != Member
      && (txn.request.target == txn.own ==> txn.phase.actor == txn.own)
  {
    hide HasOwner, Allowed, LosesOwner;
    assert TxnOk(s, t);
  }

  /** In every run, when a change commits: it is allowed by the committed roles if the actor's row
      still has the role the session shows for it, or a higher one. If the row has lost rank in
      the meantime, it is allowed if and only if an administrator may do it: the actor is still
      one, and the target is a plain member who stays one or leaves. */
  lemma CommitIsAllowedIff(s0: State, run: seq<Action>, t: TxnId)
    requires Init(s0) && ValidRun(s0, run) && Enabled(After(s0, run), Commit(t))
    ensures var s := After(s0, run);
      var p, r := s.txns[t].phase, s.txns[t].request;
      && !p.Loaded? && p.actor in s.members && r.target in s.members
      && s.members[p.actor].org == r.org && s.members[p.actor].user == r.actor
      && (AllowedNow(s, t) <==>
            || Rank(s.members[p.actor].role) >= Rank(p.actorRole)
            || (&& s.members[p.actor].role == Admin && s.members[r.target].role == Member
                && (r.Update? ==> r.newRole == Member)))
  {
    InitEstablishes(s0);
    RunKeeps(s0, run);
    CommitSees(After(s0, run), t);
    hide Inv, Init, Enabled, ValidRun, After;
  }

  /** Whose role the change was decided on: only the row the session had loaded can be stale. */
  lemma OnlyLoadedRowIsStale(s0: State, run: seq<Action>, t: TxnId)
    requires Init(s0) && ValidRun(s0, run) && Enabled(After(s0, run), Commit(t))
    ensures var s := After(s0, run);
      var txn := s.txns[t];
      && !txn.phase.Loaded? && txn.phase.actor in s.members
      && (txn.own in s.members <==> txn.phase.actor == txn.own)
      && (txn.phase.actorRole != s.members[txn.phase.actor].role ==>
            txn.own in s.members && txn.belief != s.members[txn.own].role)
  {
    InitEstablishes(s0);
    RunKeeps(s0, run);
    CommitSees(After(s0, run), t);
    assert TxnOk(After(s0, run), t);
    hide HasOwner, Init, Enabled, ValidRun, After;
  }

  /** In every run, a committing update raises its actor's own role if and only if the session had
      loaded the actor as OWNER, the row has meanwhile become MEMBER, and the new role is ADMIN.
      With a fresh row nobody promotes themselves. */
  lemma SelfPromotionIff(s0: State, run: seq<Action>, t: TxnId)
    requires Init(s0) && ValidRun(s0, run) && Enabled(After(s0, run), Commit(t))
    requires After(s0, run).txns[t].request.Update?
    ensures var s := After(s0, run);
      var s', txn, r := Do(s, Commit(t)), s.txns[t], s.txns[t].request;
      && r.target in s.members && r.target in s'.members
      && (s.members[r.target].user == r.actor && Rank(s'.members[r.target].role) > Rank(s.members[r.target].role) <==>
            r.target == txn.own && txn.belief == Owner && s.members[r.target].role == Member && r.newRole == Admin)
  {
    InitEstablishes(s0);
    RunKeeps(s0, run);
    var s := After(s0, run);
    CommitSees(s, t);
    var r := s.txns[t].request;
    assert TxnOk(s, t);
    if s.members[r.target].user == r.actor {
      assert r.target == s.txns[t].phase.actor;
    }
  }

  // ----- Such a run exists -----

  const FirstOwner: Row := Row(0, 0, Owner)
  const SecondOwner: Row := Row(0, 1, Owner)
  const SelfUpdate: Request := Update(0, 0, 0, Admin)
  const Demotion: Request := Update(0, 0, 1, Member)

  /** Two owners; the first has loaded itself for an update of its own row, the second is about to
      demote the first. */
  function BothLoaded(): State {
    State({0}, {0, 1}, map[0 := FirstOwner, 1 := SecondOwner], map[],
      map[1 := Txn(SelfUpdate, 0, Owner, Loaded), 2 := Txn(Demotion, 1, Owner, Loaded)])
  }

  function Demoted(): State {
    State({0}, {0, 1}, map[0 := FirstOwner.(role := Member), 1 := SecondOwner], map[],
      map[1 := Txn(SelfUpdate, 0, Owner, Loaded)])
  }

  const Opening: seq<Action> :=
    [CreateOrg(0, 0, 0), AddMember(1, SecondOwner), Begin(1, SelfUpdate, 0), Begin(2, Demotion, 1)]
  const Demoting: seq<Action> :=
    [LockActor(2, 1), LockTarget(2), StartScan(2), ScanRow(2, 0), ScanRow(2, 1), FinishScan(2, 1), Commit(2)]
  const Promoting: seq<Action> := [LockActor(1, 0), LockTarget(1), StartScan(1), ScanRow(1, 1), FinishScan(1, 1)]

  function At(s: State, t: TxnId, phase: Phase, locks: map<MemberId, TxnId>): State
    requires t in s.txns
  {
    Move(s, t, phase).(locks := locks)
  }

  /** One step, stated with the state it leads to. */
  predicate Leads(s: State, a: Action, s': State) {
    Enabled(s, a) && Do(s, a) == s'
  }

  predicate Reaches(s: State, run: seq<Action>, end: State) {
    ValidRun(s, run) && After(s, run) == end
  }

  lemma Link(run: seq<Action>, i: nat, s: State, s': State, end: State)
    requires i < |run| && Leads(s, run[i], s') && Reaches(s', run[i + 1..], end)
    ensures Reaches(s, run[i..], end)
  {
    hide Enabled, Do;
    assert run[i..][1..] == run[i + 1..];
  }

  lemma LastLink(run: seq<Action>, s: State, end: State)
    requires run != [] && Leads(s, run[|run| - 1], end)
    ensures Reaches(s, run[|run| - 1..], end)
  {
    hide Enabled, Do;
    EmptyRun(end);
    Link(run, |run| - 1, s, end, end);
  }

  lemma OpeningSteps()
    ensures Reaches(State({}, {}, map[], map[], map[]), Opening[0..], BothLoaded())
  {
    var s0 := State({}, {}, map[], map[], map[]);
    var s1 := State({0}, {0}, map[0 := FirstOwner], map[], map[]);
    var s2 := State({0}, {0, 1}, map[0 := FirstOwner, 1 := SecondOwner], map[], map[]);
    var s3 := s2.(txns := map[1 := Txn(SelfUpdate, 0, Owner, Loaded)]);
    assert Leads(s0, Opening[0], s1) && Leads(s1, Opening[1], s2) && Leads(s2, Opening[2], s3);
    assert Leads(s3, Opening[3], BothLoaded());
    hide Leads, Reaches;
    LastLink(Opening, s3, BothLoaded());
    Link(Opening, 2, s2, s3, BothLoaded());
    Link(Opening, 1, s1, s2, BothLoaded());
    Link(Opening, 0, s0, s1, BothLoaded());
  }

  lemma DemotingLocks()
    ensures var s, locks := BothLoaded(), map[1 := 2, 0 := 2];
      && Leads(s, Demoting[0], At(s, 2, ActorLocked(1, Owner), map[1 := 2]))
      && Leads(At(s, 2, ActorLocked(1, Owner), map[1 := 2]), Demoting[1],
          At(s, 2, TargetLocked(1, Owner, Owner), locks))
      && Leads(At(s, 2, TargetLocked(1, Owner, Owner), locks), Demoting[2],
               At(s, 2, Scanning(1, Owner, Owner, {0, 1}, {}), locks))
  {
    var s := At(BothLoaded(), 2, TargetLocked(1, Owner, Owner), map[1 := 2, 0 := 2]);
    assert (set m | m in s.members && OwnerOf(s, m, 0)) == {0, 1};
  }

  /** A scan that finds an owner it can lock. */
  lemma ScanLeads(s: State, t: TxnId, m: MemberId, ahead: set<MemberId>, owners: set<MemberId>)
    requires t in s.txns && s.txns[t].phase.Scanning? && m in s.txns[t].phase.ahead
    requires CanLock(s, t, m) && OwnerOf(s, m, s.txns[t].request.org)
    requires ahead == s.txns[t].phase.ahead - {m} && owners == s.txns[t].phase.owners + {m}
    ensures Leads(s, ScanRow(t, m), At(s, t, s.txns[t].phase.(ahead := ahead, owners := owners), s.locks[m := t]))
  {
  }

  lemma AtAgain(s: State, t: TxnId, p: Phase, locks: map<MemberId, TxnId>, p': Phase, locks': map<MemberId, TxnId>)
    requires t in s.txns
    ensures At(At(s, t, p, locks), t, p', locks') == At(s, t, p', locks')
  {
  }

  lemma FinishLeads(s: State, t: TxnId, other: MemberId)
    requires t in s.txns && s.txns[t].phase.Scanning? && s.txns[t].phase.ahead == {}
    requires other in s.txns[t].phase.owners && other != s.txns[t].request.target
    ensures var p := s.txns[t].phase;
      Leads(s, FinishScan(t, other), At(s, t, Cleared(p.actor, p.actorRole, p.targetRole, other), s.locks))
  {
  }

  lemma DemotingScan()
    ensures var s, locks := BothLoaded(), map[1 := 2, 0 := 2];
      && Leads(At(s, 2, Scanning(1, Owner, Owner, {0, 1}, {}), locks), Demoting[3],
               At(s, 2, Scanning(1, Owner, Owner, {1}, {0}), locks))
      && Leads(At(s, 2, Scanning(1, Owner, Owner, {1}, {0}), locks), Demoting[4],
               At(s, 2, Scanning(1, Owner, Owner, {}, {0, 1}), locks))
      && Leads(At(s, 2, Scanning(1, Owner, Owner, {}, {0, 1}), locks), Demoting[5],
               At(s, 2, Cleared(1, Owner, Owner, 1), locks))
  {
    hide Leads;
    var s, locks := BothLoaded(), map[1 := 2, 0 := 2];
    var a, b := Scanning(1, Owner, Owner, {0, 1}, {}), Scanning(1, Owner, Owner, {1}, {0});
    var c := Scanning(1, Owner, Owner, {}, {0, 1});
    assert locks[0 := 2] == locks && locks[1 := 2] == locks;
    ScanLeads(At(s, 2, a, locks), 2, 0, {1}, {0});
    AtAgain(s, 2, a, locks, b, locks);
    ScanLeads(At(s, 2, b, locks), 2, 1, {}, {0, 1});
    AtAgain(s, 2, b, locks, c, locks);
    FinishLeads(At(s, 2, c, locks), 2, 1);
    AtAgain(s, 2, c, locks, Cleared(1, Owner, Owner, 1), locks);
  }

  lemma DemotingCommit()
    ensures Leads(At(BothLoaded(), 2, Cleared(1, Owner, Owner, 1), map[1 := 2, 0 := 2]), Demoting[6], Demoted())
  {
  }

  lemma DemotingSteps()
    ensures Reaches(BothLoaded(), Demoting[0..], Demoted())
  {
    hide Leads, Reaches;
    var s, locks, end := BothLoaded(), map[1 := 2, 0 := 2], Demoted();
    DemotingLocks();
    DemotingScan();
    DemotingCommit();
    LastLink(Demoting, At(s, 2, Cleared(1, Owner, Owner, 1), locks), end);
    Link(Demoting, 5, At(s, 2, Scanning(1, Owner, Owner, {}, {0, 1}), locks),
        At(s, 2, Cleared(1, Owner, Owner, 1), locks), end);
    Link(Demoting, 4, At(s, 2, Scanning(1, Owner, Owner, {1}, {0}), locks),
         At(s, 2, Scanning(1, Owner, Owner, {}, {0, 1}), locks), end);
    Link(Demoting, 3, At(s, 2, Scanning(1, Owner, Owner, {0, 1}, {}), locks),
         At(s, 2, Scanning(1, Owner, Owner, {1}, {0}), locks), end);
    Link(Demoting, 2, At(s, 2, TargetLocked(1, Owner, Owner), locks),
         At(s, 2, Scanning(1, Owner, Owner, {0, 1}, {}), locks), end);
    Link(Demoting, 1, At(s, 2, ActorLocked(1, Owner), map[1 := 2]), At(s, 2, TargetLocked(1, Owner, Owner), locks),
        end);
    Link(Demoting, 0, s, At(s, 2, ActorLocked(1, Owner), map[1 := 2]), end);
  }

  /** The demoted first owner, cleared by its stale role to make itself an administrator. */
  function SelfCleared(): State {
    At(Demoted(), 1, Cleared(0, Owner, Owner, 1), map[0 := 1, 1 := 1])
  }

  lemma PromotingLocks()
    ensures var s, locks := Demoted(), map[0 := 1];
      && Leads(s, Promoting[0], At(s, 1, ActorLocked(0, Owner), locks))
      && Leads(At(s, 1, ActorLocked(0, Owner), locks), Promoting[1], At(s, 1, TargetLocked(0, Owner, Owner), locks))
  {
  }

  lemma PromotingScan()
    ensures var s, locks := Demoted(), map[0 := 1];
      && Leads(At(s, 1, TargetLocked(0, Owner, Owner), locks), Promoting[2],
          At(s, 1, Scanning(0, Owner, Owner, {1}, {}), locks))
      && Leads(At(s, 1, Scanning(0, Owner, Owner, {1}, {}), locks), Promoting[3],
               At(s, 1, Scanning(0, Owner, Owner, {}, {1}), map[0 := 1, 1 := 1]))
      && Leads(At(s, 1, Scanning(0, Owner, Owner, {}, {1}), map[0 := 1, 1 := 1]), Promoting[4], SelfCleared())
  {
    var s, locks := Demoted(), map[0 := 1];
    var found := TargetLocked(0, Owner, Owner);
    var scan, done := Scanning(0, Owner, Owner, {1}, {}), Scanning(0, Owner, Owner, {}, {1});
    var s2 := At(s, 1, found, locks);
    assert (set m | m in s2.members && OwnerOf(s2, m, 0)) == {1};
    assert Leads(s2, Promoting[2], At(s, 1, scan, locks));
    hide Leads;
    assert locks[1 := 1] == map[0 := 1, 1 := 1];
    ScanLeads(At(s, 1, scan, locks), 1, 1, {}, {1});
    AtAgain(s, 1, scan, locks, done, locks[1 := 1]);
    FinishLeads(At(s, 1, done, locks[1 := 1]), 1, 1);
    AtAgain(s, 1, done, locks[1 := 1], Cleared(0, Owner, Owner, 1), locks[1 := 1]);
  }

  lemma PromotingSteps()
    ensures Reaches(Demoted(), Promoting[0..], SelfCleared())
  {
    hide Leads, Reaches;
    var s, locks := Demoted(), map[0 := 1];
    var scan := At(s, 1, Scanning(0, Owner, Owner, {1}, {}), locks);
    var done := At(s, 1, Scanning(0, Owner, Owner, {}, {1}), map[0 := 1, 1 := 1]);
    PromotingLocks();
    PromotingScan();
    LastLink(Promoting, done, SelfCleared());
    Link(Promoting, 3, scan, done, SelfCleared());
    Link(Promoting, 2, At(s, 1, TargetLocked(0, Owner, Owner), locks), scan, SelfCleared());
    Link(Promoting, 1, At(s, 1, ActorLocked(0, Owner), locks), At(s, 1, TargetLocked(0, Owner, Owner), locks),
        SelfCleared());
    Link(Promoting, 0, s, At(s, 1, ActorLocked(0, Owner), locks), SelfCleared());
  }

  lemma SelfCommit()
    ensures var s1, r := SelfCleared(), SelfUpdate;
      && Enabled(s1, Commit(1)) && s1.txns[1].request == r
      && r.target in s1.members && s1.members[r.target].user == r.actor && s1.members[r.target].role == Member
      && r.target in Do(s1, Commit(1)).members && Do(s1, Commit(1)).members[r.target].role == Admin
  {
  }

  lemma {:induction false} RunConcat(s: State, run: seq<Action>, more: seq<Action>)
    requires ValidRun(s, run) && ValidRun(After(s, run), more)
    ensures ValidRun(s, run + more) && After(s, run + more) == After(After(s, run), more)
    decreases |run|
  {
    hide Enabled, Do;
    if run == [] {
      assert run + more == more;
    } else {
      assert (run + more)[1..] == run[1..] + more;
      RunConcat(Do(s, run[0]), run[1..], more);
    }
  }

  /** A member can make itself administrator: it loads itself as owner, another owner demotes it
      to plain member, and its own update then commits on the stale role. */
  lemma StaleSelfPromotion()
    ensures var s, run := State({}, {}, map[], map[], map[]), Opening + Demoting + Promoting;
      && Init(s) && ValidRun(s, run) && Enabled(After(s, run), Commit(1))
      && var s1 := After(s, run);
         var r := s1.txns[1].request;
         && r.target in s1.members && s1.members[r.target].user == r.actor && s1.members[r.target].role == Member
         && r.target in Do(s1, Commit(1)).members && Do(s1, Commit(1)).members[r.target].role == Admin
  {
    OpeningSteps();
    DemotingSteps();
    PromotingSteps();
    SelfCommit();
    hide ValidRun, After, Enabled, Do, SelfCleared, Demoted, BothLoaded;
    var s := State({}, {}, map[], map[], map[]);
    assert Opening[0..] == Opening && Demoting[0..] == Demoting && Promoting[0..] == Promoting;
    RunConcat(s, Opening, Demoting);
    RunConcat(s, Opening + Demoting, Promoting);
  }

  // ----- Which changes go through -----

  /** What the service promises: the actor's role allows the change, and the organization keeps
      another owner. */
  ghost predicate Permitted(s: State, r: Request, own: MemberId) {
    && own in s.members && r.target in s.members && s.members[r.target].org == r.org
    && Allowed(r, s.members[own].role, s.members[r.target].role)
    && (LosesOwner(r, s.members[r.target].role) ==> exists other :: other != r.target && OwnerOf(s, other, r.org))
  }

  function Effect(s: State, r: Request): map<MemberId, Row>
    requires r.target in s.members
  {
    match r
    case Update(_, target, _, newRole) => s.members[target := s.members[target].(role := newRole)]
    case Remove(_, target, _) => s.members - {target}
  }

  predicate OwnStep(a: Action, t: TxnId) {
    (a.LockActor? || a.LockTarget? || a.StartScan? || a.ScanRow? || a.FinishScan?) && a.t == t
  }

  /** How far a transaction that runs alone from `s` can have come: what it has seen is what is. */
  ghost predicate Alone(s: State, now: State, t: TxnId, r: Request, own: MemberId) {
    && now.members == s.members && t in now.txns
    && var txn := now.txns[t];
       && txn.request == r && txn.own == own && own in s.members && txn.belief == s.members[own].role
       && match txn.phase
          case Loaded => true
          case ActorLocked(_, actorRole) => actorRole == s.members[own].role
          case TargetLocked(_, actorRole, targetRole) => SeenAll(s, r, own, actorRole, targetRole)
          case Scanning(_, actorRole, targetRole, _, owners) =>
            && SeenAll(s, r, own, actorRole, targetRole) && Allowed(r, actorRole, targetRole)
            && forall m | m in owners :: OwnerOf(s, m, r.org)
          case Cleared(_, actorRole, targetRole, other) =>
            && SeenAll(s, r, own, actorRole, targetRole) && Allowed(r, actorRole, targetRole)
            && other != r.target && OwnerOf(s, other, r.org)
  }

  predicate SeenAll(s: State, r: Request, own: MemberId, actorRole: Role, targetRole: Role) {
    && own in s.members && actorRole == s.members[own].role
    && r.target in s.members && s.members[r.target].org == r.org && targetRole == s.members[r.target].role
  }

  lemma AloneStep(s: State, now: State, t: TxnId, r: Request, own: MemberId, a: Action)
    requires UniqueMembers(s) && Alone(s, now, t, r, own) && OwnStep(a, t) && Enabled(now, a)
    requires s.members[own].org == r.org && s.members[own].user == r.actor
    ensures Alone(s, Do(now, a), t, r, own)
  {
    hide Allowed, LosesOwner;
    if a.ScanRow? && OwnerOf(now, a.m, r.org) {
      assert OwnerOf(s, a.m, r.org);
    }
    if a.LockActor? {
      assert a.m == own;
    }
  }

  lemma {:induction false} AloneRun(s: State, now: State, t: TxnId, r: Request, own: MemberId, run: seq<Action>)
    requires UniqueMembers(s) && Alone(s, now, t, r, own) && ValidRun(now, run)
    requires s.members[own].org == r.org && s.members[own].user == r.actor
    requires forall a | a in run :: OwnStep(a, t)
    ensures Alone(s, After(now, run), t, r, own)
    decreases |run|
  {
    hide Enabled, Do, UniqueMembers, Alone, OwnStep;
    if run != [] {
      AloneStep(s, now, t, r, own, run[0]);
      AloneRun(s, Do(now, run[0]), t, r, own, run[1..]);
    }
  }

  /** Only permitted changes commit: a transaction that ran alone since it loaded the actor, in
      whatever order it scanned, commits only if the change is permitted, and then exactly it. */
  lemma CommitsOnlyIfPermitted(s: State, t: TxnId, r: Request, own: MemberId, run: seq<Action>)
    requires UniqueMembers(s) && Enabled(s, Begin(t, r, own))
    requires ValidRun(Do(s, Begin(t, r, own)), run) && forall a | a in run :: OwnStep(a, t)
    requires Enabled(After(Do(s, Begin(t, r, own)), run), Commit(t))
    ensures Permitted(s, r, own)
    ensures Do(After(Do(s, Begin(t, r, own)), run), Commit(t)).members == Effect(s, r)
  {
    var s1 := Do(s, Begin(t, r, own));
    AloneRun(s, s1, t, r, own, run);
    WrittenIsEffect(s, r);
  }

  lemma WrittenIsEffect(s: State, r: Request)
    ensures r.target in s.members ==> Written(s.members, r, s.members[r.target].role) == Effect(s, r)
  {
  }

  lemma RunCons(s: State, a: Action, rest: seq<Action>)
    requires Enabled(s, a) && ValidRun(Do(s, a), rest)
    ensures ValidRun(s, [a] + rest) && After(s, [a] + rest) == After(Do(s, a), rest)
  {
    hide Enabled, Do;
    assert ([a] + rest)[1..] == rest;
  }

  lemma EmptyRun(s: State)
    ensures ValidRun(s, []) && After(s, []) == s
  {
  }

  predicate OnlyLocks(s: State, t: TxnId) {
    forall m | m in s.locks :: s.locks[m] == t
  }

  function ScanDone(p: Phase): Phase
    requires p.Scanning?
  {
    p.(ahead := {}, owners := p.owners + p.ahead)
  }

  /** Left alone, a scan visits every owner. */
  lemma {:induction false} ScanFinishes(s: State, t: TxnId) returns (run: seq<Action>)
    requires t in s.txns && s.txns[t].phase.Scanning? && OnlyLocks(s, t)
    requires forall m | m in s.txns[t].phase.ahead :: OwnerOf(s, m, s.txns[t].request.org)
    ensures forall a | a in run :: OwnStep(a, t)
    ensures ValidRun(s, run) && OnlyLocks(After(s, run), t)
    ensures After(s, run).members == s.members
    ensures After(s, run).txns == s.txns[t := s.txns[t].(phase := ScanDone(s.txns[t].phase))]
    decreases |s.txns[t].phase.ahead|
  {
    var p := s.txns[t].phase;
    if p.ahead == {} {
      run := [];
      EmptyRun(s);
      assert ScanDone(p) == p;
    } else {
      var m :| m in p.ahead;
      var a := ScanRow(t, m);
      assert OwnerOf(s, m, s.txns[t].request.org);
      var s1 := Do(s, a);
      assert s1.txns[t].phase == p.(ahead := p.ahead - {m}, owners := p.owners + {m});
      assert ScanDone(s1.txns[t].phase) == ScanDone(p);
      var rest := ScanFinishes(s1, t);
      RunCons(s, a, rest);
      run := [a] + rest;
    }
  }

  lemma {:induction false} RunSnoc(s: State, run: seq<Action>, a: Action)
    requires ValidRun(s, run) && Enabled(After(s, run), a)
    ensures ValidRun(s, run + [a]) && After(s, run + [a]) == Do(After(s, run), a)
    decreases |run|
  {
    hide Enabled, Do;
    if run == [] {
      EmptyRun(s);
      EmptyRun(Do(s, a));
      RunCons(s, a, []);
      assert run + [a] == [a] + [];
    } else {
      RunSnoc(Do(s, run[0]), run[1..], a);
      assert (run + [a])[1..] == run[1..] + [a];
    }
  }

  /** From locked target rows to the point of commit. */
  lemma ClearedForCommit(s: State, t: TxnId) returns (run: seq<Action>)
    requires t in s.txns && s.txns[t].phase.TargetLocked? && OnlyLocks(s, t)
    requires Allowed(s.txns[t].request, s.txns[t].phase.actorRole, s.txns[t].phase.targetRole)
    requires LosesOwner(s.txns[t].request, s.txns[t].phase.targetRole)
    requires exists other :: other != s.txns[t].request.target && OwnerOf(s, other, s.txns[t].request.org)
    ensures forall a | a in run :: OwnStep(a, t)
    ensures ValidRun(s, run) && Enabled(After(s, run), Commit(t))
  {
    var org := s.txns[t].request.org;
    var other :| other != s.txns[t].request.target && OwnerOf(s, other, org);
    var s1 := Do(s, StartScan(t));
    assert other in s1.txns[t].phase.ahead;
    var scan := ScanFinishes(s1, t);
    var s2, last := After(s1, scan), FinishScan(t, other);
    assert Enabled(s2, last);
    assert Enabled(Do(s2, last), Commit(t));
    hide Enabled, Do, ValidRun, After;
    RunSnoc(s1, scan, last);
    RunCons(s, StartScan(t), scan + [last]);
    run := [StartScan(t)] + (scan + [last]);
  }

  /** Every permitted change can commit: left alone, the transaction has a run to its commit, which
      by the lemma above then has exactly the requested effect. */
  lemma PermittedCommits(s: State, t: TxnId, r: Request, own: MemberId) returns (run: seq<Action>)
    requires Enabled(s, Begin(t, r, own)) && s.locks == map[] && Permitted(s, r, own)
    ensures forall a | a in run :: OwnStep(a, t)
    ensures ValidRun(Do(s, Begin(t, r, own)), run)
    ensures Enabled(After(Do(s, Begin(t, r, own)), run), Commit(t))
  {
    hide Allowed, LosesOwner, ValidRun, After;
    var s1 := Do(s, Begin(t, r, own));
    var a, b := LockActor(t, own), LockTarget(t);
    assert Enabled(s1, a);
    var s2 := Do(s1, a);
    assert Enabled(s2, b);
    var s3 := Do(s2, b);
    var rest: seq<Action> := [];
    if LosesOwner(r, s.members[r.target].role) {
      var other :| other != r.target && OwnerOf(s, other, r.org);
      assert OwnerOf(s3, other, r.org);
      rest := ClearedForCommit(s3, t);
    } else {
      EmptyRun(s3);
    }
    RunCons(s2, b, rest);
    RunCons(s1, a, [b] + rest);
    run := [a] + ([b] + rest);
  }

  // ----- The rules, role by role -----

  /** An undisturbed run of the transaction, from loading its actor to the point of commit. */
  ghost predicate ReachesCommit(s: State, t: TxnId, r: Request, own: MemberId, run: seq<Action>) {
    && Enabled(s, Begin(t, r, own)) && ValidRun(Do(s, Begin(t, r, own)), run) && (forall a | a in run :: OwnStep(a, t))
    && Enabled(After(Do(s, Begin(t, r, own)), run), Commit(t))
  }

  /** Owners may do anything to any member, administrators may keep or remove plain members, and plain
      members nothing; an owner who is demoted or removed must leave another one behind. */
  ghost predicate Legal(s: State, r: Request, own: MemberId) {
    && own in s.members && s.members[own].org == r.org && s.members[own].user == r.actor
    && r.target in s.members && s.members[r.target].org == r.org
    && (match s.members[own].role
        case Owner => true
        case Admin => s.members[r.target].role == Member && (r.Update? ==> r.newRole == Member)
        case Member => false)
    && (s.members[r.target].role == Owner && (r.Remove? || r.newRole != Owner) ==>
          exists other | other in s.members ::
            other != r.target && s.members[other].org == r.org && s.members[other].role == Owner)
  }

  lemma LegalIsPermitted(s: State, t: TxnId, r: Request, own: MemberId)
    requires t !in s.txns
    ensures Legal(s, r, own) <==> Enabled(s, Begin(t, r, own)) && Permitted(s, r, own)
  {
    if Legal(s, r, own) && LosesOwner(r, s.members[r.target].role) {
      var other :| other in s.members && other != r.target && s.members[other].org == r.org
        && s.members[other].role == Owner;
      assert OwnerOf(s, other, r.org);
    }
  }

  /** Undisturbed, a role change or removal can commit if and only if it is legal, and it then gives
      the target exactly the new role, or takes exactly the target away. */
  lemma ChangeCommitsIff(s: State, t: TxnId, r: Request, own: MemberId)
    requires t !in s.txns && s.locks == map[] && UniqueMembers(s)
    ensures (exists run :: ReachesCommit(s, t, r, own, run)) <==> Legal(s, r, own)
    ensures forall run | ReachesCommit(s, t, r, own, run) ::
      var members := Do(After(Do(s, Begin(t, r, own)), run), Commit(t)).members;
      && r.target in s.members
      && members == if r.Remove? then s.members - {r.target}
                    else s.members[r.target := s.members[r.target].(role := r.newRole)]
  {
    hide Legal, Permitted, Enabled, Do, ValidRun, After, UniqueMembers;
    LegalIsPermitted(s, t, r, own);
    if Legal(s, r, own) {
      var run := PermittedCommits(s, t, r, own);
      assert ReachesCommit(s, t, r, own, run);
    }
    forall run | ReachesCommit(s, t, r, own, run)
      ensures Legal(s, r, own) && r.target in s.members
      ensures Do(After(Do(s, Begin(t, r, own)), run), Commit(t)).members == Effect(s, r)
    {
      CommitsOnlyIfPermitted(s, t, r, own, run);
      TargetOfPermitted(s, r, own);
    }
  }

  lemma TargetOfPermitted(s: State, r: Request, own: MemberId)
    requires Permitted(s, r, own)
    ensures r.target in s.members
  {
  }
}
