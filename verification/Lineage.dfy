/** Where privileges come from in interleaved runs: every transaction of `Invitations`, with the
    actor's row loaded before it is locked and perhaps stale. `Provenance` has the serial runs. */
module Lineage {
  import opened Options
  import opened Roles
  import opened Invitations

  /** The state before step `n` of a run. */
  function At(s: State, run: seq<Action>, n: nat): State
    requires ValidRun(s, run) && n <= |run|
    decreases n
  {
    if n == 0 then s else At(Do(s, run[0]), run[1..], n - 1)
  }

  lemma {:induction false} AtEnd(s: State, run: seq<Action>)
    requires ValidRun(s, run)
    ensures At(s, run, |run|) == After(s, run)
    decreases |run|
  {
    hide Enabled, Do;
    if run != [] {
      AtEnd(Do(s, run[0]), run[1..]);
    }
  }

  lemma {:induction false} AtStep(s: State, run: seq<Action>, n: nat)
    requires ValidRun(s, run) && n < |run|
    ensures Enabled(At(s, run, n), run[n]) && At(s, run, n + 1) == Do(At(s, run, n), run[n])
    decreases n
  {
    hide Enabled, Do;
    var s', rest := Do(s, run[0]), run[1..];
    if n > 0 {
      assert At(s, run, n) == At(s', rest, n - 1) && At(s, run, n + 1) == At(s', rest, n) && run[n] == rest[n - 1];
      AtStep(s', rest, n - 1);
    } else {
      assert At(s, run, 1) == At(s', rest, 0);
    }
  }

  lemma {:induction false} AtKeeps(s: State, run: seq<Action>, n: nat)
    requires Init(s) && ValidRun(s, run) && n <= |run|
    ensures Inv(At(s, run, n))
    decreases n
  {
    hide Enabled, Do, Inv, ValidRun;
    if n == 0 {
      InitEstablishes(s);
    } else {
      AtKeeps(s, run, n - 1);
      AtStep(s, run, n - 1);
      StepKeeps(At(s, run, n - 1), run[n - 1]);
    }
  }

  // ----- What one step does -----

  predicate SameActor(x: Txn, y: Txn) {
    && !x.Accepting? && !y.Accepting?
    && x.org == y.org && x.actor == y.actor && x.own == y.own && x.belief == y.belief
  }

  /** A transaction was there before the step, with the same actor, or the step began it. */
  lemma TxnStep(s: State, a: Action, t: TxnId)
    requires Enabled(s, a) && t in Do(s, a).txns && !Do(s, a).txns[t].Accepting?
    ensures var txn := Do(s, a).txns[t];
      if a == Begin(t, txn) then JustLoaded(s.db, txn) && ActsAs(txn).None?
      else
        && t in s.txns && SameActor(s.txns[t], txn)
        && (ActsAs(s.txns[t]) != ActsAs(txn) ==>
              && ActsAs(txn).Some? && a == LockActor(t, ActsAs(txn).value.row)
              && var Sight(m, shown) := ActsAs(txn).value;
                 && m in s.db.members && shown == Seen(s.db, txn, m)
                 && s.db.members[m] == Membership(txn.org, txn.actor, s.db.members[m].role))
  {
    hide CheckedOk, AddressIsFree, MayInvite, MayUpdate, IsMember, Changed;
  }

  /** A row that was not there before the step, or not with this role, is the founder's, has had its
      role changed, or has come from an invitation. */
  lemma RowStep(s: State, a: Action, m: MemberId)
    requires Inv(s) && Enabled(s, a) && m in Do(s, a).db.members
    requires m !in s.db.members || s.db.members[m] != Do(s, a).db.members[m]
    ensures var row := Do(s, a).db.members[m];
      || (a == CreateOrg(row.org, m, row.user) && row.role == Owner)
      || (&& a.CommitChange? && m in s.db.members && s.db.members[m].(role := row.role) == row
          && a.t in s.txns && ActsAs(s.txns[a.t]).Some? && s.txns[a.t].Changing?
          && s.txns[a.t].target == m && s.txns[a.t].role == row.role && s.txns[a.t].org == row.org
          && exists seen :: MayUpdate(ActsAs(s.txns[a.t]).value.role, seen, row.role))
      || (&& a.CommitAccept? && a.m == m && a.t in s.txns && s.txns[a.t].Accepting?
          && s.txns[a.t].id in s.db.invitations && s.txns[a.t].user == row.user
          && var i := s.db.invitations[s.txns[a.t].id]; row == Membership(i.org, row.user, i.role))
  {
    hide CheckedOk, AddressIsFree, MayInvite, MayUpdate, IsMember, InvitationsOk, MembersOk;
    if a.CommitChange? || a.CommitAccept? {
      assert TxnOk(s, a.t);
    }
  }

  /** An invitation that was not there before the step is created by it. */
  lemma InvitationStep(s: State, a: Action, id: InvitationId)
    requires Inv(s) && Enabled(s, a) && id in Do(s, a).db.invitations
    ensures var i := Do(s, a).db.invitations[id];
      if id in s.db.invitations then i == s.db.invitations[id].(accepted := i.accepted)
      else
        && a.CommitCreate? && a.id == id && a.t in s.txns && s.txns[a.t].Creating? && ActsAs(s.txns[a.t]).Some?
        && s.txns[a.t].org == i.org && s.txns[a.t].role == i.role
        && MayInvite(ActsAs(s.txns[a.t]).value.role, i.role)
  {
    hide CheckedOk, AddressIsFree, MayInvite, MayUpdate, IsMember, InvitationsOk, MembersOk;
    if a.CommitCreate? || a.CommitAccept? {
      assert TxnOk(s, a.t);
    }
  }

  // ----- Who has been seen as an owner, and when -----

  predicate Spans(s: State, run: seq<Action>, j: nat, n: nat, t: TxnId)
    requires ValidRun(s, run) && n <= |run|
  {
    forall i | j < i <= n :: t in At(s, run, i).txns
  }

  /** Step `j` of the transaction that is `t` before step `n` loaded or locked the row, which then
      belonged to its actor as OWNER. */
  predicate SawOwner(s: State, run: seq<Action>, j: nat, n: nat, t: TxnId, m: MemberId)
    requires ValidRun(s, run) && n <= |run| && t in At(s, run, n).txns && !At(s, run, n).txns[t].Accepting?
  {
    && j < n && Spans(s, run, j, n, t)
    && ((run[j].Begin? && run[j].t == t && !run[j].txn.Accepting? && run[j].txn.own == m) || run[j] == LockActor(t, m))
    && m in At(s, run, j).db.members
    && var txn := At(s, run, n).txns[t]; At(s, run, j).db.members[m] == Membership(txn.org, txn.actor, Owner)
  }

  /** A session that believes its own row an OWNER loaded it so. */
  lemma {:induction false} LoadedAt(s: State, run: seq<Action>, n: nat, t: TxnId) returns (j: nat)
    requires ValidRun(s, run) && n <= |run| && Init(s)
    requires t in At(s, run, n).txns && !At(s, run, n).txns[t].Accepting? && At(s, run, n).txns[t].belief == Owner
    ensures SawOwner(s, run, j, n, t, At(s, run, n).txns[t].own)
    decreases n
  {
    hide Enabled, Do, ValidRun;
    var now, before, a := At(s, run, n), At(s, run, n - 1), run[n - 1];
    AtStep(s, run, n - 1);
    TxnStep(before, a, t);
    if a == Begin(t, now.txns[t]) {
      j := n - 1;
    } else {
      j := LoadedAt(s, run, n - 1, t);
    }
  }

  /** A transaction that shows its actor as OWNER saw the row as an OWNER's, when the session
      loaded it or when it was locked. */
  lemma {:induction false} SeenAt(s: State, run: seq<Action>, n: nat, t: TxnId, m: MemberId) returns (j: nat)
    requires ValidRun(s, run) && n <= |run| && Init(s)
    requires t in At(s, run, n).txns && ActsAs(At(s, run, n).txns[t]) == Some(Sight(m, Owner))
    ensures SawOwner(s, run, j, n, t, m)
    decreases n
  {
    hide Enabled, Do, ValidRun;
    var now, before, a := At(s, run, n), At(s, run, n - 1), run[n - 1];
    AtStep(s, run, n - 1);
    TxnStep(before, a, t);
    if ActsAs(before.txns[t]) == ActsAs(now.txns[t]) {
      j := SeenAt(s, run, n - 1, t, m);
    } else if m == now.txns[t].own {
      j := LoadedAt(s, run, n, t);
    } else {
      j := n - 1;
    }
  }

  // ----- Lineage -----

  /** How a row came by a role: by founding the organization; by the role change committed at `k`;
      by the invitation committed at `k` and accepted at `i`. The granter's row was seen as an
      OWNER's at step `j`, and `via` is how it had become one. */
  datatype Path =
    | Founded(k: nat)
    | Promoted(k: nat, granter: MemberId, j: nat, via: Path)
    | Joined(k: nat, i: nat, granter: MemberId, j: nat, via: Path)

  /** The transaction that commits at `k` acts on the granter's row, and has seen it as an OWNER's. */
  ghost predicate ByOwner(s: State, run: seq<Action>, k: nat, org: OrgId, granter: MemberId, j: nat, via: Path)
    requires ValidRun(s, run) && k < |run|
    decreases via, 1
  {
    && IsCommit(run[k]) && run[k].t in At(s, run, k).txns
    && var txn := At(s, run, k).txns[run[k].t];
       && !txn.Accepting? && txn.org == org && ActsAs(txn) == Some(Sight(granter, Owner))
       && SawOwner(s, run, j, k, run[k].t, granter)
       && Traces(s, run, j, granter, Membership(org, txn.actor, Owner), via)
  }

  /** The path accounts for the row with steps before `n`, back to the founder. */
  ghost predicate Traces(s: State, run: seq<Action>, n: nat, m: MemberId, row: Membership, path: Path)
    requires ValidRun(s, run) && n <= |run|
    decreases path, 0
  {
    match path
    case Founded(k) => k < n && run[k] == CreateOrg(row.org, m, row.user) && row.role == Owner
    case Promoted(k, granter, j, via) =>
      && k < n && ByOwner(s, run, k, row.org, granter, j, via)
      && run[k].CommitChange? && At(s, run, k).txns[run[k].t].Changing?
      && At(s, run, k).txns[run[k].t].target == m && At(s, run, k).txns[run[k].t].role == row.role
      && m in At(s, run, k).db.members && At(s, run, k).db.members[m].(role := row.role) == row
    case Joined(k, i, granter, j, via) =>
      && k < i < n && ByOwner(s, run, k, row.org, granter, j, via)
      && run[k].CommitCreate? && At(s, run, k).txns[run[k].t].role == row.role
      && run[i].CommitAccept? && run[i].m == m
      && run[i].t in At(s, run, i).txns
      && var accept := At(s, run, i).txns[run[i].t];
         accept.Accepting? && accept.id == run[k].id && accept.user == row.user
  }

  ghost predicate InviteTraces(s: State, run: seq<Action>, n: nat, id: InvitationId, i: Invitation, k: nat,
      granter: MemberId, j: nat, via: Path)
    requires ValidRun(s, run) && n <= |run|
  {
    && k < n && ByOwner(s, run, k, i.org, granter, j, via)
    && run[k] == CommitCreate(run[k].t, id) && At(s, run, k).txns[run[k].t].role == i.role
  }

  /** In every interleaved run, every invitation to a privileged role was committed by a transaction
      that had seen its actor's row as an OWNER's, and that row traces back in turn. */
  lemma {:induction false} InvitationLineage(s: State, run: seq<Action>, n: nat, id: InvitationId)
    returns (k: nat, granter: MemberId, j: nat, via: Path)
    requires Init(s) && ValidRun(s, run) && n <= |run|
    requires id in At(s, run, n).db.invitations && At(s, run, n).db.invitations[id].role != Member
    ensures InviteTraces(s, run, n, id, At(s, run, n).db.invitations[id], k, granter, j, via)
    decreases n, 0
  {
    hide Enabled, Do, ValidRun, Inv, SawOwner;
    var before, a := At(s, run, n - 1), run[n - 1];
    AtStep(s, run, n - 1);
    AtKeeps(s, run, n - 1);
    InvitationStep(before, a, id);
    if id in before.db.invitations {
      k, granter, j, via := InvitationLineage(s, run, n - 1, id);
    } else {
      k, granter := n - 1, ActsAs(before.txns[a.t]).value.row;
      j, via := GranterLineage(s, run, k, granter);
    }
  }

  /** In every interleaved run and at every step of it, every OWNER or ADMIN role traces, through
      role changes and accepted invitations of one organization, back to its founder. Each was
      committed for a row that was an OWNER's when the session loaded it or when it was locked. */
  lemma {:induction false} RoleLineage(s: State, run: seq<Action>, n: nat, m: MemberId) returns (path: Path)
    requires Init(s) && ValidRun(s, run) && n <= |run|
    requires m in At(s, run, n).db.members && At(s, run, n).db.members[m].role != Member
    ensures Traces(s, run, n, m, At(s, run, n).db.members[m], path)
    decreases n, 1
  {
    hide Enabled, Do, ValidRun, Inv, SawOwner;
    var now, before, a := At(s, run, n), At(s, run, n - 1), run[n - 1];
    AtStep(s, run, n - 1);
    AtKeeps(s, run, n - 1);
    if m in before.db.members && before.db.members[m] == now.db.members[m] {
      path := RoleLineage(s, run, n - 1, m);
    } else {
      RowStep(before, a, m);
      if a.CreateOrg? {
        path := Founded(n - 1);
      } else if a.CommitChange? {
        var granter := ActsAs(before.txns[a.t]).value.row;
        var j, via := GranterLineage(s, run, n - 1, granter);
        path := Promoted(n - 1, granter, j, via);
      } else {
        var k, granter, j, via := InvitationLineage(s, run, n - 1, before.txns[a.t].id);
        path := Joined(k, n - 1, granter, j, via);
      }
    }
  }

  lemma {:induction false} GranterLineage(s: State, run: seq<Action>, k: nat, granter: MemberId)
    returns (j: nat, via: Path)
    requires Init(s) && ValidRun(s, run) && k < |run|
    requires IsCommit(run[k]) && run[k].t in At(s, run, k).txns
    requires ActsAs(At(s, run, k).txns[run[k].t]) == Some(Sight(granter, Owner))
    ensures ByOwner(s, run, k, At(s, run, k).txns[run[k].t].org, granter, j, via)
    decreases k, 2
  {
    hide Enabled, Do, ValidRun, Inv;
    j := SeenAt(s, run, k, run[k].t, granter);
    via := RoleLineage(s, run, j, granter);
  }

  lemma PrivilegeHasLineage(s: State, run: seq<Action>, m: MemberId) returns (path: Path)
    requires Init(s) && ValidRun(s, run)
    requires m in After(s, run).db.members && After(s, run).db.members[m].role != Member
    ensures Traces(s, run, |run|, m, After(s, run).db.members[m], path)
  {
    AtEnd(s, run);
    path := RoleLineage(s, run, |run|, m);
  }
}
