/** Projects and memberships under tenant scoping: every query carries the organization in its
    filter. Ids of new rows come from the environment. */
module Projects {
  import opened Options
  import opened Roles
  import Owners

  type OrgId = nat
  type UserId = nat
  type Id = nat

  datatype ProjectStatus = Active | Archived
  datatype Project = Project(
    org: OrgId, name: string, description: Option<string>, status: ProjectStatus, createdBy: UserId, createdAt: int)

  /** `exclude_unset` changes: `None` leaves the field alone. */
  datatype Changes = Changes(name: Option<string>, description: Option<Option<string>>, status: Option<ProjectStatus>)

  datatype Membership = Membership(org: OrgId, user: UserId, role: Role)
  datatype Details =
    | NoDetails
    | Fields(names: seq<string>)
    | RoleChange(before: Role, after: Role)
    | Left(user: UserId, role: Role)
    | Joined(m: Id)

  datatype AuditRow = AuditRow(org: OrgId, actor: UserId, action: string, resource: Id, details: Details)

  datatype State = State(projects: map<Id, Project>, members: map<Id, Membership>, audit: seq<AuditRow>)

  datatype Request =
    | CreateProject(org: OrgId, actor: UserId, id: Id, name: string, description: Option<string>, at: int)
    | ListProjects(org: OrgId, actor: UserId)
    | GetProject(org: OrgId, actor: UserId, id: Id)
    | UpdateProject(org: OrgId, actor: UserId, id: Id, changes: Changes)
    | DeleteProject(org: OrgId, actor: UserId, id: Id)
    | AddMember(org: OrgId, id: Id, invitation: Id, user: UserId, role: Role)
    | UpdateMember(org: OrgId, actor: UserId, id: Id, newRole: Role)
    | RemoveMember(org: OrgId, actor: UserId, id: Id)

  /** A refusal carries the error code of the response. */
  datatype Answer =
    | Done
    | One(id: Id, project: Project)
    | Many(rows: seq<(Id, Project)>)
    | Joint(m: Id, membership: Membership)
    | Refused(code: string)

  // ----- Queries -----

  predicate IsMember(s: State, org: OrgId, user: UserId) {
    exists m | m in s.members :: s.members[m].org == org && s.members[m].user == user
  }

  /** A project as the scoped queries find it: by id and organization, for a member only. */
  predicate Finds(s: State, org: OrgId, actor: UserId, id: Id) {
    id in s.projects && s.projects[id].org == org && IsMember(s, org, actor)
  }

  predicate Before(a: (Id, Project), b: (Id, Project)) {
    a.1.createdAt < b.1.createdAt || (a.1.createdAt == b.1.createdAt && a.0 <= b.0)
  }

  ghost predicate IsFirst(rows: map<Id, Project>, id: Id)
    requires id in rows
  {
    forall other | other in rows :: Before((id, rows[id]), (other, rows[other]))
  }

  lemma {:induction false} FirstExists(rows: map<Id, Project>)
    requires rows != map[]
    ensures exists id :: id in rows && IsFirst(rows, id)
    decreases |rows|
  {
    var some :| some in rows;
    var rest := rows - {some};
    if rest == map[] {
      assert forall other | other in rows :: other == some || other in rest;
      assert IsFirst(rows, some);
    } else {
      FirstExists(rest);
      var id :| id in rest && IsFirst(rest, id);
      var least := if Before((some, rows[some]), (id, rows[id])) then some else id;
      assert forall other | other in rows :: other == some || other in rest;
      assert IsFirst(rows, least);
    }
  }

  /** Rows ordered by creation time, then id. */
  ghost function Listing(rows: map<Id, Project>): seq<(Id, Project)>
    decreases |rows|
  {
    if rows == map[] then []
    else
      FirstExists(rows);
      var id :| id in rows && IsFirst(rows, id);
      [(id, rows[id])] + Listing(rows - {id})
  }

  lemma {:induction false} ListingSorts(rows: map<Id, Project>)
    ensures |Listing(rows)| == |rows|
    ensures forall i | 0 <= i < |Listing(rows)| ::
      Listing(rows)[i].0 in rows && rows[Listing(rows)[i].0] == Listing(rows)[i].1
    ensures forall i, j | 0 <= i < j < |Listing(rows)| ::
      Before(Listing(rows)[i], Listing(rows)[j]) && Listing(rows)[i].0 != Listing(rows)[j].0
    decreases |rows|
  {
    if rows != map[] {
      var head := Listing(rows)[0];
      var rest := rows - {head.0};
      assert Listing(rows) == [head] + Listing(rest);
      assert rows.Keys == rest.Keys + {head.0};
      ListingSorts(rest);
    }
  }

  /** A listing holds every row exactly once, by creation time, and by id among equal times. */
  lemma ListingIsOrdered(rows: map<Id, Project>)
    ensures |Listing(rows)| == |rows|
    ensures forall i | 0 <= i < |Listing(rows)| ::
      Listing(rows)[i].0 in rows && rows[Listing(rows)[i].0] == Listing(rows)[i].1
    ensures forall i, j | 0 <= i < j < |Listing(rows)| ::
      var (a, p), (b, q) := Listing(rows)[i], Listing(rows)[j];
      p.createdAt < q.createdAt || (p.createdAt == q.createdAt && a < b)
  {
    hide Listing;
    ListingSorts(rows);
  }

  function ProjectsOf(s: State, org: OrgId): map<Id, Project> {
    map id | id in s.projects && s.projects[id].org == org :: s.projects[id]
  }

  function MembersOf(s: State, org: OrgId): map<Id, Membership> {
    map m | m in s.members && s.members[m].org == org :: s.members[m]
  }

  function AuditOf(audit: seq<AuditRow>, org: OrgId): seq<AuditRow> {
    if audit == [] then []
    else
      var last := audit[|audit| - 1];
      AuditOf(audit[..|audit| - 1], org) + if last.org == org then [last] else []
  }

  // ----- Requests -----

  function Changed(p: Project, c: Changes): Project {
    p.(name := if c.name.Some? then c.name.value else p.name,
       description := if c.description.Some? then c.description.value else p.description,
       status := if c.status.Some? then c.status.value else p.status)
  }

  /** The names of the fields given, sorted. */
  function FieldNames(c: Changes): seq<string> {
    (if c.description.Some? then ["description"] else []) + (if c.name.Some? then ["name"] else [])
    + if c.status.Some? then ["status"] else []
  }

  function Logged(s: State, row: AuditRow): State {
    s.(audit := s.audit + [row])
  }

  /** The role of the actor among the members of one organization. */
  ghost function ActorRole(members: map<Id, Membership>, actor: UserId): Option<Role> {
    if m: Id :| m in members && members[m].user == actor then Some(members[m].role) else None
  }

  predicate OtherOwner(members: map<Id, Membership>, id: Id) {
    exists m | m in members :: m != id && members[m].role == Owner
  }

  /** The rules of role changes and removals in their order: the code of the first one that is
      broken, if any. */
  ghost function Objection(members: map<Id, Membership>, actor: UserId, id: Id,
      change: Owners.Request): Option<string> {
    var role := ActorRole(members, actor);
    if role.None? then Some("forbidden")
    else if id !in members then Some("membership_not_found")
    else if !Owners.Allowed(change, role.value, members[id].role) then
      Some(if role.value != Admin then "forbidden"
           else if change.Update? then "membership_change_forbidden" else "membership_remove_forbidden")
    else if Owners.LosesOwner(change, members[id].role) && !OtherOwner(members, id) then Some("last_owner")
    else None
  }

  ghost function Do(s: State, r: Request): (State, Answer) {
    match r
    case CreateProject(org, actor, id, name, description, at) =>
      if !IsMember(s, org, actor) then (s, Refused("forbidden"))
      else if id in s.projects then (s, Refused("conflict"))
      else
        var p := Project(org, name, description, Active, actor, at);
        (Logged(s.(projects := s.projects[id := p]), AuditRow(org, actor, "project.created", id, NoDetails)),
            One(id, p))
    case ListProjects(org, actor) =>
      (s, Many(if IsMember(s, org, actor) then Listing(ProjectsOf(s, org)) else []))
    case GetProject(org, actor, id) =>
      (s, if Finds(s, org, actor, id) then One(id, s.projects[id]) else Refused("project_not_found"))
    case UpdateProject(org, actor, id, changes) =>
      if !Finds(s, org, actor, id) then (s, Refused("project_not_found"))
      else
        var p := Changed(s.projects[id], changes);
        (Logged(s.(projects := s.projects[id := p]),
            AuditRow(org, actor, "project.updated", id, Fields(FieldNames(changes)))),
         One(id, p))
    case DeleteProject(org, actor, id) =>
      if !Finds(s, org, actor, id) then (s, Refused("project_not_found"))
      else (Logged(s.(projects := s.projects - {id}), AuditRow(org, actor, "project.deleted", id, NoDetails)), Done)
    case AddMember(org, id, invitation, user, role) =>
      if id in s.members || IsMember(s, org, user) then (s, Refused("already_member"))
      else
        var m := Membership(org, user, role);
        (Logged(s.(members := s.members[id := m]),
            AuditRow(org, user, "invitation.accepted", invitation, Joined(id))), Joint(id, m))
    case UpdateMember(org, actor, id, newRole) =>
      var objection := Objection(MembersOf(s, org), actor, id, Owners.Update(org, id, actor, newRole));
      if objection.Some? then (s, Refused(objection.value))
      else
        var m := MembersOf(s, org)[id].(role := newRole);
        (Logged(s.(members := s.members[id := m]),
                AuditRow(org, actor, "member.role_changed", id, RoleChange(MembersOf(s, org)[id].role, newRole))),
         Joint(id, m))
    case RemoveMember(org, actor, id) =>
      var objection := Objection(MembersOf(s, org), actor, id, Owners.Remove(org, id, actor));
      if objection.Some? then (s, Refused(objection.value))
      else
        var m := MembersOf(s, org)[id];
        (Logged(s.(members := s.members - {id}), AuditRow(org, actor, "member.removed", id, Left(m.user, m.role))),
            Done)
  }

  ghost function After(s: State, run: seq<Request>): State
    decreases |run|
  {
    if run == [] then s else After(Do(s, run[0]).0, run[1..])
  }

  /** The answers to the requests on one organization, in order. */
  ghost function Answers(s: State, run: seq<Request>, org: OrgId): seq<Answer>
    decreases |run|
  {
    if run == [] then []
    else (if run[0].org == org then [Do(s, run[0]).1] else []) + Answers(Do(s, run[0]).0, run[1..], org)
  }

  function Only(run: seq<Request>, org: OrgId): seq<Request> {
    if run == [] then []
    else (if run[0].org == org then [run[0]] else []) + Only(run[1..], org)
  }

  /** New rows get ids that no row has had. */
  predicate FreshIds(used: set<Id>, run: seq<Request>)
    decreases |run|
  {
    run == [] ||
    (if run[0].CreateProject? || run[0].AddMember?
     then run[0].id !in used && FreshIds(used + {run[0].id}, run[1..])
     else FreshIds(used, run[1..]))
  }

  predicate Bounded(s: State, used: set<Id>) {
    s.projects.Keys <= used && s.members.Keys <= used
  }

  // ----- Noninterference -----

  /** What an organization's requests can see: its projects, its members, its audit rows. */
  ghost predicate SameView(s1: State, s2: State, org: OrgId) {
    && ProjectsOf(s1, org) == ProjectsOf(s2, org)
    && MembersOf(s1, org) == MembersOf(s2, org)
    && AuditOf(s1.audit, org) == AuditOf(s2.audit, org)
  }

  lemma AuditAppend(audit: seq<AuditRow>, row: AuditRow, org: OrgId)
    ensures AuditOf(audit + [row], org) == AuditOf(audit, org) + if row.org == org then [row] else []
  {
    assert (audit + [row])[..|audit|] == audit;
  }

  lemma AuditOnlyGrows(s: State, r: Request, org: OrgId)
    requires r.org != org
    ensures AuditOf(Do(s, r).0.audit, org) == AuditOf(s.audit, org)
  {
    hide Listing, AuditOf, IsMember, Objection, Changed, FieldNames;
    var audit := Do(s, r).0.audit;
    if audit != s.audit {
      assert audit == s.audit + [audit[|s.audit|]];
      AuditAppend(s.audit, audit[|s.audit|], org);
    }
  }

  /** A request on another organization changes nothing this one can see. */
  lemma OthersAreInvisible(s: State, r: Request, org: OrgId, used: set<Id>)
    requires r.org != org && Bounded(s, used)
    requires r.CreateProject? || r.AddMember? ==> r.id !in used
    ensures SameView(Do(s, r).0, s, org)
  {
    hide Listing, AuditOf, IsMember, Objection, FieldNames;
    AuditOnlyGrows(s, r, org);
    var s' := Do(s, r).0;
    if r.UpdateMember? {
      ObjectionMeans(MembersOf(s, r.org), r.actor, r.id, Owners.Update(r.org, r.id, r.actor, r.newRole));
    } else if r.RemoveMember? {
      ObjectionMeans(MembersOf(s, r.org), r.actor, r.id, Owners.Remove(r.org, r.id, r.actor));
    }
    assert ProjectsOf(s', org) == ProjectsOf(s, org);
    assert MembersOf(s', org) == MembersOf(s, org);
  }

  lemma SameMembers(s1: State, s2: State, org: OrgId)
    requires MembersOf(s1, org) == MembersOf(s2, org)
    ensures forall user :: IsMember(s1, org, user) <==> IsMember(s2, org, user)
    ensures forall m :: m in s1.members && s1.members[m].org == org <==> m in s2.members && s2.members[m].org == org
    ensures forall m | m in s1.members && s1.members[m].org == org :: s1.members[m] == s2.members[m]
  {
    assert forall m :: m in MembersOf(s1, org) <==> m in s1.members && s1.members[m].org == org;
    assert forall m :: m in MembersOf(s2, org) <==> m in s2.members && s2.members[m].org == org;
    assert forall m | m in MembersOf(s1, org) :: s1.members[m] == s2.members[m];
  }

  lemma SameProjects(s1: State, s2: State, org: OrgId)
    requires ProjectsOf(s1, org) == ProjectsOf(s2, org)
    ensures forall id ::
      id in s1.projects && s1.projects[id].org == org <==> id in s2.projects && s2.projects[id].org == org
    ensures forall id | id in s1.projects && s1.projects[id].org == org :: s1.projects[id] == s2.projects[id]
  {
    assert forall id :: id in ProjectsOf(s1, org) <==> id in s1.projects && s1.projects[id].org == org;
    assert forall id :: id in ProjectsOf(s2, org) <==> id in s2.projects && s2.projects[id].org == org;
    assert forall id | id in ProjectsOf(s1, org) :: s1.projects[id] == s2.projects[id];
  }

  /** A change that meets no objection concerns a member of the organization. */
  lemma ObjectionMeans(members: map<Id, Membership>, actor: UserId, id: Id, change: Owners.Request)
    ensures Objection(members, actor, id, change).None? ==> id in members
  {
    hide ActorRole, Owners.Allowed, Owners.LosesOwner, OtherOwner;
  }

  lemma PutProject(s1: State, s2: State, org: OrgId, id: Id, p: Project)
    requires SameView(s1, s2, org) && p.org == org
    ensures SameView(s1.(projects := s1.projects[id := p]), s2.(projects := s2.projects[id := p]), org)
  {
    hide AuditOf;
    var t1, t2 := s1.(projects := s1.projects[id := p]), s2.(projects := s2.projects[id := p]);
    assert ProjectsOf(t1, org) == ProjectsOf(s1, org)[id := p];
    assert ProjectsOf(t2, org) == ProjectsOf(s2, org)[id := p];
  }

  lemma DropProject(s1: State, s2: State, org: OrgId, id: Id)
    requires SameView(s1, s2, org)
    ensures SameView(s1.(projects := s1.projects - {id}), s2.(projects := s2.projects - {id}), org)
  {
    hide AuditOf;
    assert ProjectsOf(s1.(projects := s1.projects - {id}), org) == ProjectsOf(s1, org) - {id};
    assert ProjectsOf(s2.(projects := s2.projects - {id}), org) == ProjectsOf(s2, org) - {id};
  }

  lemma PutMember(s1: State, s2: State, org: OrgId, id: Id, m: Membership)
    requires SameView(s1, s2, org) && m.org == org
    ensures SameView(s1.(members := s1.members[id := m]), s2.(members := s2.members[id := m]), org)
  {
    hide AuditOf;
    assert MembersOf(s1.(members := s1.members[id := m]), org) == MembersOf(s1, org)[id := m];
    assert MembersOf(s2.(members := s2.members[id := m]), org) == MembersOf(s2, org)[id := m];
  }

  lemma DropMember(s1: State, s2: State, org: OrgId, id: Id)
    requires SameView(s1, s2, org)
    ensures SameView(s1.(members := s1.members - {id}), s2.(members := s2.members - {id}), org)
  {
    hide AuditOf;
    assert MembersOf(s1.(members := s1.members - {id}), org) == MembersOf(s1, org) - {id};
    assert MembersOf(s2.(members := s2.members - {id}), org) == MembersOf(s2, org) - {id};
  }

  lemma LogBoth(s1: State, s2: State, row: AuditRow)
    requires SameView(s1, s2, row.org)
    ensures SameView(Logged(s1, row), Logged(s2, row), row.org)
  {
    AuditAppend(s1.audit, row, row.org);
    AuditAppend(s2.audit, row, row.org);
  }

  lemma SameProjectStep(s1: State, s2: State, r: Request, used: set<Id>)
    requires SameView(s1, s2, r.org) && Bounded(s1, used) && Bounded(s2, used)
    requires !r.AddMember? && !r.UpdateMember? && !r.RemoveMember?
    requires r.CreateProject? ==> r.id !in used
    ensures Do(s1, r).1 == Do(s2, r).1
    ensures SameView(Do(s1, r).0, Do(s2, r).0, r.org)
  {
    hide SameView, Listing, IsMember, Objection, Changed, Logged, FieldNames;
    SameParts(s1, s2, r.org);
    SameMembers(s1, s2, r.org);
    SameProjects(s1, s2, r.org);
    match r {
      case CreateProject(org, actor, id, name, description, at) =>
        var p := Project(org, name, description, Active, actor, at);
        PutProject(s1, s2, org, id, p);
        LogBoth(s1.(projects := s1.projects[id := p]), s2.(projects := s2.projects[id := p]),
                AuditRow(org, actor, "project.created", id, NoDetails));
      case UpdateProject(org, actor, id, changes) =>
        if Finds(s1, org, actor, id) {
          var p := Changed(s1.projects[id], changes);
          ChangedOrg(s1.projects[id], changes);
          PutProject(s1, s2, org, id, p);
          LogBoth(s1.(projects := s1.projects[id := p]), s2.(projects := s2.projects[id := p]),
                  AuditRow(org, actor, "project.updated", id, Fields(FieldNames(changes))));
        }
      case DeleteProject(org, actor, id) =>
        DropProject(s1, s2, org, id);
        LogBoth(s1.(projects := s1.projects - {id}), s2.(projects := s2.projects - {id}),
                AuditRow(org, actor, "project.deleted", id, NoDetails));
      case _ =>
    }
  }

  lemma SameParts(s1: State, s2: State, org: OrgId)
    requires SameView(s1, s2, org)
    ensures ProjectsOf(s1, org) == ProjectsOf(s2, org) && MembersOf(s1, org) == MembersOf(s2, org)
  {
  }

  lemma ChangedOrg(p: Project, c: Changes)
    ensures Changed(p, c).org == p.org
  {
  }

  lemma SameMemberStep(s1: State, s2: State, r: Request, used: set<Id>)
    requires SameView(s1, s2, r.org) && Bounded(s1, used) && Bounded(s2, used)
    requires r.AddMember? || r.UpdateMember? || r.RemoveMember?
    requires r.AddMember? ==> r.id !in used
    ensures Do(s1, r).1 == Do(s2, r).1
    ensures SameView(Do(s1, r).0, Do(s2, r).0, r.org)
  {
    hide SameView, IsMember, Logged, Objection, MembersOf;
    SameParts(s1, s2, r.org);
    var members := MembersOf(s1, r.org);
    match r {
      case AddMember(org, id, invitation, user, role) =>
        SameMembers(s1, s2, org);
        var m := Membership(org, user, role);
        PutMember(s1, s2, org, id, m);
        LogBoth(s1.(members := s1.members[id := m]), s2.(members := s2.members[id := m]),
                AuditRow(org, user, "invitation.accepted", invitation, Joined(id)));
      case UpdateMember(org, actor, id, newRole) =>
        ObjectionMeans(members, actor, id, Owners.Update(org, id, actor, newRole));
        if Objection(members, actor, id, Owners.Update(org, id, actor, newRole)).None? {
          var m := members[id].(role := newRole);
          MemberOrg(s1, org, id);
          PutMember(s1, s2, org, id, m);
          LogBoth(s1.(members := s1.members[id := m]), s2.(members := s2.members[id := m]),
                  AuditRow(org, actor, "member.role_changed", id, RoleChange(members[id].role, newRole)));
        }
      case RemoveMember(org, actor, id) =>
        ObjectionMeans(members, actor, id, Owners.Remove(org, id, actor));
        if Objection(members, actor, id, Owners.Remove(org, id, actor)).None? {
          DropMember(s1, s2, org, id);
          LogBoth(s1.(members := s1.members - {id}), s2.(members := s2.members - {id}),
                  AuditRow(org, actor, "member.removed", id, Left(members[id].user, members[id].role)));
        }
      case _ =>
    }
  }

  lemma MemberOrg(s: State, org: OrgId, id: Id)
    requires id in MembersOf(s, org)
    ensures MembersOf(s, org)[id].org == org
  {
  }

  lemma StepBounded(s: State, r: Request, used: set<Id>)
    requires Bounded(s, used)
    ensures Bounded(Do(s, r).0, if r.CreateProject? || r.AddMember? then used + {r.id} else used)
  {
    hide Listing, IsMember, Objection, Changed, FieldNames;
    if r.UpdateMember? {
      ObjectionMeans(MembersOf(s, r.org), r.actor, r.id, Owners.Update(r.org, r.id, r.actor, r.newRole));
    }
  }

  /** Tenant noninterference: in every run, the requests on an organization get the same answers,
      and leave it the same projects, members and audit rows, as in the run from which all
      requests to other organizations are removed. */
  lemma {:induction false} TenantNoninterference(s1: State, s2: State, used: set<Id>, run: seq<Request>, org: OrgId)
    requires SameView(s1, s2, org) && Bounded(s1, used) && Bounded(s2, used) && FreshIds(used, run)
    ensures Answers(s1, run, org) == Answers(s2, Only(run, org), org)
    ensures SameView(After(s1, run), After(s2, Only(run, org)), org)
    decreases |run|
  {
    hide SameView, Do, Bounded;
    if run != [] {
      var r, rest := run[0], run[1..];
      var used' := if r.CreateProject? || r.AddMember? then used + {r.id} else used;
      StepBounded(s1, r, used);
      StepBounded(s2, r, used);
      assert FreshIds(used', rest);
      if r.org == org {
        if r.AddMember? || r.UpdateMember? || r.RemoveMember? {
          SameMemberStep(s1, s2, r, used);
        } else {
          SameProjectStep(s1, s2, r, used);
        }
        assert Only(run, org) == [r] + Only(rest, org) && ([r] + Only(rest, org))[1..] == Only(rest, org);
        TenantNoninterference(Do(s1, r).0, Do(s2, r).0, used', rest, org);
      } else {
        OthersAreInvisible(s1, r, org, used);
        Transit(Do(s1, r).0, s1, s2, org);
        GrowBound(s2, used, used');
        TenantNoninterference(Do(s1, r).0, s2, used', rest, org);
        assert Only(run, org) == Only(rest, org);
      }
    }
  }

  lemma Transit(a: State, b: State, c: State, org: OrgId)
    requires SameView(a, b, org) && SameView(b, c, org)
    ensures SameView(a, c, org)
  {
  }

  lemma GrowBound(s: State, used: set<Id>, more: set<Id>)
    requires Bounded(s, used) && used <= more
    ensures Bounded(s, more)
  {
  }

  // ----- What the requests do for their own organization -----

  lemma {:induction false} ListingIsComplete(rows: map<Id, Project>, id: Id)
    requires id in rows
    ensures (id, rows[id]) in Listing(rows)
    decreases |rows|
  {
    var head := Listing(rows)[0];
    var rest := rows - {head.0};
    assert Listing(rows) == [head] + Listing(rest);
    if id != head.0 {
      ListingIsComplete(rest, id);
      assert (id, rest[id]) in Listing(rest);
    }
  }

  /** Outsiders change nothing and learn nothing: whatever they ask of projects, the state stays
      and the answer is that of an organization without projects. */
  lemma OutsidersLearnNothing(s: State, r: Request)
    requires r.CreateProject? || r.ListProjects? || r.GetProject? || r.UpdateProject? || r.DeleteProject?
    requires forall m | m in s.members && s.members[m].org == r.org :: s.members[m].user != r.actor
    ensures Do(s, r).0 == s
    ensures Do(s, r).1 == Do(s.(projects := map[]), r).1
  {
    hide Listing;
  }

  /** Round trip of a project: once created, every member finds it as it was given, alone and in
      the listing, and other organizations do not; an update changes the given fields alone;
      deleting it restores the projects as they were. Each of the three leaves one audit row. */
  lemma ProjectLifecycle(s: State, org: OrgId, actor: UserId, reader: UserId, id: Id,
                         name: string, description: Option<string>, at: int, changes: Changes)
    requires id !in s.projects
    requires exists m | m in s.members :: s.members[m].org == org && s.members[m].user == actor
    requires exists m | m in s.members :: s.members[m].org == org && s.members[m].user == reader
    ensures var p := Project(org, name, description, Active, actor, at);
      var s1 := Do(s, CreateProject(org, actor, id, name, description, at)).0;
      var s2 := Do(s1, UpdateProject(org, reader, id, changes)).0;
      var s3 := Do(s2, DeleteProject(org, reader, id)).0;
      && Do(s1, GetProject(org, reader, id)).1 == One(id, p)
      && (forall other, user | other != org :: Do(s1, GetProject(other, user, id)).1 == Refused("project_not_found"))
      && Do(s1, ListProjects(org, reader)).1.Many? && (id, p) in Do(s1, ListProjects(org, reader)).1.rows
      && Do(s2, GetProject(org, reader, id)).1 == One(id, Project(
           org, match changes.name case Some(given) => given case None => name,
           match changes.description case Some(given) => given case None => description,
           match changes.status case Some(given) => given case None => Active, actor, at))
      && Do(s3, GetProject(org, reader, id)).1 == Refused("project_not_found")
      && s3.projects == s.projects && s3.members == s.members
      && s3.audit == s.audit + [AuditRow(org, actor, "project.created", id, NoDetails),
                                AuditRow(org, reader, "project.updated", id, Fields(FieldNames(changes))),
                                AuditRow(org, reader, "project.deleted", id, NoDetails)]
  {
    var s1 := Do(s, CreateProject(org, actor, id, name, description, at)).0;
    var s2 := Do(s1, UpdateProject(org, reader, id, changes)).0;
    var s3 := Do(s2, DeleteProject(org, reader, id)).0;
    hide Listing;
    SameMembership(s, s1, org, reader);
    SameMembership(s, s2, org, reader);
    ListingIsComplete(ProjectsOf(s1, org), id);
    assert s3.projects == s.projects;
  }

  /** The audit row of an update names exactly the fields given, in alphabetical order. */
  lemma FieldNamesMean(c: Changes)
    ensures "description" in FieldNames(c) <==> c.description.Some?
    ensures "name" in FieldNames(c) <==> c.name.Some?
    ensures "status" in FieldNames(c) <==> c.status.Some?
    ensures forall name | name in FieldNames(c) :: name in ["description", "name", "status"]
    ensures forall i, j | 0 <= i < j < |FieldNames(c)| :: FieldNames(c)[i][0] < FieldNames(c)[j][0]
  {
    assert "description"[0] == 'd' && "name"[0] == 'n' && "status"[0] == 's';
  }

  // ----- What the membership requests do -----

  predicate OneRowEach(members: map<Id, Membership>) {
    forall a, b | a in members && b in members && a != b :: members[a].user != members[b].user
  }

  /** The rules in their order. A stranger is refused first, then an unknown membership; a plain member
      may do nothing; an administrator may keep or remove plain members; and the last owner stays. */
  lemma ObjectionIs(members: map<Id, Membership>, own: Id, actor: UserId, id: Id, change: Owners.Request)
    requires OneRowEach(members) && own in members && members[own].user == actor
    ensures Objection(members, actor, id, change) ==
      if id !in members then Some("membership_not_found")
      else if members[own].role == Member then Some("forbidden")
      else if members[own].role == Admin
              && (members[id].role != Member || (change.Update? && change.newRole != Member)) then
        Some(if change.Update? then "membership_change_forbidden" else "membership_remove_forbidden")
      else if members[id].role == Owner && (change.Remove? || change.newRole != Owner)
              && (forall m | m in members && m != id :: members[m].role != Owner) then Some("last_owner")
      else None
  {
    ActorRoleIs(members, own, actor);
    hide ActorRole, OneRowEach;
  }

  lemma ActorRoleIs(members: map<Id, Membership>, own: Id, actor: UserId)
    requires OneRowEach(members) && own in members && members[own].user == actor
    ensures ActorRole(members, actor) == Some(members[own].role)
  {
  }

  lemma StrangerIsRefused(members: map<Id, Membership>, actor: UserId, id: Id, change: Owners.Request)
    requires forall m | m in members :: members[m].user != actor
    ensures Objection(members, actor, id, change) == Some("forbidden")
  {
  }

  /** Round trip of a membership: a user joins, an owner gives it any other role and removes it again.
      The members are then as before, and each of the three has left one audit row. */
  lemma MembershipLifecycle(s: State, org: OrgId, own: Id, actor: UserId, id: Id, invitation: Id, user: UserId,
                            role: Role, newRole: Role)
    requires id !in s.members && own in s.members && s.members[own] == Membership(org, actor, Owner)
    requires OneRowEach(MembersOf(s, org))
    requires forall m | m in s.members && s.members[m].org == org :: s.members[m].user != user
    ensures var s1 := Do(s, AddMember(org, id, invitation, user, role)).0;
      var s2 := Do(s1, UpdateMember(org, actor, id, newRole)).0;
      var s3 := Do(s2, RemoveMember(org, actor, id)).0;
      && s1.members == s.members[id := Membership(org, user, role)]
      && s2.members == s.members[id := Membership(org, user, newRole)]
      && s3.members == s.members && s3.projects == s.projects
      && s3.audit == s.audit + [AuditRow(org, user, "invitation.accepted", invitation, Joined(id)),
                                AuditRow(org, actor, "member.role_changed", id, RoleChange(role, newRole)),
                                AuditRow(org, actor, "member.removed", id, Left(user, newRole))]
  {
    var s1 := Do(s, AddMember(org, id, invitation, user, role)).0;
    var s2 := Do(s1, UpdateMember(org, actor, id, newRole)).0;
    JoinedMembers(s, s1, org, own, id, user);
    ObjectionIs(MembersOf(s1, org), own, actor, id, Owners.Update(org, id, actor, newRole));
    JoinedMembers(s, s2, org, own, id, user);
    ObjectionIs(MembersOf(s2, org), own, actor, id, Owners.Remove(org, id, actor));
    hide Objection, MembersOf, OneRowEach;
    assert s2.members - {id} == s.members;
  }

  /** A member who joins again is refused, and nothing changes. */
  lemma JoiningTwiceIsRefused(s: State, org: OrgId, own: Id, id: Id, invitation: Id, user: UserId, role: Role)
    requires own in s.members && s.members[own].org == org && s.members[own].user == user
    ensures Do(s, AddMember(org, id, invitation, user, role)) == (s, Refused("already_member"))
  {
  }

  lemma JoinedMembers(s: State, s': State, org: OrgId, own: Id, id: Id, user: UserId)
    requires id !in s.members && own in s.members && s.members[own].org == org && OneRowEach(MembersOf(s, org))
    requires forall m | m in s.members && s.members[m].org == org :: s.members[m].user != user
    requires id in s'.members && s'.members == s.members[id := s'.members[id]]
    requires s'.members[id].org == org && s'.members[id].user == user
    ensures var members := MembersOf(s', org);
      && OneRowEach(members) && own in members && own != id && members[own] == s.members[own]
      && id in members && members[id] == s'.members[id]
  {
    var members, before := MembersOf(s', org), MembersOf(s, org);
    assert forall m | m in members && m != id :: m in before && before[m] == members[m];
  }

  lemma SameMembership(s: State, s': State, org: OrgId, user: UserId)
    requires s'.members == s.members
    ensures IsMember(s', org, user) == IsMember(s, org, user)
  {
  }
}
