/**
 * The tenancy tables (packages/db/src/schema/tenancy.ts), the identity-provider events that
 * write them (apps/control-plane/src/webhooks/provisioning.ts), and the resolver that reads them
 * (apps/control-plane/src/auth/principal-resolver.ts).
 */
module Provisioning {
  import opened Basics
  import opened StableSort
  import opened Policy

  type Id = nat

  datatype OrgRow = OrgRow(name: Text, slug: Text, externalId: Option<Text>)

  datatype UserRow = UserRow(organizationId: Id, email: Text, displayName: Text, externalId: Option<Text>)

  datatype TeamRow = TeamRow(organizationId: Id, name: Text)

  datatype ProjectRow = ProjectRow(organizationId: Id, name: Text, scope: Scope)

  datatype MembershipRow = MembershipRow(organizationId: Id, userId: Id, teamId: Option<Id>, role: Role)

  datatype ProjectMembershipRow = ProjectMembershipRow(organizationId: Id, projectId: Id, userId: Id)

  /** A row of some other table that refers to a user through `(organization_id, user_id)`. */
  datatype Reference = Reference(organizationId: Id, userId: Id)

  /** `nextId` and everything above it has never been handed out by `randomUUID`. */
  datatype Tables = Tables(
    orgs: map<Id, OrgRow>,
    users: map<Id, UserRow>,
    teams: map<Id, TeamRow>,
    projects: map<Id, ProjectRow>,
    memberships: seq<MembershipRow>,
    projectMemberships: seq<ProjectMembershipRow>,
    references: seq<Reference>,
    nextId: Id
  )

  // ---------------------------------------------------------------- declared constraints

  predicate OrgsUnique(orgs: map<Id, OrgRow>) {
    forall a, b :: a in orgs && b in orgs && a != b ==>
                     && orgs[a].slug != orgs[b].slug
                     && (orgs[a].externalId.Some? ==> orgs[a].externalId != orgs[b].externalId)
  }

  predicate UsersUnique(users: map<Id, UserRow>) {
    forall a, b :: a in users && b in users && a != b ==>
                     && !(users[a].organizationId == users[b].organizationId && users[a].email == users[b].email)
                     && (users[a].externalId.Some? ==> users[a].externalId != users[b].externalId)
  }

  /** The composite foreign key `(organization_id, user_id)` into `users`. */
  predicate InTenant(users: map<Id, UserRow>, organizationId: Id, userId: Id) {
    userId in users && users[userId].organizationId == organizationId
  }

  predicate UsersInOrgs(t: Tables) {
    forall u :: u in t.users ==> t.users[u].organizationId in t.orgs
  }

  predicate TeamsAndProjectsInOrgs(t: Tables) {
    && (forall x :: x in t.teams ==> t.teams[x].organizationId in t.orgs)
    && (forall x :: x in t.projects ==> t.projects[x].organizationId in t.orgs)
  }

  /** The composite foreign key `(organization_id, team_id)`, skipped when there is no team. */
  predicate TeamRowsInTenants(teams: map<Id, TeamRow>, ms: seq<MembershipRow>) {
    forall i :: 0 <= i < |ms| && ms[i].teamId.Some? ==>
                  ms[i].teamId.value in teams && teams[ms[i].teamId.value].organizationId == ms[i].organizationId
  }

  /** The composite foreign key `(organization_id, project_id)`, and one row per project and user. */
  predicate ProjectRowsInTenants(projects: map<Id, ProjectRow>, ms: seq<ProjectMembershipRow>) {
    && (forall i :: 0 <= i < |ms| ==> ms[i].projectId in projects && projects[ms[i].projectId].organizationId == ms[i].organizationId)
    && (forall i, j :: 0 <= i < j < |ms| ==> ms[i].projectId != ms[j].projectId || ms[i].userId != ms[j].userId)
  }

  predicate RowsInTenants(t: Tables) {
    && (forall i :: 0 <= i < |t.memberships| ==> InTenant(t.users, t.memberships[i].organizationId, t.memberships[i].userId))
    && (forall i :: 0 <= i < |t.projectMemberships| ==>
                      InTenant(t.users, t.projectMemberships[i].organizationId, t.projectMemberships[i].userId))
    && (forall i :: 0 <= i < |t.references| ==> InTenant(t.users, t.references[i].organizationId, t.references[i].userId))
  }

  /** Unique on `(user_id, team_id)`; rows without a team never clash. */
  predicate TeamsUnique(memberships: seq<MembershipRow>) {
    forall i, j :: 0 <= i < j < |memberships| ==>
                     !(&& memberships[i].userId == memberships[j].userId
                       && memberships[i].teamId.Some?
                       && memberships[i].teamId == memberships[j].teamId)
  }

  predicate Constraints(t: Tables) {
    && OrgsUnique(t.orgs)
    && UsersUnique(t.users)
    && UsersInOrgs(t)
    && RowsInTenants(t)
    && TeamsUnique(t.memberships)
    && TeamsAndProjectsInOrgs(t)
    && TeamRowsInTenants(t.teams, t.memberships)
    && ProjectRowsInTenants(t.projects, t.projectMemberships)
  }

  datatype Violation = ConstraintViolation

  /** A statement that would leave the tables as `next`. */
  function Statement(next: Tables): (r: Result<Tables, Violation>)
    ensures r.Success? <==> Constraints(next)
    ensures r.Success? ==> r.value == next
  {
    if Constraints(next) then Success(next) else Failure(ConstraintViolation)
  }

  // ---------------------------------------------------------------- lookups

  function OrgIdByExternal(t: Tables, externalId: Text): (r: Option<Id>)
    requires OrgsUnique(t.orgs)
    ensures r.Some? ==> r.value in t.orgs && t.orgs[r.value].externalId == Some(externalId)
    ensures r.None? ==> forall a :: a in t.orgs ==> t.orgs[a].externalId != Some(externalId)
  {
    if exists a :: a in t.orgs && t.orgs[a].externalId == Some(externalId) then
      var a :| a in t.orgs && t.orgs[a].externalId == Some(externalId);
      Some(a)
    else None
  }

  function UserIdByExternal(t: Tables, externalId: Text): (r: Option<Id>)
    requires UsersUnique(t.users)
    ensures r.Some? ==> r.value in t.users && t.users[r.value].externalId == Some(externalId)
    ensures r.None? ==> forall u :: u in t.users ==> t.users[u].externalId != Some(externalId)
  {
    if exists u :: u in t.users && t.users[u].externalId == Some(externalId) then
      var u :| u in t.users && t.users[u].externalId == Some(externalId);
      Some(u)
    else None
  }

  predicate OrgLevelRow(m: MembershipRow, organizationId: Id, userId: Id) {
    m.userId == userId && m.organizationId == organizationId && m.teamId.None?
  }

  function NotOrgLevel(organizationId: Id, userId: Id): MembershipRow -> bool {
    m => !OrgLevelRow(m, organizationId, userId)
  }

  function MembershipsOf(organizationId: Id, userId: Id): MembershipRow -> bool {
    (m: MembershipRow) => m.userId == userId && m.organizationId == organizationId
  }

  // ---------------------------------------------------------------- transactions

  datatype MembershipSync = MembershipSync(
    clerkOrgId: Text,
    orgName: Text,
    orgSlug: Text,
    clerkUserId: Text,
    email: Text,
    displayName: Text,
    role: Role
  )

  datatype ClerkEvent =
    | MembershipSaved(sync: MembershipSync)
    | MembershipDeleted(clerkOrgId: Text, clerkUserId: Text)
    | UserSaved(clerkUserId: Text, email: Text, displayName: Text)
    | UserDeleted(clerkUserId: Text)
    | OrganizationSaved(clerkOrgId: Text, name: Text, slug: Text)
    | OtherEvent

  function UpsertOrg(t: Tables, externalId: Text, name: Text, slug: Text): (r: Result<(Tables, Id), Violation>)
    requires Constraints(t)
    ensures r.Success? ==> Constraints(r.value.0)
  {
    match OrgIdByExternal(t, externalId)
    case Some(id) =>
      var next :- Statement(t.(orgs := t.orgs[id := t.orgs[id].(name := name, slug := slug)]));
      Success((next, id))
    case None =>
      var next :- Statement(t.(orgs := t.orgs[t.nextId := OrgRow(name, slug, Some(externalId))], nextId := t.nextId + 1));
      Success((next, t.nextId))
  }

  function UpsertUser(t: Tables, externalId: Text, organizationId: Id, email: Text, displayName: Text)
    : (r: Result<(Tables, Id), Violation>)
    requires Constraints(t)
    ensures r.Success? ==> Constraints(r.value.0)
  {
    match UserIdByExternal(t, externalId)
    case Some(id) =>
      var next :- Statement(t.(users := t.users[id := UserRow(organizationId, email, displayName, t.users[id].externalId)]));
      Success((next, id))
    case None =>
      var next :- Statement(t.(users := t.users[t.nextId := UserRow(organizationId, email, displayName, Some(externalId))],
                            nextId := t.nextId + 1));
      Success((next, t.nextId))
  }

  /** Set the role of the first org-level row of a user, or add that row. */
  function WithRole(ms: seq<MembershipRow>, organizationId: Id, userId: Id, role: Role): seq<MembershipRow> {
    if ms == [] then [MembershipRow(organizationId, userId, None, role)]
    else if OrgLevelRow(ms[0], organizationId, userId) then [ms[0].(role := role)] + ms[1..]
    else [ms[0]] + WithRole(ms[1..], organizationId, userId, role)
  }

  lemma {:induction false} WithRoleWrites(ms: seq<MembershipRow>, organizationId: Id, userId: Id, role: Role, i: nat)
    requires i <= |ms| && forall k :: 0 <= k < i ==> !OrgLevelRow(ms[k], organizationId, userId)
    requires i < |ms| ==> OrgLevelRow(ms[i], organizationId, userId)
    ensures WithRole(ms, organizationId, userId, role) ==
            if i < |ms| then ms[i := ms[i].(role := role)] else ms + [MembershipRow(organizationId, userId, None, role)]
  {
    if ms != [] && i > 0 {
      assert ms == [ms[0]] + ms[1..];
      WithRoleWrites(ms[1..], organizationId, userId, role, i - 1);
    }
  }

  function UpsertMembership(t: Tables, organizationId: Id, userId: Id, role: Role): (r: Result<Tables, Violation>)
    ensures r.Success? ==> Constraints(r.value)
  {
    Statement(t.(memberships := WithRole(t.memberships, organizationId, userId, role)))
  }

  function SyncMembership(t: Tables, m: MembershipSync): (r: Result<Tables, Violation>)
    requires Constraints(t)
    ensures r.Success? ==> Constraints(r.value)
  {
    var (withOrg, orgId) :- UpsertOrg(t, m.clerkOrgId, m.orgName, m.orgSlug);
    var (withUser, userId) :- UpsertUser(withOrg, m.clerkUserId, orgId, m.email, m.displayName);
    UpsertMembership(withUser, orgId, userId, m.role)
  }

  function UpdateUser(t: Tables, externalId: Text, email: Text, displayName: Text): (r: Result<Tables, Violation>)
    requires Constraints(t)
    ensures r.Success? ==> Constraints(r.value)
  {
    match UserIdByExternal(t, externalId)
    case None => Success(t)
    case Some(id) => Statement(t.(users := t.users[id := t.users[id].(email := email, displayName := displayName)]))
  }

  function RemoveMembership(t: Tables, clerkOrgId: Text, clerkUserId: Text): (r: Result<Tables, Violation>)
    requires Constraints(t)
    ensures r.Success? ==> Constraints(r.value)
  {
    var org, user := OrgIdByExternal(t, clerkOrgId), UserIdByExternal(t, clerkUserId);
    if org.None? || user.None? then Success(t)
    else Statement(t.(memberships := Filter(t.memberships, NotOrgLevel(org.value, user.value))))
  }

  function RevokeUser(t: Tables, externalId: Text): (r: Result<Tables, Violation>)
    requires Constraints(t)
    ensures r.Success? ==> Constraints(r.value)
  {
    match UserIdByExternal(t, externalId)
    case None => Success(t)
    case Some(id) => Statement(t.(users := t.users[id := t.users[id].(externalId := None)]))
  }

  /** One webhook delivery: the transaction it runs, and whether the event type is known. */
  function Handle(t: Tables, e: ClerkEvent): (r: Result<(Tables, bool), Violation>)
    requires Constraints(t)
    ensures r.Success? ==> Constraints(r.value.0)
  {
    match e
    case MembershipSaved(m) =>
      var next :- SyncMembership(t, m);
      Success((next, true))
    case MembershipDeleted(org, user) =>
      var next :- RemoveMembership(t, org, user);
      Success((next, true))
    case UserSaved(user, email, displayName) =>
      var next :- UpdateUser(t, user, email, displayName);
      Success((next, true))
    case UserDeleted(user) =>
      var next :- RevokeUser(t, user);
      Success((next, true))
    case OrganizationSaved(org, name, slug) =>
      var (next, _) :- UpsertOrg(t, org, name, slug);
      Success((next, true))
    case OtherEvent => Success((t, false))
  }

  /** The tables after a delivery; a violated constraint rolls its transaction back. */
  function After(t: Tables, e: ClerkEvent): (r: Tables)
    requires Constraints(t)
    ensures Constraints(r)
  {
    match Handle(t, e)
    case Success(p) => p.0
    case Failure(_) => t
  }

  function AfterAll(t: Tables, es: seq<ClerkEvent>): (r: Tables)
    requires Constraints(t)
    ensures Constraints(r)
    decreases es
  {
    if es == [] then t else AfterAll(After(t, es[0]), es[1..])
  }

  // ---------------------------------------------------------------- the service

  class TenancyDatabase {
    var tables: Tables

    constructor (tables: Tables)
      requires Constraints(tables)
      ensures this.tables == tables
    {
      this.tables := tables;
    }

    /** Run one statement; the database refuses it when a constraint would be violated. */
    method Execute(next: Tables) returns (ok: bool)
      modifies this
      ensures ok <==> Constraints(next)
      ensures tables == if ok then next else old(tables)
    {
      ok := Constraints(next);
      if ok {
        tables := next;
      }
    }
  }

  class ProvisioningService {
    const db: TenancyDatabase

    constructor (db: TenancyDatabase)
      ensures this.db == db
    {
      this.db := db;
    }

    method HandleEvent(e: ClerkEvent) returns (r: Result<bool, Violation>)
      requires Constraints(db.tables)
      modifies db
      ensures match Handle(old(db.tables), e)
              case Success(p) => db.tables == p.0 && r == Success(p.1)
              case Failure(v) => db.tables == old(db.tables) && r == Failure(v)
    {
      var ok := true;
      match e {
        case MembershipSaved(m) =>
          ok := SyncInTransaction(m);
        case MembershipDeleted(org, user) =>
          ok := Remove(org, user);
        case UserSaved(user, email, displayName) =>
          var id := UserIdByExternal(db.tables, user);
          if id.Some? {
            var row := db.tables.users[id.value].(email := email, displayName := displayName);
            ok := db.Execute(db.tables.(users := db.tables.users[id.value := row]));
          }
        case UserDeleted(user) =>
          var id := UserIdByExternal(db.tables, user);
          if id.Some? {
            var row := db.tables.users[id.value].(externalId := None);
            ok := db.Execute(db.tables.(users := db.tables.users[id.value := row]));
          }
        case OrganizationSaved(org, name, slug) =>
          var id;
          ok, id := SaveOrg(org, name, slug);
        case OtherEvent =>
          return Success(false);
      }
      return if ok then Success(true) else Failure(ConstraintViolation);
    }

    method SyncInTransaction(m: MembershipSync) returns (ok: bool)
      requires Constraints(db.tables)
      modifies db
      ensures ok <==> SyncMembership(old(db.tables), m).Success?
      ensures db.tables == if ok then SyncMembership(old(db.tables), m).value else old(db.tables)
    {
      var before := db.tables;
      var orgId, userId;
      ok, orgId := SaveOrg(m.clerkOrgId, m.orgName, m.orgSlug);
      if ok {
        ok, userId := SaveUser(m.clerkUserId, orgId, m.email, m.displayName);
      }
      if ok {
        ok := SaveMembership(orgId, userId, m.role);
      }
      if !ok {
        db.tables := before;
      }
    }

    method SaveOrg(externalId: Text, name: Text, slug: Text) returns (ok: bool, id: Id)
      requires Constraints(db.tables)
      modifies db
      ensures match UpsertOrg(old(db.tables), externalId, name, slug)
              case Success(p) => ok && (db.tables, id) == p
              case Failure(_) => !ok && db.tables == old(db.tables)
    {
      var existing := OrgIdByExternal(db.tables, externalId);
      if existing.Some? {
        id := existing.value;
        ok := db.Execute(db.tables.(orgs := db.tables.orgs[id := db.tables.orgs[id].(name := name, slug := slug)]));
      } else {
        id := db.tables.nextId;
        ok := db.Execute(db.tables.(orgs := db.tables.orgs[id := OrgRow(name, slug, Some(externalId))], nextId := id + 1));
      }
    }

    method SaveUser(externalId: Text, organizationId: Id, email: Text, displayName: Text) returns (ok: bool, id: Id)
      requires Constraints(db.tables)
      modifies db
      ensures match UpsertUser(old(db.tables), externalId, organizationId, email, displayName)
              case Success(p) => ok && (db.tables, id) == p
              case Failure(_) => !ok && db.tables == old(db.tables)
    {
      var existing := UserIdByExternal(db.tables, externalId);
      if existing.Some? {
        id := existing.value;
        var row := UserRow(organizationId, email, displayName, db.tables.users[id].externalId);
        ok := db.Execute(db.tables.(users := db.tables.users[id := row]));
      } else {
        id := db.tables.nextId;
        var row := UserRow(organizationId, email, displayName, Some(externalId));
        ok := db.Execute(db.tables.(users := db.tables.users[id := row], nextId := id + 1));
      }
    }

    method SaveMembership(organizationId: Id, userId: Id, role: Role) returns (ok: bool)
      modifies db
      ensures ok <==> UpsertMembership(old(db.tables), organizationId, userId, role).Success?
      ensures db.tables == if ok then UpsertMembership(old(db.tables), organizationId, userId, role).value else old(db.tables)
    {
      var rows := SelectAndWrite(db.tables.memberships, organizationId, userId, role);
      ok := db.Execute(db.tables.(memberships := rows));
    }

    /** Look for the org-level row; update its role if it is there, insert it otherwise. */
    method SelectAndWrite(ms: seq<MembershipRow>, organizationId: Id, userId: Id, role: Role)
      returns (rows: seq<MembershipRow>)
      ensures rows == WithRole(ms, organizationId, userId, role)
    {
      var i := 0;
      while i < |ms| && !OrgLevelRow(ms[i], organizationId, userId)
        invariant 0 <= i <= |ms|
        invariant forall k :: 0 <= k < i ==> !OrgLevelRow(ms[k], organizationId, userId)
      {
        i := i + 1;
      }
      WithRoleWrites(ms, organizationId, userId, role, i);
      rows := if i < |ms| then ms[i := ms[i].(role := role)] else ms + [MembershipRow(organizationId, userId, None, role)];
    }

    method Remove(clerkOrgId: Text, clerkUserId: Text) returns (ok: bool)
      requires Constraints(db.tables)
      modifies db
      ensures ok <==> RemoveMembership(old(db.tables), clerkOrgId, clerkUserId).Success?
      ensures db.tables == if ok then RemoveMembership(old(db.tables), clerkOrgId, clerkUserId).value else old(db.tables)
    {
      var org, user := OrgIdByExternal(db.tables, clerkOrgId), UserIdByExternal(db.tables, clerkUserId);
      if org.None? || user.None? {
        return true;
      }
      ok := db.Execute(db.tables.(memberships := Filter(db.tables.memberships, NotOrgLevel(org.value, user.value))));
    }
  }

  // ---------------------------------------------------------------- the resolver

  datatype Principal = Principal(
    userId: Id,
    organizationId: Id,
    role: Role,
    teamIds: seq<Id>,
    projectIds: seq<Id>
  )

  function Primary(ms: seq<MembershipRow>): Option<MembershipRow> {
    match FirstOrgLevel(ms)
    case Some(m) => Some(m)
    case None => if ms == [] then None else Some(ms[0])
  }

  function FirstOrgLevel(ms: seq<MembershipRow>): Option<MembershipRow> {
    if ms == [] then None
    else if ms[0].teamId.None? then Some(ms[0])
    else FirstOrgLevel(ms[1..])
  }

  function TeamIds(ms: seq<MembershipRow>): seq<Id> {
    if ms == [] then []
    else (if ms[0].teamId.Some? then [ms[0].teamId.value] else []) + TeamIds(ms[1..])
  }

  function ProjectIds(ms: seq<ProjectMembershipRow>, organizationId: Id, userId: Id): seq<Id> {
    if ms == [] then []
    else
      (if ms[0].userId == userId && ms[0].organizationId == organizationId then [ms[0].projectId] else [])
      + ProjectIds(ms[1..], organizationId, userId)
  }

  function Resolve(t: Tables, subject: Text): Option<Principal>
    requires UsersUnique(t.users)
  {
    match UserIdByExternal(t, subject)
    case None => None
    case Some(id) =>
      var org := t.users[id].organizationId;
      var ms := Filter(t.memberships, MembershipsOf(org, id));
      match Primary(ms)
      case None => None
      case Some(primary) =>
        Some(Principal(id, org, primary.role, TeamIds(ms), ProjectIds(t.projectMemberships, org, id)))
  }
}
