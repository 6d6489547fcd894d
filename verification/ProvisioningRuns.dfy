/**
 * What identity-provider events do to the people who can be authorized: over any run, the tables
 * seen through the resolver are a map from subject to seat.
 */
module ProvisioningRuns {
  import opened Basics
  import opened StableSort
  import opened Policy
  import opened Provisioning

  // ---------------------------------------------------------------- the invariant

  predicate IdsBelow(t: Tables) {
    && (forall a :: a in t.orgs ==> a < t.nextId)
    && (forall u :: u in t.users ==> u < t.nextId)
  }

  /** A user has at most one row without a team; no declared constraint says so. */
  predicate OneOrgLevel(ms: seq<MembershipRow>) {
    forall i, j :: 0 <= i < j < |ms| ==> !(ms[i].userId == ms[j].userId && ms[i].teamId.None? && ms[j].teamId.None?)
  }

  predicate Inv(t: Tables) {
    Constraints(t) && IdsBelow(t) && OneOrgLevel(t.memberships)
  }

  // ---------------------------------------------------------------- seats

  /** What the tables know about one subject. */
  datatype Seat = Seat(
    userId: Id,
    organizationId: Id,
    orgRole: Option<Role>,
    teams: seq<MembershipRow>,
    projectIds: seq<Id>
  )

  function HasTeam(): MembershipRow -> bool {
    (m: MembershipRow) => m.teamId.Some?
  }

  function RoleOf(m: Option<MembershipRow>): Option<Role> {
    if m.Some? then Some(m.value.role) else None
  }

  function SeatOf(t: Tables, subject: Text): Option<Seat>
    requires UsersUnique(t.users)
  {
    match UserIdByExternal(t, subject)
    case None => None
    case Some(id) => Some(UserSeat(t, id))
  }

  function UserSeat(t: Tables, id: Id): Seat
    requires id in t.users
  {
    var org := t.users[id].organizationId;
    var rows := Filter(t.memberships, MembershipsOf(org, id));
    Seat(id, org, RoleOf(FirstOrgLevel(rows)), Filter(rows, HasTeam()), ProjectIds(t.projectMemberships, org, id))
  }

  /** A seat admits its subject when it carries any role; the org-level one comes first. */
  function Admit(seat: Option<Seat>): Option<Principal> {
    match seat
    case None => None
    case Some(s) =>
      if s.orgRole.Some? then
        Some(Principal(s.userId, s.organizationId, s.orgRole.value, TeamIds(s.teams), s.projectIds))
      else if s.teams != [] then
        Some(Principal(s.userId, s.organizationId, s.teams[0].role, TeamIds(s.teams), s.projectIds))
      else None
  }

  lemma ResolveIsSeat(t: Tables, subject: Text)
    requires UsersUnique(t.users)
    ensures Resolve(t, subject) == Admit(SeatOf(t, subject))
  {
    var user := UserIdByExternal(t, subject);
    if user.Some? {
      RowsSplit(Filter(t.memberships, MembershipsOf(t.users[user.value].organizationId, user.value)));
    }
  }

  lemma {:induction false} RowsSplit(rows: seq<MembershipRow>)
    ensures TeamIds(rows) == TeamIds(Filter(rows, HasTeam()))
    ensures FirstOrgLevel(rows).None? ==> Filter(rows, HasTeam()) == rows
  {
    if rows != [] {
      RowsSplit(rows[1..]);
      if rows[0].teamId.Some? {
        assert Filter(rows, HasTeam())[1..] == Filter(rows[1..], HasTeam());
      }
    }
  }

  // ---------------------------------------------------------------- lookups

  lemma UserFound(t: Tables, externalId: Text, id: Id)
    requires UsersUnique(t.users) && id in t.users && t.users[id].externalId == Some(externalId)
    ensures UserIdByExternal(t, externalId) == Some(id)
  {
    assert UserIdByExternal(t, externalId).Some?;
  }

  lemma OrgFound(t: Tables, externalId: Text, id: Id)
    requires OrgsUnique(t.orgs) && id in t.orgs && t.orgs[id].externalId == Some(externalId)
    ensures OrgIdByExternal(t, externalId) == Some(id)
  {
    assert OrgIdByExternal(t, externalId).Some?;
  }

  /** Users found by the same external ids are the same users. */
  lemma SameUserFound(t: Tables, next: Tables, externalId: Text)
    requires UsersUnique(t.users) && UsersUnique(next.users)
    requires forall u :: u in t.users ==> u in next.users && next.users[u].externalId == t.users[u].externalId
    requires forall u :: u in next.users && u !in t.users ==> next.users[u].externalId != Some(externalId)
    ensures UserIdByExternal(next, externalId) == UserIdByExternal(t, externalId)
  {
    var id := UserIdByExternal(t, externalId);
    if id.Some? {
      UserFound(next, externalId, id.value);
    }
  }

  // ---------------------------------------------------------------- when a statement is accepted

  /** No other organization has the slug. */
  predicate SlugFree(t: Tables, externalId: Text, slug: Text) {
    forall a :: a in t.orgs && t.orgs[a].slug == slug ==> t.orgs[a].externalId == Some(externalId)
  }

  /** No other user of the organization has the address. */
  predicate EmailFree(t: Tables, externalId: Text, organizationId: Id, email: Text) {
    forall u :: u in t.users && t.users[u].organizationId == organizationId && t.users[u].email == email ==>
                  t.users[u].externalId == Some(externalId)
  }

  predicate Unattached(t: Tables, userId: Id) {
    && (forall m :: m in t.memberships ==> m.userId != userId)
    && (forall m :: m in t.projectMemberships ==> m.userId != userId)
    && (forall r :: r in t.references ==> r.userId != userId)
  }

  /** A user stays in its organization, or no row anywhere ties it to the old one. */
  predicate Movable(t: Tables, externalId: Text, organizationId: Id)
    requires UsersUnique(t.users)
  {
    var user := UserIdByExternal(t, externalId);
    user.Some? ==> t.users[user.value].organizationId == organizationId || Unattached(t, user.value)
  }

  /** The organization a sync is about: the known one, or the one it is going to insert. */
  function OrgTarget(t: Tables, externalId: Text): Id
    requires OrgsUnique(t.orgs)
  {
    OrgIdByExternal(t, externalId).GetOr(t.nextId)
  }

  function UserTarget(t: Tables, externalId: Text): Id
    requires UsersUnique(t.users)
  {
    UserIdByExternal(t, externalId).GetOr(t.nextId)
  }

  /** What a caller can check before it sends a membership event. */
  predicate SyncAccepted(t: Tables, m: MembershipSync)
    requires Constraints(t)
  {
    && SlugFree(t, m.clerkOrgId, m.orgSlug)
    && EmailFree(t, m.clerkUserId, OrgTarget(t, m.clerkOrgId), m.email)
    && Movable(t, m.clerkUserId, OrgTarget(t, m.clerkOrgId))
  }

  lemma OrgSaved(t: Tables, externalId: Text, name: Text, slug: Text)
    requires Inv(t)
    ensures UpsertOrg(t, externalId, name, slug).Success? <==> SlugFree(t, externalId, slug)
    ensures UpsertOrg(t, externalId, name, slug).Success? ==>
              var (next, id) := UpsertOrg(t, externalId, name, slug).value;
              && id == OrgTarget(t, externalId)
              && Inv(next)
              && next == t.(orgs := next.orgs, nextId := next.nextId)
              && (OrgIdByExternal(t, externalId).Some? ==> next.nextId == t.nextId)
              && next.nextId >= t.nextId
              && id in next.orgs && next.orgs[id] == OrgRow(name, slug, Some(externalId))
              && (forall a :: a in t.orgs && a != id ==> a in next.orgs && next.orgs[a] == t.orgs[a])
  {
    var id := OrgTarget(t, externalId);
    var row := OrgRow(name, slug, Some(externalId));
    OrgRowFits(t, externalId, name, slug, id);
    OrgChangeFits(t, id, row, t.(orgs := t.orgs[id := row], nextId := if id == t.nextId then id + 1 else t.nextId));
  }

  /** An organization row that is inserted or changed can only break one of the constraints. */
  lemma OrgChangeFits(t: Tables, id: Id, row: OrgRow, next: Tables)
    requires Constraints(t) && next == t.(orgs := t.orgs[id := row], nextId := next.nextId)
    ensures Constraints(next) <==> OrgsUnique(next.orgs)
  {
  }

  lemma OrgRowFits(t: Tables, externalId: Text, name: Text, slug: Text, id: Id)
    requires Constraints(t) && IdsBelow(t) && id == OrgTarget(t, externalId)
    ensures OrgsUnique(t.orgs[id := OrgRow(name, slug, Some(externalId))]) <==> SlugFree(t, externalId, slug)
  {
    var orgs := t.orgs[id := OrgRow(name, slug, Some(externalId))];
    assert OrgsUnique(t.orgs);
    forall a | a in t.orgs && a != id
      ensures t.orgs[a].externalId != Some(externalId)
    {
    }
    if !SlugFree(t, externalId, slug) {
      var a :| a in t.orgs && t.orgs[a].slug == slug && t.orgs[a].externalId != Some(externalId);
      assert a in orgs && id in orgs && a != id && orgs[a].slug == orgs[id].slug;
    }
  }

  lemma UserSavedRow(t: Tables, externalId: Text, organizationId: Id, email: Text, displayName: Text)
    requires Inv(t) && organizationId in t.orgs
    ensures UpsertUser(t, externalId, organizationId, email, displayName).Success? <==>
            EmailFree(t, externalId, organizationId, email) && Movable(t, externalId, organizationId)
    ensures UpsertUser(t, externalId, organizationId, email, displayName).Success? ==>
              var (next, id) := UpsertUser(t, externalId, organizationId, email, displayName).value;
              && id == UserTarget(t, externalId)
              && Inv(next)
              && next == t.(users := t.users[id := UserRow(organizationId, email, displayName, Some(externalId))],
                            nextId := next.nextId)
              && (UserIdByExternal(t, externalId).Some? ==> next.nextId == t.nextId)
  {
    var id := UserTarget(t, externalId);
    var users := t.users[id := UserRow(organizationId, email, displayName, Some(externalId))];
    var next := t.(users := users, nextId := if id == t.nextId then id + 1 else t.nextId);
    UserRowFits(t, externalId, organizationId, email, displayName, id);
    RowsFit(t, id, users[id], next);
    UserChangeFits(t, id, users[id], next);
  }

  /** A user row in a known organization can only break two of the constraints. */
  lemma UserChangeFits(t: Tables, id: Id, row: UserRow, next: Tables)
    requires Constraints(t) && row.organizationId in t.orgs
    requires next == t.(users := t.users[id := row], nextId := next.nextId)
    ensures Constraints(next) <==> UsersUnique(next.users) && RowsInTenants(next)
  {
  }

  lemma UserRowFits(t: Tables, externalId: Text, organizationId: Id, email: Text, displayName: Text, id: Id)
    requires Inv(t) && id == UserTarget(t, externalId)
    ensures UsersUnique(t.users[id := UserRow(organizationId, email, displayName, Some(externalId))]) <==>
            EmailFree(t, externalId, organizationId, email)
  {
    var users := t.users[id := UserRow(organizationId, email, displayName, Some(externalId))];
    assert UsersUnique(t.users);
    forall u | u in t.users && u != id
      ensures t.users[u].externalId != Some(externalId)
    {
    }
    if !EmailFree(t, externalId, organizationId, email) {
      var u :| u in t.users && t.users[u].organizationId == organizationId && t.users[u].email == email
               && t.users[u].externalId != Some(externalId);
      assert u != id;
      assert u in users && id in users && users[u].organizationId == users[id].organizationId
             && users[u].email == users[id].email;
    }
  }

  /** A user row can change its organization exactly when nothing refers to it in the old one. */
  lemma RowsFit(t: Tables, id: Id, row: UserRow, next: Tables)
    requires RowsInTenants(t)
    requires next == t.(users := t.users[id := row], nextId := next.nextId)
    ensures RowsInTenants(next) <==>
            (id in t.users ==> t.users[id].organizationId == row.organizationId || Unattached(t, id))
  {
    if id !in t.users || Unattached(t, id) {
      UnknownIsUnattached(t, id);
      UnattachedMoves(t, id, row, next);
    }
    if RowsInTenants(next) && id in t.users && t.users[id].organizationId != row.organizationId {
      MovedIsUnattached(t, id, next);
    }
  }

  lemma UnknownIsUnattached(t: Tables, id: Id)
    requires RowsInTenants(t)
    ensures id !in t.users ==> Unattached(t, id)
  {
    if id !in t.users {
      forall m | m in t.memberships ensures m.userId != id {
        var i :| 0 <= i < |t.memberships| && t.memberships[i] == m;
      }
      forall m | m in t.projectMemberships ensures m.userId != id {
        var i :| 0 <= i < |t.projectMemberships| && t.projectMemberships[i] == m;
      }
      forall r | r in t.references ensures r.userId != id {
        var i :| 0 <= i < |t.references| && t.references[i] == r;
      }
    }
  }

  lemma UnattachedMoves(t: Tables, id: Id, row: UserRow, next: Tables)
    requires RowsInTenants(t) && Unattached(t, id)
    requires next == t.(users := t.users[id := row], nextId := next.nextId)
    ensures RowsInTenants(next)
  {
    assert forall i :: 0 <= i < |t.memberships| ==> t.memberships[i] in t.memberships;
    assert forall i :: 0 <= i < |t.projectMemberships| ==> t.projectMemberships[i] in t.projectMemberships;
    assert forall i :: 0 <= i < |t.references| ==> t.references[i] in t.references;
  }

  lemma MovedIsUnattached(t: Tables, id: Id, next: Tables)
    requires RowsInTenants(t) && RowsInTenants(next)
    requires next.memberships == t.memberships && next.projectMemberships == t.projectMemberships && next.references == t.references
    requires id in t.users && id in next.users && t.users[id].organizationId != next.users[id].organizationId
    ensures Unattached(t, id)
  {
    forall m | m in t.memberships ensures m.userId != id {
      var i :| 0 <= i < |t.memberships| && t.memberships[i] == m;
      assert InTenant(t.users, m.organizationId, m.userId);
      assert InTenant(next.users, next.memberships[i].organizationId, next.memberships[i].userId);
    }
    forall m | m in t.projectMemberships ensures m.userId != id {
      var i :| 0 <= i < |t.projectMemberships| && t.projectMemberships[i] == m;
      assert InTenant(t.users, m.organizationId, m.userId);
      assert InTenant(next.users, next.projectMemberships[i].organizationId, next.projectMemberships[i].userId);
    }
    forall r | r in t.references ensures r.userId != id {
      var i :| 0 <= i < |t.references| && t.references[i] == r;
      assert InTenant(t.users, r.organizationId, r.userId);
      assert InTenant(next.users, next.references[i].organizationId, next.references[i].userId);
    }
  }

  // ---------------------------------------------------------------- membership rows

  /** Where the org-level row of a user stands; past the end when there is none. */
  function WithRoleIndex(ms: seq<MembershipRow>, organizationId: Id, userId: Id): (i: nat)
    ensures i <= |ms| && forall k :: 0 <= k < i ==> !OrgLevelRow(ms[k], organizationId, userId)
    ensures i < |ms| ==> OrgLevelRow(ms[i], organizationId, userId)
  {
    if ms == [] || OrgLevelRow(ms[0], organizationId, userId) then 0
    else 1 + WithRoleIndex(ms[1..], organizationId, userId)
  }

  /** Once its user is in place, the membership row is never refused. */
  lemma MembershipSavedRow(t: Tables, organizationId: Id, userId: Id, role: Role)
    requires Inv(t) && InTenant(t.users, organizationId, userId)
    ensures var next := t.(memberships := WithRole(t.memberships, organizationId, userId, role));
            UpsertMembership(t, organizationId, userId, role) == Success(next) && Inv(next)
  {
    WithRoleInTenants(t, organizationId, userId, role);
    WithRoleUnique(t, organizationId, userId, role);
    WithRoleKeepsTeams(t.teams, t.memberships, organizationId, userId, role);
  }

  lemma WithRoleKeepsTeams(teams: map<Id, TeamRow>, ms: seq<MembershipRow>, organizationId: Id, userId: Id, role: Role)
    requires TeamRowsInTenants(teams, ms)
    ensures TeamRowsInTenants(teams, WithRole(ms, organizationId, userId, role))
  {
    WithRoleWrites(ms, organizationId, userId, role, WithRoleIndex(ms, organizationId, userId));
  }

  lemma WithRoleInTenants(t: Tables, organizationId: Id, userId: Id, role: Role)
    requires Inv(t) && InTenant(t.users, organizationId, userId)
    ensures RowsInTenants(t.(memberships := WithRole(t.memberships, organizationId, userId, role)))
  {
    var ms := t.memberships;
    WithRoleWrites(ms, organizationId, userId, role, WithRoleIndex(ms, organizationId, userId));
    var rows := WithRole(ms, organizationId, userId, role);
    assert RowsInTenants(t);
    forall k | 0 <= k < |rows|
      ensures InTenant(t.users, rows[k].organizationId, rows[k].userId)
    {
      if k < |ms| {
        assert InTenant(t.users, ms[k].organizationId, ms[k].userId);
      }
    }
  }

  lemma WithRoleUnique(t: Tables, organizationId: Id, userId: Id, role: Role)
    requires RowsInTenants(t) && TeamsUnique(t.memberships) && OneOrgLevel(t.memberships) && InTenant(t.users, organizationId, userId)
    ensures TeamsUnique(WithRole(t.memberships, organizationId, userId, role))
    ensures OneOrgLevel(WithRole(t.memberships, organizationId, userId, role))
  {
    var ms, i := t.memberships, WithRoleIndex(t.memberships, organizationId, userId);
    WithRoleWrites(ms, organizationId, userId, role, i);
    forall k | 0 <= k < |ms| && ms[k].userId == userId && ms[k].teamId.None?
      ensures i < |ms|
    {
      assert InTenant(t.users, ms[k].organizationId, ms[k].userId);
      assert OrgLevelRow(ms[k], organizationId, userId);
    }
  }

  /** Only the rows of the user it names change, and there it is as if they were the whole table. */
  lemma {:induction false} WithRoleSeen(ms: seq<MembershipRow>, organizationId: Id, userId: Id, role: Role, o: Id, u: Id)
    ensures Filter(WithRole(ms, organizationId, userId, role), MembershipsOf(o, u)) ==
            if o == organizationId && u == userId then WithRole(Filter(ms, MembershipsOf(o, u)), organizationId, userId, role)
            else Filter(ms, MembershipsOf(o, u))
  {
    var after := WithRole(ms, organizationId, userId, role);
    if ms != [] {
      if OrgLevelRow(ms[0], organizationId, userId) {
        assert after[1..] == ms[1..];
      } else {
        WithRoleSeen(ms[1..], organizationId, userId, role, o, u);
        assert after[1..] == WithRole(ms[1..], organizationId, userId, role);
        if MembershipsOf(o, u)(ms[0]) {
          assert Filter(ms, MembershipsOf(o, u))[1..] == Filter(ms[1..], MembershipsOf(o, u));
        }
      }
    } else {
      assert after[1..] == [];
    }
  }

  lemma {:induction false} WithRoleGrants(rows: seq<MembershipRow>, organizationId: Id, userId: Id, role: Role)
    requires forall m :: m in rows ==> MembershipsOf(organizationId, userId)(m)
    ensures RoleOf(FirstOrgLevel(WithRole(rows, organizationId, userId, role))) == Some(role)
    ensures Filter(WithRole(rows, organizationId, userId, role), HasTeam()) == Filter(rows, HasTeam())
  {
    var after := WithRole(rows, organizationId, userId, role);
    if rows == [] {
      assert after[1..] == [];
    } else if OrgLevelRow(rows[0], organizationId, userId) {
      assert after[1..] == rows[1..];
    } else {
      assert MembershipsOf(organizationId, userId)(rows[0]);
      WithRoleGrants(rows[1..], organizationId, userId, role);
      assert after[1..] == WithRole(rows[1..], organizationId, userId, role);
    }
  }

  lemma {:induction false} WithRoleTwice(ms: seq<MembershipRow>, organizationId: Id, userId: Id, role: Role)
    ensures WithRole(WithRole(ms, organizationId, userId, role), organizationId, userId, role)
            == WithRole(ms, organizationId, userId, role)
  {
    var after := WithRole(ms, organizationId, userId, role);
    if ms == [] {
      assert after[1..] == [];
    } else if OrgLevelRow(ms[0], organizationId, userId) {
      assert after[1..] == ms[1..];
    } else {
      WithRoleTwice(ms[1..], organizationId, userId, role);
      assert after[1..] == WithRole(ms[1..], organizationId, userId, role);
    }
  }

  function NoTeamClash(): (MembershipRow, MembershipRow) -> bool {
    (a: MembershipRow, b: MembershipRow) => !(a.userId == b.userId && a.teamId.Some? && a.teamId == b.teamId)
  }

  function NotBothOrgLevel(): (MembershipRow, MembershipRow) -> bool {
    (a: MembershipRow, b: MembershipRow) => !(a.userId == b.userId && a.teamId.None? && b.teamId.None?)
  }

  /** Deleting rows is never refused. */
  lemma MembershipsDeleted(t: Tables, p: MembershipRow -> bool)
    requires Inv(t)
    ensures var next := t.(memberships := Filter(t.memberships, p)); Statement(next) == Success(next) && Inv(next)
  {
    FewerRowsUnique(t.memberships, p);
    FewerRowsInTenants(t, p);
  }

  lemma FewerRowsUnique(ms: seq<MembershipRow>, p: MembershipRow -> bool)
    requires TeamsUnique(ms) && OneOrgLevel(ms)
    ensures TeamsUnique(Filter(ms, p)) && OneOrgLevel(Filter(ms, p))
  {
    var left := Filter(ms, p);
    assert Sorted(ms, NoTeamClash()) && Sorted(ms, NotBothOrgLevel());
    FilterKeepsSorted(ms, NoTeamClash(), p);
    FilterKeepsSorted(ms, NotBothOrgLevel(), p);
    forall i, j | 0 <= i < j < |left|
      ensures !(left[i].userId == left[j].userId && left[i].teamId.Some? && left[i].teamId == left[j].teamId)
      ensures !(left[i].userId == left[j].userId && left[i].teamId.None? && left[j].teamId.None?)
    {
      assert NoTeamClash()(left[i], left[j]) && NotBothOrgLevel()(left[i], left[j]);
    }
  }

  lemma FewerRowsInTenants(t: Tables, p: MembershipRow -> bool)
    requires Inv(t)
    ensures RowsInTenants(t.(memberships := Filter(t.memberships, p)))
    ensures TeamRowsInTenants(t.teams, Filter(t.memberships, p))
  {
    var ms, left := t.memberships, Filter(t.memberships, p);
    assert RowsInTenants(t) && TeamRowsInTenants(t.teams, ms);
    forall i | 0 <= i < |left|
      ensures InTenant(t.users, left[i].organizationId, left[i].userId)
      ensures left[i].teamId.Some? ==>
                left[i].teamId.value in t.teams && t.teams[left[i].teamId.value].organizationId == left[i].organizationId
    {
      assert left[i] in ms;
      var k :| 0 <= k < |ms| && ms[k] == left[i];
    }
  }

  lemma DeletedSeen(ms: seq<MembershipRow>, organizationId: Id, userId: Id, o: Id, u: Id)
    ensures Filter(Filter(ms, NotOrgLevel(organizationId, userId)), MembershipsOf(o, u)) ==
            if o == organizationId && u == userId then Filter(Filter(ms, MembershipsOf(o, u)), HasTeam())
            else Filter(ms, MembershipsOf(o, u))
  {
    FilterTwice(ms, NotOrgLevel(organizationId, userId), MembershipsOf(o, u));
    if o == organizationId && u == userId {
      FilterTwice(ms, MembershipsOf(o, u), HasTeam());
      FilterCongruence(ms, Both(NotOrgLevel(organizationId, userId), MembershipsOf(o, u)), Both(MembershipsOf(o, u), HasTeam()));
    } else {
      FilterCongruence(ms, Both(NotOrgLevel(organizationId, userId), MembershipsOf(o, u)), MembershipsOf(o, u));
    }
  }

  lemma {:induction false} OnlyTeamsLeft(rows: seq<MembershipRow>)
    ensures FirstOrgLevel(Filter(rows, HasTeam())).None?
    ensures Filter(Filter(rows, HasTeam()), HasTeam()) == Filter(rows, HasTeam())
  {
    FilterAll(Filter(rows, HasTeam()), HasTeam());
    if rows != [] {
      OnlyTeamsLeft(rows[1..]);
      if rows[0].teamId.Some? {
        assert Filter(rows, HasTeam())[1..] == Filter(rows[1..], HasTeam());
      }
    }
  }

  // ---------------------------------------------------------------- one event, seen by one subject

  datatype Effect =
    | Grant(userId: Id, organizationId: Id, role: Role)
    | Withdraw(organizationId: Id)
    | Forget
    | Nothing

  /** The change an event makes to the seat of one subject. */
  function EffectOf(t: Tables, e: ClerkEvent, subject: Text): Effect
    requires Constraints(t)
  {
    match e
    case MembershipSaved(m) =>
      if m.clerkUserId == subject && SyncAccepted(t, m) then
        Grant(UserIdAfterSync(t, m), OrgTarget(t, m.clerkOrgId), m.role)
      else Nothing
    case MembershipDeleted(org, user) =>
      if user == subject && OrgIdByExternal(t, org).Some? then Withdraw(OrgIdByExternal(t, org).value) else Nothing
    case UserDeleted(user) => if user == subject then Forget else Nothing
    case _ => Nothing
  }

  /** The surrogate id of a synced user: its old one, or the next one after its organization got its own. */
  function UserIdAfterSync(t: Tables, m: MembershipSync): Id
    requires Constraints(t)
  {
    UserIdByExternal(t, m.clerkUserId).GetOr(if OrgIdByExternal(t, m.clerkOrgId).None? then t.nextId + 1 else t.nextId)
  }

  /** The whole specification: a map from subject to seat, one subject at a time. */
  function Apply(seat: Option<Seat>, effect: Effect): Option<Seat> {
    match effect
    case Grant(userId, organizationId, role) =>
      if seat.Some? && seat.value.organizationId == organizationId then Some(seat.value.(orgRole := Some(role)))
      else Some(Seat(userId, organizationId, Some(role), [], []))
    case Withdraw(organizationId) =>
      if seat.Some? && seat.value.organizationId == organizationId then Some(seat.value.(orgRole := None)) else seat
    case Forget => None
    case Nothing => seat
  }

  function ApplyAll(seat: Option<Seat>, effects: seq<Effect>): Option<Seat>
    decreases effects
  {
    if effects == [] then seat else ApplyAll(Apply(seat, effects[0]), effects[1..])
  }

  function EffectsOf(t: Tables, es: seq<ClerkEvent>, subject: Text): seq<Effect>
    requires Constraints(t)
    decreases es
  {
    if es == [] then [] else [EffectOf(t, es[0], subject)] + EffectsOf(After(t, es[0]), es[1..], subject)
  }

  /** The three rows of a sync are in place, and all others are as they were. */
  ghost predicate Synced(t: Tables, next: Tables, m: MembershipSync, org: Id, user: Id) {
    && next == t.(orgs := next.orgs,
                  users := t.users[user := UserRow(org, m.email, m.displayName, Some(m.clerkUserId))],
                  memberships := WithRole(t.memberships, org, user, m.role),
                  nextId := next.nextId)
    && org in next.orgs && next.orgs[org] == OrgRow(m.orgName, m.orgSlug, Some(m.clerkOrgId))
    && (forall a :: a in t.orgs && a != org ==> a in next.orgs && next.orgs[a] == t.orgs[a])
  }

  /** A sync succeeds exactly when it is acceptable, and then the three rows are in place. */
  lemma SyncOutcome(t: Tables, m: MembershipSync)
    requires Inv(t)
    ensures SyncMembership(t, m).Success? <==> SyncAccepted(t, m)
    ensures SyncAccepted(t, m) ==>
              && Inv(SyncMembership(t, m).value)
              && Synced(t, SyncMembership(t, m).value, m, OrgTarget(t, m.clerkOrgId), UserIdAfterSync(t, m))
  {
    OrgSaved(t, m.clerkOrgId, m.orgName, m.orgSlug);
    var saved := UpsertOrg(t, m.clerkOrgId, m.orgName, m.orgSlug);
    if saved.Success? {
      var (withOrg, org) := saved.value;
      SameUserFound(t, withOrg, m.clerkUserId);
      UserSavedRow(withOrg, m.clerkUserId, org, m.email, m.displayName);
      var placed := UpsertUser(withOrg, m.clerkUserId, org, m.email, m.displayName);
      SameMoves(t, withOrg, m.clerkUserId, org, m.email);
      if placed.Success? {
        var (withUser, user) := placed.value;
        NextUserId(t, m);
        MembershipSavedRow(withUser, org, user, m.role);
      }
    }
  }

  lemma SameMoves(t: Tables, next: Tables, externalId: Text, organizationId: Id, email: Text)
    requires UsersUnique(t.users) && next == t.(orgs := next.orgs, nextId := next.nextId)
    ensures EmailFree(next, externalId, organizationId, email) <==> EmailFree(t, externalId, organizationId, email)
    ensures Movable(next, externalId, organizationId) <==> Movable(t, externalId, organizationId)
  {
    SameUserFound(t, next, externalId);
  }

  lemma NextUserId(t: Tables, m: MembershipSync)
    requires Inv(t) && UpsertOrg(t, m.clerkOrgId, m.orgName, m.orgSlug).Success?
    ensures UserTarget(UpsertOrg(t, m.clerkOrgId, m.orgName, m.orgSlug).value.0, m.clerkUserId) == UserIdAfterSync(t, m)
  {
    OrgSaved(t, m.clerkOrgId, m.orgName, m.orgSlug);
    SameUserFound(t, UpsertOrg(t, m.clerkOrgId, m.orgName, m.orgSlug).value.0, m.clerkUserId);
  }

  /** A user whose rows were left alone keeps its seat. */
  lemma SameSeat(t: Tables, next: Tables, id: Id)
    requires id in t.users && id in next.users && next.users[id].organizationId == t.users[id].organizationId
    requires next.projectMemberships == t.projectMemberships
    requires Filter(next.memberships, MembershipsOf(t.users[id].organizationId, id))
             == Filter(t.memberships, MembershipsOf(t.users[id].organizationId, id))
    ensures UserSeat(next, id) == UserSeat(t, id)
  {
  }

  lemma {:induction false} NoProjects(ms: seq<ProjectMembershipRow>, organizationId: Id, userId: Id)
    requires forall m :: m in ms ==> m.userId != userId || m.organizationId != organizationId
    ensures ProjectIds(ms, organizationId, userId) == []
  {
    if ms != [] {
      NoProjects(ms[1..], organizationId, userId);
    }
  }

  /** Rows of a user stand in the organization of that user; an unknown user has none. */
  lemma UserRows(t: Tables, id: Id)
    requires RowsInTenants(t)
    ensures forall m :: m in t.memberships && m.userId == id ==> id in t.users && m.organizationId == t.users[id].organizationId
    ensures forall m :: m in t.projectMemberships && m.userId == id ==>
                          id in t.users && m.organizationId == t.users[id].organizationId
  {
    assert RowsInTenants(t);
    forall m | m in t.memberships
      ensures InTenant(t.users, m.organizationId, m.userId)
    {
      var i :| 0 <= i < |t.memberships| && t.memberships[i] == m;
    }
    forall m | m in t.projectMemberships
      ensures InTenant(t.users, m.organizationId, m.userId)
    {
      var i :| 0 <= i < |t.projectMemberships| && t.projectMemberships[i] == m;
    }
  }

  /** The seat of the subject a sync is about. */
  lemma SyncedSeat(t: Tables, next: Tables, m: MembershipSync, org: Id, user: Id)
    requires RowsInTenants(t) && UsersUnique(t.users) && UsersUnique(next.users) && Synced(t, next, m, org, user)
    requires UserIdByExternal(t, m.clerkUserId) == Some(user) || (UserIdByExternal(t, m.clerkUserId).None? && user !in t.users)
    ensures SeatOf(next, m.clerkUserId) == Apply(SeatOf(t, m.clerkUserId), Grant(user, org, m.role))
  {
    UserFound(next, m.clerkUserId, user);
    var rows := Filter(t.memberships, MembershipsOf(org, user));
    WithRoleSeen(t.memberships, org, user, m.role, org, user);
    WithRoleGrants(rows, org, user, m.role);
    if !(user in t.users && t.users[user].organizationId == org) {
      UserRows(t, user);
      FilterNone(t.memberships, MembershipsOf(org, user));
      FilterNone(rows, HasTeam());
      NoProjects(t.projectMemberships, org, user);
    }
  }

  /** The seats of everyone else. */
  lemma SyncLeavesOthers(t: Tables, next: Tables, m: MembershipSync, org: Id, user: Id, subject: Text)
    requires UsersUnique(t.users) && UsersUnique(next.users) && Synced(t, next, m, org, user) && subject != m.clerkUserId
    requires user in t.users ==> t.users[user].externalId == Some(m.clerkUserId)
    ensures SeatOf(next, subject) == SeatOf(t, subject)
  {
    SameUserFound(t, next, subject);
    var id := UserIdByExternal(t, subject);
    if id.Some? {
      OtherSeatKept(t, next, org, user, m.role, id.value);
    }
  }

  lemma OtherSeatKept(t: Tables, next: Tables, organizationId: Id, userId: Id, role: Role, id: Id)
    requires id in t.users && id in next.users && next.users[id] == t.users[id] && id != userId
    requires next.projectMemberships == t.projectMemberships
    requires next.memberships == WithRole(t.memberships, organizationId, userId, role)
    ensures UserSeat(next, id) == UserSeat(t, id)
  {
    WithRoleSeen(t.memberships, organizationId, userId, role, t.users[id].organizationId, id);
  }

  lemma RemovedSeat(t: Tables, next: Tables, organizationId: Id, userId: Id, id: Id)
    requires id in t.users && next == t.(memberships := Filter(t.memberships, NotOrgLevel(organizationId, userId)))
    ensures UserSeat(next, id) ==
            if id == userId && t.users[id].organizationId == organizationId then UserSeat(t, id).(orgRole := None) else UserSeat(t, id)
  {
    var home := t.users[id].organizationId;
    DeletedSeen(t.memberships, organizationId, userId, home, id);
    OnlyTeamsLeft(Filter(t.memberships, MembershipsOf(home, id)));
  }

  lemma RemovalRefines(t: Tables, clerkOrgId: Text, clerkUserId: Text, subject: Text)
    requires Inv(t)
    ensures RemoveMembership(t, clerkOrgId, clerkUserId).Success?
    ensures var next := RemoveMembership(t, clerkOrgId, clerkUserId).value;
            && Inv(next)
            && SeatOf(next, subject) == Apply(SeatOf(t, subject), EffectOf(t, MembershipDeleted(clerkOrgId, clerkUserId), subject))
  {
    var org, user := OrgIdByExternal(t, clerkOrgId), UserIdByExternal(t, clerkUserId);
    if org.Some? && user.Some? {
      MembershipsDeleted(t, NotOrgLevel(org.value, user.value));
      var next := RemoveMembership(t, clerkOrgId, clerkUserId).value;
      SameUserFound(t, next, subject);
      var id := UserIdByExternal(t, subject);
      if id.Some? {
        RemovedSeat(t, next, org.value, user.value, id.value);
      }
    }
  }

  lemma RevocationAccepted(t: Tables, id: Id)
    requires Inv(t) && id in t.users
    ensures Inv(t.(users := t.users[id := t.users[id].(externalId := None)]))
  {
    var next := t.(users := t.users[id := t.users[id].(externalId := None)]);
    RowsFit(t, id, next.users[id], next);
    assert UsersUnique(t.users) && UsersInOrgs(t);
  }

  lemma RevokedSeat(t: Tables, id: Id, subject: Text)
    requires Inv(t) && id in t.users && t.users[id].externalId.Some?
    ensures var next := t.(users := t.users[id := t.users[id].(externalId := None)]);
            && Inv(next)
            && SeatOf(next, subject) == if t.users[id].externalId == Some(subject) then None else SeatOf(t, subject)
  {
    var next := t.(users := t.users[id := t.users[id].(externalId := None)]);
    RevocationAccepted(t, id);
    var found := UserIdByExternal(t, subject);
    if t.users[id].externalId != Some(subject) && found.Some? {
      UserFound(next, subject, found.value);
      SameSeat(t, next, found.value);
    } else {
      assert UsersUnique(t.users);
      assert UserIdByExternal(next, subject).None?;
    }
  }

  lemma RevocationRefines(t: Tables, clerkUserId: Text, subject: Text)
    requires Inv(t)
    ensures RevokeUser(t, clerkUserId).Success?
    ensures var next := RevokeUser(t, clerkUserId).value;
            && Inv(next)
            && SeatOf(next, subject) == Apply(SeatOf(t, subject), EffectOf(t, UserDeleted(clerkUserId), subject))
  {
    var user := UserIdByExternal(t, clerkUserId);
    if user.Some? {
      RevokedSeat(t, user.value, subject);
    }
  }

  /** A profile update is refused exactly when a colleague has the address; no seat changes. */
  lemma ProfileRefines(t: Tables, clerkUserId: Text, email: Text, displayName: Text, subject: Text)
    requires Inv(t)
    ensures UpdateUser(t, clerkUserId, email, displayName).Success? <==>
            var user := UserIdByExternal(t, clerkUserId);
            user.Some? ==> EmailFree(t, clerkUserId, t.users[user.value].organizationId, email)
    ensures var next := After(t, UserSaved(clerkUserId, email, displayName));
            Inv(next) && SeatOf(next, subject) == SeatOf(t, subject)
  {
    ProfileCommits(t, clerkUserId, email, displayName);
    var next := After(t, UserSaved(clerkUserId, email, displayName));
    SameUserFound(t, next, subject);
    SeatsInOneTenant(t, next, subject);
  }

  /** The tables after a profile update; whoever the user is, tenant and external id stay. */
  ghost predicate SameTenants(t: Tables, next: Tables) {
    && next == t.(users := next.users) && next.users.Keys == t.users.Keys
    && forall u :: u in t.users ==>
                     next.users[u].organizationId == t.users[u].organizationId && next.users[u].externalId == t.users[u].externalId
  }

  lemma ProfileCommits(t: Tables, clerkUserId: Text, email: Text, displayName: Text)
    requires Inv(t)
    ensures UpdateUser(t, clerkUserId, email, displayName).Success? <==>
            var user := UserIdByExternal(t, clerkUserId);
            user.Some? ==> EmailFree(t, clerkUserId, t.users[user.value].organizationId, email)
    ensures Inv(After(t, UserSaved(clerkUserId, email, displayName)))
    ensures SameTenants(t, After(t, UserSaved(clerkUserId, email, displayName)))
  {
    var user := UserIdByExternal(t, clerkUserId);
    if user.Some? {
      var row := UserRow(t.users[user.value].organizationId, email, displayName, Some(clerkUserId));
      var next := t.(users := t.users[user.value := row]);
      ProfileFits(t, clerkUserId, email, displayName, user.value, next);
      assert UpdateUser(t, clerkUserId, email, displayName) == Statement(next);
      assert SameTenants(t, next);
    } else {
      assert After(t, UserSaved(clerkUserId, email, displayName)) == t;
    }
  }

  /** Seats depend on the tenants of users and on membership rows only. */
  lemma SeatsInOneTenant(t: Tables, next: Tables, subject: Text)
    requires UsersUnique(t.users) && UsersUnique(next.users) && UserIdByExternal(next, subject) == UserIdByExternal(t, subject)
    requires forall u :: u in t.users ==> u in next.users && next.users[u].organizationId == t.users[u].organizationId
    requires next.memberships == t.memberships && next.projectMemberships == t.projectMemberships
    ensures SeatOf(next, subject) == SeatOf(t, subject)
  {
    var id := UserIdByExternal(t, subject);
    if id.Some? {
      SameSeat(t, next, id.value);
    }
  }

  lemma ProfileFits(t: Tables, externalId: Text, email: Text, displayName: Text, id: Id, next: Tables)
    requires Inv(t) && UserIdByExternal(t, externalId) == Some(id)
    requires next == t.(users := t.users[id := UserRow(t.users[id].organizationId, email, displayName, Some(externalId))])
    ensures Constraints(next) <==> EmailFree(t, externalId, t.users[id].organizationId, email)
  {
    UserRowFits(t, externalId, t.users[id].organizationId, email, displayName, id);
    RowsFit(t, id, next.users[id], next);
    UserChangeFits(t, id, next.users[id], next);
  }

  lemma OrganizationRefines(t: Tables, clerkOrgId: Text, name: Text, slug: Text, subject: Text)
    requires Inv(t)
    ensures var next := After(t, OrganizationSaved(clerkOrgId, name, slug));
            Inv(next) && SeatOf(next, subject) == SeatOf(t, subject)
  {
    OrgSaved(t, clerkOrgId, name, slug);
    var next := After(t, OrganizationSaved(clerkOrgId, name, slug));
    SameUserFound(t, next, subject);
    var id := UserIdByExternal(t, subject);
    if id.Some? {
      SameSeat(t, next, id.value);
    }
  }

  lemma SyncRefines(t: Tables, m: MembershipSync, subject: Text)
    requires Inv(t)
    ensures Inv(After(t, MembershipSaved(m)))
    ensures SeatOf(After(t, MembershipSaved(m)), subject) == Apply(SeatOf(t, subject), EffectOf(t, MembershipSaved(m), subject))
  {
    SyncCommits(t, m);
    if SyncAccepted(t, m) {
      var next, org, user := After(t, MembershipSaved(m)), OrgTarget(t, m.clerkOrgId), UserIdAfterSync(t, m);
      if subject == m.clerkUserId {
        SyncedSeat(t, next, m, org, user);
      } else {
        SyncLeavesOthers(t, next, m, org, user, subject);
      }
    }
  }

  lemma SyncCommits(t: Tables, m: MembershipSync)
    requires Inv(t)
    ensures Inv(After(t, MembershipSaved(m)))
    ensures SyncAccepted(t, m) ==> Synced(t, After(t, MembershipSaved(m)), m, OrgTarget(t, m.clerkOrgId), UserIdAfterSync(t, m))
    ensures !SyncAccepted(t, m) ==> After(t, MembershipSaved(m)) == t
  {
    SyncOutcome(t, m);
  }

  /** Every event keeps the invariant and is, for every subject, one step of the map. */
  lemma EventRefines(t: Tables, e: ClerkEvent, subject: Text)
    requires Inv(t)
    ensures Inv(After(t, e))
    ensures SeatOf(After(t, e), subject) == Apply(SeatOf(t, subject), EffectOf(t, e, subject))
  {
    match e
    case MembershipSaved(m) => SyncRefines(t, m, subject);
    case MembershipDeleted(org, user) => RemovalRefines(t, org, user, subject);
    case UserSaved(user, email, displayName) => ProfileRefines(t, user, email, displayName, subject);
    case UserDeleted(user) => RevocationRefines(t, user, subject);
    case OrganizationSaved(org, name, slug) => OrganizationRefines(t, org, name, slug, subject);
    case OtherEvent =>
  }

  // ---------------------------------------------------------------- runs

  /** Over any run, what the resolver answers is what the map says. */
  lemma {:induction false} RunRefines(t: Tables, es: seq<ClerkEvent>, subject: Text)
    requires Inv(t)
    ensures Inv(AfterAll(t, es))
    ensures SeatOf(AfterAll(t, es), subject) == ApplyAll(SeatOf(t, subject), EffectsOf(t, es, subject))
    ensures Resolve(AfterAll(t, es), subject) == Admit(ApplyAll(SeatOf(t, subject), EffectsOf(t, es, subject)))
    decreases es
  {
    ResolveIsSeat(AfterAll(t, es), subject);
    if es != [] {
      EventRefines(t, es[0], subject);
      RunRefines(After(t, es[0]), es[1..], subject);
      var effects := EffectsOf(t, es, subject);
      assert effects[1..] == EffectsOf(After(t, es[0]), es[1..], subject);
    }
  }

  /** Events that can change what a subject may do. */
  predicate Touches(e: ClerkEvent, subject: Text) {
    match e
    case MembershipSaved(m) => m.clerkUserId == subject
    case MembershipDeleted(_, user) => user == subject
    case UserDeleted(user) => user == subject
    case _ => false
  }

  lemma QuietEvent(t: Tables, e: ClerkEvent, subject: Text)
    requires Inv(t) && !Touches(e, subject)
    ensures Inv(After(t, e)) && SeatOf(After(t, e), subject) == SeatOf(t, subject)
  {
    EventRefines(t, e, subject);
    assert EffectOf(t, e, subject).Nothing?;
  }

  lemma {:induction false} QuietRun(t: Tables, es: seq<ClerkEvent>, subject: Text)
    requires Inv(t) && forall e :: e in es ==> !Touches(e, subject)
    ensures SeatOf(AfterAll(t, es), subject) == SeatOf(t, subject)
    decreases es
  {
    if es != [] {
      QuietEvent(t, es[0], subject);
      QuietRun(After(t, es[0]), es[1..], subject);
    }
  }

  /** Events about other people and about organizations change nothing for a subject. */
  lemma OthersUnaffected(t: Tables, es: seq<ClerkEvent>, subject: Text)
    requires Inv(t) && forall e :: e in es ==> !Touches(e, subject)
    ensures Resolve(AfterAll(t, es), subject) == Resolve(t, subject)
  {
    QuietRun(t, es, subject);
    ResolveIsSeat(t, subject);
    ResolveIsSeat(AfterAll(t, es), subject);
  }

  /** An accepted sync gives its subject exactly its organization and role, until the next event about it. */
  lemma SyncGrants(t: Tables, m: MembershipSync, es: seq<ClerkEvent>)
    requires Inv(t) && SyncAccepted(t, m)
    requires forall e :: e in es ==> !Touches(e, m.clerkUserId)
    ensures var p := Resolve(AfterAll(After(t, MembershipSaved(m)), es), m.clerkUserId);
            && p.Some?
            && p.value.organizationId == OrgTarget(t, m.clerkOrgId)
            && p.value.role == m.role
            && (UserIdByExternal(t, m.clerkUserId).Some? ==> p.value.userId == UserIdByExternal(t, m.clerkUserId).value)
  {
    var after := After(t, MembershipSaved(m));
    EventRefines(t, MembershipSaved(m), m.clerkUserId);
    OthersUnaffected(after, es, m.clerkUserId);
    ResolveIsSeat(after, m.clerkUserId);
  }

  /** A sync that is not acceptable writes nothing at all. */
  lemma RefusedSyncWritesNothing(t: Tables, m: MembershipSync)
    requires Inv(t)
    ensures Handle(t, MembershipSaved(m)).Failure? <==> !SyncAccepted(t, m)
    ensures !SyncAccepted(t, m) ==> After(t, MembershipSaved(m)) == t
  {
    SyncOutcome(t, m);
  }

  /** Whoever has access in one organization is never moved to another by a membership event. */
  lemma MemberStaysInTenant(t: Tables, m: MembershipSync)
    requires Inv(t) && Resolve(t, m.clerkUserId).Some?
    requires Resolve(t, m.clerkUserId).value.organizationId != OrgTarget(t, m.clerkOrgId)
    ensures !SyncAccepted(t, m) && After(t, MembershipSaved(m)) == t
  {
    var id := UserIdByExternal(t, m.clerkUserId).value;
    var rows := Filter(t.memberships, MembershipsOf(t.users[id].organizationId, id));
    assert rows != [] && rows[0] in t.memberships && rows[0].userId == id;
    assert !Unattached(t, id);
    RefusedSyncWritesNothing(t, m);
  }

  /** No sync of the subject is accepted anywhere in the run. */
  predicate NeverSynced(t: Tables, es: seq<ClerkEvent>, subject: Text)
    requires Constraints(t)
    decreases es
  {
    es != [] ==>
      && (es[0].MembershipSaved? && es[0].sync.clerkUserId == subject ==> !SyncAccepted(t, es[0].sync))
      && NeverSynced(After(t, es[0]), es[1..], subject)
  }

  lemma {:induction false} UnknownStaysUnknown(t: Tables, es: seq<ClerkEvent>, subject: Text)
    requires Inv(t) && SeatOf(t, subject).None? && NeverSynced(t, es, subject)
    ensures SeatOf(AfterAll(t, es), subject).None?
    decreases es
  {
    if es != [] {
      EventRefines(t, es[0], subject);
      UnknownStaysUnknown(After(t, es[0]), es[1..], subject);
    }
  }

  /** A deleted user has no access until a sync of it is accepted again. */
  lemma DeletionHolds(t: Tables, subject: Text, es: seq<ClerkEvent>)
    requires Inv(t) && NeverSynced(After(t, UserDeleted(subject)), es, subject)
    ensures Resolve(AfterAll(After(t, UserDeleted(subject)), es), subject).None?
  {
    EventRefines(t, UserDeleted(subject), subject);
    UnknownStaysUnknown(After(t, UserDeleted(subject)), es, subject);
    ResolveIsSeat(AfterAll(After(t, UserDeleted(subject)), es), subject);
  }

  /** And the obvious re-sync is refused: the old row keeps the address in that organization. */
  lemma DeletedUserCannotReturn(t: Tables, m: MembershipSync)
    requires Inv(t) && UserIdByExternal(t, m.clerkUserId).Some?
    requires var row := t.users[UserIdByExternal(t, m.clerkUserId).value];
             row.email == m.email && OrgIdByExternal(t, m.clerkOrgId) == Some(row.organizationId)
    ensures var gone := After(t, UserDeleted(m.clerkUserId));
            !SyncAccepted(gone, m) && After(gone, MembershipSaved(m)) == gone
  {
    var id := UserIdByExternal(t, m.clerkUserId).value;
    var gone := After(t, UserDeleted(m.clerkUserId));
    RevokedRowStays(t, m.clerkUserId);
    OrgFound(gone, m.clerkOrgId, t.users[id].organizationId);
    assert gone.users[id].email == m.email && gone.users[id].externalId != Some(m.clerkUserId);
    assert !EmailFree(gone, m.clerkUserId, t.users[id].organizationId, m.email);
    RefusedSyncWritesNothing(gone, m);
  }

  lemma RevokedRowStays(t: Tables, subject: Text)
    requires Inv(t) && UserIdByExternal(t, subject).Some?
    ensures var id, gone := UserIdByExternal(t, subject).value, After(t, UserDeleted(subject));
            Inv(gone) && gone == t.(users := t.users[id := t.users[id].(externalId := None)])
  {
    RevocationAccepted(t, UserIdByExternal(t, subject).value);
  }

  /**
   * Removing the membership of a user in its own organization ends its access if and only if it
   * is in no team there; a team role takes over otherwise.
   */
  lemma RemovalEndsAccess(t: Tables, clerkOrgId: Text, subject: Text)
    requires Inv(t) && UserIdByExternal(t, subject).Some?
    requires OrgIdByExternal(t, clerkOrgId) == Some(t.users[UserIdByExternal(t, subject).value].organizationId)
    ensures var id := UserIdByExternal(t, subject).value;
            Resolve(After(t, MembershipDeleted(clerkOrgId, subject)), subject).None? <==>
            forall m :: m in t.memberships && m.userId == id ==> m.teamId.None?
  {
    RemovalClearsRole(t, clerkOrgId, subject);
    ResolveIsSeat(After(t, MembershipDeleted(clerkOrgId, subject)), subject);
    TeamsOfUser(t, UserIdByExternal(t, subject).value);
  }

  lemma RemovalClearsRole(t: Tables, clerkOrgId: Text, subject: Text)
    requires Inv(t) && UserIdByExternal(t, subject).Some?
    requires OrgIdByExternal(t, clerkOrgId) == Some(t.users[UserIdByExternal(t, subject).value].organizationId)
    ensures SeatOf(After(t, MembershipDeleted(clerkOrgId, subject)), subject)
            == Some(UserSeat(t, UserIdByExternal(t, subject).value).(orgRole := None))
  {
    RemovalRefines(t, clerkOrgId, subject, subject);
  }

  lemma TeamsOfUser(t: Tables, id: Id)
    requires Inv(t) && id in t.users
    ensures UserSeat(t, id).teams == [] <==> forall m :: m in t.memberships && m.userId == id ==> m.teamId.None?
  {
    UserRows(t, id);
    var org, teams := t.users[id].organizationId, UserSeat(t, id).teams;
    assert forall m :: m in teams <==> m in t.memberships && MembershipsOf(org, id)(m) && HasTeam()(m);
    if teams != [] {
      assert teams[0] in teams;
    }
  }

  // ---------------------------------------------------------------- repeated deliveries

  lemma OrgRepeats(t: Tables, externalId: Text, name: Text, slug: Text)
    requires Inv(t) && UpsertOrg(t, externalId, name, slug).Success?
    ensures var (next, id) := UpsertOrg(t, externalId, name, slug).value;
            Constraints(next) && UpsertOrg(next, externalId, name, slug) == Success((next, id))
  {
    OrgSaved(t, externalId, name, slug);
    var (next, id) := UpsertOrg(t, externalId, name, slug).value;
    OrgUnchanged(next, externalId, name, slug, id);
  }

  lemma SyncRepeats(t: Tables, m: MembershipSync)
    requires Inv(t) && SyncAccepted(t, m)
    ensures var next := After(t, MembershipSaved(m)); After(next, MembershipSaved(m)) == next
  {
    SyncCommits(t, m);
    var next, org, user := After(t, MembershipSaved(m)), OrgTarget(t, m.clerkOrgId), UserIdAfterSync(t, m);
    OrgUnchanged(next, m.clerkOrgId, m.orgName, m.orgSlug, org);
    UserUnchanged(next, m.clerkUserId, org, m.email, m.displayName, user);
    WithRoleTwice(t.memberships, org, user, m.role);
    assert UpsertMembership(next, org, user, m.role) == Success(next);
  }

  lemma OrgUnchanged(t: Tables, externalId: Text, name: Text, slug: Text, id: Id)
    requires Constraints(t) && id in t.orgs && t.orgs[id] == OrgRow(name, slug, Some(externalId))
    ensures UpsertOrg(t, externalId, name, slug) == Success((t, id))
  {
    OrgFound(t, externalId, id);
    assert t.orgs == t.orgs[id := t.orgs[id].(name := name, slug := slug)];
  }

  lemma UserUnchanged(t: Tables, externalId: Text, organizationId: Id, email: Text, displayName: Text, id: Id)
    requires Constraints(t) && id in t.users && t.users[id] == UserRow(organizationId, email, displayName, Some(externalId))
    ensures UpsertUser(t, externalId, organizationId, email, displayName) == Success((t, id))
  {
    UserFound(t, externalId, id);
    assert t.users == t.users[id := UserRow(organizationId, email, displayName, t.users[id].externalId)];
  }

  lemma RemovalRepeats(t: Tables, clerkOrgId: Text, clerkUserId: Text)
    requires Inv(t)
    ensures var next := After(t, MembershipDeleted(clerkOrgId, clerkUserId));
            After(next, MembershipDeleted(clerkOrgId, clerkUserId)) == next
  {
    var org, user := OrgIdByExternal(t, clerkOrgId), UserIdByExternal(t, clerkUserId);
    if org.Some? && user.Some? {
      MembershipsDeleted(t, NotOrgLevel(org.value, user.value));
      var next := After(t, MembershipDeleted(clerkOrgId, clerkUserId));
      OrgFound(next, clerkOrgId, org.value);
      UserFound(next, clerkUserId, user.value);
      FilterAll(next.memberships, NotOrgLevel(org.value, user.value));
    }
  }

  lemma ProfileRepeats(t: Tables, clerkUserId: Text, email: Text, displayName: Text)
    requires Inv(t)
    ensures var next := After(t, UserSaved(clerkUserId, email, displayName));
            After(next, UserSaved(clerkUserId, email, displayName)) == next
  {
    var user := UserIdByExternal(t, clerkUserId);
    var next := After(t, UserSaved(clerkUserId, email, displayName));
    if user.Some? && UpdateUser(t, clerkUserId, email, displayName).Success? {
      UserFound(next, clerkUserId, user.value);
      assert next.users == next.users[user.value := next.users[user.value].(email := email, displayName := displayName)];
    }
  }

  lemma RevocationRepeats(t: Tables, clerkUserId: Text)
    requires Inv(t)
    ensures var next := After(t, UserDeleted(clerkUserId)); After(next, UserDeleted(clerkUserId)) == next
  {
    EventRefines(t, UserDeleted(clerkUserId), clerkUserId);
    assert SeatOf(After(t, UserDeleted(clerkUserId)), clerkUserId).None?;
  }

  /** A second delivery of any event changes nothing more. */
  lemma RepeatingChangesNothing(t: Tables, e: ClerkEvent)
    requires Inv(t)
    ensures After(After(t, e), e) == After(t, e)
  {
    match e
    case MembershipSaved(m) =>
      RefusedSyncWritesNothing(t, m);
      if SyncAccepted(t, m) {
        SyncRepeats(t, m);
      }
    case MembershipDeleted(org, user) => RemovalRepeats(t, org, user);
    case UserSaved(user, email, displayName) => ProfileRepeats(t, user, email, displayName);
    case UserDeleted(user) => RevocationRepeats(t, user);
    case OrganizationSaved(org, name, slug) =>
      if UpsertOrg(t, org, name, slug).Success? {
        OrgRepeats(t, org, name, slug);
      }
    case OtherEvent =>
  }
}
