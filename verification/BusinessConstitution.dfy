/**
 * apps/control-plane/src/services/drizzle-business-constitution-service.ts over the tables of
 * packages/db/src/schema/business-constitution.ts: constitutions are proposed, and a human
 * approval makes one the active constitution of its organization.
 *
 * Rows are never deleted, so the random id of a constitution is its position in the table.
 */
module BusinessConstitution {
  import opened Basics
  import opened StableSort
  import opened JsonValues
  import opened Provisioning

  datatype ConstitutionStatus = Proposed | Approved | Superseded | Rejected

  datatype ConstitutionRow = ConstitutionRow(
    organizationId: Id,
    version: int,
    status: ConstitutionStatus,
    title: Text,
    proposedByUserId: Option<Id>,
    approvedByUserId: Option<Id>
  )

  datatype RuleInput = RuleInput(
    kind: Text,
    key: Text,
    statement: Text,
    action: Option<Text>,
    thresholdMinor: Option<int>,
    currency: Option<Text>,
    requiresApproval: Option<bool>,
    neverAutonomous: Option<bool>,
    structuredValue: Option<Json>
  )

  /** A rule as stored: absent flags take their column default. */
  datatype RuleRow = RuleRow(
    organizationId: Id,
    constitutionId: Id,
    kind: Text,
    key: Text,
    statement: Text,
    action: Option<Text>,
    thresholdMinor: Option<int>,
    currency: Option<Text>,
    requiresApproval: bool,
    neverAutonomous: bool,
    structuredValue: Option<Json>
  )

  /** `users` holds the `(organization_id, id)` pairs of the users table. */
  datatype Book = Book(users: set<Reference>, constitutions: seq<ConstitutionRow>, rules: seq<RuleRow>)

  datatype Proposal = Proposal(id: Id, constitution: ConstitutionRow, rules: seq<RuleRow>)

  datatype ActorKind = HumanKind | AgentKind | SystemKind

  // ---------------------------------------------------------------- constraints

  predicate KnownUser(users: set<Reference>, organizationId: Id, userId: Option<Id>) {
    userId.Some? ==> Reference(organizationId, userId.value) in users
  }

  predicate RowsKnown(users: set<Reference>, cs: seq<ConstitutionRow>) {
    forall i :: 0 <= i < |cs| ==>
                  && KnownUser(users, cs[i].organizationId, cs[i].proposedByUserId)
                  && KnownUser(users, cs[i].organizationId, cs[i].approvedByUserId)
  }

  predicate VersionsUnique(cs: seq<ConstitutionRow>) {
    forall i, j :: 0 <= i < j < |cs| ==> cs[i].organizationId != cs[j].organizationId || cs[i].version != cs[j].version
  }

  predicate RowsAllowed(users: set<Reference>, cs: seq<ConstitutionRow>) {
    RowsKnown(users, cs) && VersionsUnique(cs)
  }

  // ---------------------------------------------------------------- the transactions

  /** `coalesce(max(version), 0)` over one organization. */
  function MaxVersion(cs: seq<ConstitutionRow>, organizationId: Id): int {
    if cs == [] then 0
    else
      var last := cs[|cs| - 1];
      Max(MaxVersion(cs[..|cs| - 1], organizationId), if last.organizationId == organizationId then last.version else 0)
  }

  function ToRow(organizationId: Id, constitutionId: Id, r: RuleInput): RuleRow {
    RuleRow(organizationId, constitutionId, r.kind, r.key, r.statement, r.action, r.thresholdMinor, r.currency,
            r.requiresApproval.GetOr(false), r.neverAutonomous.GetOr(false), r.structuredValue)
  }

  function ToRows(organizationId: Id, constitutionId: Id, rules: seq<RuleInput>): (rows: seq<RuleRow>)
    ensures |rows| == |rules|
    ensures forall i :: 0 <= i < |rules| ==> rows[i] == ToRow(organizationId, constitutionId, rules[i])
  {
    seq(|rules|, i requires 0 <= i < |rules| => ToRow(organizationId, constitutionId, rules[i]))
  }

  function RulesOf(organizationId: Id, constitutionId: Id): RuleRow -> bool {
    (r: RuleRow) => r.organizationId == organizationId && r.constitutionId == constitutionId
  }

  function Propose(b: Book, organizationId: Id, userId: Id, rules: seq<RuleInput>, title: Text)
    : Result<(Book, Proposal), Violation>
  {
    var row := ConstitutionRow(organizationId, MaxVersion(b.constitutions, organizationId) + 1, Proposed, title, Some(userId), None);
    var cs, id := b.constitutions + [row], |b.constitutions|;
    if !RowsAllowed(b.users, cs) then Failure(ConstraintViolation)
    else
      var rows := ToRows(organizationId, id, rules);
      Success((b.(constitutions := cs, rules := b.rules + rows), Proposal(id, row, rows)))
  }

  /** `update ... set status = 'superseded'` where approved, in one organization. */
  function Supersede(cs: seq<ConstitutionRow>, organizationId: Id): (r: seq<ConstitutionRow>)
    ensures |r| == |cs|
    ensures forall i :: 0 <= i < |cs| ==>
                          r[i] == if cs[i].organizationId == organizationId && cs[i].status == Approved
                                  then cs[i].(status := Superseded) else cs[i]
  {
    seq(|cs|, i requires 0 <= i < |cs| =>
      if cs[i].organizationId == organizationId && cs[i].status == Approved then cs[i].(status := Superseded) else cs[i])
  }

  predicate IsCandidate(cs: seq<ConstitutionRow>, organizationId: Id, constitutionId: Id) {
    && constitutionId < |cs|
    && cs[constitutionId].organizationId == organizationId
    && cs[constitutionId].status == Proposed
  }

  function Approve(b: Book, organizationId: Id, constitutionId: Id, userId: Id, kind: ActorKind)
    : Result<(Book, Option<Proposal>), Violation>
  {
    if kind != HumanKind || !IsCandidate(b.constitutions, organizationId, constitutionId) then Success((b, None))
    else
      var row := b.constitutions[constitutionId].(status := Approved, approvedByUserId := Some(userId));
      var cs := Supersede(b.constitutions, organizationId)[constitutionId := row];
      if !RowsAllowed(b.users, cs) then Failure(ConstraintViolation)
      else
        Success((b.(constitutions := cs),
                 Some(Proposal(constitutionId, row, Filter(b.rules, RulesOf(organizationId, constitutionId))))))
  }

  /** The approved row with the highest version. */
  function HighestApproved(cs: seq<ConstitutionRow>, organizationId: Id): (r: Option<Id>)
    ensures r.Some? ==> r.value < |cs| && cs[r.value].organizationId == organizationId && cs[r.value].status == Approved
    ensures r.None? ==> forall i :: 0 <= i < |cs| ==> cs[i].organizationId != organizationId || cs[i].status != Approved
  {
    if cs == [] then None
    else
      var last := |cs| - 1;
      var best := HighestApproved(cs[..last], organizationId);
      if cs[last].organizationId == organizationId && cs[last].status == Approved
         && (best.None? || cs[best.value].version < cs[last].version)
      then Some(last) else best
  }

  function GetActive(b: Book, organizationId: Id): Option<Proposal> {
    match HighestApproved(b.constitutions, organizationId)
    case None => None
    case Some(id) => Some(Proposal(id, b.constitutions[id], Filter(b.rules, RulesOf(organizationId, id))))
  }

  // ---------------------------------------------------------------- the service

  class ConstitutionService {
    var users: set<Reference>
    var constitutions: seq<ConstitutionRow>
    var rules: seq<RuleRow>

    constructor (users: set<Reference>)
      ensures Tables() == Book(users, [], [])
    {
      this.users, constitutions, rules := users, [], [];
    }

    function Tables(): Book
      reads this
    {
      Book(users, constitutions, rules)
    }

    method ProposeConstitution(organizationId: Id, userId: Id, inputs: seq<RuleInput>, title: Text)
      returns (r: Result<Proposal, Violation>)
      modifies this
      ensures match Propose(old(Tables()), organizationId, userId, inputs, title)
              case Success(p) => Tables() == p.0 && r == Success(p.1)
              case Failure(v) => Tables() == old(Tables()) && r == Failure(v)
    {
      var version := MaxVersion(constitutions, organizationId) + 1;
      var id, row := |constitutions|, ConstitutionRow(organizationId, version, Proposed, title, Some(userId), None);
      if !RowsAllowed(users, constitutions + [row]) {
        return Failure(ConstraintViolation);
      }
      constitutions := constitutions + [row];
      var inserted: seq<RuleRow> := [];
      for i := 0 to |inputs|
        invariant |inserted| == i
        invariant forall k :: 0 <= k < i ==> inserted[k] == ToRow(organizationId, id, inputs[k])
      {
        inserted := inserted + [ToRow(organizationId, id, inputs[i])];
      }
      assert inserted == ToRows(organizationId, id, inputs);
      rules := rules + inserted;
      return Success(Proposal(id, row, inserted));
    }

    method ApproveConstitution(organizationId: Id, constitutionId: Id, userId: Id, kind: ActorKind)
      returns (r: Result<Option<Proposal>, Violation>)
      modifies this
      ensures match Approve(old(Tables()), organizationId, constitutionId, userId, kind)
              case Success(p) => Tables() == p.0 && r == Success(p.1)
              case Failure(v) => Tables() == old(Tables()) && r == Failure(v)
    {
      if kind != HumanKind {
        return Success(None);
      }
      if !IsCandidate(constitutions, organizationId, constitutionId) {
        return Success(None);
      }
      var before := constitutions;
      SupersedeApproved(organizationId);
      var row := constitutions[constitutionId].(status := Approved, approvedByUserId := Some(userId));
      constitutions := constitutions[constitutionId := row];
      if !RowsAllowed(users, constitutions) {
        constitutions := before;
        return Failure(ConstraintViolation);
      }
      return Success(Some(Proposal(constitutionId, row, Filter(rules, RulesOf(organizationId, constitutionId)))));
    }

    method SupersedeApproved(organizationId: Id)
      modifies this`constitutions
      ensures constitutions == Supersede(old(constitutions), organizationId)
    {
      ghost var before := constitutions;
      for i := 0 to |constitutions|
        invariant |constitutions| == |before|
        invariant forall k :: 0 <= k < i ==> constitutions[k] == Supersede(before, organizationId)[k]
        invariant forall k :: i <= k < |before| ==> constitutions[k] == before[k]
      {
        if constitutions[i].organizationId == organizationId && constitutions[i].status == Approved {
          constitutions := constitutions[i := constitutions[i].(status := Superseded)];
        }
      }
    }
  }

  // ---------------------------------------------------------------- steps

  datatype Action =
    | ProposeStep(organizationId: Id, userId: Id, rules: seq<RuleInput>, title: Text)
    | ApproveStep(organizationId: Id, constitutionId: Id, userId: Id, kind: ActorKind)
    | UsersStep(users: set<Reference>)

  /** One transaction; a violated constraint makes it a no-op. */
  function Next(b: Book, a: Action): Book {
    match a
    case ProposeStep(org, user, rules, title) =>
      (match Propose(b, org, user, rules, title)
       case Success(p) => p.0
       case Failure(_) => b)
    case ApproveStep(org, id, user, kind) =>
      (match Approve(b, org, id, user, kind)
       case Success(p) => p.0
       case Failure(_) => b)
    case UsersStep(users) => if RowsKnown(users, b.constitutions) then b.(users := users) else b
  }

  function Run(b: Book, actions: seq<Action>): Book
    decreases actions
  {
    if actions == [] then b else Run(Next(b, actions[0]), actions[1..])
  }

  // ---------------------------------------------------------------- the history behind the tables

  datatype Draft = Draft(organizationId: Id, userId: Id, title: Text, rules: seq<RuleInput>)

  datatype Approval = Approval(draft: Id, userId: Id)

  /** What was proposed, in order, and what a human approved, in order. */
  datatype History = History(drafts: seq<Draft>, approvals: seq<Approval>)

  const NO_HISTORY: History := History([], [])

  /** How many drafts an organization has. */
  function Count(drafts: seq<Draft>, organizationId: Id): nat {
    if drafts == [] then 0
    else
      var last := |drafts| - 1;
      Count(drafts[..last], organizationId) + if drafts[last].organizationId == organizationId then 1 else 0
  }

  predicate ApprovalsKnown(h: History) {
    forall k :: 0 <= k < |h.approvals| ==> h.approvals[k].draft < |h.drafts|
  }

  /** Who approved a draft, if anybody did. */
  function Approver(approvals: seq<Approval>, draft: Id): (r: Option<Id>)
    ensures r.None? <==> forall a :: a in approvals ==> a.draft != draft
  {
    if approvals == [] then None
    else
      var last := |approvals| - 1;
      if approvals[last].draft == draft then Some(approvals[last].userId) else Approver(approvals[..last], draft)
  }

  /** The last human approval of a draft of an organization. */
  function LastApproved(h: History, organizationId: Id): (r: Option<Approval>)
    requires ApprovalsKnown(h)
    ensures r.Some? ==>
              r.value in h.approvals && r.value.draft < |h.drafts| && h.drafts[r.value.draft].organizationId == organizationId
    ensures r.None? ==> forall a :: a in h.approvals ==> h.drafts[a.draft].organizationId != organizationId
    decreases |h.approvals|
  {
    if h.approvals == [] then None
    else
      var last := |h.approvals| - 1;
      if h.drafts[h.approvals[last].draft].organizationId == organizationId then Some(h.approvals[last])
      else LastApproved(h.(approvals := h.approvals[..last]), organizationId)
  }

  function StatusIn(h: History, id: Id): ConstitutionStatus
    requires ApprovalsKnown(h) && id < |h.drafts|
  {
    var last := LastApproved(h, h.drafts[id].organizationId);
    if Approver(h.approvals, id).None? then Proposed
    else if last.Some? && last.value.draft == id then Approved
    else Superseded
  }

  /** The history grows by every accepted proposal and every accepted human approval. */
  function Record(b: Book, h: History, a: Action): History {
    match a
    case ProposeStep(org, user, rules, title) =>
      if Reference(org, user) in b.users then h.(drafts := h.drafts + [Draft(org, user, title, rules)]) else h
    case ApproveStep(org, id, user, kind) =>
      if kind == HumanKind && id < |h.drafts| && h.drafts[id].organizationId == org && Approver(h.approvals, id).None?
         && Reference(org, user) in b.users
      then h.(approvals := h.approvals + [Approval(id, user)]) else h
    case UsersStep(_) => h
  }

  function Recorded(b: Book, h: History, actions: seq<Action>): History
    decreases actions
  {
    if actions == [] then h else Recorded(Next(b, actions[0]), Record(b, h, actions[0]), actions[1..])
  }

  /** The tables say exactly what the history says. */
  ghost predicate Tells(b: Book, h: History) {
    && |b.constitutions| == |h.drafts|
    && ApprovalsKnown(h)
    && RowsKnown(b.users, b.constitutions)
    && (forall i :: 0 <= i < |h.drafts| ==> RowTells(b.constitutions[i], h, i))
    && (forall i :: 0 <= i < |h.drafts| ==> RulesTell(b.rules, h, i))
    && (forall r :: r in b.rules ==> r.constitutionId < |h.drafts|)
  }

  predicate RowTells(row: ConstitutionRow, h: History, i: Id)
    requires ApprovalsKnown(h) && i < |h.drafts|
  {
    && row.organizationId == h.drafts[i].organizationId
    && row.title == h.drafts[i].title
    && row.proposedByUserId == Some(h.drafts[i].userId)
    && row.version == Count(h.drafts[..i], h.drafts[i].organizationId) + 1
    && row.status == StatusIn(h, i)
    && row.approvedByUserId == Approver(h.approvals, i)
  }

  predicate RulesTell(rules: seq<RuleRow>, h: History, i: Id)
    requires i < |h.drafts|
  {
    Filter(rules, RulesOf(h.drafts[i].organizationId, i)) == ToRows(h.drafts[i].organizationId, i, h.drafts[i].rules)
  }

  // ---------------------------------------------------------------- proposing

  lemma CountLast(drafts: seq<Draft>, d: Draft, organizationId: Id)
    ensures Count(drafts + [d], organizationId) == Count(drafts, organizationId) + if d.organizationId == organizationId then 1 else 0
  {
    assert (drafts + [d])[..|drafts|] == drafts;
  }

  lemma {:induction false} CountGrows(drafts: seq<Draft>, i: nat, j: nat, organizationId: Id)
    requires i <= j <= |drafts|
    ensures Count(drafts[..i], organizationId) <= Count(drafts[..j], organizationId)
    decreases j
  {
    if i < j {
      CountGrows(drafts, i, j - 1, organizationId);
      CountLast(drafts[..j - 1], drafts[j - 1], organizationId);
      assert drafts[..j] == drafts[..j - 1] + [drafts[j - 1]];
    }
  }

  /** Every row has the version that its place among the drafts of its organization gives it. */
  ghost predicate Numbered(cs: seq<ConstitutionRow>, drafts: seq<Draft>) {
    |cs| == |drafts| && forall i :: 0 <= i < |cs| ==> NumberedAt(cs[i], drafts, i)
  }

  predicate NumberedAt(row: ConstitutionRow, drafts: seq<Draft>, i: nat)
    requires i < |drafts|
  {
    row.organizationId == drafts[i].organizationId && row.version == Count(drafts[..i], drafts[i].organizationId) + 1
  }

  lemma NumberedPrefix(cs: seq<ConstitutionRow>, drafts: seq<Draft>, n: nat)
    requires Numbered(cs, drafts) && n <= |cs|
    ensures Numbered(cs[..n], drafts[..n])
  {
    forall i | 0 <= i < n ensures NumberedAt(cs[..n][i], drafts[..n], i) {
      assert NumberedAt(cs[i], drafts, i);
      assert drafts[..n][..i] == drafts[..i];
    }
  }

  /** The next version is one more than the number of drafts so far. */
  lemma {:induction false} MaxIsCount(cs: seq<ConstitutionRow>, drafts: seq<Draft>, organizationId: Id)
    requires Numbered(cs, drafts)
    ensures MaxVersion(cs, organizationId) == Count(drafts, organizationId)
    decreases |cs|
  {
    if cs != [] {
      var last := |cs| - 1;
      NumberedPrefix(cs, drafts, last);
      assert NumberedAt(cs[last], drafts, last);
      MaxIsCount(cs[..last], drafts[..last], organizationId);
    }
  }

  lemma VersionsDiffer(cs: seq<ConstitutionRow>, drafts: seq<Draft>)
    requires Numbered(cs, drafts)
    ensures VersionsUnique(cs)
  {
    forall i, j | 0 <= i < j < |cs| && cs[i].organizationId == cs[j].organizationId
      ensures cs[i].version < cs[j].version
    {
      var org := cs[i].organizationId;
      assert NumberedAt(cs[i], drafts, i) && NumberedAt(cs[j], drafts, j);
      CountLast(drafts[..i], drafts[i], org);
      assert drafts[..i + 1] == drafts[..i] + [drafts[i]];
      CountGrows(drafts, i + 1, j, org);
    }
  }

  /** A draft more does not change who was approved. */
  lemma {:induction false} SameLastApproved(h: History, d: Draft, organizationId: Id)
    requires ApprovalsKnown(h)
    ensures ApprovalsKnown(h.(drafts := h.drafts + [d]))
    ensures LastApproved(h.(drafts := h.drafts + [d]), organizationId) == LastApproved(h, organizationId)
    decreases |h.approvals|
  {
    if h.approvals != [] {
      SameLastApproved(h.(approvals := h.approvals[..|h.approvals| - 1]), d, organizationId);
    }
  }

  lemma NewRulesSeen(rules: seq<RuleRow>, organizationId: Id, id: Id, inputs: seq<RuleInput>, o: Id, i: Id)
    requires forall r :: r in rules ==> r.constitutionId < id
    requires i <= id && (i == id ==> o == organizationId)
    ensures Filter(rules + ToRows(organizationId, id, inputs), RulesOf(o, i)) ==
            if i == id then ToRows(organizationId, id, inputs) else Filter(rules, RulesOf(o, i))
  {
    var rows := ToRows(organizationId, id, inputs);
    FilterAppend(rules, rows, RulesOf(o, i));
    assert forall r :: r in rows ==> r.organizationId == organizationId && r.constitutionId == id;
    if i == id {
      FilterAll(rows, RulesOf(o, i));
      FilterNone(rules, RulesOf(o, i));
    } else {
      FilterNone(rows, RulesOf(o, i));
    }
  }

  lemma NextVersion(b: Book, h: History, organizationId: Id)
    requires Tells(b, h)
    ensures MaxVersion(b.constitutions, organizationId) == Count(h.drafts, organizationId)
  {
    forall i | 0 <= i < |h.drafts|
      ensures NumberedAt(b.constitutions[i], h.drafts, i)
    {
      assert RowTells(b.constitutions[i], h, i);
    }
    MaxIsCount(b.constitutions, h.drafts, organizationId);
  }

  lemma NewVersionFits(b: Book, h: History, row: ConstitutionRow, d: Draft)
    requires Tells(b, h) && row.organizationId == d.organizationId && row.version == Count(h.drafts, d.organizationId) + 1
    ensures VersionsUnique(b.constitutions + [row])
  {
    var cs, drafts := b.constitutions + [row], h.drafts + [d];
    forall i | 0 <= i < |cs|
      ensures NumberedAt(cs[i], drafts, i)
    {
      if i < |h.drafts| {
        assert drafts[..i] == h.drafts[..i];
        assert RowTells(b.constitutions[i], h, i);
      } else {
        assert drafts[..i] == h.drafts;
      }
    }
    VersionsDiffer(cs, drafts);
  }

  /** A proposal is accepted exactly when its proposer belongs to the organization. */
  lemma ProposeOutcome(b: Book, h: History, organizationId: Id, userId: Id, rules: seq<RuleInput>, title: Text)
    requires Tells(b, h)
    ensures Propose(b, organizationId, userId, rules, title).Success? <==> Reference(organizationId, userId) in b.users
    ensures Propose(b, organizationId, userId, rules, title).Success? ==>
              Propose(b, organizationId, userId, rules, title).value.1.constitution.version == Count(h.drafts, organizationId) + 1
  {
    NextVersion(b, h, organizationId);
    var row := ConstitutionRow(organizationId, MaxVersion(b.constitutions, organizationId) + 1, Proposed, title, Some(userId), None);
    var cs := b.constitutions + [row];
    NewVersionFits(b, h, row, Draft(organizationId, userId, title, rules));
    if Reference(organizationId, userId) in b.users {
      assert RowsKnown(b.users, cs);
    } else {
      assert !KnownUser(b.users, cs[|cs| - 1].organizationId, cs[|cs| - 1].proposedByUserId);
      assert !RowsKnown(b.users, cs);
    }
  }

  /** A row tells the same of a history with one draft more. */
  lemma RowTellsOn(row: ConstitutionRow, h: History, d: Draft, i: Id)
    requires ApprovalsKnown(h) && i < |h.drafts| && RowTells(row, h, i)
    ensures ApprovalsKnown(h.(drafts := h.drafts + [d])) && RowTells(row, h.(drafts := h.drafts + [d]), i)
  {
    SameLastApproved(h, d, h.drafts[i].organizationId);
    assert (h.drafts + [d])[..i] == h.drafts[..i];
  }

  lemma ProposeTells(b: Book, h: History, organizationId: Id, userId: Id, rules: seq<RuleInput>, title: Text)
    requires Tells(b, h)
    ensures Tells(Next(b, ProposeStep(organizationId, userId, rules, title)),
                  Record(b, h, ProposeStep(organizationId, userId, rules, title)))
  {
    ProposeOutcome(b, h, organizationId, userId, rules, title);
    if Reference(organizationId, userId) in b.users {
      var d := Draft(organizationId, userId, title, rules);
      var next, id := Propose(b, organizationId, userId, rules, title).value.0, |h.drafts|;
      var h' := h.(drafts := h.drafts + [d]);
      forall i | 0 <= i < |h'.drafts|
        ensures RowTells(next.constitutions[i], h', i)
        ensures RulesTell(next.rules, h', i)
      {
        NewRulesSeen(b.rules, organizationId, id, rules, h'.drafts[i].organizationId, i);
        if i < id {
          RowTellsOn(b.constitutions[i], h, d, i);
          assert RulesTell(b.rules, h, i);
        } else {
          SameLastApproved(h, d, organizationId);
          assert h'.drafts[..i] == h.drafts;
        }
      }
    }
  }

  // ---------------------------------------------------------------- approving

  lemma LastOfMore(h: History, a: Approval, organizationId: Id)
    requires ApprovalsKnown(h) && a.draft < |h.drafts|
    ensures ApprovalsKnown(h.(approvals := h.approvals + [a]))
    ensures LastApproved(h.(approvals := h.approvals + [a]), organizationId) ==
            if h.drafts[a.draft].organizationId == organizationId then Some(a) else LastApproved(h, organizationId)
  {
    var more := h.(approvals := h.approvals + [a]);
    assert more.(approvals := more.approvals[..|h.approvals|]) == h;
  }

  lemma ApproverOfMore(approvals: seq<Approval>, a: Approval, draft: Id)
    ensures Approver(approvals + [a], draft) == if a.draft == draft then Some(a.userId) else Approver(approvals, draft)
  {
    assert (approvals + [a])[..|approvals|] == approvals;
  }

  /** Whoever approved last for an organization is the approver of that draft. */
  lemma {:induction false} LastApproverApproved(h: History, organizationId: Id)
    requires ApprovalsKnown(h) && LastApproved(h, organizationId).Some?
    ensures var a := LastApproved(h, organizationId).value; Approver(h.approvals, a.draft) == Some(a.userId)
    decreases |h.approvals|
  {
    var last := |h.approvals| - 1;
    if h.drafts[h.approvals[last].draft].organizationId != organizationId {
      LastApproverApproved(h.(approvals := h.approvals[..last]), organizationId);
    }
  }

  /** A human approval counts exactly when the draft is an open one of the tenant, and the approver belongs to it. */
  lemma ApproveOutcome(b: Book, h: History, organizationId: Id, constitutionId: Id, userId: Id, kind: ActorKind)
    requires Tells(b, h)
    ensures var candidate := kind == HumanKind && constitutionId < |h.drafts|
                             && h.drafts[constitutionId].organizationId == organizationId
                             && Approver(h.approvals, constitutionId).None?;
            var r := Approve(b, organizationId, constitutionId, userId, kind);
            && (r.Failure? <==> candidate && Reference(organizationId, userId) !in b.users)
            && (r == Success((b, None)) <==> !candidate)
            && (r.Success? && candidate ==>
                  && r.value.1.Some?
                  && r.value.1.value.rules == ToRows(organizationId, constitutionId, h.drafts[constitutionId].rules))
  {
    if constitutionId < |h.drafts| {
      assert RowTells(b.constitutions[constitutionId], h, constitutionId);
      assert RulesTell(b.rules, h, constitutionId);
    }
    if kind == HumanKind && IsCandidate(b.constitutions, organizationId, constitutionId) {
      var row := b.constitutions[constitutionId].(status := Approved, approvedByUserId := Some(userId));
      var cs := Supersede(b.constitutions, organizationId)[constitutionId := row];
      SameVersions(b, h, cs);
      if Reference(organizationId, userId) in b.users {
        assert RowsKnown(b.users, cs);
      } else {
        assert !KnownUser(b.users, cs[constitutionId].organizationId, cs[constitutionId].approvedByUserId);
        assert !RowsKnown(b.users, cs);
      }
    }
  }

  lemma SameVersions(b: Book, h: History, cs: seq<ConstitutionRow>)
    requires Tells(b, h) && |cs| == |b.constitutions|
    requires forall i :: 0 <= i < |cs| ==>
                           && cs[i].organizationId == b.constitutions[i].organizationId
                           && cs[i].version == b.constitutions[i].version
    ensures VersionsUnique(cs)
  {
    forall i | 0 <= i < |cs|
      ensures NumberedAt(cs[i], h.drafts, i)
    {
      assert RowTells(b.constitutions[i], h, i);
    }
    VersionsDiffer(cs, h.drafts);
  }

  lemma ApproveTells(b: Book, h: History, organizationId: Id, constitutionId: Id, userId: Id, kind: ActorKind)
    requires Tells(b, h)
    ensures Tells(Next(b, ApproveStep(organizationId, constitutionId, userId, kind)),
                  Record(b, h, ApproveStep(organizationId, constitutionId, userId, kind)))
  {
    ApproveOutcome(b, h, organizationId, constitutionId, userId, kind);
    var h' := Record(b, h, ApproveStep(organizationId, constitutionId, userId, kind));
    if h' != h {
      var next := Approve(b, organizationId, constitutionId, userId, kind).value.0;
      LastOfMore(h, Approval(constitutionId, userId), organizationId);
      forall i | 0 <= i < |h.drafts|
        ensures RowTells(next.constitutions[i], h', i)
        ensures RulesTell(next.rules, h', i)
      {
        assert RowTells(b.constitutions[i], h, i) && RulesTell(b.rules, h, i);
        ApprovedRowTells(b.constitutions[i], h, constitutionId, i, userId);
      }
    }
  }

  /** What an approval does to one row is what one more approval in the history means for it. */
  lemma ApprovedRowTells(row: ConstitutionRow, h: History, approved: Id, i: Id, userId: Id)
    requires ApprovalsKnown(h) && i < |h.drafts| && RowTells(row, h, i)
    requires approved < |h.drafts| && Approver(h.approvals, approved).None?
    ensures var h' := h.(approvals := h.approvals + [Approval(approved, userId)]);
            var org := h.drafts[approved].organizationId;
            var after := if i == approved then row.(status := Approved, approvedByUserId := Some(userId))
                         else if row.organizationId == org && row.status == Approved then row.(status := Superseded) else row;
            ApprovalsKnown(h') && RowTells(after, h', i)
  {
    LastOfMore(h, Approval(approved, userId), h.drafts[i].organizationId);
    ApproverOfMore(h.approvals, Approval(approved, userId), i);
  }

  /** Every transaction keeps tables and history together. */
  lemma StepTells(b: Book, h: History, a: Action)
    requires Tells(b, h)
    ensures Tells(Next(b, a), Record(b, h, a))
  {
    match a
    case ProposeStep(org, user, rules, title) => ProposeTells(b, h, org, user, rules, title);
    case ApproveStep(org, id, user, kind) => ApproveTells(b, h, org, id, user, kind);
    case UsersStep(_) =>
  }

  lemma {:induction false} RunTells(b: Book, h: History, actions: seq<Action>)
    requires Tells(b, h)
    ensures Tells(Run(b, actions), Recorded(b, h, actions))
    decreases actions
  {
    if actions != [] {
      StepTells(b, h, actions[0]);
      RunTells(Next(b, actions[0]), Record(b, h, actions[0]), actions[1..]);
    }
  }

  // ---------------------------------------------------------------- what a reader of the tables can rely on

  /**
   * The active constitution is the one a human approved last; its row names that human, and its
   * rules are exactly those it was proposed with.
   */
  lemma ActiveIsLastApproved(b: Book, h: History, organizationId: Id)
    requires Tells(b, h)
    ensures match LastApproved(h, organizationId)
            case None => GetActive(b, organizationId) == None
            case Some(a) =>
              && GetActive(b, organizationId)
                 == Some(Proposal(a.draft, b.constitutions[a.draft], ToRows(organizationId, a.draft, h.drafts[a.draft].rules)))
              && b.constitutions[a.draft].approvedByUserId == Some(a.userId)
              && b.constitutions[a.draft].proposedByUserId == Some(h.drafts[a.draft].userId)
  {
    var last, best := LastApproved(h, organizationId), HighestApproved(b.constitutions, organizationId);
    if best.Some? {
      assert RowTells(b.constitutions[best.value], h, best.value);
      assert RulesTell(b.rules, h, best.value);
    }
    if last.Some? {
      assert RowTells(b.constitutions[last.value.draft], h, last.value.draft);
      LastApproverApproved(h, organizationId);
    }
  }

  lemma AtMostOneApproved(b: Book, h: History, i: Id, j: Id)
    requires Tells(b, h) && i < |b.constitutions| && j < |b.constitutions|
    requires b.constitutions[i].status == Approved && b.constitutions[j].status == Approved
    requires b.constitutions[i].organizationId == b.constitutions[j].organizationId
    ensures i == j
  {
    assert RowTells(b.constitutions[i], h, i) && RowTells(b.constitutions[j], h, j);
  }

  /** The versions of an organization are exactly 1 to the number of its constitutions, each once. */
  lemma VersionsAreConsecutive(b: Book, h: History, organizationId: Id, v: int) returns (i: Id)
    requires Tells(b, h) && 1 <= v <= Count(h.drafts, organizationId)
    ensures i < |b.constitutions| && b.constitutions[i].organizationId == organizationId && b.constitutions[i].version == v
    ensures forall j :: 0 <= j < |b.constitutions| && b.constitutions[j].organizationId == organizationId ==>
                          1 <= b.constitutions[j].version <= Count(h.drafts, organizationId)
    ensures forall j :: 0 <= j < |b.constitutions| && b.constitutions[j].organizationId == organizationId && j != i ==>
                          b.constitutions[j].version != v
  {
    i := DraftOfVersion(h.drafts, organizationId, v);
    assert RowTells(b.constitutions[i], h, i);
    SameVersions(b, h, b.constitutions);
    forall j | 0 <= j < |b.constitutions| && b.constitutions[j].organizationId == organizationId
      ensures 1 <= b.constitutions[j].version <= Count(h.drafts, organizationId)
    {
      assert RowTells(b.constitutions[j], h, j);
      VersionInRange(h.drafts, j);
    }
  }

  lemma VersionInRange(drafts: seq<Draft>, j: Id)
    requires j < |drafts|
    ensures var org := drafts[j].organizationId; Count(drafts[..j], org) + 1 <= Count(drafts, org)
  {
    CountLast(drafts[..j], drafts[j], drafts[j].organizationId);
    assert drafts[..j + 1] == drafts[..j] + [drafts[j]];
    CountGrows(drafts, j + 1, |drafts|, drafts[j].organizationId);
    assert drafts[..|drafts|] == drafts;
  }

  lemma {:induction false} DraftOfVersion(drafts: seq<Draft>, organizationId: Id, v: int) returns (i: Id)
    requires 1 <= v <= Count(drafts, organizationId)
    ensures i < |drafts| && drafts[i].organizationId == organizationId && Count(drafts[..i], organizationId) + 1 == v
    decreases |drafts|
  {
    var last := |drafts| - 1;
    if v <= Count(drafts[..last], organizationId) {
      i := DraftOfVersion(drafts[..last], organizationId, v);
      assert drafts[..last][..i] == drafts[..i];
    } else {
      i := last;
    }
  }

  /** Statuses only move from proposed to approved to superseded; the rest of a row never changes once written. */
  predicate Ages(old_: ConstitutionRow, new_: ConstitutionRow) {
    && new_ == old_.(status := new_.status, approvedByUserId := new_.approvedByUserId)
    && (new_.status == old_.status || (old_.status == Proposed && new_.status == Approved)
        || (old_.status == Approved && new_.status == Superseded))
    && (old_.status != Proposed || new_.status != Approved ==> new_.approvedByUserId == old_.approvedByUserId)
  }

  lemma RowsAge(b: Book, a: Action, i: Id)
    requires i < |b.constitutions|
    ensures i < |Next(b, a).constitutions| && Ages(b.constitutions[i], Next(b, a).constitutions[i])
    ensures b.constitutions[i].status == Proposed && Next(b, a).constitutions[i].status == Approved ==>
              a.ApproveStep? && a.kind == HumanKind && a.constitutionId == i
              && a.organizationId == b.constitutions[i].organizationId
  {
  }

  lemma OtherRowsKept(b: Book, a: Action, other: Id)
    requires a.UsersStep? || a.organizationId != other
    ensures forall i :: 0 <= i < |b.constitutions| && b.constitutions[i].organizationId == other ==>
                          i < |Next(b, a).constitutions| && Next(b, a).constitutions[i] == b.constitutions[i]
    ensures forall i :: |b.constitutions| <= i < |Next(b, a).constitutions| ==>
                          Next(b, a).constitutions[i].organizationId != other
  {
  }

  lemma OtherHistoryKept(b: Book, h: History, a: Action, other: Id)
    requires ApprovalsKnown(h) && (a.UsersStep? || a.organizationId != other)
    ensures ApprovalsKnown(Record(b, h, a)) && LastApproved(Record(b, h, a), other) == LastApproved(h, other)
    ensures forall i :: 0 <= i < |h.drafts| ==> i < |Record(b, h, a).drafts| && Record(b, h, a).drafts[i] == h.drafts[i]
  {
    match a
    case ProposeStep(org, user, rules, title) =>
      SameLastApproved(h, Draft(org, user, title, rules), other);
    case ApproveStep(org, id, user, kind) =>
      if id < |h.drafts| {
        LastOfMore(h, Approval(id, user), other);
      }
    case UsersStep(_) =>
  }

  /** A step of one tenant leaves every other tenant's rows and active constitution alone. */
  lemma TenantsAreIsolated(b: Book, h: History, a: Action, other: Id)
    requires Tells(b, h) && (a.UsersStep? || a.organizationId != other)
    ensures GetActive(Next(b, a), other) == GetActive(b, other)
    ensures forall i :: 0 <= i < |b.constitutions| && b.constitutions[i].organizationId == other ==>
                          i < |Next(b, a).constitutions| && Next(b, a).constitutions[i] == b.constitutions[i]
    ensures forall i :: |b.constitutions| <= i < |Next(b, a).constitutions| ==>
                          Next(b, a).constitutions[i].organizationId != other
  {
    StepTells(b, h, a);
    OtherRowsKept(b, a, other);
    OtherHistoryKept(b, h, a, other);
    SameActive(b, h, Next(b, a), Record(b, h, a), other);
  }

  lemma SameActive(b: Book, h: History, b': Book, h': History, organizationId: Id)
    requires Tells(b, h) && Tells(b', h') && LastApproved(h', organizationId) == LastApproved(h, organizationId)
    requires forall i :: 0 <= i < |h.drafts| ==> i < |h'.drafts| && h'.drafts[i] == h.drafts[i]
    requires forall i :: 0 <= i < |b.constitutions| && b.constitutions[i].organizationId == organizationId ==>
                           i < |b'.constitutions| && b'.constitutions[i] == b.constitutions[i]
    ensures GetActive(b', organizationId) == GetActive(b, organizationId)
  {
    ActiveIsLastApproved(b, h, organizationId);
    ActiveIsLastApproved(b', h', organizationId);
    var last := LastApproved(h, organizationId);
    if last.Some? {
      assert RowTells(b.constitutions[last.value.draft], h, last.value.draft);
    }
  }

  /** All of it for every serial run from empty tables. */
  lemma EveryRun(users: set<Reference>, actions: seq<Action>, organizationId: Id)
    ensures var b, h := Run(Book(users, [], []), actions), Recorded(Book(users, [], []), NO_HISTORY, actions);
            && Tells(b, h)
            && (forall i, j :: 0 <= i < j < |b.constitutions| && b.constitutions[i].organizationId == b.constitutions[j].organizationId ==>
                                 b.constitutions[i].version < b.constitutions[j].version
                                 && !(b.constitutions[i].status == Approved && b.constitutions[j].status == Approved))
            && (GetActive(b, organizationId).Some? <==> LastApproved(h, organizationId).Some?)
            && (GetActive(b, organizationId).Some? ==>
                  var p := GetActive(b, organizationId).value;
                  var a := LastApproved(h, organizationId).value;
                  && p.id == a.draft && p.constitution.approvedByUserId == Some(a.userId)
                  && p.rules == ToRows(organizationId, p.id, h.drafts[p.id].rules))
  {
    var start := Book(users, [], []);
    RunTells(start, NO_HISTORY, actions);
    var b, h := Run(start, actions), Recorded(start, NO_HISTORY, actions);
    ActiveIsLastApproved(b, h, organizationId);
    forall i, j | 0 <= i < j < |b.constitutions| && b.constitutions[i].organizationId == b.constitutions[j].organizationId
      ensures b.constitutions[i].version < b.constitutions[j].version
      ensures !(b.constitutions[i].status == Approved && b.constitutions[j].status == Approved)
    {
      EarlierIsLower(b, h, i, j);
    }
  }

  lemma EarlierIsLower(b: Book, h: History, i: Id, j: Id)
    requires Tells(b, h) && i < j < |b.constitutions|
    requires b.constitutions[i].organizationId == b.constitutions[j].organizationId
    ensures b.constitutions[i].version < b.constitutions[j].version
    ensures !(b.constitutions[i].status == Approved && b.constitutions[j].status == Approved)
  {
    assert RowTells(b.constitutions[i], h, i) && RowTells(b.constitutions[j], h, j);
    var org := b.constitutions[i].organizationId;
    CountLast(h.drafts[..i], h.drafts[i], org);
    assert h.drafts[..i + 1] == h.drafts[..i] + [h.drafts[i]];
    CountGrows(h.drafts, i + 1, j, org);
  }
}
