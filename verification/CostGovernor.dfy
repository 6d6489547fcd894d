/** packages/cost-governor/src: the budget check, the usage ledger, and the model summaries. */
module CostGovernor {
  import opened Basics
  import opened StableSort
  import opened ModelRouter

  datatype Budget = Budget(limitUsd: real, spentUsd: real)

  predicate WithinBudget(b: Budget, estimateUsd: real) {
    estimateUsd <= b.limitUsd - b.spentUsd
  }

  datatype Supplier = ModelSupplier(provider: ModelProvider) | CapabilitySupplier

  datatype UsageRecord = UsageRecord(
    modelId: Text,
    supplier: Supplier,
    inputTokens: int,
    outputTokens: int,
    costUsd: real,
    latencyMs: real,
    cachedInputTokens: Option<int>,
    taskId: Option<Text>
  )

  class UsageLedger {
    var records: seq<UsageRecord>

    constructor ()
      ensures records == []
    {
      records := [];
    }

    method Record(entry: UsageRecord)
      modifies this
      ensures records == old(records) + [entry]
    {
      records := records + [entry];
    }
  }

  // ---------------------------------------------------------------- summaries

  datatype ModelEvaluation = ModelEvaluation(modelId: Text, qualityScore: real, accepted: bool, costUsd: real)

  datatype ModelClassSummary = ModelClassSummary(count: nat, acceptanceRate: real, avgCostUsd: real, avgQuality: real)

  function Sum(evals: seq<ModelEvaluation>, f: ModelEvaluation -> real): real {
    if evals == [] then 0.0 else f(evals[0]) + Sum(evals[1..], f)
  }

  function Cost(): ModelEvaluation -> real { (e: ModelEvaluation) => e.costUsd }

  function Quality(): ModelEvaluation -> real { (e: ModelEvaluation) => e.qualityScore }

  function Acceptance(): ModelEvaluation -> real { (e: ModelEvaluation) => if e.accepted then 1.0 else 0.0 }

  function One(): ModelEvaluation -> real { (e: ModelEvaluation) => 1.0 }

  function OfModel(id: Text): ModelEvaluation -> bool { (e: ModelEvaluation) => e.modelId == id }

  function IsAccepted(): ModelEvaluation -> bool { (e: ModelEvaluation) => e.accepted }

  /** The summary of one model: the means over its own evaluations. */
  ghost predicate Summarizes(s: ModelClassSummary, rows: seq<ModelEvaluation>) {
    && s.count == |rows| > 0
    && Times(s.acceptanceRate, s.count) == Sum(rows, Acceptance())
    && Times(s.avgCostUsd, s.count) == Sum(rows, Cost())
    && Times(s.avgQuality, s.count) == Sum(rows, Quality())
  }

  function Times(mean: real, count: nat): real { mean * count as real }

  function Mean(total: real, count: nat): (mean: real)
    requires count > 0
    ensures Times(mean, count) == total
  {
    total / count as real
  }

  lemma {:induction false} AcceptedCount(rows: seq<ModelEvaluation>)
    ensures |Filter(rows, IsAccepted())| as real == Sum(rows, Acceptance())
  {
    if rows != [] {
      AcceptedCount(rows[1..]);
    }
  }

  /** The summary the code computes for one non-empty group of rows. */
  function Summary(rows: seq<ModelEvaluation>): ModelClassSummary
    requires rows != []
  {
    var count := |rows|;
    ModelClassSummary(
      count,
      Mean(|Filter(rows, IsAccepted())| as real, count),
      Mean(Sum(rows, Cost()), count),
      Mean(Sum(rows, Quality()), count))
  }

  lemma SummarySound(rows: seq<ModelEvaluation>)
    requires rows != []
    ensures Summarizes(Summary(rows), rows)
  {
    AcceptedCount(rows);
  }

  function ModelIds(evals: seq<ModelEvaluation>): set<Text> {
    set e <- evals :: e.modelId
  }

  function Bucket(groups: map<Text, seq<ModelEvaluation>>, id: Text): seq<ModelEvaluation> {
    if id in groups then groups[id] else []
  }

  ghost predicate GroupsOf(groups: map<Text, seq<ModelEvaluation>>, evals: seq<ModelEvaluation>) {
    forall id :: Bucket(groups, id) == Filter(evals, OfModel(id)) && (id in groups ==> groups[id] != [])
  }

  lemma GroupsGrow(groups: map<Text, seq<ModelEvaluation>>, evals: seq<ModelEvaluation>, e: ModelEvaluation)
    requires GroupsOf(groups, evals)
    ensures GroupsOf(groups[e.modelId := Bucket(groups, e.modelId) + [e]], evals + [e])
  {
    var next := groups[e.modelId := Bucket(groups, e.modelId) + [e]];
    forall id ensures Bucket(next, id) == Filter(evals + [e], OfModel(id)) {
      FilterAppend(evals, [e], OfModel(id));
      assert Bucket(groups, id) == Filter(evals, OfModel(id));
      assert Filter([e], OfModel(id)) == if id == e.modelId then [e] else [];
    }
  }

  lemma GroupsGrowAt(groups: map<Text, seq<ModelEvaluation>>, evals: seq<ModelEvaluation>, i: nat)
    requires i < |evals| && GroupsOf(groups, evals[..i])
    ensures GroupsOf(groups[evals[i].modelId := Bucket(groups, evals[i].modelId) + [evals[i]]], evals[..i + 1])
  {
    assert evals[..i + 1] == evals[..i] + [evals[i]];
    GroupsGrow(groups, evals[..i], evals[i]);
  }

  lemma GroupsComplete(groups: map<Text, seq<ModelEvaluation>>, evals: seq<ModelEvaluation>)
    requires GroupsOf(groups, evals)
    ensures groups.Keys == ModelIds(evals)
  {
    forall id ensures id in groups <==> id in ModelIds(evals) {
      assert Bucket(groups, id) == Filter(evals, OfModel(id));
      if id in groups {
        assert groups[id][0] in evals;
      }
      if id in ModelIds(evals) {
        var e :| e in evals && e.modelId == id;
        assert e in Filter(evals, OfModel(id));
      }
    }
  }

  method GroupByModel(evals: seq<ModelEvaluation>) returns (groups: map<Text, seq<ModelEvaluation>>)
    ensures GroupsOf(groups, evals)
  {
    groups := map[];
    for i := 0 to |evals|
      invariant GroupsOf(groups, evals[..i])
    {
      var e := evals[i];
      GroupsGrowAt(groups, evals, i);
      groups := groups[e.modelId := Bucket(groups, e.modelId) + [e]];
    }
    assert evals[..|evals|] == evals;
  }

  method SummarizeGroups(groups: map<Text, seq<ModelEvaluation>>) returns (out: map<Text, ModelClassSummary>)
    requires forall id :: id in groups ==> groups[id] != []
    ensures out.Keys == groups.Keys
    ensures forall id :: id in out ==> out[id] == Summary(groups[id])
  {
    out := map[];
    var left := groups.Keys;
    while left != {}
      invariant left <= groups.Keys && out.Keys == groups.Keys - left
      invariant forall id :: id in out ==> out[id] == Summary(groups[id])
      decreases left
    {
      var modelId :| modelId in left;
      out := out[modelId := Summary(groups[modelId])];
      left := left - {modelId};
    }
  }

  method SummarizeByModel(evals: seq<ModelEvaluation>) returns (out: map<Text, ModelClassSummary>)
    ensures out.Keys == ModelIds(evals)
    ensures forall id :: id in out ==> Summarizes(out[id], Filter(evals, OfModel(id)))
  {
    var groups := GroupByModel(evals);
    GroupsComplete(groups, evals);
    out := SummarizeGroups(groups);
    forall id | id in out ensures Summarizes(out[id], Filter(evals, OfModel(id))) {
      assert Bucket(groups, id) == Filter(evals, OfModel(id));
      SummarySound(groups[id]);
    }
  }

  // ---------------------------------------------------------------- conservation

  /** The summed total of a per-group quantity, over a set of groups. */
  ghost function Total(ids: set<Text>, f: Text -> real): real {
    if ids == {} then 0.0
    else
      var id :| id in ids;
      f(id) + Total(ids - {id}, f)
  }

  lemma {:induction false} TotalSplit(ids: set<Text>, f: Text -> real, id: Text)
    requires id in ids
    ensures Total(ids, f) == f(id) + Total(ids - {id}, f)
    decreases |ids|
  {
    var first :| first in ids && Total(ids, f) == f(first) + Total(ids - {first}, f);
    if first != id {
      TotalSplit(ids - {first}, f, id);
      TotalSplit(ids - {id}, f, first);
      assert ids - {first} - {id} == ids - {id} - {first};
    }
  }

  lemma {:induction false} TotalCongruence(ids: set<Text>, f: Text -> real, g: Text -> real)
    requires forall id :: id in ids ==> f(id) == g(id)
    ensures Total(ids, f) == Total(ids, g)
    decreases |ids|
  {
    if ids != {} {
      var id :| id in ids;
      TotalSplit(ids, f, id);
      TotalSplit(ids, g, id);
      TotalCongruence(ids - {id}, f, g);
    }
  }

  ghost function GroupSum(evals: seq<ModelEvaluation>, f: ModelEvaluation -> real): Text -> real {
    id => Sum(Filter(evals, OfModel(id)), f)
  }

  lemma ModelIdsOfRest(e: ModelEvaluation, rest: seq<ModelEvaluation>)
    ensures e.modelId in ModelIds([e] + rest) && ModelIds(rest) <= ModelIds([e] + rest)
  {
    assert e in [e] + rest;
    assert forall x :: x in rest ==> x in [e] + rest;
  }

  /** Summing group by group is summing. */
  lemma {:induction false} GroupedSum(evals: seq<ModelEvaluation>, ids: set<Text>, f: ModelEvaluation -> real)
    requires ModelIds(evals) <= ids
    ensures Total(ids, GroupSum(evals, f)) == Sum(evals, f)
  {
    if evals == [] {
      assert forall id :: GroupSum(evals, f)(id) == 0.0;
      ZeroTotal(ids, GroupSum(evals, f));
    } else {
      var e, rest := evals[0], evals[1..];
      assert evals == [e] + rest;
      ModelIdsOfRest(e, rest);
      GroupedSum(rest, ids, f);
      forall id ensures GroupSum(evals, f)(id) == (if id == e.modelId then f(e) else 0.0) + GroupSum(rest, f)(id) {
        GroupSumStep(e, rest, f, id);
      }
      TotalSplit(ids, GroupSum(evals, f), e.modelId);
      TotalSplit(ids, GroupSum(rest, f), e.modelId);
      TotalCongruence(ids - {e.modelId}, GroupSum(evals, f), GroupSum(rest, f));
    }
  }

  lemma GroupSumStep(e: ModelEvaluation, rest: seq<ModelEvaluation>, f: ModelEvaluation -> real, id: Text)
    ensures Sum(Filter([e] + rest, OfModel(id)), f) ==
            (if id == e.modelId then f(e) else 0.0) + Sum(Filter(rest, OfModel(id)), f)
  {
    assert ([e] + rest)[1..] == rest;
    var rows := Filter(rest, OfModel(id));
    assert ([e] + rows)[1..] == rows;
  }

  lemma {:induction false} ZeroTotal(ids: set<Text>, f: Text -> real)
    requires forall id :: id in ids ==> f(id) == 0.0
    ensures Total(ids, f) == 0.0
    decreases |ids|
  {
    if ids != {} {
      var id :| id in ids;
      TotalSplit(ids, f, id);
      ZeroTotal(ids - {id}, f);
    }
  }

  lemma {:induction false} SumOfOnes(evals: seq<ModelEvaluation>)
    ensures Sum(evals, One()) == |evals| as real
  {
    if evals != [] {
      SumOfOnes(evals[1..]);
    }
  }

  lemma {:induction false} AcceptanceBounds(rows: seq<ModelEvaluation>)
    ensures 0.0 <= Sum(rows, Acceptance()) <= |rows| as real
  {
    if rows != [] {
      AcceptanceBounds(rows[1..]);
    }
  }

  lemma {:induction false} QualityBounds(rows: seq<ModelEvaluation>)
    requires forall e :: e in rows ==> 0.0 <= e.qualityScore <= 1.0
    ensures 0.0 <= Sum(rows, Quality()) <= |rows| as real
  {
    if rows != [] {
      assert rows[0] in rows;
      QualityBounds(rows[1..]);
    }
  }

  type Summaries = map<Text, ModelClassSummary>

  /** The group's share of a total: its mean times its count. */
  function CountIn(out: Summaries): Text -> real { id => if id in out then out[id].count as real else 0.0 }

  function CostIn(out: Summaries): Text -> real {
    id => if id in out then Times(out[id].avgCostUsd, out[id].count) else 0.0
  }

  function QualityIn(out: Summaries): Text -> real {
    id => if id in out then Times(out[id].avgQuality, out[id].count) else 0.0
  }

  function AcceptedIn(out: Summaries): Text -> real {
    id => if id in out then Times(out[id].acceptanceRate, out[id].count) else 0.0
  }

  lemma Conserved(evals: seq<ModelEvaluation>, f: ModelEvaluation -> real, share: Text -> real)
    requires forall id :: id in ModelIds(evals) ==> share(id) == Sum(Filter(evals, OfModel(id)), f)
    ensures Total(ModelIds(evals), share) == Sum(evals, f)
  {
    GroupedSum(evals, ModelIds(evals), f);
    TotalCongruence(ModelIds(evals), GroupSum(evals, f), share);
  }

  ghost predicate SummariesOf(out: Summaries, evals: seq<ModelEvaluation>) {
    && out.Keys == ModelIds(evals)
    && forall id :: id in out ==> Summarizes(out[id], Filter(evals, OfModel(id)))
  }

  /**
   * Whatever summaries `SummarizeByModel` may return, they conserve their input: the counts
   * add up to the evaluations, each mean times its count adds up to the ungrouped total, and
   * every acceptance rate lies between 0 and 1.
   */
  lemma SummariesConserve(evals: seq<ModelEvaluation>, out: Summaries)
    requires SummariesOf(out, evals)
    ensures Total(out.Keys, CountIn(out)) == |evals| as real
    ensures Total(out.Keys, CostIn(out)) == Sum(evals, Cost())
    ensures Total(out.Keys, QualityIn(out)) == Sum(evals, Quality())
    ensures Total(out.Keys, AcceptedIn(out)) == Sum(evals, Acceptance())
    ensures forall id :: id in out ==> 0.0 <= out[id].acceptanceRate <= 1.0
  {
    forall id | id in out
      ensures CountIn(out)(id) == Sum(Filter(evals, OfModel(id)), One())
      ensures 0.0 <= out[id].acceptanceRate <= 1.0
    {
      SumOfOnes(Filter(evals, OfModel(id)));
      RateBounds(out[id], Filter(evals, OfModel(id)));
    }
    SumOfOnes(evals);
    Conserved(evals, One(), CountIn(out));
    Conserved(evals, Cost(), CostIn(out));
    Conserved(evals, Quality(), QualityIn(out));
    Conserved(evals, Acceptance(), AcceptedIn(out));
  }

  /** Scores between 0 and 1 average to a score between 0 and 1. */
  lemma AverageQualityInRange(evals: seq<ModelEvaluation>, out: Summaries, id: Text)
    requires SummariesOf(out, evals) && id in out
    requires forall e :: e in evals ==> 0.0 <= e.qualityScore <= 1.0
    ensures 0.0 <= out[id].avgQuality <= 1.0
  {
    var rows := Filter(evals, OfModel(id));
    assert forall e :: e in rows ==> e in evals;
    MeanQualityBounds(out[id], rows);
  }

  lemma MeanQualityBounds(s: ModelClassSummary, rows: seq<ModelEvaluation>)
    requires Summarizes(s, rows) && forall e :: e in rows ==> 0.0 <= e.qualityScore <= 1.0
    ensures 0.0 <= s.avgQuality <= 1.0
  {
    QualityBounds(rows);
    Quotient(s.avgQuality, s.count as real);
  }

  lemma RateBounds(s: ModelClassSummary, rows: seq<ModelEvaluation>)
    requires Summarizes(s, rows)
    ensures 0.0 <= s.acceptanceRate <= 1.0
  {
    AcceptanceBounds(rows);
    Quotient(s.acceptanceRate, s.count as real);
  }

  lemma Quotient(rate: real, n: real)
    requires n > 0.0 && 0.0 <= rate * n <= n
    ensures 0.0 <= rate <= 1.0
  {
  }
}
