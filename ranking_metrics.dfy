/** The ranking evaluator: construction from the prediction and target
    corpora, the per-query walk, the averaged metric table, and the batch
    table over several cutoffs. The discount `1 / log2(r + 2)` of DCG is the
    parameter `discount`, any positive non-increasing function of the rank. */
module Ranking {
  import opened Wrappers
  import opened Judgments
  import opened MetricKeys
  import opened Rounding
  import opened RankingSpec

  /** The `metrics` argument of `compute`: None, one name, or a list of names. */
  datatype MetricsArg = Unset | Name(name: string) | Names(names: seq<string>)

  /** A single string becomes a one-element list; None and the empty list mean
      every supported metric. */
  function RequestedNames(metrics: MetricsArg): (r: seq<string>)
    ensures r != []
    ensures forall m :: m in r ==>
      m in SupportedMetrics || (metrics.Name? && m == metrics.name) || (metrics.Names? && m in metrics.names)
  {
    match metrics
    case Unset => SupportedMetrics
    case Name(n) => [n]
    case Names(ns) => if ns == [] then SupportedMetrics else ns
  }

  /** The keys of `compute`'s table for the requested names at cutoff `k`. */
  function ComputeKeys(names: seq<string>, k: nat): (r: set<string>)
    ensures r <= set n | n in SupportedMetrics :: Key(n, k)
  {
    set m | m in names && Lower(m) in SupportedMetrics :: Key(Lower(m), k)
  }

  /** A single name asks for just its own key, or for nothing when it is not
      a supported name in any letter case. */
  lemma SingleNameKeys(n: string, k: nat)
    ensures ComputeKeys(RequestedNames(Name(n)), k) ==
      (if Lower(n) in SupportedMetrics then {Key(Lower(n), k)} else {})
    ensures RequestedNames(Name(n)) == RequestedNames(Names([n]))
  {
    var a := ComputeKeys([n], k);
    if Lower(n) in SupportedMetrics {
      assert Key(Lower(n), k) in a;
    }
  }

  /** Asking in addition for a name that is not supported changes nothing. */
  lemma UnknownNameDropped(names: seq<string>, n: string, k: nat)
    requires Lower(n) !in SupportedMetrics
    ensures ComputeKeys(names + [n], k) == ComputeKeys(names, k)
  {
    forall x | x in ComputeKeys(names + [n], k) ensures x in ComputeKeys(names, k) {
      var m :| m in names + [n] && Lower(m) in SupportedMetrics && x == Key(Lower(m), k);
      assert m != n && m in names;
    }
    forall x | x in ComputeKeys(names, k) ensures x in ComputeKeys(names + [n], k) {
      var m :| m in names && Lower(m) in SupportedMetrics && x == Key(Lower(m), k);
      assert m in names + [n];
    }
  }

  lemma SupportedNamesAreLowerCase()
    ensures forall n :: n in SupportedMetrics ==> Lower(n) == n && '@' !in n
  {
    LowerOfLowercase("precision");
    LowerOfLowercase("recall");
    LowerOfLowercase("mrr");
    LowerOfLowercase("map");
    LowerOfLowercase("ndcg");
  }

  class RankingMetrics {
    /** `self.results`: per target query, in the target's order, the query
        with its `[target, pred]` pair. */
    const results: seq<QueryEntry>
    const isHigherBetter: bool

    constructor (results: seq<QueryEntry>, isHigherBetter: bool)
      ensures this.results == results && this.isHigherBetter == isHigherBetter
    {
      this.results := results;
      this.isHigherBetter := isHigherBetter;
    }

    /** `RankingMetrics(pred, target, is_higher_better)`: fails when the two
        corpora have different numbers of queries, or when a target query is
        missing from the prediction. */
    static method Create(pred: Corpus, target: Corpus, isHigherBetter: bool)
      returns (r: Result<RankingMetrics, BuildError>)
      ensures r.Err? <==> Assemble(pred, target).Err?
      ensures r.Err? ==> r.error == Assemble(pred, target).error
      ensures r.Ok? ==> fresh(r.value) && r.value.results == Assemble(pred, target).value
                        && r.value.isHigherBetter == isHigherBetter
    {
      if |pred| != |target| {
        return Err(QueryCountMismatch(|pred|, |target|));
      }
      var results: seq<QueryEntry> := [];
      for i := 0 to |target|
        invariant PairQueries(pred, target[..i]) == Ok(results)
      {
        var key := target[i].0;
        var p := Lookup(pred, key);
        assert target[..i + 1][..i] == target[..i];
        if p.None? {
          PairQueriesFailsEarly(pred, target, i + 1);
          return Err(MissingQuery(key));
        }
        results := results + [QueryEntry(key, target[i].1, p.value)];
      }
      assert target[..|target|] == target;
      var metrics := new RankingMetrics(results, isHigherBetter);
      r := Ok(metrics);
    }

    /** `_compute_one`: the five metrics of query `i` at cutoff `k`. */
    method ComputeOne(i: nat, k: nat, discount: nat -> real) returns (s: Scores)
      requires i < |results| && k >= 1 && CountPositive(results[i].target) >= 1
      requires ValidDiscount(discount)
      ensures s == QueryScores(results[i], isHigherBetter, k, discount)
    {
      var target, pred := results[i].target, results[i].pred;
      var sortedTarget := SortByScore(target, isHigherBetter);
      var sortedPred := SortByScore(pred, isHigherBetter);
      SortKeepsCountPositive(target, isHigherBetter);
      var numPosTarget := CountPositive(sortedTarget);
      var atK := if numPosTarget > k then k else numPosTarget;
      var hitRank := HitWalk(sortedPred, sortedTarget, k);
      s := ScoresFromHits(hitRank, sortedPred, k, numPosTarget, atK, discount);
    }

    /** `compute(metrics, k)`: the mean over all queries of each requested
        supported metric, keyed `"name@k"` with the name lower-cased; other
        names are dropped. */
    method Compute(metrics: MetricsArg, k: nat, discount: nat -> real) returns (res: map<string, real>)
      requires |results| >= 1 && k >= 1 && Evaluable(results) && ValidDiscount(discount)
      ensures res.Keys == ComputeKeys(RequestedNames(metrics), k)
      ensures forall m :: m in RequestedNames(metrics) && Lower(m) in SupportedMetrics ==>
        res[Key(Lower(m), k)] == Column(MeanScores(results, isHigherBetter, k, discount), Lower(m))
    {
      var names := RequestedNames(metrics);
      var evalRes := Mean(k, discount);
      res := SelectMetrics(names, evalRes, k);
    }

    /** The `np.mean(..., axis=0)` step of `compute`: the per-query tuples
        summed column by column, then divided by the number of queries. */
    method Mean(k: nat, discount: nat -> real) returns (evalRes: Scores)
      requires |results| >= 1 && k >= 1 && Evaluable(results) && ValidDiscount(discount)
      ensures evalRes == MeanScores(results, isHigherBetter, k, discount)
    {
      var total := Scores(0.0, 0.0, 0.0, 0.0, 0.0);
      for i := 0 to |results|
        invariant total == SumScores(results[..i], isHigherBetter, k, discount)
      {
        var s := ComputeOne(i, k, discount);
        SumScoresStep(results, isHigherBetter, k, discount, i);
        total := AddScores(total, s);
      }
      assert results[..|results|] == results;
      var n := |results| as real;
      evalRes := Scores(total.precision / n, total.recall / n, total.mrr / n, total.meanAP / n, total.ndcg / n);
    }
  }

  /** The walk of `_compute_one` over the first `k` sorted predictions that
      collects the 0-based ranks of the hits. */
  method HitWalk(sortedPred: Judgments, sortedTarget: Judgments, k: nat) returns (hitRank: seq<nat>)
    ensures hitRank == HitRanks(sortedPred, sortedTarget, Min(k, |sortedPred|))
  {
    var firstK := sortedPred[..Min(k, |sortedPred|)];
    hitRank := [];
    for rank := 0 to |firstK|
      invariant hitRank == HitRanks(sortedPred, sortedTarget, rank)
    {
      var key := firstK[rank].0;
      var t := Lookup(sortedTarget, key);
      if t.Some? && t.value > 0.0 {
        hitRank := hitRank + [rank];
      }
    }
  }

  /** The arithmetic of `_compute_one` once the hit ranks are known. */
  method ScoresFromHits(hitRank: seq<nat>, sortedPred: Judgments, k: nat, numPosTarget: nat, atK: nat,
                        discount: nat -> real) returns (s: Scores)
    requires k >= 1 && numPosTarget >= 1 && atK >= 1 && ValidDiscount(discount)
    requires forall i :: 0 <= i < |hitRank| ==> hitRank[i] < |sortedPred|
    ensures s == MetricsFromHits(hitRank, sortedPred, k, numPosTarget, atK, discount)
  {
    var count := |hitRank|;
    var precision := count as real / k as real;
    var recall := count as real / numPosTarget as real;
    var mrr, mAP, dcg := 0.0, 0.0, 0.0;
    if hitRank != [] {
      mrr := 1.0 / (hitRank[0] + 1) as real;
      mAP := WeightedPrecisionSum(sortedPred, hitRank);
      dcg := DcgSum(hitRank, discount);
    }
    IdealDcgPositive(atK, discount);
    var idcg := IdealDcg(atK, discount);
    var ndcg := dcg / idcg;
    mAP := mAP / atK as real;
    s := Scores(precision, recall, mrr, mAP, ndcg);
  }

  /** The loop of `compute` over the requested names. */
  method SelectMetrics(names: seq<string>, evalRes: Scores, k: nat) returns (res: map<string, real>)
    ensures res.Keys == ComputeKeys(names, k)
    ensures forall m :: m in names && Lower(m) in SupportedMetrics ==>
      res[Key(Lower(m), k)] == Column(evalRes, Lower(m))
  {
    res := map[];
    for j := 0 to |names|
      invariant res.Keys == ComputeKeys(names[..j], k)
      invariant forall m :: m in names[..j] && Lower(m) in SupportedMetrics ==>
        res[Key(Lower(m), k)] == Column(evalRes, Lower(m))
    {
      assert names[..j + 1] == names[..j] + [names[j]];
      var metric := Lower(names[j]);
      if metric in SupportedMetrics {
        res := res[Key(metric, k) := Column(evalRes, metric)];
        forall m | m in names[..j + 1] && Lower(m) in SupportedMetrics
          ensures res[Key(Lower(m), k)] == Column(evalRes, Lower(m))
        {
          if Key(Lower(m), k) == Key(metric, k) {
            SameCutoffKeys(Lower(m), metric, k);
          }
        }
      }
    }
    assert names[..|names|] == names;
  }

  /** The names `NDCG`, `MAP`, `RECALL` and `PRECISION` that the batch table
      reports. */
  const BatchMetrics: seq<string> := ["ndcg", "map", "recall", "precision"]

  /** The keys of the batch table: `"name@k"` for every cutoff and every
      requested name that lower-cases to one of the batch names. */
  function BatchKeys(metrics: seq<string>, cutoffs: seq<nat>): (r: set<string>)
    ensures r <= set k, n | k in cutoffs && n in BatchMetrics :: Key(n, k)
  {
    set k, m | k in cutoffs && m in metrics && Lower(m) in BatchMetrics :: Key(Lower(m), k)
  }

  /** `scores` holds, for each of `cutoffs`, every supported metric's mean
      over `entries`, as the merged tables of `compute(k=k)` do. */
  ghost predicate HoldsMeans(scores: map<string, real>, entries: seq<QueryEntry>, cutoffs: seq<nat>,
                             discount: nat -> real)
    requires |entries| >= 1 && Evaluable(entries) && ValidDiscount(discount)
    requires forall k :: k in cutoffs ==> k >= 1
  {
    forall k, n :: k in cutoffs && n in SupportedMetrics ==>
      Key(n, k) in scores && scores[Key(n, k)] == Column(MeanScores(entries, true, k, discount), n)
  }

  /** `compute_ranking_score(results, qrel_dict, metrics, cutoffs)`: for each
      cutoff and each requested name that lower-cases to ndcg, map, recall or
      precision, the mean of that metric rounded to 5 digits; construction
      errors propagate. */
  method ComputeRankingScore(results: Corpus, qrelDict: Corpus, metrics: seq<string>, cutoffs: seq<nat>,
                             discount: nat -> real)
    returns (r: Result<map<string, real>, BuildError>)
    requires cutoffs != [] && Assemble(results, qrelDict).Ok? ==>
      |qrelDict| >= 1 && forall i :: 0 <= i < |qrelDict| ==> CountPositive(qrelDict[i].1) >= 1
    requires Assemble(results, qrelDict).Ok? ==> forall k :: k in cutoffs ==> k >= 1
    requires ValidDiscount(discount)
    ensures r.Err? <==> Assemble(results, qrelDict).Err?
    ensures r.Err? ==> r.error == Assemble(results, qrelDict).error
    ensures r.Ok? ==> r.value.Keys == BatchKeys(metrics, cutoffs)
    ensures r.Ok? && cutoffs != [] ==>
      (var entries := Assemble(results, qrelDict).value;
       |entries| >= 1 && Evaluable(entries) &&
       forall k, m :: k in cutoffs && m in metrics && Lower(m) in BatchMetrics ==>
         r.value[Key(Lower(m), k)] == Round5(Column(MeanScores(entries, true, k, discount), Lower(m))))
  {
    var built := RankingMetrics.Create(results, qrelDict, true);
    if built.Err? {
      return Err(built.error);
    }
    var evaluator := built.value;
    var entries := evaluator.results;
    var metricResults := DefaultTable(metrics, cutoffs);
    if cutoffs == [] {
      return Ok(metricResults);
    }
    PairQueriesSpec(results, qrelDict);
    assert |entries| == |qrelDict| && forall i :: 0 <= i < |entries| ==> entries[i].target == qrelDict[i].1;
    var scores := MergeCutoffs(evaluator, cutoffs, discount);
    MeansCoverBatch(scores, entries, metrics, cutoffs, discount);
    metricResults := FillTable(metricResults, scores, metrics, cutoffs);
    r := Ok(metricResults);
  }

  /** The first loop of `compute_ranking_score`: the tables of
      `evaluator.compute(k=k)` merged over all cutoffs. */
  method MergeCutoffs(evaluator: RankingMetrics, cutoffs: seq<nat>, discount: nat -> real)
    returns (scores: map<string, real>)
    requires |evaluator.results| >= 1 && Evaluable(evaluator.results) && evaluator.isHigherBetter
    requires forall k :: k in cutoffs ==> k >= 1
    requires ValidDiscount(discount)
    ensures HoldsMeans(scores, evaluator.results, cutoffs, discount)
  {
    SupportedNamesAreLowerCase();
    var entries := evaluator.results;
    scores := map[];
    for i := 0 to |cutoffs|
      invariant forall k :: k in cutoffs[..i] ==> k in cutoffs
      invariant HoldsMeans(scores, entries, cutoffs[..i], discount)
    {
      var c := cutoffs[i];
      assert c in cutoffs;
      var part := evaluator.Compute(Unset, c, discount);
      AllSupportedKeys(c);
      assert cutoffs[..i + 1] == cutoffs[..i] + [c];
      MergeStep(scores, part, cutoffs[..i], c, entries, discount);
      scores := scores + part;
    }
    assert cutoffs[..|cutoffs|] == cutoffs;
  }

  /** Requesting every metric, by passing None or an empty list, gives one
      key per supported name. */
  lemma AllSupportedKeys(k: nat)
    ensures ComputeKeys(SupportedMetrics, k) == set n | n in SupportedMetrics :: Key(n, k)
    ensures ComputeKeys(RequestedNames(Unset), k) == ComputeKeys(RequestedNames(Names([])), k) ==
      set n | n in SupportedMetrics :: Key(n, k)
  {
    SupportedNamesAreLowerCase();
  }

  /** Merging the table of one more cutoff keeps the means of the earlier
      cutoffs, since keys at different cutoffs differ. */
  lemma MergeStep(scores: map<string, real>, part: map<string, real>, cut: seq<nat>, c: nat,
                  entries: seq<QueryEntry>, discount: nat -> real)
    requires |entries| >= 1 && Evaluable(entries) && ValidDiscount(discount)
    requires c >= 1 && forall k :: k in cut ==> k >= 1
    requires HoldsMeans(scores, entries, cut, discount)
    requires part.Keys == set n | n in SupportedMetrics :: Key(n, c)
    requires forall n :: n in SupportedMetrics ==>
      part[Key(n, c)] == Column(MeanScores(entries, true, c, discount), n)
    ensures HoldsMeans(scores + part, entries, cut + [c], discount)
  {
    SupportedNamesAreLowerCase();
    forall k, n | k in cut + [c] && n in SupportedMetrics
      ensures Key(n, k) in scores + part
      ensures (scores + part)[Key(n, k)] == Column(MeanScores(entries, true, k, discount), n)
    {
      if k != c {
        assert k in cut;
        if Key(n, k) in part {
          var n' :| n' in SupportedMetrics && Key(n', c) == Key(n, k);
          KeyInjective(n', c, n, k);
        }
      }
    }
  }

  /** Every key the batch table reports is among the merged scores, under
      the mean of its metric at its cutoff. */
  lemma MeansCoverBatch(scores: map<string, real>, entries: seq<QueryEntry>, metrics: seq<string>,
                        cutoffs: seq<nat>, discount: nat -> real)
    requires |entries| >= 1 && Evaluable(entries) && ValidDiscount(discount)
    requires forall k :: k in cutoffs ==> k >= 1
    requires HoldsMeans(scores, entries, cutoffs, discount)
    ensures BatchKeys(metrics, cutoffs) <= scores.Keys
    ensures forall k, m :: k in cutoffs && m in metrics && Lower(m) in BatchMetrics ==>
      scores[Key(Lower(m), k)] == Column(MeanScores(entries, true, k, discount), Lower(m))
  {
    assert forall n :: n in BatchMetrics ==> n in SupportedMetrics;
  }

  /** The second loop of `compute_ranking_score`: 0.0 under every key the
      batch table reports. */
  method DefaultTable(metrics: seq<string>, cutoffs: seq<nat>) returns (table: map<string, real>)
    ensures table.Keys == BatchKeys(metrics, cutoffs)
    ensures forall key :: key in table ==> table[key] == 0.0
  {
    table := map[];
    for i := 0 to |cutoffs|
      invariant table.Keys == BatchKeys(metrics, cutoffs[..i])
      invariant forall key :: key in table ==> table[key] == 0.0
    {
      assert cutoffs[..i + 1] == cutoffs[..i] + [cutoffs[i]];
      for j := 0 to |metrics|
        invariant table.Keys == BatchKeys(metrics, cutoffs[..i]) + BatchKeys(metrics[..j], [cutoffs[i]])
        invariant forall key :: key in table ==> table[key] == 0.0
      {
        assert metrics[..j + 1] == metrics[..j] + [metrics[j]];
        BatchKeysAddMetric(metrics[..j], metrics[j], cutoffs[i]);
        var name := Lower(metrics[j]);
        if name in BatchMetrics {
          table := table[Key(name, cutoffs[i]) := 0.0];
        }
      }
      assert metrics[..|metrics|] == metrics;
      BatchKeysAddCutoff(metrics, cutoffs[..i], cutoffs[i]);
    }
    assert cutoffs[..|cutoffs|] == cutoffs;
  }

  /** The third loop of `compute_ranking_score`: every reported key gets the
      merged score under it, rounded to 5 digits. */
  method FillTable(table0: map<string, real>, scores: map<string, real>, metrics: seq<string>, cutoffs: seq<nat>)
    returns (table: map<string, real>)
    requires table0.Keys == BatchKeys(metrics, cutoffs)
    requires BatchKeys(metrics, cutoffs) <= scores.Keys
    ensures table.Keys == BatchKeys(metrics, cutoffs)
    ensures forall key :: key in table ==> table[key] == Round5(scores[key])
  {
    table := table0;
    for i := 0 to |cutoffs|
      invariant table.Keys == BatchKeys(metrics, cutoffs)
      invariant forall key :: key in BatchKeys(metrics, cutoffs[..i]) ==> key in table && table[key] == Round5(scores[key])
    {
      var c := cutoffs[i];
      assert cutoffs[..i + 1] == cutoffs[..i] + [c];
      BatchKeysAddCutoff(metrics, cutoffs[..i], c);
      BatchKeysOfCutoff(metrics, cutoffs, c);
      table := FillRow(table, scores, metrics, c);
    }
    assert cutoffs[..|cutoffs|] == cutoffs;
  }

  /** One pass of the third loop's inner loop, at cutoff `c`: the keys at `c`
      get their rounded scores, every other entry stays as it was. */
  method FillRow(table0: map<string, real>, scores: map<string, real>, metrics: seq<string>, c: nat)
    returns (table: map<string, real>)
    requires BatchKeys(metrics, [c]) <= table0.Keys && BatchKeys(metrics, [c]) <= scores.Keys
    ensures table.Keys == table0.Keys
    ensures forall key :: key in BatchKeys(metrics, [c]) ==> table[key] == Round5(scores[key])
    ensures forall key :: key in table0 && key !in BatchKeys(metrics, [c]) ==> table[key] == table0[key]
  {
    table := table0;
    for j := 0 to |metrics|
      invariant table.Keys == table0.Keys
      invariant forall key :: key in BatchKeys(metrics[..j], [c]) ==> table[key] == Round5(scores[key])
      invariant forall key :: key in table0 && key !in BatchKeys(metrics, [c]) ==> table[key] == table0[key]
    {
      assert metrics[..j + 1] == metrics[..j] + [metrics[j]];
      BatchKeysAddMetric(metrics[..j], metrics[j], c);
      var name := Lower(metrics[j]);
      if name in BatchMetrics {
        var key := Key(name, c);
        assert c in [c] && key in BatchKeys(metrics, [c]);
        table := table[key := Round5(scores[key])];
      }
    }
    assert metrics[..|metrics|] == metrics;
  }

  /** The keys at one cutoff are among the keys of all cutoffs. */
  lemma BatchKeysOfCutoff(metrics: seq<string>, cutoffs: seq<nat>, c: nat)
    requires c in cutoffs
    ensures BatchKeys(metrics, [c]) <= BatchKeys(metrics, cutoffs)
  {
    forall x | x in BatchKeys(metrics, [c]) ensures x in BatchKeys(metrics, cutoffs) {
      var c', m :| c' in [c] && m in metrics && Lower(m) in BatchMetrics && x == Key(Lower(m), c');
      assert c' == c;
    }
  }

  lemma BatchKeysAddMetric(metrics: seq<string>, m: string, k: nat)
    ensures BatchKeys(metrics + [m], [k]) ==
      BatchKeys(metrics, [k]) + (if Lower(m) in BatchMetrics then {Key(Lower(m), k)} else {})
  {
    var a := BatchKeys(metrics + [m], [k]);
    var b := BatchKeys(metrics, [k]) + (if Lower(m) in BatchMetrics then {Key(Lower(m), k)} else {});
    forall x | x in a ensures x in b {
      var c, m' :| c in [k] && m' in metrics + [m] && Lower(m') in BatchMetrics && x == Key(Lower(m'), c);
      if m' != m {
        assert m' in metrics;
      }
    }
    forall x | x in b ensures x in a {
      if x in BatchKeys(metrics, [k]) {
        var c, m' :| c in [k] && m' in metrics && Lower(m') in BatchMetrics && x == Key(Lower(m'), c);
        assert m' in metrics + [m];
      } else {
        assert Lower(m) in BatchMetrics && x == Key(Lower(m), k);
        assert k in [k] && m in metrics + [m];
      }
    }
  }

  lemma BatchKeysAddCutoff(metrics: seq<string>, cutoffs: seq<nat>, k: nat)
    ensures BatchKeys(metrics, cutoffs + [k]) == BatchKeys(metrics, cutoffs) + BatchKeys(metrics, [k])
  {
    var a := BatchKeys(metrics, cutoffs + [k]);
    var b := BatchKeys(metrics, cutoffs) + BatchKeys(metrics, [k]);
    forall x | x in a ensures x in b {
      var c, m :| c in cutoffs + [k] && m in metrics && Lower(m) in BatchMetrics && x == Key(Lower(m), c);
      if c != k {
        assert c in cutoffs;
      }
    }
    forall x | x in b ensures x in a {
      if x in BatchKeys(metrics, cutoffs) {
        var c, m :| c in cutoffs && m in metrics && Lower(m) in BatchMetrics && x == Key(Lower(m), c);
        assert c in cutoffs + [k];
      } else {
        var c, m :| c in [k] && m in metrics && Lower(m) in BatchMetrics && x == Key(Lower(m), c);
        assert c in cutoffs + [k];
      }
    }
  }

  /** The values that the batch table reports for precision, recall and ndcg
      lie in [0, 1]: the means do, and rounding to 5 digits keeps them there. */
  lemma BatchValueBounds(entries: seq<QueryEntry>, k: nat, name: string, discount: nat -> real)
    requires |entries| >= 1 && k >= 1 && Evaluable(entries) && ValidDiscount(discount)
    requires PredictionsAreDicts(entries)
    requires name in BatchMetrics && name != "map"
    ensures 0.0 <= Round5(Column(MeanScores(entries, true, k, discount), name)) <= 1.0
  {
    MeanScoresBounds(entries, true, k, discount);
    Round5Unit(Column(MeanScores(entries, true, k, discount), name));
  }

  /** The batch table never has an `mrr` entry, whatever names are requested. */
  lemma MrrNeverReported(metrics: seq<string>, cutoffs: seq<nat>, k: nat)
    ensures Key("mrr", k) !in BatchKeys(metrics, cutoffs)
  {
    SupportedNamesAreLowerCase();
    if Key("mrr", k) in BatchKeys(metrics, cutoffs) {
      var c, m :| c in cutoffs && m in metrics && Lower(m) in BatchMetrics && Key(Lower(m), c) == Key("mrr", k);
      KeyInjective(Lower(m), c, "mrr", k);
    }
  }
}
