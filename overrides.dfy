/**
 * The per-record NRPS/PKS driver of es_paras/overrides.py (specific_analysis):
 * skips records without NRPS/PKS genes, adds the nrpys and PARAS results when there
 * are A domains, adds the PKS predictors' results, stores the two consensus views and
 * files every candidate-cluster prediction under the number of the region that owns it.
 *
 * Every collaborator (A-domain extraction, nrpys, the PKS predictors, the consensus,
 * the order analysis, the PARAS model) is an uninterpreted function held by a Host
 * object that records each call, so that which collaborators run, in which order and
 * with which arguments is part of what is proved.
 */
module Overrides {
  import opened Wrappers
  import opened Paras

  datatype Gene = Gene(name: string)

  /** What a candidate cluster's parent is: a region with its number, or anything else. */
  datatype Parent = RegionParent(regionNumber: int) | NotARegion

  /**
   * The record as the driver reads it: its NRPS/PKS genes and, for each candidate-cluster
   * number, the parent of that candidate cluster.
   */
  datatype Record = Record(nrpsPksGenes: seq<Gene>, candidateClusterParent: int -> Parent)

  /** The run configuration, handed to nrpys unread. */
  datatype Options = Options(settings: map<string, string>)

  /** A per-domain prediction of one method: a PARAS result or another method's prediction. */
  datatype Prediction = ParasPrediction(result: ParasResult) | OtherPrediction(methodName: string, classification: seq<string>)

  /** What the order analysis produces for one candidate cluster. */
  datatype ClusterPrediction = ClusterPrediction(candidateClusterNumber: int, polymer: string)

  /** Domain id to prediction, for one method. */
  type MethodResults = map<string, Prediction>

  /** Method name to that method's results. */
  type DomainPredictions = map<string, MethodResults>

  /** Domain id to consensus call. */
  type Consensus = map<string, string>

  /** One call of specific_analysis into a collaborator, with its arguments. */
  datatype Call =
    | ExtractADomains(record: Record, genes: seq<Gene>)
    | RunNrpys(aDomains: seq<Domain>, options: Options)
    | RunPks(genes: seq<Gene>)
    | CalculateConsensus(genes: seq<Gene>, predictions: DomainPredictions)
    | AnalyseOrder(genes: seq<Gene>, consensus: Consensus, record: Record)

  /** Why specific_analysis stops: run_paras failed, or a candidate cluster's parent is not a region. */
  datatype AnalysisError = ParasFailed(cause: ParasError) | ParentNotRegion(candidateClusterNumber: int)

  // ---------------------------------------------------------------------
  // The results store
  // ---------------------------------------------------------------------

  /** The results of one method so far (none when the method has not been added). */
  function Entries(dp: DomainPredictions, name: string): (entries: MethodResults)
  {
    if name in dp then dp[name] else map[]
  }

  /**
   * add_method_results: the method's new per-domain predictions join (and replace) its
   * earlier ones. The host store files each prediction under its domain, so a method
   * without any per-domain prediction leaves no trace: adding an empty mapping is a no-op.
   */
  function WithMethodResults(dp: DomainPredictions, name: string, methodResults: MethodResults): (out: DomainPredictions)
  {
    if methodResults == map[] then dp else dp[name := Entries(dp, name) + methodResults]
  }

  /** add_method_results applied to each (method, results) pair in turn. */
  function AddAll(dp: DomainPredictions, items: seq<(string, MethodResults)>): (out: DomainPredictions)
  {
    if items == [] then dp
    else
      var last := items[|items| - 1];
      WithMethodResults(AddAll(dp, items[..|items| - 1]), last.0, last.1)
  }

  /** The region's predictions so far: region_predictions is a defaultdict(list). */
  function RegionEntries(rp: map<int, seq<ClusterPrediction>>, n: int): (entries: seq<ClusterPrediction>)
  {
    if n in rp then rp[n] else []
  }

  /**
   * NRPS_PKS_Results, as far as specific_analysis touches it: the per-method domain
   * predictions, the two consensus views and the per-region prediction lists.
   */
  class NrpsPksResults {
    var domainPredictions: DomainPredictions
    var consensus: Consensus
    var consensusTransat: Consensus
    var regionPredictions: map<int, seq<ClusterPrediction>>

    constructor ()
      ensures domainPredictions == map[] && consensus == map[] && consensusTransat == map[]
      ensures regionPredictions == map[]
    {
      domainPredictions := map[];
      consensus := map[];
      consensusTransat := map[];
      regionPredictions := map[];
    }

    method AddMethodResults(name: string, methodResults: MethodResults)
      modifies this
      ensures domainPredictions == WithMethodResults(old(domainPredictions), name, methodResults)
      ensures consensus == old(consensus) && consensusTransat == old(consensusTransat)
      ensures regionPredictions == old(regionPredictions)
    {
      domainPredictions := WithMethodResults(domainPredictions, name, methodResults);
    }
  }

  // ---------------------------------------------------------------------
  // The collaborators
  // ---------------------------------------------------------------------

  /** The external analyses specific_analysis delegates to; `calls` records each call made to them. */
  class Host {
    const aDomainsOf: (Record, seq<Gene>) -> seq<Domain>
    const nrpys: (seq<Domain>, Options) -> MethodResults
    const pks: seq<Gene> -> seq<(string, MethodResults)>
    const consensusOf: (seq<Gene>, DomainPredictions) -> (Consensus, Consensus)
    const order: (seq<Gene>, Consensus, Record) -> seq<ClusterPrediction>
    const scorer: BulkScorer
    ghost var calls: seq<Call>

    constructor (aDomainsOf: (Record, seq<Gene>) -> seq<Domain>,
                 nrpys: (seq<Domain>, Options) -> MethodResults,
                 pks: seq<Gene> -> seq<(string, MethodResults)>,
                 consensusOf: (seq<Gene>, DomainPredictions) -> (Consensus, Consensus),
                 order: (seq<Gene>, Consensus, Record) -> seq<ClusterPrediction>,
                 scorer: BulkScorer)
      ensures this.aDomainsOf == aDomainsOf && this.nrpys == nrpys && this.pks == pks
      ensures this.consensusOf == consensusOf && this.order == order && this.scorer == scorer
      ensures calls == []
    {
      this.aDomainsOf := aDomainsOf;
      this.nrpys := nrpys;
      this.pks := pks;
      this.consensusOf := consensusOf;
      this.order := order;
      this.scorer := scorer;
      calls := [];
    }

    /** get_a_domains_from_cds_features */
    method GetADomains(record: Record, genes: seq<Gene>) returns (aDomains: seq<Domain>)
      modifies this
      ensures calls == old(calls) + [ExtractADomains(record, genes)]
      ensures aDomains == aDomainsOf(record, genes)
    {
      calls := calls + [ExtractADomains(record, genes)];
      aDomains := aDomainsOf(record, genes);
    }

    /** run_nrpys */
    method RunNrpysPredictions(aDomains: seq<Domain>, options: Options) returns (methodResults: MethodResults)
      modifies this
      ensures calls == old(calls) + [RunNrpys(aDomains, options)]
      ensures methodResults == nrpys(aDomains, options)
    {
      calls := calls + [RunNrpys(aDomains, options)];
      methodResults := nrpys(aDomains, options);
    }

    /** run_pks_substr_spec_predictions: (method, results) pairs in the order the dict yields them. */
    method RunPksPredictions(genes: seq<Gene>) returns (items: seq<(string, MethodResults)>)
      modifies this
      ensures calls == old(calls) + [RunPks(genes)]
      ensures items == pks(genes)
    {
      calls := calls + [RunPks(genes)];
      items := pks(genes);
    }

    /** calculate_consensus_prediction */
    method CalculateConsensusPrediction(genes: seq<Gene>, predictions: DomainPredictions) returns (pair: (Consensus, Consensus))
      modifies this
      ensures calls == old(calls) + [CalculateConsensus(genes, predictions)]
      ensures pair == consensusOf(genes, predictions)
    {
      calls := calls + [CalculateConsensus(genes, predictions)];
      pair := consensusOf(genes, predictions);
    }

    /** analyse_biosynthetic_order */
    method AnalyseBiosyntheticOrder(genes: seq<Gene>, consensus: Consensus, record: Record) returns (cps: seq<ClusterPrediction>)
      modifies this
      ensures calls == old(calls) + [AnalyseOrder(genes, consensus, record)]
      ensures cps == order(genes, consensus, record)
    {
      calls := calls + [AnalyseOrder(genes, consensus, record)];
      cps := order(genes, consensus, record);
    }
  }

  // ---------------------------------------------------------------------
  // The specification of the driver's stages
  // ---------------------------------------------------------------------

  function AsPredictions(m: map<string, ParasResult>): (preds: MethodResults)
    ensures preds.Keys == m.Keys
  {
    map id | id in m :: ParasPrediction(m[id])
  }

  /** The (method, results) pairs specific_analysis adds, in order, once run_paras has succeeded. */
  function AnalysisMethodResults(aDomains: seq<Domain>, nrpysResults: MethodResults, parasResults: map<string, ParasResult>,
                                 pksResults: seq<(string, MethodResults)>): (items: seq<(string, MethodResults)>)
  {
    (if aDomains == [] then [] else [("nrpys", nrpysResults), ("paras", AsPredictions(parasResults))]) + pksResults
  }

  /**
   * How far the region loop gets: the position of the first prediction whose candidate
   * cluster's parent is not a region, or the number of predictions when there is none.
   */
  function FirstNonRegion(cps: seq<ClusterPrediction>, parent: int -> Parent): (k: nat)
    ensures k <= |cps|
    ensures forall i :: 0 <= i < k ==> parent(cps[i].candidateClusterNumber).RegionParent?
    ensures k < |cps| ==> !parent(cps[k].candidateClusterNumber).RegionParent?
  {
    if cps == [] then 0
    else if !parent(cps[0].candidateClusterNumber).RegionParent? then 0
    else 1 + FirstNonRegion(cps[1..], parent)
  }

  /** The region lists after appending each prediction to the list of its parent region's number. */
  function Attached(rp: map<int, seq<ClusterPrediction>>, cps: seq<ClusterPrediction>, parent: int -> Parent): (out: map<int, seq<ClusterPrediction>>)
    requires forall i :: 0 <= i < |cps| ==> parent(cps[i].candidateClusterNumber).RegionParent?
  {
    if cps == [] then rp
    else
      var p := cps[|cps| - 1];
      var m := Attached(rp, cps[..|cps| - 1], parent);
      var n := parent(p.candidateClusterNumber).regionNumber;
      m[n := RegionEntries(m, n) + [p]]
  }

  /** The predictions whose candidate cluster belongs to region n, in their original order. */
  function ForRegion(cps: seq<ClusterPrediction>, n: int, parent: int -> Parent): (owned: seq<ClusterPrediction>)
  {
    if cps == [] then []
    else
      var p := cps[|cps| - 1];
      var rest := ForRegion(cps[..|cps| - 1], n, parent);
      if parent(p.candidateClusterNumber) == RegionParent(n) then rest + [p] else rest
  }

  /** Adding two lists of method results one after the other is adding their concatenation. */
  lemma {:induction false} AddAllConcat(dp: DomainPredictions, xs: seq<(string, MethodResults)>, ys: seq<(string, MethodResults)>)
    ensures AddAll(AddAll(dp, xs), ys) == AddAll(dp, xs + ys)
  {
    if ys == [] {
      assert xs + ys == xs;
    } else {
      AddAllConcat(dp, xs, ys[..|ys| - 1]);
      assert (xs + ys)[..|xs + ys| - 1] == xs + ys[..|ys| - 1];
    }
  }

  /**
   * After the additions, the methods present are those present before plus every method
   * added with at least one per-domain prediction.
   */
  lemma {:induction false} AddAllKeys(dp: DomainPredictions, items: seq<(string, MethodResults)>)
    ensures AddAll(dp, items).Keys == dp.Keys + (set i | 0 <= i < |items| && items[i].1 != map[] :: items[i].0)
  {
    if items != [] {
      var init := items[..|items| - 1];
      var last := items[|items| - 1];
      AddAllKeys(dp, init);
      assert (set i | 0 <= i < |items| && items[i].1 != map[] :: items[i].0)
        == (set i | 0 <= i < |init| && init[i].1 != map[] :: init[i].0) + (if last.1 != map[] then {last.0} else {});
    }
  }

  /** A method that is never added keeps exactly the results it had. */
  lemma {:induction false} AddAllAbsent(dp: DomainPredictions, items: seq<(string, MethodResults)>, name: string)
    requires forall i :: 0 <= i < |items| ==> items[i].0 != name
    ensures (name in AddAll(dp, items) <==> name in dp)
    ensures Entries(AddAll(dp, items), name) == Entries(dp, name)
  {
    if items != [] {
      AddAllAbsent(dp, items[..|items| - 1], name);
    }
  }

  /**
   * A method added once ends up with its earlier results joined by (and overridden with)
   * the added ones; it is present afterwards if and only if it was before or the added
   * results are not empty.
   */
  lemma {:induction false} AddAllOnce(dp: DomainPredictions, items: seq<(string, MethodResults)>, i: nat)
    requires i < |items|
    requires forall j :: 0 <= j < |items| && j != i ==> items[j].0 != items[i].0
    ensures items[i].0 in AddAll(dp, items) <==> items[i].0 in dp || items[i].1 != map[]
    ensures Entries(AddAll(dp, items), items[i].0) == Entries(dp, items[i].0) + items[i].1
  {
    var init := items[..|items| - 1];
    if i == |items| - 1 {
      AddAllAbsent(dp, init, items[i].0);
      if items[i].1 == map[] {
        assert Entries(dp, items[i].0) + items[i].1 == Entries(dp, items[i].0);
      }
    } else {
      AddAllOnce(dp, init, i);
    }
  }

  /**
   * The nrpys and PARAS results are in the store if and only if the record has A domains
   * and the predictor produced some per-domain prediction, and the store then holds exactly
   * what nrpys and run_paras produced (for a store that held neither before and PKS
   * methods of other names).
   */
  lemma ADomainMethodsIff(dp: DomainPredictions, aDomains: seq<Domain>, nrpysResults: MethodResults,
                          parasResults: map<string, ParasResult>, pksResults: seq<(string, MethodResults)>)
    requires "nrpys" !in dp && "paras" !in dp
    requires forall i :: 0 <= i < |pksResults| ==> pksResults[i].0 != "nrpys" && pksResults[i].0 != "paras"
    ensures var out := AddAll(dp, AnalysisMethodResults(aDomains, nrpysResults, parasResults, pksResults));
      && ("nrpys" in out <==> aDomains != [] && nrpysResults != map[])
      && ("paras" in out <==> aDomains != [] && parasResults != map[])
      && Entries(out, "nrpys") == (if aDomains == [] then map[] else nrpysResults)
      && Entries(out, "paras") == (if aDomains == [] then map[] else AsPredictions(parasResults))
  {
    var items := AnalysisMethodResults(aDomains, nrpysResults, parasResults, pksResults);
    if aDomains == [] {
      AddAllAbsent(dp, items, "nrpys");
      AddAllAbsent(dp, items, "paras");
    } else {
      AddAllOnce(dp, items, 0);
      AddAllOnce(dp, items, 1);
    }
  }

  /**
   * Every PKS method's results are added, with or without A domains (for PKS methods of
   * distinct names other than nrpys and paras).
   */
  lemma PksMethodsAdded(dp: DomainPredictions, aDomains: seq<Domain>, nrpysResults: MethodResults,
                        parasResults: map<string, ParasResult>, pksResults: seq<(string, MethodResults)>, i: nat)
    requires i < |pksResults|
    requires pksResults[i].0 != "nrpys" && pksResults[i].0 != "paras"
    requires forall j :: 0 <= j < |pksResults| && j != i ==> pksResults[j].0 != pksResults[i].0
    ensures var out := AddAll(dp, AnalysisMethodResults(aDomains, nrpysResults, parasResults, pksResults));
      && (pksResults[i].0 in out <==> pksResults[i].0 in dp || pksResults[i].1 != map[])
      && Entries(out, pksResults[i].0) == Entries(dp, pksResults[i].0) + pksResults[i].1
  {
    var items := AnalysisMethodResults(aDomains, nrpysResults, parasResults, pksResults);
    var offset := |items| - |pksResults|;
    assert items[offset + i] == pksResults[i];
    AddAllOnce(dp, items, offset + i);
  }

  /**
   * After a successful run_paras, the PARAS results are in the store if and only if the
   * record has A domains: a successful run gives every domain a result under its id.
   */
  lemma ParasPresentIff(dp: DomainPredictions, aDomains: seq<Domain>, nrpysResults: MethodResults,
                        predictions: seq<seq<Entry>>, pksResults: seq<(string, MethodResults)>)
    requires "nrpys" !in dp && "paras" !in dp
    requires forall i :: 0 <= i < |pksResults| ==> pksResults[i].0 != "nrpys" && pksResults[i].0 != "paras"
    requires AssignByPosition(aDomains, predictions).Success?
    ensures var parasResults := AssignByPosition(aDomains, predictions).value;
      "paras" in AddAll(dp, AnalysisMethodResults(aDomains, nrpysResults, parasResults, pksResults)) <==> aDomains != []
  {
    var parasResults := AssignByPosition(aDomains, predictions).value;
    ADomainMethodsIff(dp, aDomains, nrpysResults, parasResults, pksResults);
    AssignKeys(aDomains, predictions, |aDomains|);
    if aDomains != [] {
      assert aDomains[0].domainId in parasResults;
    }
  }

  /**
   * Filing appends to region n's list exactly the predictions whose candidate cluster
   * belongs to region n, in the order the order analysis gave them.
   */
  lemma {:induction false} AttachedGroupsByRegion(rp: map<int, seq<ClusterPrediction>>, cps: seq<ClusterPrediction>,
                                                  parent: int -> Parent, n: int)
    requires forall i :: 0 <= i < |cps| ==> parent(cps[i].candidateClusterNumber).RegionParent?
    ensures RegionEntries(Attached(rp, cps, parent), n) == RegionEntries(rp, n) + ForRegion(cps, n, parent)
  {
    if cps != [] {
      var init := cps[..|cps| - 1];
      AttachedGroupsByRegion(rp, init, parent, n);
    }
  }

  /** No prediction belongs to a region none of their candidate clusters is in. */
  lemma {:induction false} ForRegionNone(cps: seq<ClusterPrediction>, n: int, parent: int -> Parent)
    requires forall i :: 0 <= i < |cps| ==> parent(cps[i].candidateClusterNumber) != RegionParent(n)
    ensures ForRegion(cps, n, parent) == []
  {
    if cps != [] {
      ForRegionNone(cps[..|cps| - 1], n, parent);
    }
  }

  /** The region numbers with a list afterwards: those before plus the parents of the filed predictions. */
  lemma {:induction false} AttachedKeys(rp: map<int, seq<ClusterPrediction>>, cps: seq<ClusterPrediction>, parent: int -> Parent)
    requires forall i :: 0 <= i < |cps| ==> parent(cps[i].candidateClusterNumber).RegionParent?
    ensures Attached(rp, cps, parent).Keys
      == rp.Keys + (set i | 0 <= i < |cps| :: parent(cps[i].candidateClusterNumber).regionNumber)
  {
    if cps != [] {
      var init := cps[..|cps| - 1];
      AttachedKeys(rp, init, parent);
      assert (set i | 0 <= i < |cps| :: parent(cps[i].candidateClusterNumber).regionNumber)
        == (set i | 0 <= i < |init| :: parent(init[i].candidateClusterNumber).regionNumber)
           + {parent(cps[|cps| - 1].candidateClusterNumber).regionNumber};
    }
  }

  /** The list of a region that owns none of the filed predictions is left as it was. */
  lemma AttachedOtherRegions(rp: map<int, seq<ClusterPrediction>>, cps: seq<ClusterPrediction>, parent: int -> Parent, n: int)
    requires forall i :: 0 <= i < |cps| ==> parent(cps[i].candidateClusterNumber).RegionParent?
    requires forall i :: 0 <= i < |cps| ==> parent(cps[i].candidateClusterNumber) != RegionParent(n)
    ensures (n in Attached(rp, cps, parent) <==> n in rp)
    ensures RegionEntries(Attached(rp, cps, parent), n) == RegionEntries(rp, n)
  {
    AttachedGroupsByRegion(rp, cps, parent, n);
    ForRegionNone(cps, n, parent);
    AttachedKeys(rp, cps, parent);
  }

  // ---------------------------------------------------------------------
  // specific_analysis
  // ---------------------------------------------------------------------

  /** The loop adding each PKS method's results to the store, in the order the predictors give them. */
  method AddPksResults(results: NrpsPksResults, pksResults: seq<(string, MethodResults)>)
    modifies results
    ensures results.domainPredictions == AddAll(old(results.domainPredictions), pksResults)
    ensures results.consensus == old(results.consensus) && results.consensusTransat == old(results.consensusTransat)
    ensures results.regionPredictions == old(results.regionPredictions)
  {
    for i := 0 to |pksResults|
      invariant results.domainPredictions == AddAll(old(results.domainPredictions), pksResults[..i])
      invariant results.consensus == old(results.consensus)
      invariant results.consensusTransat == old(results.consensusTransat)
      invariant results.regionPredictions == old(results.regionPredictions)
    {
      results.AddMethodResults(pksResults[i].0, pksResults[i].1);
      assert pksResults[..i + 1][..i] == pksResults[..i];
    }
    assert pksResults[..|pksResults|] == pksResults;
  }

  /**
   * The loop filing each candidate-cluster prediction under its parent region's number.
   * It stops at the first prediction whose parent is not a region (the assertion), having
   * filed every earlier one; `stoppedAt` is that position, or |cps| when all were filed.
   */
  method AttachToRegions(results: NrpsPksResults, cps: seq<ClusterPrediction>, record: Record) returns (stoppedAt: nat)
    modifies results
    ensures stoppedAt == FirstNonRegion(cps, record.candidateClusterParent)
    ensures results.regionPredictions == Attached(old(results.regionPredictions), cps[..stoppedAt], record.candidateClusterParent)
    ensures results.domainPredictions == old(results.domainPredictions)
    ensures results.consensus == old(results.consensus) && results.consensusTransat == old(results.consensusTransat)
  {
    for i := 0 to |cps|
      invariant forall j :: 0 <= j < i ==> record.candidateClusterParent(cps[j].candidateClusterNumber).RegionParent?
      invariant results.regionPredictions == Attached(old(results.regionPredictions), cps[..i], record.candidateClusterParent)
      invariant results.domainPredictions == old(results.domainPredictions)
      invariant results.consensus == old(results.consensus)
      invariant results.consensusTransat == old(results.consensusTransat)
    {
      var parent := record.candidateClusterParent(cps[i].candidateClusterNumber);
      if !parent.RegionParent? {
        return i;
      }
      var n := parent.regionNumber;
      results.regionPredictions := results.regionPredictions[n := RegionEntries(results.regionPredictions, n) + [cps[i]]];
      assert cps[..i + 1][..i] == cps[..i];
    }
    assert cps[..|cps|] == cps;
    return |cps|;
  }

  /** The results the A-domain stage adds: nrpys, then PARAS unless run_paras failed; none without A domains. */
  function ADomainMethodResults(aDomains: seq<Domain>, nrpysResults: MethodResults,
                                paras: Result<map<string, ParasResult>, ParasError>): (items: seq<(string, MethodResults)>)
  {
    if aDomains == [] then []
    else if paras.Failure? then [("nrpys", nrpysResults)]
    else [("nrpys", nrpysResults), ("paras", AsPredictions(paras.value))]
  }

  /**
   * The A-domain stage of specific_analysis: with A domains, runs nrpys and adds its results,
   * then runs PARAS and adds its results unless run_paras failed; without A domains, does
   * nothing (and reports the empty PARAS mapping run_paras would give).
   */
  method AddADomainResults(results: NrpsPksResults, aDomains: seq<Domain>, options: Options, host: Host)
    returns (paras: Result<map<string, ParasResult>, ParasError>)
    modifies results, host, host.scorer
    ensures paras == AssignByPosition(aDomains, host.scorer.model(Translations(aDomains), Threshold))
    ensures results.domainPredictions
      == AddAll(old(results.domainPredictions), ADomainMethodResults(aDomains, host.nrpys(aDomains, options), paras))
    ensures results.consensus == old(results.consensus) && results.consensusTransat == old(results.consensusTransat)
    ensures results.regionPredictions == old(results.regionPredictions)
    ensures host.calls == old(host.calls) + (if aDomains == [] then [] else [RunNrpys(aDomains, options)])
    ensures host.scorer.calls == old(host.scorer.calls) + (if aDomains == [] then [] else [BulkCall(Translations(aDomains), Threshold)])
  {
    if aDomains == [] {
      return Success(map[]);
    }
    ghost var before := results.domainPredictions;
    var nrpysResults := host.RunNrpysPredictions(aDomains, options);
    results.AddMethodResults("nrpys", nrpysResults);
    assert [("nrpys", nrpysResults)][..0] == [];
    assert results.domainPredictions == AddAll(before, [("nrpys", nrpysResults)]);
    paras := RunParas(aDomains, host.scorer);
    if paras.Success? {
      results.AddMethodResults("paras", AsPredictions(paras.value));
      assert [("nrpys", nrpysResults), ("paras", AsPredictions(paras.value))][..1] == [("nrpys", nrpysResults)];
    }
  }

  /**
   * The stages after the A domains: every PKS method's results are added, the consensus
   * pair is computed over all results and stored, and the order analysis' predictions are
   * filed by region up to the first one whose parent is not a region.
   */
  method CombineAndAttach(record: Record, genes: seq<Gene>, results: NrpsPksResults, host: Host)
    returns (stoppedAt: nat, cps: seq<ClusterPrediction>)
    modifies results, host
    ensures results.domainPredictions == AddAll(old(results.domainPredictions), host.pks(genes))
    ensures (results.consensus, results.consensusTransat) == host.consensusOf(genes, results.domainPredictions)
    ensures cps == host.order(genes, results.consensus, record)
    ensures stoppedAt == FirstNonRegion(cps, record.candidateClusterParent)
    ensures results.regionPredictions == Attached(old(results.regionPredictions), cps[..stoppedAt], record.candidateClusterParent)
    ensures host.calls == old(host.calls) + [RunPks(genes)]
      + [CalculateConsensus(genes, results.domainPredictions)] + [AnalyseOrder(genes, results.consensus, record)]
  {
    var pksResults := host.RunPksPredictions(genes);
    AddPksResults(results, pksResults);

    var consensusPair := host.CalculateConsensusPrediction(genes, results.domainPredictions);
    results.consensus, results.consensusTransat := consensusPair.0, consensusPair.1;

    cps := host.AnalyseBiosyntheticOrder(genes, results.consensus, record);
    stoppedAt := AttachToRegions(results, cps, record);
  }

  /**
   * specific_analysis: returns `results` untouched when the record has no NRPS/PKS genes;
   * otherwise adds nrpys and PARAS results (only when there are A domains), then every PKS
   * method's results, stores the consensus pair computed over all of them, and appends each
   * candidate-cluster prediction to its parent region's list, failing at the first one whose
   * parent is not a region. A run_paras failure ends the analysis after nrpys.
   */
  method SpecificAnalysis(record: Record, results: NrpsPksResults, options: Options, host: Host)
    returns (outcome: Result<NrpsPksResults, AnalysisError>)
    modifies results, host, host.scorer
    ensures outcome.Success? ==> outcome.value == results
    // no NRPS/PKS genes: nothing is called and nothing changes
    ensures record.nrpsPksGenes == [] ==>
      && outcome == Success(results)
      && unchanged(results) && unchanged(host) && unchanged(host.scorer)
    // run_paras failed: only the nrpys results were added
    ensures var genes := record.nrpsPksGenes;
      var aDomains := host.aDomainsOf(record, genes);
      var paras := AssignByPosition(aDomains, host.scorer.model(Translations(aDomains), Threshold));
      genes != [] && aDomains != [] && paras.Failure? ==>
        && outcome == Failure(ParasFailed(paras.error))
        && results.domainPredictions == AddAll(old(results.domainPredictions), [("nrpys", host.nrpys(aDomains, options))])
        && results.consensus == old(results.consensus)
        && results.consensusTransat == old(results.consensusTransat)
        && results.regionPredictions == old(results.regionPredictions)
        && host.calls == old(host.calls) + [ExtractADomains(record, genes), RunNrpys(aDomains, options)]
        && host.scorer.calls == old(host.scorer.calls) + [BulkCall(Translations(aDomains), Threshold)]
    // otherwise every stage ran
    ensures var genes := record.nrpsPksGenes;
      var aDomains := host.aDomainsOf(record, genes);
      var paras := AssignByPosition(aDomains, host.scorer.model(Translations(aDomains), Threshold));
      genes != [] && paras.Success? ==>
        var methodResults := AnalysisMethodResults(aDomains, host.nrpys(aDomains, options), paras.value, host.pks(genes));
        var cps := host.order(genes, results.consensus, record);
        var k := FirstNonRegion(cps, record.candidateClusterParent);
        && results.domainPredictions == AddAll(old(results.domainPredictions), methodResults)
        && (results.consensus, results.consensusTransat) == host.consensusOf(genes, results.domainPredictions)
        && results.regionPredictions == Attached(old(results.regionPredictions), cps[..k], record.candidateClusterParent)
        && outcome == (if k < |cps| then Failure(ParentNotRegion(cps[k].candidateClusterNumber)) else Success(results))
        && host.calls == old(host.calls) + [ExtractADomains(record, genes)]
             + (if aDomains == [] then [] else [RunNrpys(aDomains, options)])
             + [RunPks(genes)] + [CalculateConsensus(genes, results.domainPredictions)] + [AnalyseOrder(genes, results.consensus, record)]
        && host.scorer.calls == old(host.scorer.calls)
             + (if aDomains == [] then [] else [BulkCall(Translations(aDomains), Threshold)])
  {
    var genes := record.nrpsPksGenes;
    if genes == [] {
      return Success(results);
    }

    var aDomains := host.GetADomains(record, genes);
    var paras := AddADomainResults(results, aDomains, options, host);
    if paras.Failure? {
      return Failure(ParasFailed(paras.error));
    }
    ghost var added := ADomainMethodResults(aDomains, host.nrpys(aDomains, options), paras);

    var stoppedAt, cps := CombineAndAttach(record, genes, results, host);
    AddAllConcat(old(results.domainPredictions), added, host.pks(genes));
    if stoppedAt < |cps| {
      return Failure(ParentNotRegion(cps[stoppedAt].candidateClusterNumber));
    }
    return Success(results);
  }
}
