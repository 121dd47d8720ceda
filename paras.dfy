/**
 * The PARAS glue of es_paras/paras.py: the ParasResult prediction object
 * (classification, HTML summary, JSON round trip) and run_paras, which
 * scores every adenylation domain in one batch call and maps the results
 * back to the domain identifiers by position.
 */
module Paras {
  import opened Wrappers

  /** One candidate substrate call of the scoring model: a (score, label) pair. */
  datatype Entry = Entry(score: real, name: string)

  /** The ranked candidate list PARAS produced for one domain, in model order. */
  datatype ParasResult = ParasResult(predictions: seq<Entry>)

  /** The method tag every ParasResult hands to its base class. */
  const ParasMethod: string := "PARAS"

  /** The score threshold run_paras passes to the batch scorer. */
  const Threshold: real := 0.2

  // ---------------------------------------------------------------------
  // get_classification
  // ---------------------------------------------------------------------

  function Labels(entries: seq<Entry>): (labels: seq<string>)
  {
    seq(|entries|, k requires 0 <= k < |entries| => entries[k].name)
  }

  /** The entries whose score is exactly `top`, in their original order. */
  function Tied(entries: seq<Entry>, top: real): (kept: seq<Entry>)
  {
    if entries == [] then []
    else
      var rest := Tied(entries[..|entries| - 1], top);
      var last := entries[|entries| - 1];
      if last.score == top then rest + [last] else rest
  }

  /** The labels get_classification returns: every label tied with the first entry's score. */
  function Classification(r: ParasResult): (labels: seq<string>)
  {
    if r.predictions == [] then [] else Labels(Tied(r.predictions, r.predictions[0].score))
  }

  /**
   * get_classification: keeps the first entry, then scans the rest in order and keeps
   * every entry whose score equals the first one's. `asNorine` is accepted and ignored.
   */
  method GetClassification(r: ParasResult, asNorine: bool) returns (labels: seq<string>)
    ensures labels == Classification(r)
  {
    if r.predictions == [] {
      return [];
    }
    var tied := [r.predictions[0]];
    var i := 1;
    while i < |r.predictions|
      invariant 1 <= i <= |r.predictions|
      invariant tied != [] && tied[0] == r.predictions[0]
      invariant tied == Tied(r.predictions[..i], r.predictions[0].score)
    {
      var prediction := r.predictions[i];
      if prediction.score == tied[0].score {
        tied := tied + [prediction];
      }
      assert r.predictions[..i + 1][..i] == r.predictions[..i];
      i := i + 1;
    }
    assert r.predictions[..i] == r.predictions;
    labels := Labels(tied);
  }

  /** The positions of the entries Tied keeps, in increasing order. */
  ghost function TiedIndices(entries: seq<Entry>, top: real): (ix: seq<nat>)
  {
    if entries == [] then []
    else
      var rest := TiedIndices(entries[..|entries| - 1], top);
      if entries[|entries| - 1].score == top then rest + [|entries| - 1] else rest
  }

  /** Tied keeps one entry per kept position, and no more than there are entries. */
  lemma {:induction false} TiedLength(entries: seq<Entry>, top: real)
    ensures |Tied(entries, top)| == |TiedIndices(entries, top)| <= |entries|
  {
    if entries != [] {
      TiedLength(entries[..|entries| - 1], top);
    }
  }

  /** The k-th kept entry is the entry at the k-th kept position. */
  lemma {:induction false} TiedAt(entries: seq<Entry>, top: real)
    ensures |Tied(entries, top)| == |TiedIndices(entries, top)|
    ensures forall k :: 0 <= k < |TiedIndices(entries, top)| ==>
      TiedIndices(entries, top)[k] < |entries| && Tied(entries, top)[k] == entries[TiedIndices(entries, top)[k]]
  {
    TiedLength(entries, top);
    if entries != [] {
      var init := entries[..|entries| - 1];
      TiedAt(init, top);
      assert forall i :: 0 <= i < |init| ==> init[i] == entries[i];
    }
  }

  /** The kept positions are strictly increasing: Tied keeps the original order. */
  lemma {:induction false} TiedIndicesIncreasing(entries: seq<Entry>, top: real)
    ensures forall k :: 0 <= k < |TiedIndices(entries, top)| ==> TiedIndices(entries, top)[k] < |entries|
    ensures forall k, l :: 0 <= k < l < |TiedIndices(entries, top)| ==>
      TiedIndices(entries, top)[k] < TiedIndices(entries, top)[l]
  {
    if entries != [] {
      TiedIndicesIncreasing(entries[..|entries| - 1], top);
    }
  }

  /** A position is kept if and only if its entry scores exactly `top`, adjacent to another tie or not. */
  lemma {:induction false} TiedIndicesExact(entries: seq<Entry>, top: real)
    ensures forall i :: 0 <= i < |entries| ==> (i in TiedIndices(entries, top) <==> entries[i].score == top)
  {
    if entries != [] {
      var n := |entries| - 1;
      var init := entries[..n];
      TiedIndicesExact(init, top);
      TiedIndicesIncreasing(init, top);
      var ix := TiedIndices(init, top);
      forall i | 0 <= i < |entries|
        ensures i in TiedIndices(entries, top) <==> entries[i].score == top
      {
        if i < n {
          assert init[i] == entries[i];
          assert i in TiedIndices(entries, top) <==> i in ix;
        }
      }
    }
  }

  /**
   * The classification is exactly the labels of the entries scoring the same as the
   * first entry, at strictly increasing positions, including ties that are not adjacent.
   */
  lemma ClassificationIsTopTies(r: ParasResult)
    requires r.predictions != []
    ensures var c, ix := Classification(r), TiedIndices(r.predictions, r.predictions[0].score);
      && |c| == |ix|
      && (forall k :: 0 <= k < |ix| ==> ix[k] < |r.predictions| && c[k] == r.predictions[ix[k]].name)
      && (forall k, l :: 0 <= k < l < |ix| ==> ix[k] < ix[l])
      && (forall i :: 0 <= i < |r.predictions| ==> (i in ix <==> r.predictions[i].score == r.predictions[0].score))
  {
    TiedAt(r.predictions, r.predictions[0].score);
    TiedIndicesIncreasing(r.predictions, r.predictions[0].score);
    TiedIndicesExact(r.predictions, r.predictions[0].score);
  }

  /** An empty candidate list, and only an empty one, classifies as no label at all. */
  lemma ClassificationEmptyIff(r: ParasResult)
    ensures Classification(r) == [] <==> r.predictions == []
  {
    if r.predictions != [] {
      var ix := TiedIndices(r.predictions, r.predictions[0].score);
      TiedLength(r.predictions, r.predictions[0].score);
      TiedIndicesExact(r.predictions, r.predictions[0].score);
      assert 0 in ix;
    }
  }

  /**
   * For a non-empty list the first label is the first entry's, the result has between one
   * and |predictions| labels, and every label comes from some entry.
   */
  lemma ClassificationBounds(r: ParasResult)
    requires r.predictions != []
    ensures var c := Classification(r);
      && 1 <= |c| <= |r.predictions|
      && c[0] == r.predictions[0].name
      && forall k :: 0 <= k < |c| ==> exists i :: 0 <= i < |r.predictions| && r.predictions[i].name == c[k]
  {
    var ix := TiedIndices(r.predictions, r.predictions[0].score);
    ClassificationIsTopTies(r);
    TiedLength(r.predictions, r.predictions[0].score);
    assert 0 in ix;
    var c := Classification(r);
    forall k | 0 <= k < |c|
      ensures exists i :: 0 <= i < |r.predictions| && r.predictions[i].name == c[k]
    {
      assert r.predictions[ix[k]].name == c[k];
    }
  }

  /** A tie that is not adjacent to the first entry is still part of the classification. */
  lemma NonAdjacentTieExample()
    ensures Classification(ParasResult([Entry(0.9, "leu"), Entry(0.4, "val"), Entry(0.9, "ile")])) == ["leu", "ile"]
  {
    var es := [Entry(0.9, "leu"), Entry(0.4, "val"), Entry(0.9, "ile")];
    assert es[..1][..0] == [];
    assert Tied(es[..1], 0.9) == [es[0]];
    assert es[..2][..1] == es[..1];
    assert Tied(es[..2], 0.9) == [es[0]];
    assert es[..2] == es[..|es| - 1];
    assert Tied(es, 0.9) == [es[0], es[2]];
  }

  // ---------------------------------------------------------------------
  // as_html
  // ---------------------------------------------------------------------

  const NoHits: string := "No hits above threshold."
  const HtmlHeader: string := "<dl><dt>PARAS prediction, score (0-1):</dt> <dd>  <dl>"
  const HtmlFooter: string := "  </dl> </dd></dl>"

  /** One line of the summary; `formatScore` stands for the two-decimal float format. */
  function EntryHtml(e: Entry, formatScore: real -> string): (line: string)
  {
    "<dd></dd><dt>" + e.name + ": " + formatScore(e.score) + "</dt>"
  }

  function EntryLines(entries: seq<Entry>, formatScore: real -> string): (lines: seq<string>)
  {
    seq(|entries|, i requires 0 <= i < |entries| => EntryHtml(entries[i], formatScore))
  }

  /** "\n".join(lines) */
  function JoinLines(lines: seq<string>): (s: string)
  {
    if |lines| == 0 then ""
    else if |lines| == 1 then lines[0]
    else lines[0] + "\n" + JoinLines(lines[1..])
  }

  /** s.split("\n"): the inverse of JoinLines on lines without a newline. */
  function SplitLines(s: string): (lines: seq<string>)
    ensures |lines| >= 1
  {
    if s == [] then [""]
    else
      var rest := SplitLines(s[1..]);
      if s[0] == '\n' then [""] + rest else [[s[0]] + rest[0]] + rest[1..]
  }

  /** as_html: a fixed message without hits, otherwise one line per entry between a header and a footer. */
  function AsHtml(r: ParasResult, formatScore: real -> string): (html: string)
  {
    if r.predictions == [] then NoHits
    else HtmlHeader + JoinLines(EntryLines(r.predictions, formatScore)) + HtmlFooter
  }

  lemma {:induction false} SplitSingleLine(a: string)
    requires '\n' !in a
    ensures SplitLines(a) == [a]
  {
    if a != [] {
      SplitSingleLine(a[1..]);
      assert a[0] != '\n';
      assert [a[0]] + a[1..] == a;
    }
  }

  lemma {:induction false} SplitFirstLine(a: string, b: string)
    requires '\n' !in a
    ensures SplitLines(a + "\n" + b) == [a] + SplitLines(b)
  {
    if a == [] {
      assert a + "\n" + b == "\n" + b;
      assert ("\n" + b)[1..] == b;
    } else {
      SplitFirstLine(a[1..], b);
      assert (a + "\n" + b)[1..] == a[1..] + "\n" + b;
      assert [a[0]] + a[1..] == a;
    }
  }

  /** Splitting the joined lines gives back the lines, when no line holds a newline. */
  lemma {:induction false} SplitJoin(lines: seq<string>)
    requires |lines| >= 1
    requires forall i :: 0 <= i < |lines| ==> '\n' !in lines[i]
    ensures SplitLines(JoinLines(lines)) == lines
  {
    if |lines| == 1 {
      SplitSingleLine(lines[0]);
    } else {
      SplitJoin(lines[1..]);
      SplitFirstLine(lines[0], JoinLines(lines[1..]));
      assert [lines[0]] + lines[1..] == lines;
    }
  }

  /** The summary is the no-hits message exactly when there are no entries. */
  lemma AsHtmlEmptyIff(r: ParasResult, formatScore: real -> string)
    ensures AsHtml(r, formatScore) == NoHits <==> r.predictions == []
  {
    if r.predictions != [] {
      var h := AsHtml(r, formatScore);
      assert h == HtmlHeader + JoinLines(EntryLines(r.predictions, formatScore)) + HtmlFooter;
      assert |h| > |NoHits|;
    }
  }

  /**
   * With entries, the summary is the header, then the entry lines in list order joined
   * by newlines, then the footer: cutting off header and footer and splitting on
   * newlines gives back one line per entry (for labels and formatted scores without a
   * newline of their own).
   */
  lemma AsHtmlLines(r: ParasResult, formatScore: real -> string)
    requires r.predictions != []
    requires forall i :: 0 <= i < |r.predictions| ==>
      '\n' !in r.predictions[i].name && '\n' !in formatScore(r.predictions[i].score)
    ensures var h := AsHtml(r, formatScore);
      && |HtmlHeader| + |HtmlFooter| <= |h|
      && h[..|HtmlHeader|] == HtmlHeader
      && h[|h| - |HtmlFooter|..] == HtmlFooter
      && SplitLines(h[|HtmlHeader|..|h| - |HtmlFooter|]) == EntryLines(r.predictions, formatScore)
      && |EntryLines(r.predictions, formatScore)| == |r.predictions|
  {
    var lines := EntryLines(r.predictions, formatScore);
    forall i | 0 <= i < |lines|
      ensures '\n' !in lines[i]
    {
      var e := r.predictions[i];
      assert lines[i] == "<dd></dd><dt>" + e.name + ": " + formatScore(e.score) + "</dt>";
    }
    SplitJoin(lines);
    var core := JoinLines(lines);
    var h := AsHtml(r, formatScore);
    assert h == HtmlHeader + core + HtmlFooter;
    assert h[|HtmlHeader|..|h| - |HtmlFooter|] == core;
  }

  // ---------------------------------------------------------------------
  // to_json / from_json
  // ---------------------------------------------------------------------

  /** The attribute values vars(self) holds: the method tag and the entry list. */
  datatype JsonValue = JString(s: string) | JEntries(entries: seq<Entry>)

  datatype JsonError = KeyError(key: string) | NotAnEntryList(key: string)

  /** to_json: the object's attributes, the method tag under "method". */
  function ToJson(r: ParasResult): (json: map<string, JsonValue>)
  {
    map["method" := JString(ParasMethod), "predictions" := JEntries(r.predictions)]
  }

  /** from_json: a new ParasResult built from the "predictions" value alone. */
  function FromJson(json: map<string, JsonValue>): (r: Result<ParasResult, JsonError>)
  {
    if "predictions" !in json then Failure(KeyError("predictions"))
    else
      match json["predictions"]
      case JEntries(entries) => Success(ParasResult(entries))
      case JString(_) => Failure(NotAnEntryList("predictions"))
  }

  /**
   * from_json inverts to_json: the same predictions, hence the same classification
   * and summary, and the method tag recorded is "PARAS".
   */
  lemma JsonRoundTrip(r: ParasResult, formatScore: real -> string)
    ensures FromJson(ToJson(r)) == Success(r)
    ensures ToJson(r)["method"] == JString("PARAS")
    ensures Classification(FromJson(ToJson(r)).value) == Classification(r)
    ensures AsHtml(FromJson(ToJson(r)).value, formatScore) == AsHtml(r, formatScore)
  {
  }

  /**
   * from_json reads the "predictions" key and nothing else: it fails exactly when that
   * key is missing or holds no entry list, and serialising what it builds gives back that
   * value under the PARAS method tag, whatever else the input held.
   */
  lemma FromJsonReadsPredictions(json: map<string, JsonValue>)
    ensures FromJson(json).Success? <==> "predictions" in json && json["predictions"].JEntries?
    ensures "predictions" !in json ==> FromJson(json) == Failure(KeyError("predictions"))
    ensures FromJson(json).Success? ==>
      ToJson(FromJson(json).value) == map["method" := JString(ParasMethod), "predictions" := json["predictions"]]
  {
  }

  // ---------------------------------------------------------------------
  // run_paras
  // ---------------------------------------------------------------------

  /** An adenylation domain as run_paras sees it. */
  datatype Domain = Domain(domainId: string, translation: string)

  /** One invocation of the batch scorer. */
  datatype BulkCall = BulkCall(sequences: seq<string>, threshold: real)

  /** Why run_paras stops: the id assertion at a position, or indexing past the results. */
  datatype ParasError = MissingDomainId(index: nat) | MissingPrediction(index: nat)

  /**
   * run_paras_bulk, the PARAS model: an uninterpreted function of the sequences and the
   * threshold, plus a record of the calls made to it.
   */
  class BulkScorer {
    const model: (seq<string>, real) -> seq<seq<Entry>>
    ghost var calls: seq<BulkCall>

    constructor (model: (seq<string>, real) -> seq<seq<Entry>>)
      ensures this.model == model && calls == []
    {
      this.model := model;
      calls := [];
    }

    method RunParasBulk(sequences: seq<string>, threshold: real) returns (predictions: seq<seq<Entry>>)
      modifies this
      ensures calls == old(calls) + [BulkCall(sequences, threshold)]
      ensures predictions == model(sequences, threshold)
    {
      calls := calls + [BulkCall(sequences, threshold)];
      predictions := model(sequences, threshold);
    }
  }

  function Translations(domains: seq<Domain>): (sequences: seq<string>)
  {
    seq(|domains|, i requires 0 <= i < |domains| => domains[i].translation)
  }

  /** What the second loop of run_paras has built after the first n domains. */
  function AssignPrefix(domains: seq<Domain>, predictions: seq<seq<Entry>>, n: nat): (r: Result<map<string, ParasResult>, ParasError>)
    requires n <= |domains|
  {
    if n == 0 then Success(map[])
    else
      match AssignPrefix(domains, predictions, n - 1)
      case Failure(e) => Failure(e)
      case Success(m) =>
        if domains[n - 1].domainId == "" then Failure(MissingDomainId(n - 1))
        else if n - 1 >= |predictions| then Failure(MissingPrediction(n - 1))
        else Success(m[domains[n - 1].domainId := ParasResult(predictions[n - 1])])
  }

  function AssignByPosition(domains: seq<Domain>, predictions: seq<seq<Entry>>): (r: Result<map<string, ParasResult>, ParasError>)
  {
    AssignPrefix(domains, predictions, |domains|)
  }

  /**
   * run_paras: collects the translations in order, calls the batch scorer once with
   * threshold 0.2, then maps the i-th result to the i-th domain's id.
   */
  method RunParas(aDomains: seq<Domain>, scorer: BulkScorer) returns (r: Result<map<string, ParasResult>, ParasError>)
    modifies scorer
    ensures scorer.calls == old(scorer.calls) + [BulkCall(Translations(aDomains), Threshold)]
    ensures r == AssignByPosition(aDomains, scorer.model(Translations(aDomains), Threshold))
  {
    var sequences := [];
    for i := 0 to |aDomains|
      invariant sequences == Translations(aDomains[..i])
    {
      sequences := sequences + [aDomains[i].translation];
    }
    assert aDomains[..|aDomains|] == aDomains;
    var predictions := scorer.RunParasBulk(sequences, Threshold);
    var results := map[];
    for i := 0 to |aDomains|
      invariant AssignPrefix(aDomains, predictions, i) == Success(results)
    {
      var domain := aDomains[i];
      if domain.domainId == "" {
        AssignFailureSticks(aDomains, predictions, i + 1, |aDomains|);
        return Failure(MissingDomainId(i));
      }
      if i >= |predictions| {
        AssignFailureSticks(aDomains, predictions, i + 1, |aDomains|);
        return Failure(MissingPrediction(i));
      }
      results := results[domain.domainId := ParasResult(predictions[i])];
    }
    r := Success(results);
  }

  /** Once run_paras has failed at some position, later positions do not change the outcome. */
  lemma {:induction false} AssignFailureSticks(domains: seq<Domain>, predictions: seq<seq<Entry>>, n: nat, m: nat)
    requires n <= m <= |domains|
    requires AssignPrefix(domains, predictions, n).Failure?
    ensures AssignPrefix(domains, predictions, m) == AssignPrefix(domains, predictions, n)
    decreases m
  {
    if n < m {
      AssignFailureSticks(domains, predictions, n, m - 1);
    }
  }

  /** run_paras succeeds exactly when every id is non-empty and there is a result per domain. */
  lemma {:induction false} AssignSucceedsIff(domains: seq<Domain>, predictions: seq<seq<Entry>>, n: nat)
    requires n <= |domains|
    ensures AssignPrefix(domains, predictions, n).Success? <==>
      (forall i :: 0 <= i < n ==> domains[i].domainId != "") && n <= |predictions|
  {
    if n > 0 {
      AssignSucceedsIff(domains, predictions, n - 1);
    }
  }

  /**
   * A failure names the first position that fails: every earlier domain has an id and a
   * result, and at that position the id is empty (an assertion failure) or there is no
   * result (an index error), the id being checked first.
   */
  lemma {:induction false} AssignFailsAtFirst(domains: seq<Domain>, predictions: seq<seq<Entry>>, n: nat)
    requires n <= |domains|
    requires AssignPrefix(domains, predictions, n).Failure?
    ensures var e := AssignPrefix(domains, predictions, n).error;
      && e.index < n
      && (forall j :: 0 <= j < e.index ==> domains[j].domainId != "" && j < |predictions|)
      && (e.MissingDomainId? <==> domains[e.index].domainId == "")
      && (e.MissingPrediction? ==> e.index >= |predictions|)
  {
    if AssignPrefix(domains, predictions, n - 1).Failure? {
      AssignFailsAtFirst(domains, predictions, n - 1);
      assert AssignPrefix(domains, predictions, n) == AssignPrefix(domains, predictions, n - 1);
    } else {
      AssignSucceedsIff(domains, predictions, n - 1);
    }
  }

  /** On success the keys are exactly the ids of the domains. */
  lemma {:induction false} AssignKeys(domains: seq<Domain>, predictions: seq<seq<Entry>>, n: nat)
    requires n <= |domains|
    requires AssignPrefix(domains, predictions, n).Success?
    ensures AssignPrefix(domains, predictions, n).value.Keys == (set i | 0 <= i < n :: domains[i].domainId)
  {
    if n > 0 {
      AssignKeys(domains, predictions, n - 1);
      assert (set i | 0 <= i < n :: domains[i].domainId)
        == (set i | 0 <= i < n - 1 :: domains[i].domainId) + {domains[n - 1].domainId};
    }
  }

  /**
   * On success each id maps to the result at the last position carrying it; with
   * distinct ids, that is the result at the domain's own position.
   */
  lemma {:induction false} AssignValues(domains: seq<Domain>, predictions: seq<seq<Entry>>, n: nat)
    requires n <= |domains|
    requires AssignPrefix(domains, predictions, n).Success?
    ensures forall i :: 0 <= i < n ==> domains[i].domainId in AssignPrefix(domains, predictions, n).value
    ensures forall i :: 0 <= i < n && (forall j :: i < j < n ==> domains[j].domainId != domains[i].domainId) ==>
      i < |predictions| && AssignPrefix(domains, predictions, n).value[domains[i].domainId] == ParasResult(predictions[i])
  {
    AssignKeys(domains, predictions, n);
    if n > 0 {
      AssignValues(domains, predictions, n - 1);
      AssignSucceedsIff(domains, predictions, n);
      var prev := AssignPrefix(domains, predictions, n - 1).value;
      var m := AssignPrefix(domains, predictions, n).value;
      assert m == prev[domains[n - 1].domainId := ParasResult(predictions[n - 1])];
    }
  }

  /** Results beyond the number of domains are ignored. */
  lemma {:induction false} AssignIgnoresExtra(domains: seq<Domain>, predictions: seq<seq<Entry>>, extra: seq<seq<Entry>>, n: nat)
    requires n <= |domains| && n <= |predictions|
    ensures AssignPrefix(domains, predictions + extra, n) == AssignPrefix(domains, predictions, n)
  {
    if n > 0 {
      AssignIgnoresExtra(domains, predictions, extra, n - 1);
      assert (predictions + extra)[n - 1] == predictions[n - 1];
    }
  }

  /**
   * With distinct non-empty ids and a result per domain, run_paras maps each domain's id
   * to a ParasResult holding the scorer's result at that domain's position, and to
   * nothing else.
   */
  lemma ParasResultsByDomain(domains: seq<Domain>, predictions: seq<seq<Entry>>)
    requires forall i :: 0 <= i < |domains| ==> domains[i].domainId != ""
    requires forall i, j :: 0 <= i < j < |domains| ==> domains[i].domainId != domains[j].domainId
    requires |domains| <= |predictions|
    ensures AssignByPosition(domains, predictions).Success?
    ensures var m := AssignByPosition(domains, predictions).value;
      && m.Keys == (set i | 0 <= i < |domains| :: domains[i].domainId)
      && forall i :: 0 <= i < |domains| ==> m[domains[i].domainId] == ParasResult(predictions[i])
  {
    AssignSucceedsIff(domains, predictions, |domains|);
    AssignKeys(domains, predictions, |domains|);
    AssignValues(domains, predictions, |domains|);
  }

  /**
   * The worked example: two domains, a three-way list with a tie for A and nothing for B,
   * give A the classification ["leu", "ile"] and B the empty one.
   */
  lemma TwoDomainExample()
    ensures var preds := [[Entry(0.9, "leu"), Entry(0.9, "ile"), Entry(0.4, "val")], []];
      var r := AssignByPosition([Domain("A", "MKL"), Domain("B", "QRS")], preds);
      && r == Success(map["A" := ParasResult(preds[0]), "B" := ParasResult([])])
      && Classification(r.value["A"]) == ["leu", "ile"]
      && Classification(r.value["B"]) == []
  {
    var es := [Entry(0.9, "leu"), Entry(0.9, "ile"), Entry(0.4, "val")];
    var preds := [es, []];
    var ds := [Domain("A", "MKL"), Domain("B", "QRS")];
    assert AssignPrefix(ds, preds, 1) == Success(map["A" := ParasResult(es)]);
    assert AssignPrefix(ds, preds, 2) == Success(map["A" := ParasResult(es), "B" := ParasResult([])]);
    assert es[..1][..0] == [];
    assert Tied(es[..1], 0.9) == [es[0]];
    assert es[..2][..1] == es[..1];
    assert Tied(es[..2], 0.9) == [es[0], es[1]];
    assert es[..2] == es[..|es| - 1];
    assert Tied(es, 0.9) == [es[0], es[1]];
  }
}
