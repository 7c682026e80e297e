/** Grouped outcome analysis (`bot/services/outcome_analysis.py`): stored reviews and execution evaluations are counted
    into buckets by one or several keys each, and the buckets become groups in key order. */
module OutcomeAnalysis {
  import opened Common
  import opened Tally
  import opened TextOrder
  import opened Settings
  import opened DecisionReview

  datatype GroupBy = ByMarket | ByCategory | BySourceType | ByConfidenceBand | ByVerdictType | OtherGrouping

  datatype ProposalFacts = ProposalFacts(
    marketId: string, category: string, sourceTypes: seq<SourceType>, confidence: real)

  datatype Evaluation = Evaluation(proposalId: Option<string>, verdict: string, createdAt: int)

  datatype Item = FromReview(review: Review) | FromEvaluation(evaluation: Evaluation)

  datatype AnalysisError = UnsupportedGroupBy

  // ---- Keys -------------------------------------------------------------------------------------------------------

  function NameOf(t: SourceType): string {
    match t
    case Official => "official"
    case Regulator => "regulator"
    case MajorMedia => "major_media"
    case Social => "social"
    case Research => "research"
  }

  function NamesOf(types: seq<SourceType>): seq<string> {
    seq(|types|, k requires 0 <= k < |types| => NameOf(types[k]))
  }

  function OrElse(text: string, fallback: string): string { if text == "" then fallback else text }

  function KeysOf(grouping: GroupBy, item: Item, proposal: Option<ProposalFacts>): Result<seq<string>, AnalysisError> {
    match grouping
    case ByMarket =>
      var market :=
        if item.FromReview? then item.review.marketId
        else if proposal.Some? then proposal.value.marketId
        else "";
      Ok([OrElse(market, "unknown_market")])
    case ByCategory => Ok([if proposal.None? then "unknown_category" else proposal.value.category])
    case BySourceType =>
      if proposal.None? || proposal.value.sourceTypes == [] then Ok(["unknown_source_type"])
      else Ok(NamesOf(proposal.value.sourceTypes))
    case ByConfidenceBand =>
      if proposal.None? then Ok(["unknown_confidence_band"])
      else if proposal.value.confidence < 0.75 then Ok(["low"])
      else if proposal.value.confidence < 0.85 then Ok(["medium"])
      else Ok(["high"])
    case ByVerdictType =>
      Ok([if item.FromEvaluation? then OrElse(item.evaluation.verdict, "no_verdict") else "no_verdict"])
    case OtherGrouping => Err(UnsupportedGroupBy)
  }

  function ProposalOf(item: Item, proposals: map<string, ProposalFacts>): Option<ProposalFacts> {
    var id := if item.FromReview? then item.review.proposalId else item.evaluation.proposalId;
    if id.None? || id.value !in proposals then None else Some(proposals[id.value])
  }

  // ---- Specification: what each group counts ----------------------------------------------------------------------

  /** One item counted under one key. */
  datatype Entry = Entry(key: string, item: Item)

  function EntriesUnder(keys: seq<string>, item: Item): seq<Entry> {
    if keys == [] then []
    else EntriesUnder(keys[..|keys| - 1], item) + [Entry(keys[|keys| - 1], item)]
  }

  function EntriesOf(grouping: GroupBy, item: Item, proposals: map<string, ProposalFacts>): seq<Entry> {
    match KeysOf(grouping, item, ProposalOf(item, proposals))
    case Ok(keys) => EntriesUnder(keys, item)
    case Err(_) => []
  }

  function Gather(f: Item -> seq<Entry>, items: seq<Item>): seq<Entry> {
    if items == [] then [] else Gather(f, items[..|items| - 1]) + f(items[|items| - 1])
  }

  function Entries(grouping: GroupBy, items: seq<Item>, proposals: map<string, ProposalFacts>): seq<Entry> {
    Gather(item => EntriesOf(grouping, item, proposals), items)
  }

  datatype Metric =
    | Reviews | Evaluations
    | FairKnown | FairDelta | ConfidenceKnown | ConfidenceDelta
    | HeldCount | DegradedCount | InFavorCount | AgainstCount | FavorableCount | UnfavorableCount
    | VerdictCount(verdict: string)
    | WithProposal | HistoryWithProposal

  function One(b: bool): int { if b then 1 else 0 }

  function Weight(m: Metric, item: Item): int {
    match item
    case FromReview(r) =>
      (match m
       case Reviews => 1
       case FairKnown => One(r.drift.Drift?)
       case FairDelta => if r.drift.Drift? then r.drift.fairDelta else 0
       case ConfidenceKnown => One(r.drift.Drift?)
       case ConfidenceDelta => if r.drift.Drift? then r.drift.confidenceDelta else 0
       case HeldCount => One(r.confidence == ConfidenceHeld)
       case DegradedCount => One(r.confidence == ConfidenceDegraded)
       case InFavorCount => One(r.probability == MovedInFavor)
       case AgainstCount => One(r.probability == MovedAgainst)
       case FavorableCount => One(r.execution == Favorable)
       case UnfavorableCount => One(r.execution == Unfavorable)
       case WithProposal => One(r.proposalId.Some?)
       case HistoryWithProposal => One(r.drift.Drift? && r.proposalId.Some?)
       case _ => 0)
    case FromEvaluation(e) =>
      (match m
       case Evaluations => 1
       case VerdictCount(verdict) => One(e.verdict == verdict)
       case _ => 0)
  }

  /** The total of a metric over the entries under one key. */
  function Total(m: Metric, key: string, entries: seq<Entry>): int {
    if entries == [] then 0
    else
      var last := entries[|entries| - 1];
      Total(m, key, entries[..|entries| - 1]) + (if last.key == key then Weight(m, last.item) else 0)
  }

  /** The total over all entries. */
  function GrandTotal(m: Metric, entries: seq<Entry>): int {
    if entries == [] then 0
    else GrandTotal(m, entries[..|entries| - 1]) + Weight(m, entries[|entries| - 1].item)
  }

  function WithKey(keys: seq<string>, key: string): seq<string> { if key in keys then keys else keys + [key] }

  /** The keys in the order they first appear. */
  function KeysSeen(entries: seq<Entry>): seq<string> {
    if entries == [] then [] else WithKey(KeysSeen(entries[..|entries| - 1]), entries[|entries| - 1].key)
  }

  /** The verdicts under a key in the order they first appear. */
  function VerdictsSeen(key: string, entries: seq<Entry>): seq<string> {
    if entries == [] then []
    else
      var rest, last := VerdictsSeen(key, entries[..|entries| - 1]), entries[|entries| - 1];
      if last.key == key && last.item.FromEvaluation? then WithKey(rest, last.item.evaluation.verdict) else rest
  }

  datatype Group = Group(
    value: string,
    reviewCount: int,
    evaluationCount: int,
    averageFairDelta: Option<int>,
    averageConfidenceDelta: Option<int>,
    heldCount: int,
    degradedCount: int,
    inFavorCount: int,
    againstCount: int,
    favorableCount: int,
    unfavorableCount: int,
    verdictCounts: seq<(string, int)>)

  function Mean(total: int, count: int): Option<int> {
    if count == 0 then None else Some(Round(total as real / count as real))
  }

  function VerdictCounts(verdicts: seq<string>, key: string, entries: seq<Entry>): seq<(string, int)> {
    if verdicts == [] then []
    else
      var last := |verdicts| - 1;
      VerdictCounts(verdicts[..last], key, entries)
        + [(verdicts[last], Total(VerdictCount(verdicts[last]), key, entries))]
  }

  function GroupOf(key: string, entries: seq<Entry>): Group {
    Group(key, Total(Reviews, key, entries), Total(Evaluations, key, entries),
          Mean(Total(FairDelta, key, entries), Total(FairKnown, key, entries)),
          Mean(Total(ConfidenceDelta, key, entries), Total(ConfidenceKnown, key, entries)),
          Total(HeldCount, key, entries), Total(DegradedCount, key, entries),
          Total(InFavorCount, key, entries), Total(AgainstCount, key, entries),
          Total(FavorableCount, key, entries), Total(UnfavorableCount, key, entries),
          VerdictCounts(Sorted(VerdictsSeen(key, entries)), key, entries))
  }

  function Each(f: string -> Group, keys: seq<string>): seq<Group> {
    if keys == [] then [] else Each(f, keys[..|keys| - 1]) + [f(keys[|keys| - 1])]
  }

  function GroupsOf(keys: seq<string>, entries: seq<Entry>): seq<Group> { Each(key => GroupOf(key, entries), keys) }

  /** The groups of a list of entries: one per key, in key order. */
  function Grouping(entries: seq<Entry>): seq<Group> { GroupsOf(Sorted(KeysSeen(entries)), entries) }

  // ---- The service ------------------------------------------------------------------------------------------------

  /** A counter keeps its keys in insertion order, as a dictionary does. */
  datatype Counter = Counter(order: seq<string>, counts: map<string, int>) {
    function Incremented(key: string): Counter {
      Counter(WithKey(order, key), counts[key := (if key in counts then counts[key] else 0) + 1])
    }
  }

  datatype Bucket = Bucket(
    reviewCount: int,
    evaluationCount: int,
    fairDeltas: seq<int>,
    confidenceDeltas: seq<int>,
    heldCount: int,
    degradedCount: int,
    inFavorCount: int,
    againstCount: int,
    favorableCount: int,
    unfavorableCount: int,
    verdictCounts: Counter)

  const EMPTY_BUCKET: Bucket := Bucket(0, 0, [], [], 0, 0, 0, 0, 0, 0, Counter([], map[]))

  predicate Matches(b: Bucket, total: Metric -> int) {
    && b.reviewCount == total(Reviews) && b.evaluationCount == total(Evaluations)
    && Sum(b.fairDeltas) == total(FairDelta) && |b.fairDeltas| == total(FairKnown)
    && Sum(b.confidenceDeltas) == total(ConfidenceDelta) && |b.confidenceDeltas| == total(ConfidenceKnown)
    && b.heldCount == total(HeldCount) && b.degradedCount == total(DegradedCount)
    && b.inFavorCount == total(InFavorCount) && b.againstCount == total(AgainstCount)
    && b.favorableCount == total(FavorableCount) && b.unfavorableCount == total(UnfavorableCount)
  }

  /** A bucket holds, for its key, exactly the totals over the entries. */
  ghost predicate Holds(b: Bucket, key: string, entries: seq<Entry>) {
    Matches(b, m => Total(m, key, entries)) && CounterHolds(b.verdictCounts, key, entries)
  }

  ghost predicate CounterHolds(c: Counter, key: string, entries: seq<Entry>) {
    && c.order == VerdictsSeen(key, entries)
    && (forall v :: v in c.order <==> v in c.counts)
    && (forall v :: v in c.counts ==> c.counts[v] == Total(VerdictCount(v), key, entries))
    && (forall v :: v !in c.counts ==> Total(VerdictCount(v), key, entries) == 0)
  }

  function WithReview(b: Bucket, r: Review): Bucket {
    b.(reviewCount := b.reviewCount + 1,
       fairDeltas := b.fairDeltas + (if r.drift.Drift? then [r.drift.fairDelta] else []),
       confidenceDeltas := b.confidenceDeltas + (if r.drift.Drift? then [r.drift.confidenceDelta] else []),
       heldCount := b.heldCount + One(r.confidence == ConfidenceHeld),
       degradedCount := b.degradedCount + One(r.confidence == ConfidenceDegraded),
       inFavorCount := b.inFavorCount + One(r.probability == MovedInFavor),
       againstCount := b.againstCount + One(r.probability == MovedAgainst),
       favorableCount := b.favorableCount + One(r.execution == Favorable),
       unfavorableCount := b.unfavorableCount + One(r.execution == Unfavorable))
  }

  function WithEvaluation(b: Bucket, e: Evaluation): Bucket {
    b.(evaluationCount := b.evaluationCount + 1, verdictCounts := b.verdictCounts.Incremented(e.verdict))
  }

  function WithItem(b: Bucket, item: Item): Bucket {
    match item
    case FromReview(r) => WithReview(b, r)
    case FromEvaluation(e) => WithEvaluation(b, e)
  }

  lemma TotalStep(m: Metric, key: string, entries: seq<Entry>, entry: Entry)
    ensures Total(m, key, entries + [entry]) == Total(m, key, entries) + if entry.key == key
      then Weight(m, entry.item) else 0
  {
    assert (entries + [entry])[..|entries|] == entries;
  }

  lemma SumStep(xs: seq<int>, x: int)
    ensures Sum(xs + [x]) == Sum(xs) + x
  {
    SumConcat(xs, [x]);
    SumOne(x);
  }

  lemma VerdictsStep(key: string, entries: seq<Entry>, entry: Entry)
    ensures VerdictsSeen(key, entries + [entry]) ==
      if entry.key == key && entry.item.FromEvaluation?
        then WithKey(VerdictsSeen(key, entries), entry.item.evaluation.verdict)
      else VerdictsSeen(key, entries)
  {
    assert (entries + [entry])[..|entries|] == entries;
  }

  lemma CounterIncremented(c: Counter, key: string, entries: seq<Entry>, more: seq<Entry>, verdict: string)
    requires CounterHolds(c, key, entries)
    requires VerdictsSeen(key, more) == WithKey(VerdictsSeen(key, entries), verdict)
    requires forall v :: Total(VerdictCount(v), key, more) == Total(VerdictCount(v), key, entries) + One(v == verdict)
    ensures CounterHolds(c.Incremented(verdict), key, more)
  {
  }

  lemma CounterKept(c: Counter, key: string, entries: seq<Entry>, more: seq<Entry>)
    requires CounterHolds(c, key, entries)
    requires VerdictsSeen(key, more) == VerdictsSeen(key, entries)
    requires forall v :: Total(VerdictCount(v), key, more) == Total(VerdictCount(v), key, entries)
    ensures CounterHolds(c, key, more)
  {
  }

  lemma CounterStep(c: Counter, key: string, entries: seq<Entry>, entry: Entry)
    requires CounterHolds(c, key, entries)
    ensures CounterHolds(if entry.key == key && entry.item.FromEvaluation?
      then c.Incremented(entry.item.evaluation.verdict)
                         else c, key, entries + [entry])
  {
    var more := entries + [entry];
    VerdictsStep(key, entries, entry);
    forall v ensures Total(VerdictCount(v), key, more) == Total(VerdictCount(v), key, entries)
      + if entry.key == key then Weight(VerdictCount(v), entry.item) else 0
    {
      TotalStep(VerdictCount(v), key, entries, entry);
    }
    if entry.key == key && entry.item.FromEvaluation? {
      CounterIncremented(c, key, entries, more, entry.item.evaluation.verdict);
    } else {
      CounterKept(c, key, entries, more);
    }
  }

  /** Counting an item under a key updates that key's bucket and leaves every other as it was. */
  lemma BucketStep(b: Bucket, key: string, entries: seq<Entry>, entry: Entry)
    requires Holds(b, key, entries)
    ensures Holds(if entry.key == key then WithItem(b, entry.item) else b, key, entries + [entry])
  {
    var more := entries + [entry];
    CounterStep(b.verdictCounts, key, entries, entry);
    var before, after := m => Total(m, key, entries), m => Total(m, key, more);
    forall m ensures after(m) == before(m) + if entry.key == key then Weight(m, entry.item) else 0 {
      TotalStep(m, key, entries, entry);
    }
    if entry.key == key {
      match entry.item
      case FromReview(r) => MatchesWithReview(b, before, after, r);
      case FromEvaluation(e) => MatchesWithEvaluation(b, before, after, e);
    }
  }

  lemma MatchesWithReview(b: Bucket, before: Metric -> int, after: Metric -> int, r: Review)
    requires Matches(b, before) && forall m :: after(m) == before(m) + Weight(m, FromReview(r))
    ensures Matches(WithReview(b, r), after)
  {
    if r.drift.Drift? {
      SumStep(b.fairDeltas, r.drift.fairDelta);
      SumStep(b.confidenceDeltas, r.drift.confidenceDelta);
    } else {
      assert b.fairDeltas + [] == b.fairDeltas && b.confidenceDeltas + [] == b.confidenceDeltas;
    }
  }

  lemma MatchesWithEvaluation(b: Bucket, before: Metric -> int, after: Metric -> int, e: Evaluation)
    requires Matches(b, before) && forall m :: after(m) == before(m) + Weight(m, FromEvaluation(e))
    ensures Matches(WithEvaluation(b, e), after)
  {
  }

  /** The buckets, with their keys in the order they first appeared. */
  datatype Buckets = Buckets(order: seq<string>, values: map<string, Bucket>)

  function CountInto(bs: Buckets, key: string, item: Item): Buckets {
    var bucket := if key in bs.values then bs.values[key] else EMPTY_BUCKET;
    Buckets(WithKey(bs.order, key), bs.values[key := WithItem(bucket, item)])
  }

  function Counted(entries: seq<Entry>): Buckets {
    if entries == [] then Buckets([], map[])
    else
      var last := entries[|entries| - 1];
      CountInto(Counted(entries[..|entries| - 1]), last.key, last.item)
  }

  ghost predicate AllHold(bs: Buckets, entries: seq<Entry>) {
    && bs.order == KeysSeen(entries)
    && (forall key :: key in bs.order <==> key in bs.values)
    && (forall key :: Holds(if key in bs.values then bs.values[key] else EMPTY_BUCKET, key, entries))
  }

  /** Counting one entry after another leaves every bucket with exactly the totals of its key. */
  lemma {:induction false} CountedHolds(entries: seq<Entry>)
    ensures AllHold(Counted(entries), entries)
  {
    if entries != [] {
      var init, last := entries[..|entries| - 1], entries[|entries| - 1];
      CountedHolds(init);
      assert entries == init + [last];
      var bs, bs' := Counted(init), Counted(entries);
      forall key ensures Holds(if key in bs'.values then bs'.values[key] else EMPTY_BUCKET, key, entries) {
        BucketStep(if key in bs.values then bs.values[key] else EMPTY_BUCKET, key, init, last);
      }
    }
  }

  function CountUnder(bs: Buckets, keys: seq<string>, item: Item): Buckets {
    if keys == [] then bs
    else CountInto(CountUnder(bs, keys[..|keys| - 1], item), keys[|keys| - 1], item)
  }

  function CountOne(grouping: GroupBy, item: Item, proposals: map<string, ProposalFacts>, bs: Buckets): Buckets {
    match KeysOf(grouping, item, ProposalOf(item, proposals))
    case Ok(keys) => CountUnder(bs, keys, item)
    case Err(_) => bs
  }

  function CountAll(grouping: GroupBy, items: seq<Item>, proposals: map<string, ProposalFacts>): Buckets {
    if items == [] then Buckets([], map[])
    else
      CountOne(grouping, items[|items| - 1], proposals, CountAll(grouping, items[..|items| - 1], proposals))
  }

  lemma CountUnderStep(bs: Buckets, keys: seq<string>, j: nat, item: Item)
    requires j < |keys|
    ensures CountUnder(bs, keys[..j + 1], item) == CountInto(CountUnder(bs, keys[..j], item), keys[j], item)
  {
    assert keys[..j + 1][..j] == keys[..j];
  }

  lemma CountAllStep(grouping: GroupBy, items: seq<Item>, i: nat, proposals: map<string, ProposalFacts>)
    requires i < |items|
    ensures CountAll(grouping, items[..i + 1], proposals)
         == CountOne(grouping, items[i], proposals, CountAll(grouping, items[..i], proposals))
  {
    assert items[..i + 1][..i] == items[..i];
  }

  lemma {:induction false} CountUnderIsCounted(entries: seq<Entry>, keys: seq<string>, item: Item)
    ensures CountUnder(Counted(entries), keys, item) == Counted(entries + EntriesUnder(keys, item))
  {
    if keys == [] {
      assert entries + [] == entries;
    } else {
      var init, last := keys[..|keys| - 1], keys[|keys| - 1];
      CountUnderIsCounted(entries, init, item);
      var before, entry := entries + EntriesUnder(init, item), Entry(last, item);
      assert entries + EntriesUnder(keys, item) == before + [entry];
      assert (before + [entry])[..|before|] == before;
    }
  }

  lemma {:induction false} CountAllIsCounted(grouping: GroupBy, items: seq<Item>, proposals: map<string, ProposalFacts>)
    ensures CountAll(grouping, items, proposals) == Counted(Entries(grouping, items, proposals))
  {
    if items != [] {
      var init, last := items[..|items| - 1], items[|items| - 1];
      CountAllIsCounted(grouping, init, proposals);
      var keys := KeysOf(grouping, last, ProposalOf(last, proposals));
      var before := Entries(grouping, init, proposals);
      if keys.Ok? {
        CountUnderIsCounted(before, keys.value, last);
      } else {
        assert before + [] == before;
      }
    }
  }

  method CountItem(grouping: GroupBy, item: Item, proposals: map<string, ProposalFacts>, bs: Buckets)
    returns (ok: bool, bs': Buckets)
    ensures ok <==> grouping != OtherGrouping
    ensures bs' == CountOne(grouping, item, proposals, bs)
  {
    bs' := bs;
    var keyed := KeysOf(grouping, item, ProposalOf(item, proposals));
    ok := keyed.Ok?;
    if !ok { return; }
    var keys := keyed.value;
    for j := 0 to |keys|
      invariant bs' == CountUnder(bs, keys[..j], item)
    {
      CountUnderStep(bs, keys, j, item);
      bs' := CountInto(bs', keys[j], item);
    }
    assert keys[..|keys|] == keys;
  }

  function CounterItems(keys: seq<string>, c: Counter): seq<(string, int)>
    requires forall k :: k in keys ==> k in c.counts
  {
    if keys == [] then []
    else
      var last := |keys| - 1;
      CounterItems(keys[..last], c) + [(keys[last], c.counts[keys[last]])]
  }

  lemma {:induction false} CounterItemsAreTotals(keys: seq<string>, c: Counter, key: string, entries: seq<Entry>)
    requires CounterHolds(c, key, entries) && forall k :: k in keys ==> k in c.counts
    ensures CounterItems(keys, c) == VerdictCounts(keys, key, entries)
  {
    if keys != [] { CounterItemsAreTotals(keys[..|keys| - 1], c, key, entries); }
  }

  method MakeGroup(key: string, b: Bucket, ghost entries: seq<Entry>) returns (g: Group)
    requires key in Counted(entries).values && b == Counted(entries).values[key]
    ensures g == GroupOf(key, entries)
  {
    CountedHolds(entries);
    assert Holds(b, key, entries);
    VerdictsAreDistinct(key, entries);
    SortedKeys(b.verdictCounts.order);
    CounterItemsAreTotals(Sorted(b.verdictCounts.order), b.verdictCounts, key, entries);
    g := Group(key, b.reviewCount, b.evaluationCount, Mean(Sum(b.fairDeltas), |b.fairDeltas|),
               Mean(Sum(b.confidenceDeltas), |b.confidenceDeltas|),
               b.heldCount, b.degradedCount, b.inFavorCount, b.againstCount, b.favorableCount, b.unfavorableCount,
               CounterItems(Sorted(b.verdictCounts.order), b.verdictCounts));
  }

  lemma CountedKeys(entries: seq<Entry>)
    ensures var bs := Counted(entries);
      && bs.order == KeysSeen(entries) && Distinct(bs.order)
      && (forall key :: key in Sorted(bs.order) ==> key in bs.values)
  {
    CountedHolds(entries);
    KeysAreDistinct(entries);
    SortedKeys(KeysSeen(entries));
  }

  /** The rows created at or after the cutoff, if there is one. */
  function RecentReviews(rows: seq<Review>, cutoff: Option<int>): seq<Item> {
    if rows == [] then []
    else
      var last := rows[|rows| - 1];
      RecentReviews(rows[..|rows| - 1], cutoff)
      + if cutoff.None? || last.createdAt >= cutoff.value then [FromReview(last)] else []
  }

  function RecentEvaluations(rows: seq<Evaluation>, cutoff: Option<int>): seq<Item> {
    if rows == [] then []
    else
      var last := rows[|rows| - 1];
      RecentEvaluations(rows[..|rows| - 1], cutoff)
      + if cutoff.None? || last.createdAt >= cutoff.value then [FromEvaluation(last)] else []
  }

  /** The snapshot's groups; an unsupported grouping fails, unless there is nothing to group. */
  method BuildSnapshot(grouping: GroupBy, reviews: seq<Review>, evaluations: seq<Evaluation>,
                       proposals: map<string, ProposalFacts>, cutoff: Option<int>)
    returns (r: Result<seq<Group>, AnalysisError>)
    ensures var items := RecentReviews(reviews, cutoff) + RecentEvaluations(evaluations, cutoff);
      r == if grouping == OtherGrouping && items != [] then Err(UnsupportedGroupBy)
           else Ok(Grouping(Entries(grouping, items, proposals)))
  {
    var items := RecentReviews(reviews, cutoff) + RecentEvaluations(evaluations, cutoff);
    var counted := CountItems(grouping, items, proposals);
    if counted.Err? { return Err(counted.error); }
    CountAllIsCounted(grouping, items, proposals);
    var groups := MakeGroups(counted.value, Entries(grouping, items, proposals));
    r := Ok(groups);
  }

  method CountItems(grouping: GroupBy, items: seq<Item>, proposals: map<string, ProposalFacts>)
    returns (r: Result<Buckets, AnalysisError>)
    ensures r == if grouping == OtherGrouping && items != [] then Err(UnsupportedGroupBy)
                 else Ok(CountAll(grouping, items, proposals))
  {
    var bs := Buckets([], map[]);
    for i := 0 to |items|
      invariant grouping == OtherGrouping ==> i == 0
      invariant bs == CountAll(grouping, items[..i], proposals)
    {
      CountAllStep(grouping, items, i, proposals);
      var ok: bool;
      ok, bs := CountItem(grouping, items[i], proposals, bs);
      if !ok { return Err(UnsupportedGroupBy); }
    }
    assert items[..|items|] == items;
    r := Ok(bs);
  }

  method MakeGroups(bs: Buckets, ghost entries: seq<Entry>) returns (groups: seq<Group>)
    requires bs == Counted(entries)
    ensures groups == Grouping(entries)
  {
    CountedKeys(entries);
    var keys := Sorted(bs.order);
    ghost var f := key => GroupOf(key, entries);
    groups := [];
    for i := 0 to |keys|
      invariant groups == Each(f, keys[..i])
    {
      assert keys[..i + 1][..i] == keys[..i];
      var group := MakeGroup(keys[i], bs.values[keys[i]], entries);
      groups := groups + [group];
    }
    assert keys[..|keys|] == keys;
  }

  // ---- Keys are listed once ---------------------------------------------------------------------------------------

  ghost predicate HasKey(entries: seq<Entry>, key: string) { exists e :: e in entries && e.key == key }

  ghost predicate HasGroup(groups: seq<Group>, key: string) { exists i :: 0 <= i < |groups| && groups[i].value == key }

  lemma {:induction false} KeysAreDistinct(entries: seq<Entry>)
    ensures Distinct(KeysSeen(entries))
    ensures forall key :: key in KeysSeen(entries) <==> HasKey(entries, key)
  {
    if entries != [] {
      var init, last := entries[..|entries| - 1], entries[|entries| - 1];
      assert entries == init + [last];
      KeysAreDistinct(init);
    }
  }

  lemma {:induction false} VerdictsAreDistinct(key: string, entries: seq<Entry>)
    ensures Distinct(VerdictsSeen(key, entries))
    ensures forall v :: v in VerdictsSeen(key, entries) <==>
              exists e :: e in entries && e.key == key && e.item.FromEvaluation? && e.item.evaluation.verdict == v
  {
    if entries != [] {
      var init, last := entries[..|entries| - 1], entries[|entries| - 1];
      assert entries == init + [last];
      VerdictsAreDistinct(key, init);
    }
  }

  // ---- Conservation -----------------------------------------------------------------------------------------------

  /** A metric summed over a list of keys. */
  function Across(m: Metric, keys: seq<string>, entries: seq<Entry>): int {
    if keys == [] then 0 else Total(m, keys[0], entries) + Across(m, keys[1..], entries)
  }

  lemma {:induction false} AcrossStep(m: Metric, keys: seq<string>, entries: seq<Entry>, entry: Entry)
    requires Distinct(keys)
    ensures Across(m, keys, entries + [entry]) == Across(m, keys, entries) + if entry.key in keys
      then Weight(m, entry.item) else 0
  {
    if keys != [] {
      AcrossStep(m, keys[1..], entries, entry);
      TotalStep(m, keys[0], entries, entry);
    }
  }

  lemma {:induction false} AcrossIsGrandTotal(m: Metric, keys: seq<string>, entries: seq<Entry>)
    requires Distinct(keys) && forall e :: e in entries ==> e.key in keys
    ensures Across(m, keys, entries) == GrandTotal(m, entries)
  {
    if entries == [] {
      AcrossNothing(m, keys);
    } else {
      var init, last := entries[..|entries| - 1], entries[|entries| - 1];
      assert entries == init + [last];
      AcrossStep(m, keys, init, last);
      AcrossIsGrandTotal(m, keys, init);
    }
  }

  lemma {:induction false} AcrossNothing(m: Metric, keys: seq<string>)
    ensures Across(m, keys, []) == 0
  {
    if keys != [] { AcrossNothing(m, keys[1..]); }
  }

  /** What a group reports of a metric that it reports as a count. */
  function Reported(m: Metric, g: Group): int {
    match m
    case Reviews => g.reviewCount
    case Evaluations => g.evaluationCount
    case HeldCount => g.heldCount
    case DegradedCount => g.degradedCount
    case InFavorCount => g.inFavorCount
    case AgainstCount => g.againstCount
    case FavorableCount => g.favorableCount
    case UnfavorableCount => g.unfavorableCount
    case _ => 0
  }

  predicate ReportedAsCount(m: Metric) {
    m in {Reviews, Evaluations, HeldCount, DegradedCount, InFavorCount, AgainstCount, FavorableCount, UnfavorableCount}
  }

  function SumOver(m: Metric, groups: seq<Group>): int {
    if groups == [] then 0 else Reported(m, groups[0]) + SumOver(m, groups[1..])
  }

  lemma {:induction false} EachAt(f: string -> Group, keys: seq<string>)
    ensures |Each(f, keys)| == |keys| && forall i :: 0 <= i < |keys| ==> Each(f, keys)[i] == f(keys[i])
  {
    if keys != [] { EachAt(f, keys[..|keys| - 1]); }
  }

  lemma GroupsReport(keys: seq<string>, entries: seq<Entry>)
    ensures |GroupsOf(keys, entries)| == |keys|
    ensures forall i :: 0 <= i < |keys| ==> GroupsOf(keys, entries)[i] == GroupOf(keys[i], entries)
    ensures forall i :: 0 <= i < |keys| ==> GroupsOf(keys, entries)[i].value == keys[i]
  {
    EachAt(key => GroupOf(key, entries), keys);
  }

  lemma {:induction false} SumOverIsAcross(m: Metric, groups: seq<Group>, keys: seq<string>, entries: seq<Entry>)
    requires ReportedAsCount(m) && |groups| == |keys|
    requires forall i :: 0 <= i < |keys| ==> groups[i] == GroupOf(keys[i], entries)
    ensures SumOver(m, groups) == Across(m, keys, entries)
  {
    if keys != [] {
      forall i | 0 <= i < |keys[1..]| ensures groups[1..][i] == GroupOf(keys[1..][i], entries) {
        assert groups[i + 1] == GroupOf(keys[i + 1], entries);
      }
      assert groups[0] == GroupOf(keys[0], entries);
      SumOverIsAcross(m, groups[1..], keys[1..], entries);
    }
  }

  /** Grouping loses and invents nothing: every reported count, summed over the groups, is its total over all
      entries. */
  lemma CountsAreConserved(m: Metric, entries: seq<Entry>)
    requires ReportedAsCount(m)
    ensures SumOver(m, Grouping(entries)) == GrandTotal(m, entries)
  {
    var keys := KeysSeen(entries);
    KeysAreDistinct(entries);
    SortedKeys(keys);
    GroupsReport(Sorted(keys), entries);
    SumOverIsAcross(m, Grouping(entries), Sorted(keys), entries);
    AcrossIsGrandTotal(m, Sorted(keys), entries);
  }

  /** The total over the items themselves, each counted `times` often. */
  function Weighted(m: Metric, times: Item -> nat, items: seq<Item>): int {
    if items == [] then 0
    else
      var last := items[|items| - 1];
      Weighted(m, times, items[..|items| - 1]) + times(last) * Weight(m, last)
  }

  /** How many groups an item counts in: one, or one for every source of its proposal. */
  function KeyCount(grouping: GroupBy, item: Item, proposals: map<string, ProposalFacts>): nat {
    var proposal := ProposalOf(item, proposals);
    if grouping == BySourceType && proposal.Some? && proposal.value.sourceTypes != [] then |proposal.value.sourceTypes|
    else 1
  }

  function Plain(m: Metric, items: seq<Item>): int {
    if items == [] then 0 else Plain(m, items[..|items| - 1]) + Weight(m, items[|items| - 1])
  }

  lemma {:induction false} GrandTotalConcat(m: Metric, a: seq<Entry>, b: seq<Entry>)
    ensures GrandTotal(m, a + b) == GrandTotal(m, a) + GrandTotal(m, b)
  {
    if b == [] {
      assert a + b == a;
    } else {
      var init := b[..|b| - 1];
      assert (a + b)[..|a + b| - 1] == a + init;
      GrandTotalConcat(m, a, init);
    }
  }

  lemma {:induction false} GatheredTotal(m: Metric, f: Item -> seq<Entry>, times: Item -> nat, items: seq<Item>)
    requires forall item :: GrandTotal(m, f(item)) == times(item) * Weight(m, item)
    ensures GrandTotal(m, Gather(f, items)) == Weighted(m, times, items)
  {
    if items != [] {
      var init, last := items[..|items| - 1], items[|items| - 1];
      GatheredTotal(m, f, times, init);
      GrandTotalConcat(m, Gather(f, init), f(last));
    }
  }

  lemma {:induction false} OnceEach(m: Metric, times: Item -> nat, items: seq<Item>)
    requires forall item :: times(item) == 1
    ensures Weighted(m, times, items) == Plain(m, items)
  {
    if items != [] { OnceEach(m, times, items[..|items| - 1]); }
  }

  lemma {:induction false} EntriesUnderTotal(m: Metric, keys: seq<string>, item: Item)
    ensures GrandTotal(m, EntriesUnder(keys, item)) == |keys| * Weight(m, item)
  {
    if keys != [] {
      var init := keys[..|keys| - 1];
      EntriesUnderTotal(m, init, item);
      var before, entry := EntriesUnder(init, item), Entry(keys[|keys| - 1], item);
      assert (before + [entry])[..|before|] == before;
      OneMore(|init|, Weight(m, item));
    }
  }

  lemma OneMore(n: nat, w: int)
    ensures (n + 1) * w == n * w + w
  {
  }

  lemma EntriesOfTotal(m: Metric, grouping: GroupBy, item: Item, proposals: map<string, ProposalFacts>)
    requires grouping != OtherGrouping
    ensures GrandTotal(m, EntriesOf(grouping, item, proposals)) == KeyCount(grouping, item, proposals) * Weight(m, item)
  {
    var keys := KeysOf(grouping, item, ProposalOf(item, proposals)).value;
    assert |keys| == KeyCount(grouping, item, proposals);
    EntriesUnderTotal(m, keys, item);
  }

  /** Every count summed over the groups is the count over the input, with each item counted once per source of its
      proposal when grouped by source type, and once otherwise. */
  lemma SnapshotConserves(m: Metric, grouping: GroupBy, items: seq<Item>, proposals: map<string, ProposalFacts>)
    requires ReportedAsCount(m) && grouping != OtherGrouping
    ensures SumOver(m, Grouping(Entries(grouping, items, proposals)))
      == Weighted(m, item => KeyCount(grouping, item, proposals), items)
    ensures grouping != BySourceType ==>
              SumOver(m, Grouping(Entries(grouping, items, proposals))) == Plain(m, items)
  {
    CountsAreConserved(m, Entries(grouping, items, proposals));
    var f := item => EntriesOf(grouping, item, proposals);
    var times := item => KeyCount(grouping, item, proposals);
    forall item ensures GrandTotal(m, f(item)) == times(item) * Weight(m, item) {
      EntriesOfTotal(m, grouping, item, proposals);
    }
    GatheredTotal(m, f, times, items);
    if grouping != BySourceType { OnceEach(m, times, items); }
  }

  // ---- Inside a group ---------------------------------------------------------------------------------------------

  function SumVerdicts(counts: seq<(string, int)>): int {
    if counts == [] then 0 else SumVerdicts(counts[..|counts| - 1]) + counts[|counts| - 1].1
  }

  lemma {:induction false} SumVerdictsStep(verdicts: seq<string>, key: string, entries: seq<Entry>, entry: Entry)
    requires Distinct(verdicts)
    ensures SumVerdicts(VerdictCounts(verdicts, key, entries + [entry]))
      == SumVerdicts(VerdictCounts(verdicts, key, entries))
      + One(entry.key == key && entry.item.FromEvaluation? && entry.item.evaluation.verdict in verdicts)
  {
    if verdicts != [] {
      var init, last := verdicts[..|verdicts| - 1], verdicts[|verdicts| - 1];
      assert verdicts == init + [last];
      SumVerdictsStep(init, key, entries, entry);
      TotalStep(VerdictCount(last), key, entries, entry);
    }
  }

  lemma {:induction false} VerdictsOfNothing(verdicts: seq<string>, key: string)
    ensures SumVerdicts(VerdictCounts(verdicts, key, [])) == 0
  {
    if verdicts != [] { VerdictsOfNothing(verdicts[..|verdicts| - 1], key); }
  }

  lemma {:induction false} VerdictsAddUp(verdicts: seq<string>, key: string, entries: seq<Entry>)
    requires Distinct(verdicts)
    requires forall e :: e in entries && e.key == key && e.item.FromEvaluation? ==>
               e.item.evaluation.verdict in verdicts
    ensures SumVerdicts(VerdictCounts(verdicts, key, entries)) == Total(Evaluations, key, entries)
  {
    if entries == [] {
      VerdictsOfNothing(verdicts, key);
    } else {
      var init, last := entries[..|entries| - 1], entries[|entries| - 1];
      assert entries == init + [last];
      VerdictsAddUp(verdicts, key, init);
      SumVerdictsStep(verdicts, key, init, last);
      TotalStep(Evaluations, key, init, last);
    }
  }

  /** In every group the verdict counts add up to the number of evaluations. */
  lemma VerdictsSumToEvaluations(key: string, entries: seq<Entry>)
    ensures SumVerdicts(GroupOf(key, entries).verdictCounts) == GroupOf(key, entries).evaluationCount
  {
    VerdictsAreDistinct(key, entries);
    SortedKeys(VerdictsSeen(key, entries));
    VerdictsAddUp(Sorted(VerdictsSeen(key, entries)), key, entries);
  }

  lemma {:induction false} TotalsAdd(a: Metric, b: Metric, c: Metric, key: string, entries: seq<Entry>)
    requires forall e :: e in entries ==> 0 <= Weight(a, e.item) && 0 <= Weight(b, e.item)
    requires forall e :: e in entries ==> Weight(a, e.item) + Weight(b, e.item) <= Weight(c, e.item)
    ensures 0 <= Total(a, key, entries) && 0 <= Total(b, key, entries)
    ensures Total(a, key, entries) + Total(b, key, entries) <= Total(c, key, entries)
    ensures (forall e :: e in entries ==> Weight(a, e.item) + Weight(b, e.item) == Weight(c, e.item)) ==>
              Total(a, key, entries) + Total(b, key, entries) == Total(c, key, entries)
  {
    if entries != [] {
      var init, last := entries[..|entries| - 1], entries[|entries| - 1];
      assert last in entries;
      TotalsAdd(a, b, c, key, init);
    }
  }

  /** In every group of reviews made by the review service, held and degraded are exactly the reviews with a previous
      snapshot, moved in favor and against are exactly those that also have a proposal, and favorable and unfavorable
      are among those with a proposal. A group has averages exactly when it has a review with a previous snapshot. */
  lemma OutcomesPartitionHistory(key: string, entries: seq<Entry>)
    requires forall e :: e in entries && e.item.FromReview? ==> Made(e.item.review)
    ensures var g := GroupOf(key, entries);
      && g.heldCount >= 0 && g.degradedCount >= 0 && g.inFavorCount >= 0 && g.againstCount >= 0
      && g.favorableCount >= 0 && g.unfavorableCount >= 0
      && g.heldCount + g.degradedCount == Total(ConfidenceKnown, key, entries) <= g.reviewCount
      && g.inFavorCount + g.againstCount == Total(HistoryWithProposal, key, entries) <= g.heldCount + g.degradedCount
      && g.favorableCount + g.unfavorableCount <= Total(WithProposal, key, entries)
      && (g.averageConfidenceDelta.Some? <==> g.heldCount > 0 || g.degradedCount > 0)
      && (g.averageFairDelta.Some? <==> g.averageConfidenceDelta.Some?)
  {
    MadeConfidence(key, entries);
    MadeProbability(key, entries);
    MadeExecution(key, entries);
    KnownTogether(key, entries);
  }

  lemma MadeConfidence(key: string, entries: seq<Entry>)
    requires forall e :: e in entries && e.item.FromReview? ==> Made(e.item.review)
    ensures 0 <= Total(HeldCount, key, entries) && 0 <= Total(DegradedCount, key, entries)
    ensures Total(HeldCount, key, entries) + Total(DegradedCount, key, entries) == Total(ConfidenceKnown, key, entries)
  {
    TotalsAdd(HeldCount, DegradedCount, ConfidenceKnown, key, entries);
  }

  lemma MadeProbability(key: string, entries: seq<Entry>)
    requires forall e :: e in entries && e.item.FromReview? ==> Made(e.item.review)
    ensures 0 <= Total(InFavorCount, key, entries) && 0 <= Total(AgainstCount, key, entries)
    ensures Total(InFavorCount, key, entries) + Total(AgainstCount, key, entries)
      == Total(HistoryWithProposal, key, entries)
  {
    TotalsAdd(InFavorCount, AgainstCount, HistoryWithProposal, key, entries);
  }

  lemma MadeExecution(key: string, entries: seq<Entry>)
    requires forall e :: e in entries && e.item.FromReview? ==> Made(e.item.review)
    ensures 0 <= Total(FavorableCount, key, entries) && 0 <= Total(UnfavorableCount, key, entries)
    ensures Total(FavorableCount, key, entries)
      + Total(UnfavorableCount, key, entries) <= Total(WithProposal, key, entries)
  {
    TotalsAdd(FavorableCount, UnfavorableCount, WithProposal, key, entries);
  }

  lemma {:induction false} KnownTogether(key: string, entries: seq<Entry>)
    ensures 0 <= Total(FairKnown, key, entries) == Total(ConfidenceKnown, key, entries) <= Total(Reviews, key, entries)
    ensures Total(HistoryWithProposal, key, entries) <= Total(ConfidenceKnown, key, entries)
  {
    if entries != [] { KnownTogether(key, entries[..|entries| - 1]); }
  }

  // ---- Order ------------------------------------------------------------------------------------------------------

  lemma SortedByValue(groups: seq<Group>, keys: seq<string>, seen: seq<string>)
    requires |groups| == |keys| && forall i :: 0 <= i < |keys| ==> groups[i].value == keys[i]
    requires Distinct(seen) && keys == Sorted(seen)
    ensures forall i, j :: 0 <= i < j < |groups| ==> TextLess(groups[i].value, groups[j].value)
    ensures forall key :: key in seen <==> HasGroup(groups, key)
  {
    SortedKeys(seen);
    forall key ensures key in seen <==> HasGroup(groups, key) {
      if key in seen {
        assert key in keys;
        var i :| 0 <= i < |keys| && keys[i] == key;
        assert groups[i].value == key;
      }
    }
  }

  /** One group per key that occurs, in strictly increasing key order. */
  lemma GroupsAreSorted(entries: seq<Entry>)
    ensures var groups := Grouping(entries);
      && (forall i, j :: 0 <= i < j < |groups| ==> TextLess(groups[i].value, groups[j].value))
      && (forall key :: HasKey(entries, key) <==> HasGroup(groups, key))
      && (forall i :: 0 <= i < |groups| ==> groups[i] == GroupOf(groups[i].value, entries))
  {
    var keys := KeysSeen(entries);
    KeysAreDistinct(entries);
    SortedKeys(keys);
    GroupsReport(Sorted(keys), entries);
    SortedByValue(Grouping(entries), Sorted(keys), keys);
  }

  lemma {:induction false} TotalConcat(m: Metric, key: string, a: seq<Entry>, b: seq<Entry>)
    ensures Total(m, key, a + b) == Total(m, key, a) + Total(m, key, b)
  {
    if b == [] {
      assert a + b == a;
    } else {
      var init := b[..|b| - 1];
      assert (a + b)[..|a + b| - 1] == a + init;
      TotalConcat(m, key, a, init);
    }
  }

  lemma TotalInsert(m: Metric, key: string, a: seq<Entry>, entry: Entry, b: seq<Entry>)
    ensures Total(m, key, a + [entry] + b) == Total(m, key, a + b) + if entry.key == key then Weight(m, entry.item)
      else 0
  {
    TotalConcat(m, key, a + [entry], b);
    TotalStep(m, key, a, entry);
    TotalConcat(m, key, a, b);
  }

  /** Totals do not depend on the order of the entries. */
  lemma {:induction false} TotalIgnoresOrder(m: Metric, key: string, xs: seq<Entry>, ys: seq<Entry>)
    requires multiset(xs) == multiset(ys)
    ensures Total(m, key, xs) == Total(m, key, ys)
  {
    if xs == [] {
      assert |ys| == |multiset(ys)|;
    } else {
      var init, last := xs[..|xs| - 1], xs[|xs| - 1];
      assert xs == init + [last];
      var a, b := SplitAt(init, last, ys);
      TotalIgnoresOrder(m, key, init, a + b);
      TotalInsert(m, key, a, last, b);
      TotalStep(m, key, init, last);
    }
  }

  lemma {:induction false} VerdictCountsAgree(verdicts: seq<string>, key: string, xs: seq<Entry>, ys: seq<Entry>)
    requires forall m :: Total(m, key, xs) == Total(m, key, ys)
    ensures VerdictCounts(verdicts, key, xs) == VerdictCounts(verdicts, key, ys)
  {
    if verdicts != [] { VerdictCountsAgree(verdicts[..|verdicts| - 1], key, xs, ys); }
  }

  lemma GroupIgnoresOrder(key: string, xs: seq<Entry>, ys: seq<Entry>)
    requires multiset(xs) == multiset(ys)
    ensures GroupOf(key, xs) == GroupOf(key, ys)
  {
    forall m ensures Total(m, key, xs) == Total(m, key, ys) { TotalIgnoresOrder(m, key, xs, ys); }
    VerdictsAreDistinct(key, xs);
    VerdictsAreDistinct(key, ys);
    SameElements(xs, ys);
    SortedIgnoresArrival(VerdictsSeen(key, xs), VerdictsSeen(key, ys));
    VerdictCountsAgree(Sorted(VerdictsSeen(key, xs)), key, xs, ys);
  }

  lemma SameElements(xs: seq<Entry>, ys: seq<Entry>)
    requires multiset(xs) == multiset(ys)
    ensures forall e :: e in xs <==> e in ys
  {
    forall e ensures e in xs <==> e in ys { assert e in multiset(xs) <==> e in multiset(ys); }
  }

  lemma {:induction false} EachAgrees(f: string -> Group, g: string -> Group, keys: seq<string>)
    requires forall key :: f(key) == g(key)
    ensures Each(f, keys) == Each(g, keys)
  {
    if keys != [] { EachAgrees(f, g, keys[..|keys| - 1]); }
  }

  lemma GroupingIgnoresOrder(xs: seq<Entry>, ys: seq<Entry>)
    requires multiset(xs) == multiset(ys)
    ensures Grouping(xs) == Grouping(ys)
  {
    KeysAreDistinct(xs);
    KeysAreDistinct(ys);
    SameElements(xs, ys);
    SortedIgnoresArrival(KeysSeen(xs), KeysSeen(ys));
    var f, g := key => GroupOf(key, xs), key => GroupOf(key, ys);
    forall key ensures f(key) == g(key) { GroupIgnoresOrder(key, xs, ys); }
    EachAgrees(f, g, Sorted(KeysSeen(xs)));
  }

  lemma {:induction false} GatherConcat(f: Item -> seq<Entry>, a: seq<Item>, b: seq<Item>)
    ensures Gather(f, a + b) == Gather(f, a) + Gather(f, b)
  {
    if b == [] {
      assert a + b == a;
    } else {
      var init := b[..|b| - 1];
      assert (a + b)[..|a + b| - 1] == a + init;
      GatherConcat(f, a, init);
    }
  }

  lemma {:induction false} GatherPermutes(f: Item -> seq<Entry>, xs: seq<Item>, ys: seq<Item>)
    requires multiset(xs) == multiset(ys)
    ensures multiset(Gather(f, xs)) == multiset(Gather(f, ys))
  {
    if xs == [] {
      assert |ys| == |multiset(ys)|;
    } else {
      var init, last := xs[..|xs| - 1], xs[|xs| - 1];
      assert xs == init + [last];
      var a, b := SplitAt(init, last, ys);
      GatherPermutes(f, init, a + b);
      GatherConcat(f, a + [last], b);
      GatherConcat(f, a, b);
      assert (a + [last])[..|a|] == a;
    }
  }

  /** The whole snapshot is the same for every order in which the stores list their rows. */
  lemma SnapshotIgnoresOrder(grouping: GroupBy, xs: seq<Item>, ys: seq<Item>, proposals: map<string, ProposalFacts>)
    requires multiset(xs) == multiset(ys)
    ensures Grouping(Entries(grouping, xs, proposals)) == Grouping(Entries(grouping, ys, proposals))
  {
    GatherPermutes(item => EntriesOf(grouping, item, proposals), xs, ys);
    GroupingIgnoresOrder(Entries(grouping, xs, proposals), Entries(grouping, ys, proposals));
  }

  // ---- Groups, from the items themselves --------------------------------------------------------------------------

  /** How often an item counts in the group of a key. */
  function Belongs(grouping: GroupBy, item: Item, proposals: map<string, ProposalFacts>, key: string): nat {
    var id := if item.FromReview? then item.review.proposalId else item.evaluation.proposalId;
    var known := id.Some? && id.value in proposals;
    var facts := if known then proposals[id.value] else ProposalFacts("", "unknown_category", [], 0.0);
    match grouping
    case ByMarket =>
      var market := if item.FromReview? then item.review.marketId else facts.marketId;
      if key == market != "" || (market == "" && key == "unknown_market") then 1 else 0
    case ByCategory => if key == facts.category then 1 else 0
    case BySourceType =>
      if facts.sourceTypes == [] then (if key == "unknown_source_type" then 1 else 0)
      else SourcesNamed(facts.sourceTypes, key)
    case ByConfidenceBand =>
      var c := facts.confidence;
      if known then
        if (key == "low" && c < 0.75) || (key == "medium" && 0.75 <= c < 0.85) || (key == "high" && 0.85 <= c)
        then 1 else 0
      else if key == "unknown_confidence_band" then 1
      else 0
    case ByVerdictType =>
      var verdict := if item.FromEvaluation? then item.evaluation.verdict else "";
      if key == verdict != "" || (verdict == "" && key == "no_verdict") then 1 else 0
    case OtherGrouping => 0
  }

  /** How many sources have a name. */
  function SourcesNamed(types: seq<SourceType>, name: string): nat {
    if types == [] then 0
    else
      SourcesNamed(types[..|types| - 1], name)
      + match types[|types| - 1]
        case Official => if name == "official" then 1 else 0
        case Regulator => if name == "regulator" then 1 else 0
        case MajorMedia => if name == "major_media" then 1 else 0
        case Social => if name == "social" then 1 else 0
        case Research => if name == "research" then 1 else 0
  }

  /** A figure of the items added up, each as often as it counts. */
  function Tallied(times: Item -> nat, figure: Item -> int, items: seq<Item>): int {
    if items == [] then 0
    else
      var last := items[|items| - 1];
      Tallied(times, figure, items[..|items| - 1]) + times(last) * figure(last)
  }

  lemma {:induction false} TalliesAgree(times: Item -> nat, f: Item -> int, g: Item -> int, items: seq<Item>)
    requires forall item :: item in items ==> f(item) == g(item)
    ensures Tallied(times, f, items) == Tallied(times, g, items)
  {
    if items != [] { TalliesAgree(times, f, g, items[..|items| - 1]); }
  }

  lemma {:induction false} NamedSources(types: seq<SourceType>, key: string)
    ensures multiset(NamesOf(types))[key] == SourcesNamed(types, key)
  {
    if types == [] {
      assert NamesOf(types) == [];
    } else {
      NamedSources(types[..|types| - 1], key);
      assert NamesOf(types) == NamesOf(types[..|types| - 1]) + [NameOf(types[|types| - 1])];
    }
  }

  lemma OneKey(only: string, key: string)
    ensures multiset([only])[key] == if key == only then 1 else 0
  {
  }

  lemma MarketBelongs(item: Item, proposals: map<string, ProposalFacts>, key: string)
    ensures multiset(KeysOf(ByMarket, item, ProposalOf(item, proposals)).value)[key]
         == Belongs(ByMarket, item, proposals, key)
  {
    OneKey(KeysOf(ByMarket, item, ProposalOf(item, proposals)).value[0], key);
  }

  lemma CategoryBelongs(item: Item, proposals: map<string, ProposalFacts>, key: string)
    ensures multiset(KeysOf(ByCategory, item, ProposalOf(item, proposals)).value)[key]
         == Belongs(ByCategory, item, proposals, key)
  {
    OneKey(KeysOf(ByCategory, item, ProposalOf(item, proposals)).value[0], key);
  }

  lemma SourceBelongs(item: Item, proposals: map<string, ProposalFacts>, key: string)
    ensures multiset(KeysOf(BySourceType, item, ProposalOf(item, proposals)).value)[key]
         == Belongs(BySourceType, item, proposals, key)
  {
    var proposal := ProposalOf(item, proposals);
    if proposal.Some? { NamedSources(proposal.value.sourceTypes, key); }
    OneKey("unknown_source_type", key);
  }

  lemma BandBelongs(item: Item, proposals: map<string, ProposalFacts>, key: string)
    ensures multiset(KeysOf(ByConfidenceBand, item, ProposalOf(item, proposals)).value)[key]
         == Belongs(ByConfidenceBand, item, proposals, key)
  {
    OneKey(KeysOf(ByConfidenceBand, item, ProposalOf(item, proposals)).value[0], key);
    assert "low"[0] != "medium"[0] && "low"[0] != "high"[0] && "medium"[0] != "high"[0];
  }

  lemma VerdictBelongs(item: Item, proposals: map<string, ProposalFacts>, key: string)
    ensures multiset(KeysOf(ByVerdictType, item, ProposalOf(item, proposals)).value)[key]
         == Belongs(ByVerdictType, item, proposals, key)
  {
    OneKey(KeysOf(ByVerdictType, item, ProposalOf(item, proposals)).value[0], key);
  }

  lemma KeysBelong(grouping: GroupBy, item: Item, proposals: map<string, ProposalFacts>, key: string)
    requires grouping != OtherGrouping
    ensures multiset(KeysOf(grouping, item, ProposalOf(item, proposals)).value)[key]
         == Belongs(grouping, item, proposals, key)
  {
    match grouping
    case ByMarket => MarketBelongs(item, proposals, key);
    case ByCategory => CategoryBelongs(item, proposals, key);
    case BySourceType => SourceBelongs(item, proposals, key);
    case ByConfidenceBand => BandBelongs(item, proposals, key);
    case ByVerdictType => VerdictBelongs(item, proposals, key);
  }

  lemma KeyStep(keys: seq<string>, last: string, key: string)
    ensures multiset(keys + [last])[key] == multiset(keys)[key] + (if last == key then 1 else 0)
  {
  }

  lemma {:induction false} TotalUnder(m: Metric, key: string, keys: seq<string>, item: Item)
    ensures Total(m, key, EntriesUnder(keys, item)) == multiset(keys)[key] * Weight(m, item)
  {
    if keys != [] {
      var init, last := keys[..|keys| - 1], keys[|keys| - 1];
      TotalUnder(m, key, init, item);
      TotalStep(m, key, EntriesUnder(init, item), Entry(last, item));
      KeyStep(init, last, key);
      assert init + [last] == keys;
      OneMore(multiset(init)[key], Weight(m, item));
    }
  }

  lemma TotalOfItem(m: Metric, key: string, grouping: GroupBy, item: Item, proposals: map<string, ProposalFacts>)
    requires grouping != OtherGrouping
    ensures Total(m, key, EntriesOf(grouping, item, proposals))
         == Belongs(grouping, item, proposals, key) * Weight(m, item)
  {
    TotalUnder(m, key, KeysOf(grouping, item, ProposalOf(item, proposals)).value, item);
    KeysBelong(grouping, item, proposals, key);
  }

  lemma {:induction false} GatheredTallied(m: Metric, key: string, f: Item -> seq<Entry>, times: Item -> nat,
                                           items: seq<Item>)
    requires forall item :: Total(m, key, f(item)) == times(item) * Weight(m, item)
    ensures Total(m, key, Gather(f, items)) == Tallied(times, item => Weight(m, item), items)
  {
    if items != [] {
      var init := items[..|items| - 1];
      GatheredTallied(m, key, f, times, init);
      TotalConcat(m, key, Gather(f, init), f(items[|items| - 1]));
    }
  }

  /** The total of a metric under a key is its figure added up over the items that belong there. */
  lemma TotalTallied(m: Metric, key: string, grouping: GroupBy, items: seq<Item>, proposals: map<string, ProposalFacts>,
                     figure: Item -> int)
    requires grouping != OtherGrouping && forall item :: item in items ==> figure(item) == Weight(m, item)
    ensures Total(m, key, Entries(grouping, items, proposals))
         == Tallied((item: Item) => Belongs(grouping, item, proposals, key), figure, items)
  {
    var f := (item: Item) => EntriesOf(grouping, item, proposals);
    var times := (item: Item) => Belongs(grouping, item, proposals, key);
    forall item ensures Total(m, key, f(item)) == times(item) * Weight(m, item) {
      TotalOfItem(m, key, grouping, item, proposals);
    }
    GatheredTallied(m, key, f, times, items);
    TalliesAgree(times, figure, item => Weight(m, item), items);
  }

  predicate HasDrift(item: Item) { item.FromReview? && item.review.drift.Drift? }

  function FairShift(item: Item): int { if HasDrift(item) then item.review.drift.fairDelta else 0 }

  function ConfidenceShift(item: Item): int { if HasDrift(item) then item.review.drift.confidenceDelta else 0 }

  /** Whether the confidence of a review did not fall, or did. */
  predicate Kept(item: Item, held: bool) { HasDrift(item) && (item.review.drift.confidenceDelta >= 0 <==> held) }

  predicate Moved(item: Item, direction: ProbabilityOutcome) {
    item.FromReview? && item.review.probability == direction
  }

  predicate Filled(item: Item, quality: ExecutionOutcome) { item.FromReview? && item.review.execution == quality }

  predicate Judged(item: Item, verdict: string) { item.FromEvaluation? && item.evaluation.verdict == verdict }

  /** What a group reports, in terms of the items that belong to it: reviews and evaluations. */
  lemma GroupCountsItems(grouping: GroupBy, items: seq<Item>, proposals: map<string, ProposalFacts>, key: string)
    requires grouping != OtherGrouping
    ensures var g := GroupOf(key, Entries(grouping, items, proposals));
      var times := (item: Item) => Belongs(grouping, item, proposals, key);
      && g.reviewCount == Tallied(times, (item: Item) => One(item.FromReview?), items)
      && g.evaluationCount == Tallied(times, (item: Item) => One(item.FromEvaluation?), items)
  {
    TotalTallied(Reviews, key, grouping, items, proposals, (item: Item) => One(item.FromReview?));
    TotalTallied(Evaluations, key, grouping, items, proposals, (item: Item) => One(item.FromEvaluation?));
  }

  /** Reviews whose confidence did not fall and whose confidence did. */
  lemma GroupCountsConfidence(grouping: GroupBy, items: seq<Item>, proposals: map<string, ProposalFacts>, key: string)
    requires grouping != OtherGrouping && forall item :: item in items && item.FromReview? ==> Made(item.review)
    ensures var g := GroupOf(key, Entries(grouping, items, proposals));
      var times := (item: Item) => Belongs(grouping, item, proposals, key);
      && g.heldCount == Tallied(times, (item: Item) => One(Kept(item, true)), items)
      && g.degradedCount == Tallied(times, (item: Item) => One(Kept(item, false)), items)
  {
    KeptTallied(true, key, grouping, items, proposals);
    KeptTallied(false, key, grouping, items, proposals);
  }

  lemma KeptTallied(held: bool, key: string, grouping: GroupBy, items: seq<Item>,
                    proposals: map<string, ProposalFacts>)
    requires grouping != OtherGrouping && forall item :: item in items && item.FromReview? ==> Made(item.review)
    ensures Total(if held then HeldCount else DegradedCount, key, Entries(grouping, items, proposals))
         == Tallied((item: Item) => Belongs(grouping, item, proposals, key), (item: Item) => One(Kept(item, held)),
                    items)
  {
    TotalTallied(if held then HeldCount else DegradedCount, key, grouping, items, proposals,
                 (item: Item) => One(Kept(item, held)));
  }

  /** Reviews whose market moved in favor of the position and against it. */
  lemma GroupCountsMoves(grouping: GroupBy, items: seq<Item>, proposals: map<string, ProposalFacts>, key: string)
    requires grouping != OtherGrouping
    ensures var g := GroupOf(key, Entries(grouping, items, proposals));
      var times := (item: Item) => Belongs(grouping, item, proposals, key);
      && g.inFavorCount
         == Tallied(times, (item: Item) => One(Moved(item, MovedInFavor)), items)
      && g.againstCount
         == Tallied(times, (item: Item) => One(Moved(item, MovedAgainst)), items)
  {
    MoveTallied(MovedInFavor, key, grouping, items, proposals);
    MoveTallied(MovedAgainst, key, grouping, items, proposals);
  }

  lemma MoveTallied(direction: ProbabilityOutcome, key: string, grouping: GroupBy, items: seq<Item>,
                    proposals: map<string, ProposalFacts>)
    requires grouping != OtherGrouping && direction != ProbabilityInsufficientHistory
    ensures Total(if direction == MovedInFavor then InFavorCount else AgainstCount, key,
                  Entries(grouping, items, proposals))
         == Tallied((item: Item) => Belongs(grouping, item, proposals, key),
                    (item: Item) => One(Moved(item, direction)), items)
  {
    TotalTallied(if direction == MovedInFavor then InFavorCount else AgainstCount, key, grouping, items, proposals,
                 (item: Item) => One(Moved(item, direction)));
  }

  /** Reviews whose fill was favorable and unfavorable. */
  lemma GroupCountsFills(grouping: GroupBy, items: seq<Item>, proposals: map<string, ProposalFacts>, key: string)
    requires grouping != OtherGrouping
    ensures var g := GroupOf(key, Entries(grouping, items, proposals));
      var times := (item: Item) => Belongs(grouping, item, proposals, key);
      && g.favorableCount
         == Tallied(times, (item: Item) => One(Filled(item, Favorable)), items)
      && g.unfavorableCount
         == Tallied(times, (item: Item) => One(Filled(item, Unfavorable)), items)
  {
    FillTallied(Favorable, key, grouping, items, proposals);
    FillTallied(Unfavorable, key, grouping, items, proposals);
  }

  lemma FillTallied(quality: ExecutionOutcome, key: string, grouping: GroupBy, items: seq<Item>,
                    proposals: map<string, ProposalFacts>)
    requires grouping != OtherGrouping && quality != NotSimulated
    ensures Total(if quality == Favorable then FavorableCount else UnfavorableCount, key,
                  Entries(grouping, items, proposals))
         == Tallied((item: Item) => Belongs(grouping, item, proposals, key),
                    (item: Item) => One(Filled(item, quality)), items)
  {
    TotalTallied(if quality == Favorable then FavorableCount else UnfavorableCount, key, grouping, items, proposals,
                 (item: Item) => One(Filled(item, quality)));
  }

  /** Each verdict a group lists stands with the number of evaluations that carry it. */
  lemma GroupCountsVerdicts(grouping: GroupBy, items: seq<Item>, proposals: map<string, ProposalFacts>, key: string,
                            k: nat)
    requires grouping != OtherGrouping
    requires k < |GroupOf(key, Entries(grouping, items, proposals)).verdictCounts|
    ensures var listed := GroupOf(key, Entries(grouping, items, proposals)).verdictCounts[k];
      var times := (item: Item) => Belongs(grouping, item, proposals, key);
      listed.1
      == Tallied(times, (item: Item) => One(Judged(item, listed.0)), items)
  {
    var listed := GroupOf(key, Entries(grouping, items, proposals)).verdictCounts[k];
    ListedTotal(key, Entries(grouping, items, proposals), k);
    VerdictTallied(listed.0, key, grouping, items, proposals);
  }

  lemma ListedTotal(key: string, entries: seq<Entry>, k: nat)
    requires k < |GroupOf(key, entries).verdictCounts|
    ensures var listed := GroupOf(key, entries).verdictCounts[k];
      listed.1 == Total(VerdictCount(listed.0), key, entries)
  {
    CountsListed(Sorted(VerdictsSeen(key, entries)), key, entries);
  }

  lemma VerdictTallied(verdict: string, key: string, grouping: GroupBy, items: seq<Item>,
                       proposals: map<string, ProposalFacts>)
    requires grouping != OtherGrouping
    ensures Total(VerdictCount(verdict), key, Entries(grouping, items, proposals))
         == Tallied((item: Item) => Belongs(grouping, item, proposals, key),
                    (item: Item) => One(Judged(item, verdict)), items)
  {
    TotalTallied(VerdictCount(verdict), key, grouping, items, proposals, (item: Item) => One(Judged(item, verdict)));
  }

  lemma {:induction false} CountsListed(verdicts: seq<string>, key: string, entries: seq<Entry>)
    ensures forall pair :: pair in VerdictCounts(verdicts, key, entries) ==>
              pair.1 == Total(VerdictCount(pair.0), key, entries)
  {
    if verdicts != [] { CountsListed(verdicts[..|verdicts| - 1], key, entries); }
  }

  /** The average move of the estimate in a group is that of its reviews with a previous snapshot, to half a unit. */
  lemma GroupFairAverage(grouping: GroupBy, items: seq<Item>, proposals: map<string, ProposalFacts>, key: string)
    requires grouping != OtherGrouping
    ensures var g := GroupOf(key, Entries(grouping, items, proposals));
      var times := (item: Item) => Belongs(grouping, item, proposals, key);
      var n := Tallied(times, (item: Item) => One(HasDrift(item)), items);
      var total := Tallied(times, (item: Item) => FairShift(item), items);
      IsMean(g.averageFairDelta, total, n)
  {
    TotalTallied(FairKnown, key, grouping, items, proposals, (item: Item) => One(HasDrift(item)));
    TotalTallied(FairDelta, key, grouping, items, proposals, (item: Item) => FairShift(item));
    var entries := Entries(grouping, items, proposals);
    MeanWithinHalf(Total(FairDelta, key, entries), Total(FairKnown, key, entries));
  }

  /** The average move of the confidence, likewise. */
  lemma GroupConfidenceAverage(grouping: GroupBy, items: seq<Item>, proposals: map<string, ProposalFacts>, key: string)
    requires grouping != OtherGrouping
    ensures var g := GroupOf(key, Entries(grouping, items, proposals));
      var times := (item: Item) => Belongs(grouping, item, proposals, key);
      var n := Tallied(times, (item: Item) => One(HasDrift(item)), items);
      var total := Tallied(times, (item: Item) => ConfidenceShift(item), items);
      IsMean(g.averageConfidenceDelta, total, n)
  {
    TotalTallied(ConfidenceKnown, key, grouping, items, proposals, (item: Item) => One(HasDrift(item)));
    TotalTallied(ConfidenceDelta, key, grouping, items, proposals, (item: Item) => ConfidenceShift(item));
    var entries := Entries(grouping, items, proposals);
    MeanWithinHalf(Total(ConfidenceDelta, key, entries), Total(ConfidenceKnown, key, entries));
  }

  /** A mean to half a unit, or none of nothing. */
  predicate IsMean(mean: Option<int>, total: int, count: int) {
    if count == 0 then mean.None?
    else mean.Some? && -0.5 <= mean.value as real - total as real / count as real <= 0.5
  }

  lemma MeanWithinHalf(total: int, count: int)
    ensures IsMean(Mean(total, count), total, count)
  {
    if count != 0 { RoundWithinHalf(total as real / count as real); }
  }
}
