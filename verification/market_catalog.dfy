/** Browsing the market catalog (`bot/services/market_catalog.py`): deduplicate, filter, sort and cut into pages. */
module MarketCatalog {
  import opened Common
  import opened StableSorting
  import opened TextOrder
  import Policies

  datatype MarketSummary = MarketSummary(
    marketId: string,
    question: string,
    slug: Option<string>,
    eventTitle: Option<string>,
    category: string,
    enableOrderBook: bool,
    liquidityUsd: Option<real>,
    volumeUsd: Option<real>,
    endTime: Option<int>,
    createdAt: Option<int>)

  datatype SortOrder = LiquidityDesc | VolumeDesc | EndingSoon | Newest | Unsupported

  datatype BrowseQuery = BrowseQuery(
    categories: seq<string>,
    search: string,
    minLiquidity: Option<real>,
    orderbookOnly: bool,
    sort: SortOrder,
    page: int,
    pageSize: int)

  datatype BrowseResult = BrowseResult(items: seq<MarketSummary>, totalCount: nat, pageSize: int) {
    function TotalPages(): int {
      if pageSize <= 0 then 1 else MaxInt(1, (totalCount + pageSize - 1) / pageSize)
    }
  }

  /** The last and the first second that a Python `datetime` can hold, used for missing times. */
  const MAX_TIME: int := 253402300799
  const MIN_TIME: int := -62135596800

  // ---- Text -------------------------------------------------------------------------------------------------------

  predicate IsSpace(c: char) { c == ' ' || '\t' <= c <= '\r' }

  function TrimLeft(s: string): (r: string)
    ensures |r| <= |s|
  {
    if s != "" && IsSpace(s[0]) then TrimLeft(s[1..]) else s
  }

  function TrimRight(s: string): (r: string)
    ensures |r| <= |s|
  {
    if s != "" && IsSpace(s[|s| - 1]) then TrimRight(s[..|s| - 1]) else s
  }

  /** Runs of spaces collapsed to one. */
  function Squeeze(s: string): (r: string)
    ensures s != "" ==> r != ""
  {
    if |s| < 2 then s
    else if IsSpace(s[0]) && IsSpace(s[1]) then Squeeze(s[1..])
    else [if IsSpace(s[0]) then ' ' else s[0]] + Squeeze(s[1..])
  }

  function NormalizeCategory(value: string): string {
    var spaced := seq(|value|, i requires 0 <= i < |value| =>
      if value[i] == '_' || value[i] == '-' then ' ' else value[i]);
    var normalized := Policies.Lower(Squeeze(TrimRight(TrimLeft(spaced))));
    if normalized == "" then "unknown" else normalized
  }

  function JoinNonEmpty(parts: seq<string>): string {
    if parts == [] then ""
    else if parts[0] == "" then JoinNonEmpty(parts[1..])
    else
      var rest := JoinNonEmpty(parts[1..]);
      if rest == "" then parts[0] else parts[0] + " " + rest
  }

  function OrEmpty(s: Option<string>): string { if s.Some? then s.value else "" }

  function OrZero(x: Option<real>): real { if x.Some? then x.value else 0.0 }

  // ---- Specification ----------------------------------------------------------------------------------------------

  predicate Listed(items: seq<MarketSummary>, id: string) { exists k :: 0 <= k < |items| && items[k].marketId == id }

  /** Each market at its first occurrence. */
  function FirstOccurrences(items: seq<MarketSummary>): seq<MarketSummary> {
    if items == [] then []
    else
      var last := items[|items| - 1];
      var before := FirstOccurrences(items[..|items| - 1]);
      if Listed(items[..|items| - 1], last.marketId) then before else before + [last]
  }

  predicate Matches(q: BrowseQuery, item: MarketSummary) {
    && (q.categories != [] ==>
          exists k :: 0 <= k < |q.categories| && NormalizeCategory(q.categories[k]) == NormalizeCategory(item.category))
    && (q.minLiquidity.Some? ==> q.minLiquidity.value <= OrZero(item.liquidityUsd))
    && (q.orderbookOnly ==> item.enableOrderBook)
    && var text := Policies.Lower(TrimRight(TrimLeft(q.search)));
    (text != "" ==> Policies.Contains(JoinNonEmpty([Policies.Lower(item.question), Policies.Lower(OrEmpty(item.slug)),
                                                    Policies.Lower(OrEmpty(item.eventTitle)),
                                                        Policies.Lower(item.marketId)]),
                                      text))
  }

  function Filtered(q: BrowseQuery, items: seq<MarketSummary>): seq<MarketSummary> {
    if items == [] then []
    else
      var last := items[|items| - 1];
      Filtered(q, items[..|items| - 1]) + if Matches(q, last) then [last] else []
  }

  datatype SortKey = SortKey(first: real, second: real, text: string)

  function KeyOf(sort: SortOrder, item: MarketSummary): SortKey {
    var text := Policies.Lower(item.question);
    match sort
    case VolumeDesc => SortKey(OrZero(item.volumeUsd), OrZero(item.liquidityUsd), text)
    case EndingSoon =>
      SortKey((if item.endTime.Some? then item.endTime.value else MAX_TIME) as real, -OrZero(item.liquidityUsd), text)
    case Newest => SortKey((if item.createdAt.Some? then item.createdAt.value else MIN_TIME) as real, 0.0, text)
    case _ => SortKey(OrZero(item.liquidityUsd), OrZero(item.volumeUsd), text)
  }

  predicate KeyLe(a: SortKey, b: SortKey) {
    if a.first != b.first then a.first < b.first
    else if a.second != b.second then a.second < b.second
    else TextLe(a.text, b.text)
  }

  predicate Reversed(sort: SortOrder) { sort in {LiquidityDesc, VolumeDesc, Newest} }

  /** The order a list is sorted by. Python's reversed sort keeps ties in place, so it is the stable sort of the
      flipped order. */
  function Order(sort: SortOrder): (MarketSummary, MarketSummary) -> bool {
    if Reversed(sort)
    then (a: MarketSummary, b: MarketSummary) => KeyLe(KeyOf(sort, b), KeyOf(sort, a))
    else (a: MarketSummary, b: MarketSummary) => KeyLe(KeyOf(sort, a), KeyOf(sort, b))
  }

  /** All results of a query, before paging. */
  function Results(q: BrowseQuery, catalog: seq<MarketSummary>): seq<MarketSummary> {
    Sort(Filtered(q, FirstOccurrences(catalog)), Order(q.sort))
  }

  /** Python's `xs[start:end]` for a non-negative start. */
  function Slice<T>(xs: seq<T>, start: nat, end: int): seq<T> {
    var stop := if end < 0 then MaxInt(0, |xs| + end) else MinInt(end, |xs|);
    if stop <= start then [] else xs[start..stop]
  }

  /** The page whose first place would be `first`; places before the list count as its beginning. */
  function PageFrom(results: seq<MarketSummary>, first: int, size: int): seq<MarketSummary> {
    Slice(results, MaxInt(0, first), MaxInt(0, first) + size)
  }

  function PageOf(q: BrowseQuery, results: seq<MarketSummary>): seq<MarketSummary> {
    PageFrom(results, (q.page - 1) * q.pageSize, q.pageSize)
  }

  // ---- The service ------------------------------------------------------------------------------------------------

  method BrowseMarkets(q: BrowseQuery, catalog: seq<MarketSummary>) returns (r: BrowseResult)
    ensures r.items == PageOf(q, Results(q, catalog))
    ensures r.totalCount == |Results(q, catalog)| && r.pageSize == q.pageSize
  {
    var uniqueItems := Deduplicate(catalog);
    var filteredItems := Filter(q, uniqueItems);
    filteredItems := Sort(filteredItems, Order(q.sort));
    var start := MaxInt(0, (q.page - 1) * q.pageSize);
    r := BrowseResult(Slice(filteredItems, start, start + q.pageSize), |filteredItems|, q.pageSize);
  }

  method Deduplicate(catalog: seq<MarketSummary>) returns (unique: seq<MarketSummary>)
    ensures unique == FirstOccurrences(catalog)
  {
    unique := [];
    var seen: set<string> := {};
    var i := 0;
    while i < |catalog|
      invariant 0 <= i <= |catalog|
      invariant unique == FirstOccurrences(catalog[..i])
      invariant forall id :: id in seen <==> Listed(catalog[..i], id)
    {
      assert catalog[..i + 1][..i] == catalog[..i];
      ListedAppend(catalog[..i], catalog[i]);
      assert catalog[..i + 1] == catalog[..i] + [catalog[i]];
      if catalog[i].marketId !in seen {
        seen := seen + {catalog[i].marketId};
        unique := unique + [catalog[i]];
      }
      i := i + 1;
    }
    assert catalog[..|catalog|] == catalog;
  }

  lemma ListedAppend(items: seq<MarketSummary>, item: MarketSummary)
    ensures forall id :: Listed(items + [item], id) <==> Listed(items, id) || id == item.marketId
  {
    var longer := items + [item];
    assert longer[|items|] == item;
    forall id | Listed(items, id) ensures Listed(longer, id) {
      var k :| 0 <= k < |items| && items[k].marketId == id;
      assert longer[k] == items[k];
    }
  }

  method Filter(q: BrowseQuery, items: seq<MarketSummary>) returns (kept: seq<MarketSummary>)
    ensures kept == Filtered(q, items)
  {
    kept := [];
    var i := 0;
    while i < |items|
      invariant 0 <= i <= |items|
      invariant kept == Filtered(q, items[..i])
    {
      assert items[..i + 1][..i] == items[..i];
      if Matches(q, items[i]) {
        kept := kept + [items[i]];
      }
      i := i + 1;
    }
    assert items[..|items|] == items;
  }

  // ---- What the results are ---------------------------------------------------------------------------------------

  /** Deduplication keeps exactly one entry per listed market, and it is the first one. */
  lemma FirstOccurrencesAreFirst(items: seq<MarketSummary>)
    ensures var unique := FirstOccurrences(items);
      && (forall id :: Listed(unique, id) <==> Listed(items, id))
      && DistinctIds(unique)
      && (forall item :: item in unique ==> exists k :: 0 <= k < |items| && FirstAt(items, k, item))
  {
    UniqueLists(items);
    UniqueIsDistinct(items);
    forall item | item in FirstOccurrences(items) ensures exists k :: 0 <= k < |items| && FirstAt(items, k, item) {
      var k := FirstPlace(items, item);
      assert FirstAt(items, k, item);
    }
  }

  lemma {:induction false} UniqueLists(items: seq<MarketSummary>)
    ensures forall id :: Listed(FirstOccurrences(items), id) <==> Listed(items, id)
  {
    if items != [] {
      var init, last := items[..|items| - 1], items[|items| - 1];
      UniqueLists(init);
      assert items == init + [last];
      ListedAppend(init, last);
      ListedAppend(FirstOccurrences(init), last);
    }
  }

  predicate DistinctIds(items: seq<MarketSummary>) {
    forall i, j :: 0 <= i < j < |items| ==> items[i].marketId != items[j].marketId
  }

  lemma DistinctAppend(items: seq<MarketSummary>, item: MarketSummary)
    requires DistinctIds(items) && !Listed(items, item.marketId)
    ensures DistinctIds(items + [item])
  {
  }

  lemma {:induction false} UniqueIsDistinct(items: seq<MarketSummary>)
    ensures DistinctIds(FirstOccurrences(items))
  {
    if items != [] {
      var init, last := items[..|items| - 1], items[|items| - 1];
      UniqueLists(init);
      UniqueIsDistinct(init);
      if !Listed(init, last.marketId) {
        DistinctAppend(FirstOccurrences(init), last);
      }
    }
  }

  lemma {:induction false} FirstPlace(items: seq<MarketSummary>, item: MarketSummary) returns (k: nat)
    requires item in FirstOccurrences(items)
    ensures k < |items| && FirstAt(items, k, item)
  {
    var init, last := items[..|items| - 1], items[|items| - 1];
    if item in FirstOccurrences(init) {
      k := FirstPlace(init, item);
    } else {
      k := |init|;
      assert !Listed(init, last.marketId);
      forall j | 0 <= j < k ensures items[j].marketId != last.marketId {
        assert items[j] == init[j];
      }
    }
  }

  predicate FirstAt(items: seq<MarketSummary>, k: nat, item: MarketSummary)
    requires k < |items|
  {
    items[k] == item && forall j :: 0 <= j < k ==> items[j].marketId != item.marketId
  }

  /** Filtering keeps exactly the matching items, each as often as it was there. */
  lemma {:induction false} FilteredKeepsMatches(q: BrowseQuery, items: seq<MarketSummary>, item: MarketSummary)
    ensures multiset(Filtered(q, items))[item] == if Matches(q, item) then multiset(items)[item] else 0
  {
    if items != [] {
      var init, last := items[..|items| - 1], items[|items| - 1];
      assert items == init + [last];
      FilteredKeepsMatches(q, init, item);
    }
  }

  lemma KeyLeIsPreorder(a: SortKey, b: SortKey, c: SortKey)
    ensures KeyLe(a, b) || KeyLe(b, a)
    ensures KeyLe(a, b) && KeyLe(b, c) ==> KeyLe(a, c)
  {
    TextLeIsTotal(a.text, b.text);
    if TextLe(a.text, b.text) && TextLe(b.text, c.text) { TextLeIsTransitive(a.text, b.text, c.text); }
  }

  lemma OrderIsTotalPreorder(sort: SortOrder)
    ensures TotalPreorder(Order(sort))
  {
    var le := Order(sort);
    forall a, b ensures le(a, b) || le(b, a) {
      KeyLeIsPreorder(KeyOf(sort, a), KeyOf(sort, b), KeyOf(sort, a));
    }
    forall a, b, c | le(a, b) && le(b, c) ensures le(a, c) {
      KeyLeIsPreorder(KeyOf(sort, a), KeyOf(sort, b), KeyOf(sort, c));
      KeyLeIsPreorder(KeyOf(sort, c), KeyOf(sort, b), KeyOf(sort, a));
    }
  }

  /** The results are the matching first occurrences, sorted by the query's order with ties left in catalog order, and
      any list with these properties is that list. */
  lemma ResultsAreTheStableOrder(q: BrowseQuery, catalog: seq<MarketSummary>, ys: seq<MarketSummary>)
    ensures var kept := Filtered(q, FirstOccurrences(catalog)); var results := Results(q,
        catalog); var le := Order(q.sort);
      && multiset(results) == multiset(kept) && |results| == |kept|
      && SortedBy(results, le)
      && (forall pivot :: Ties(results, pivot, le) == Ties(kept, pivot, le))
      && (SortedBy(ys, le) && (forall pivot :: Ties(ys, pivot, le) == Ties(kept, pivot, le)) ==> ys == results)
  {
    OrderIsTotalPreorder(q.sort);
    var kept := Filtered(q, FirstOccurrences(catalog));
    SortIsStable(kept, Order(q.sort));
    if SortedBy(ys, Order(q.sort))
      && forall pivot :: Ties(ys, pivot, Order(q.sort)) == Ties(kept, pivot, Order(q.sort)) {
      StableOrderIsUnique(ys, Results(q, catalog), Order(q.sort));
    }
  }

  // ---- The results, from the fields of the markets ----------------------------------------------------------------

  /** The words of a category: what stands between blanks, underscores and hyphens, in lower case. */
  function Words(s: string): (r: seq<string>)
    ensures s != "" && !IsBreak(s[0]) ==> r != []
    ensures forall word :: word in r ==> word != ""
  {
    if s == "" then []
    else if IsBreak(s[0]) then Words(s[1..])
    else if |s| == 1 || IsBreak(s[1]) then [Policies.Lower(s[..1])] + Words(s[1..])
    else
      var rest := Words(s[1..]);
      assert forall word :: word in rest[1..] ==> word in rest;
      [Policies.Lower(s[..1]) + rest[0]] + rest[1..]
  }

  predicate IsBreak(c: char) { IsSpace(c) || c == '_' || c == '-' }

  function Joined(words: seq<string>): string {
    if words == [] then ""
    else if |words| == 1 then words[0]
    else words[0] + " " + Joined(words[1..])
  }

  /** The normal form of a category: its words with single spaces, and "unknown" if it has none. */
  lemma CategoryIsItsWords(value: string)
    ensures NormalizeCategory(value) == if Joined(Words(value)) == "" then "unknown" else Joined(Words(value))
  {
    TidyIsJoined(value);
  }

  function Spaced(s: string): string {
    seq(|s|, i requires 0 <= i < |s| => if s[i] == '_' || s[i] == '-' then ' ' else s[i])
  }

  function Tidy(s: string): string { Policies.Lower(Squeeze(TrimRight(TrimLeft(s)))) }

  lemma {:induction false} TidyIsJoined(s: string)
    ensures Tidy(Spaced(s)) == Joined(Words(s))
  {
    if s == "" {
      assert Spaced(s) == "";
    } else {
      var c, t := Spaced(s)[0], s[1..];
      assert Spaced(s) == [c] + Spaced(t);
      TidyIsJoined(t);
      if IsBreak(s[0]) {
        assert TrimLeft(Spaced(s)) == TrimLeft(Spaced(t));
      } else {
        TidyStep(c, Spaced(t));
        JoinedStep(s);
        assert Policies.Lower(s[..1]) == Policies.Lower([c]);
      }
    }
  }

  lemma JoinedStep(s: string)
    requires s != "" && !IsBreak(s[0])
    ensures var low, t := Policies.Lower(s[..1]), s[1..];
      Joined(Words(s))
      == low + if t == "" || !IsBreak(t[0]) || Joined(Words(t)) == "" then Joined(Words(t)) else " " + Joined(Words(t))
  {
    var low, t := Policies.Lower(s[..1]), s[1..];
    if t != "" && !IsBreak(t[0]) { JoinedPrefix(low, Words(t)); } else { JoinedCons(low, Words(t)); }
  }

  lemma JoinedCons(word: string, rest: seq<string>)
    requires forall other :: other in rest ==> other != ""
    ensures Joined([word] + rest) == word + if Joined(rest) == "" then "" else " " + Joined(rest)
  {
    if rest != [] {
      assert ([word] + rest)[1..] == rest && rest[0] in rest;
      assert word + " " + Joined(rest) == word + (" " + Joined(rest));
    }
  }

  lemma JoinedPrefix(low: string, words: seq<string>)
    requires words != []
    ensures Joined([low + words[0]] + words[1..]) == low + Joined(words)
  {
    var longer := [low + words[0]] + words[1..];
    if |words| > 1 {
      assert longer[1..] == words[1..];
      assert low + words[0] + " " + Joined(words[1..]) == low + (words[0] + " " + Joined(words[1..]));
    }
  }

  /** Tidying a letter and what follows it. */
  lemma TidyStep(c: char, t: string)
    requires !IsSpace(c)
    ensures Tidy([c] + t)
         == Policies.Lower([c]) + if t == "" || !IsSpace(t[0]) || Tidy(t) == "" then Tidy(t) else " " + Tidy(t)
  {
    var u := TrimRight(t);
    assert ([c] + t)[1..] == t;
    TrimRightStep(c, t);
    SqueezeStep(c, u);
    TrimsCommute(t);
    LowerConcat([c], Squeeze(u));
    if u != "" {
      TrimRightEnds(t);
      if IsSpace(t[0]) {
        SqueezeBlanks(u);
        LowerConcat(" ", Squeeze(TrimLeft(u)));
      }
    }
  }

  lemma LowerConcat(a: string, b: string)
    ensures Policies.Lower(a + b) == Policies.Lower(a) + Policies.Lower(b)
  {
  }

  lemma {:induction false} TrimRightStep(c: char, t: string)
    ensures TrimRight([c] + t)
         == if TrimRight(t) == "" then (if IsSpace(c) then "" else [c]) else [c] + TrimRight(t)
  {
    if t == "" {
      assert [c] + t == [c];
    } else if IsSpace(t[|t| - 1]) {
      assert ([c] + t)[..|t|] == [c] + t[..|t| - 1];
      TrimRightStep(c, t[..|t| - 1]);
    }
  }

  lemma {:induction false} TrimRightEnds(t: string)
    ensures var u := TrimRight(t);
      u == "" || (u[0] == t[0] && !IsSpace(u[|u| - 1]))
  {
    if t != "" && IsSpace(t[|t| - 1]) { TrimRightEnds(t[..|t| - 1]); }
  }

  lemma {:induction false} TrimsCommute(t: string)
    ensures TrimLeft(TrimRight(t)) == TrimRight(TrimLeft(t))
  {
    if t != "" {
      assert t == [t[0]] + t[1..];
      TrimRightStep(t[0], t[1..]);
      if IsSpace(t[0]) {
        TrimsCommute(t[1..]);
        assert ([t[0]] + TrimRight(t[1..]))[1..] == TrimRight(t[1..]);
      }
    }
  }

  lemma SqueezeStep(c: char, u: string)
    requires !IsSpace(c)
    ensures Squeeze([c] + u) == [c] + Squeeze(u)
  {
    assert ([c] + u)[1..] == u;
  }

  lemma {:induction false} SqueezeBlanks(u: string)
    requires u != "" && IsSpace(u[0]) && !IsSpace(u[|u| - 1])
    ensures TrimLeft(u) != "" && Squeeze(u) == " " + Squeeze(TrimLeft(u))
  {
    if IsSpace(u[1]) { SqueezeBlanks(u[1..]); }
  }

  /** Whether a market meets the conditions of a query: an asked category, enough liquidity, an order book, and the
      searched text in its texts. */
  predicate Wanted(q: BrowseQuery, item: MarketSummary) {
    var text := Policies.Lower(TrimRight(TrimLeft(q.search)));
    && (q.categories == []
        || exists category ::
             category in q.categories && NormalizeCategory(category) == NormalizeCategory(item.category))
    && (q.minLiquidity.None?
        || (if item.liquidityUsd.None? then q.minLiquidity.value <= 0.0
            else q.minLiquidity.value <= item.liquidityUsd.value))
    && (!q.orderbookOnly || item.enableOrderBook)
    && (text == "" || Policies.Contains(SearchedText(item), text))
  }

  /** The texts a market is searched in, those it has, with a space between two, in lower case. */
  function SearchedText(item: MarketSummary): string {
    var slug := if item.slug.Some? then item.slug.value else "";
    var title := if item.eventTitle.Some? then item.eventTitle.value else "";
    var all := AllLed([item.question, slug, title, item.marketId]);
    Policies.Lower(if all == "" then "" else all[1..])
  }

  function Led(text: string): string { if text == "" then "" else " " + text }

  function AllLed(texts: seq<string>): string { if texts == [] then "" else Led(texts[0]) + AllLed(texts[1..]) }

  lemma {:induction false} JoinIsLed(texts: seq<string>)
    ensures AllLed(texts) == Led(JoinNonEmpty(texts))
  {
    if texts != [] { JoinIsLed(texts[1..]); }
  }

  function Lowered(texts: seq<string>): seq<string> {
    if texts == [] then [] else [Policies.Lower(texts[0])] + Lowered(texts[1..])
  }

  lemma {:induction false} LedLowered(texts: seq<string>)
    ensures Policies.Lower(AllLed(texts)) == AllLed(Lowered(texts))
  {
    if texts != [] {
      LedLowered(texts[1..]);
      LowerConcat(" ", texts[0]);
      LowerConcat(Led(texts[0]), AllLed(texts[1..]));
    }
  }

  lemma WithoutFirst(all: string, joined: string)
    requires Policies.Lower(all) == Led(joined)
    ensures Policies.Lower(if all == "" then "" else all[1..]) == joined
  {
    if all != "" { assert Policies.Lower(all)[1..] == Policies.Lower(all[1..]); }
  }

  lemma LoweredCons(text: string, rest: seq<string>)
    ensures Lowered([text] + rest) == [Policies.Lower(text)] + Lowered(rest)
  {
    assert ([text] + rest)[1..] == rest;
  }

  lemma FourLowered(a: string, b: string, c: string, d: string)
    ensures Lowered([a, b, c, d]) == [Policies.Lower(a), Policies.Lower(b), Policies.Lower(c), Policies.Lower(d)]
  {
    LoweredCons(d, []);
    LoweredCons(c, [d]);
    LoweredCons(b, [c, d]);
    LoweredCons(a, [b, c, d]);
    assert [d] + [] == [d] && [c] + [d] == [c, d] && [b] + [c, d] == [b, c, d] && [a] + [b, c, d] == [a, b, c, d];
  }

  lemma SearchedTextIsJoined(item: MarketSummary)
    ensures SearchedText(item)
         == JoinNonEmpty([Policies.Lower(item.question), Policies.Lower(OrEmpty(item.slug)),
                          Policies.Lower(OrEmpty(item.eventTitle)), Policies.Lower(item.marketId)])
  {
    var texts := [item.question, OrEmpty(item.slug), OrEmpty(item.eventTitle), item.marketId];
    FourLowered(texts[0], texts[1], texts[2], texts[3]);
    LedLowered(texts);
    JoinIsLed(Lowered(texts));
    WithoutFirst(AllLed(texts), JoinNonEmpty(Lowered(texts)));
  }

  lemma MatchesIff(q: BrowseQuery, item: MarketSummary)
    ensures Matches(q, item) <==> Wanted(q, item)
  {
    SearchedTextIsJoined(item);
    if category :| category in q.categories && NormalizeCategory(category) == NormalizeCategory(item.category) {
      var k :| 0 <= k < |q.categories| && q.categories[k] == category;
      assert NormalizeCategory(q.categories[k]) == NormalizeCategory(item.category);
    }
  }

  /** The results are exactly the wanted markets, each once: a market is among them if and only if it is wanted and
      stands in the catalog with no earlier entry of its identifier. */
  lemma ResultsAreWhatIsWanted(q: BrowseQuery, catalog: seq<MarketSummary>, item: MarketSummary)
    ensures item in Results(q, catalog) <==>
              Wanted(q, item) && exists k :: 0 <= k < |catalog| && FirstAt(catalog, k, item)
    ensures DistinctIds(Results(q, catalog))
  {
    var unique := FirstOccurrences(catalog);
    var kept := Filtered(q, unique);
    MatchesIff(q, item);
    FirstOccurrencesAreFirst(catalog);
    FilteredKeepsMatches(q, unique, item);
    OrderIsTotalPreorder(q.sort);
    SortIsStable(kept, Order(q.sort));
    assert item in Results(q, catalog) <==> item in multiset(Results(q, catalog));
    assert item in kept <==> item in multiset(kept);
    assert item in unique <==> item in multiset(unique);
    if k :| 0 <= k < |catalog| && FirstAt(catalog, k, item) { FirstIsUnique(catalog, k, item); }
    FilteredDistinct(q, unique);
    SameElementsDistinct(kept, Results(q, catalog));
  }

  lemma FirstIsUnique(catalog: seq<MarketSummary>, k: nat, item: MarketSummary)
    requires k < |catalog| && FirstAt(catalog, k, item)
    ensures item in FirstOccurrences(catalog)
  {
    UniqueLists(catalog);
    assert Listed(catalog, item.marketId);
    var n :| 0 <= n < |FirstOccurrences(catalog)| && FirstOccurrences(catalog)[n].marketId == item.marketId;
    var other := FirstOccurrences(catalog)[n];
    var m := FirstPlace(catalog, other);
    assert m == k;
  }

  lemma {:induction false} FilteredDistinct(q: BrowseQuery, items: seq<MarketSummary>)
    requires DistinctIds(items)
    ensures DistinctIds(Filtered(q, items))
    ensures forall id :: Listed(Filtered(q, items), id) ==> Listed(items, id)
  {
    if items != [] {
      var init, last := items[..|items| - 1], items[|items| - 1];
      FilteredDistinct(q, init);
      assert items == init + [last];
      ListedAppend(init, last);
      ListedAppend(Filtered(q, init), last);
      if Matches(q, last) { DistinctAppend(Filtered(q, init), last); }
    }
  }

  lemma SameElementsDistinct(xs: seq<MarketSummary>, ys: seq<MarketSummary>)
    requires DistinctIds(xs) && multiset(xs) == multiset(ys)
    ensures DistinctIds(ys)
  {
    forall i, j | 0 <= i < j < |ys| ensures ys[i].marketId != ys[j].marketId {
      if ys[i].marketId == ys[j].marketId {
        assert ys[i] in multiset(xs) && ys[j] in multiset(xs);
        var m :| 0 <= m < |xs| && xs[m] == ys[i];
        var n :| 0 <= n < |xs| && xs[n] == ys[j];
        assert m == n;
        Twice(ys, i, j);
        OnceAtMost(xs, ys[i]);
      }
    }
  }

  lemma Twice(ys: seq<MarketSummary>, i: nat, j: nat)
    requires i < j < |ys| && ys[i] == ys[j]
    ensures multiset(ys)[ys[i]] >= 2
  {
    assert ys == ys[..i] + [ys[i]] + ys[i + 1..j] + [ys[j]] + ys[j + 1..];
  }

  lemma {:induction false} OnceAtMost(xs: seq<MarketSummary>, x: MarketSummary)
    requires DistinctIds(xs)
    ensures multiset(xs)[x] <= 1
  {
    if xs != [] {
      var init, last := xs[..|xs| - 1], xs[|xs| - 1];
      OnceAtMost(init, x);
      assert xs == init + [last];
      if x == last { assert x !in init; }
    }
  }

  /** The order of two results, from the fields of the markets: missing money is zero, a missing end is the last second
      there is and a missing creation the first, and further ties fall to the lower-cased question. */
  predicate MayPrecede(sort: SortOrder, a: MarketSummary, b: MarketSummary) {
    var liquidityA := if a.liquidityUsd.None? then 0.0 else a.liquidityUsd.value;
    var liquidityB := if b.liquidityUsd.None? then 0.0 else b.liquidityUsd.value;
    var volumeA := if a.volumeUsd.None? then 0.0 else a.volumeUsd.value;
    var volumeB := if b.volumeUsd.None? then 0.0 else b.volumeUsd.value;
    var endA := if a.endTime.None? then 253402300799 else a.endTime.value;
    var endB := if b.endTime.None? then 253402300799 else b.endTime.value;
    var createdA := if a.createdAt.None? then -62135596800 else a.createdAt.value;
    var createdB := if b.createdAt.None? then -62135596800 else b.createdAt.value;
    var textA, textB := Policies.Lower(a.question), Policies.Lower(b.question);
    match sort
    case LiquidityDesc =>
      || liquidityA > liquidityB
      || (liquidityA == liquidityB && (volumeA > volumeB || (volumeA == volumeB && TextLe(textB, textA))))
    case VolumeDesc =>
      || volumeA > volumeB
      || (volumeA == volumeB && (liquidityA > liquidityB || (liquidityA == liquidityB && TextLe(textB, textA))))
    case EndingSoon =>
      || endA < endB
      || (endA == endB && (liquidityA > liquidityB || (liquidityA == liquidityB && TextLe(textA, textB))))
    case Newest => createdA > createdB || (createdA == createdB && TextLe(textB, textA))
    case Unsupported =>
      || liquidityA < liquidityB
      || (liquidityA == liquidityB && (volumeA < volumeB || (volumeA == volumeB && TextLe(textA, textB))))
  }

  lemma OrderOfEachSort(sort: SortOrder, a: MarketSummary, b: MarketSummary)
    ensures Order(sort)(a, b) <==> MayPrecede(sort, a, b)
  {
  }

  /** In the results every market may precede those after it, and markets that tie stand as in the catalog. */
  lemma ResultsAreInOrder(q: BrowseQuery, catalog: seq<MarketSummary>, i: nat, j: nat)
    requires i < j < |Results(q, catalog)|
    ensures var a, b := Results(q, catalog)[i], Results(q, catalog)[j];
      && MayPrecede(q.sort, a, b)
      && (MayPrecede(q.sort, b, a) ==>
            exists m, n :: 0 <= m < n < |catalog| && FirstAt(catalog, m, a) && FirstAt(catalog, n, b))
  {
    var results, le, kept := Results(q, catalog), Order(q.sort), Filtered(q, FirstOccurrences(catalog));
    var a, b := results[i], results[j];
    OrderIsTotalPreorder(q.sort);
    SortIsStable(kept, le);
    OrderOfEachSort(q.sort, a, b);
    OrderOfEachSort(q.sort, b, a);
    if MayPrecede(q.sort, b, a) {
      TiesBefore(results, a, le, a, b);
      assert Ties(results, a, le) == Ties(kept, a, le);
      TiesBefore(kept, a, le, a, b);
      FilteredBefore(q, FirstOccurrences(catalog), a, b);
      var m, n := FirstBefore(catalog, a, b);
    }
  }

  /** One element stands somewhere before another. */
  predicate Before(xs: seq<MarketSummary>, a: MarketSummary, b: MarketSummary) {
    exists m, n :: 0 <= m < n < |xs| && xs[m] == a && xs[n] == b
  }

  lemma BeforeCons(x: MarketSummary, rest: seq<MarketSummary>, a: MarketSummary, b: MarketSummary)
    ensures Before([x] + rest, a, b) <==> Before(rest, a, b) || (x == a && b in rest)
  {
    var xs := [x] + rest;
    if m, n :| 0 <= m < n < |rest| && rest[m] == a && rest[n] == b { assert xs[m + 1] == a && xs[n + 1] == b; }
    if x == a && b in rest {
      var n :| 0 <= n < |rest| && rest[n] == b;
      assert xs[0] == a && xs[n + 1] == b;
    }
    if m, n :| 0 <= m < n < |xs| && xs[m] == a && xs[n] == b {
      assert rest[n - 1] == b;
      if m > 0 { assert rest[m - 1] == a; }
    }
  }

  lemma BeforeAppend(init: seq<MarketSummary>, last: MarketSummary, a: MarketSummary, b: MarketSummary)
    ensures Before(init + [last], a, b) <==> Before(init, a, b) || (a in init && b == last)
  {
    var xs := init + [last];
    if m, n :| 0 <= m < n < |init| && init[m] == a && init[n] == b { assert xs[m] == a && xs[n] == b; }
    if a in init && b == last {
      var m :| 0 <= m < |init| && init[m] == a;
      assert xs[m] == a && xs[|init|] == b;
    }
    if m, n :| 0 <= m < n < |xs| && xs[m] == a && xs[n] == b {
      assert init[m] == a;
      if n < |init| { assert init[n] == b; }
    }
  }

  lemma {:induction false} TiesBefore(xs: seq<MarketSummary>, pivot: MarketSummary,
                                      le: (MarketSummary, MarketSummary) -> bool, a: MarketSummary, b: MarketSummary)
    requires le(a, pivot) && le(pivot, a) && le(b, pivot) && le(pivot, b)
    ensures Before(Ties(xs, pivot, le), a, b) <==> Before(xs, a, b)
    ensures b in Ties(xs, pivot, le) <==> b in xs
  {
    if xs != [] {
      var x, rest := xs[0], xs[1..];
      assert xs == [x] + rest;
      TiesBefore(rest, pivot, le, a, b);
      BeforeCons(x, rest, a, b);
      if le(x, pivot) && le(pivot, x) {
        BeforeCons(x, Ties(rest, pivot, le), a, b);
      } else {
        assert Ties(xs, pivot, le) == Ties(rest, pivot, le);
      }
    }
  }

  lemma {:induction false} FilteredBefore(q: BrowseQuery, items: seq<MarketSummary>, a: MarketSummary,
                                          b: MarketSummary)
    ensures Before(Filtered(q, items), a, b) ==> Before(items, a, b)
    ensures a in Filtered(q, items) ==> a in items
  {
    if items != [] {
      var init, last := items[..|items| - 1], items[|items| - 1];
      assert items == init + [last];
      FilteredBefore(q, init, a, b);
      BeforeAppend(init, last, a, b);
      BeforeAppend(Filtered(q, init), last, a, b);
    }
  }

  lemma {:induction false} FirstBefore(items: seq<MarketSummary>, a: MarketSummary, b: MarketSummary)
    returns (m: nat, n: nat)
    requires Before(FirstOccurrences(items), a, b)
    ensures m < n < |items| && FirstAt(items, m, a) && FirstAt(items, n, b)
  {
    var init, last := items[..|items| - 1], items[|items| - 1];
    BeforeAppend(FirstOccurrences(init), last, a, b);
    if Before(FirstOccurrences(init), a, b) {
      m, n := FirstBefore(init, a, b);
    } else {
      m := FirstPlace(init, a);
      n := |init|;
      assert forall j :: 0 <= j < n ==> items[j] == init[j];
    }
  }

  // ---- Paging -----------------------------------------------------------------------------------------------------

  function Page(q: BrowseQuery, results: seq<MarketSummary>, page: int): seq<MarketSummary> {
    PageOf(q.(page := page), results)
  }

  /** Pages 1 to `n`, one after the other. */
  function Pages(q: BrowseQuery, results: seq<MarketSummary>, n: nat): seq<MarketSummary> {
    if n == 0 then [] else Pages(q, results, n - 1) + Page(q, results, n)
  }

  lemma PageAppends(results: seq<MarketSummary>, first: nat, size: nat)
    ensures results[..MinInt(|results|, first)] + PageFrom(results, first, size)
      == results[..MinInt(|results|, first + size)]
  {
  }

  lemma PageBeyond(results: seq<MarketSummary>, first: nat, size: int)
    requires |results| <= first && size > 0
    ensures PageFrom(results, first, size) == []
  {
  }

  lemma PageFull(results: seq<MarketSummary>, first: nat, size: nat)
    requires first + size <= |results|
    ensures |PageFrom(results, first, size)| == size
  {
  }

  lemma FirstOf(page: int, size: int)
    requires size > 0
    ensures page * size == (page - 1) * size + size
    ensures page <= 1 ==> (page - 1) * size <= 0
    ensures page >= 1 ==> 0 <= (page - 1) * size
  {
    if page <= 1 { TimesMonotone(page - 1, 0, size); } else { TimesMonotone(0, page - 1, size); }
  }

  lemma {:induction false} PagesArePrefix(q: BrowseQuery, results: seq<MarketSummary>, n: nat)
    requires q.pageSize > 0
    ensures 0 <= n * q.pageSize
    ensures Pages(q, results, n) == results[..MinInt(|results|, n * q.pageSize)]
  {
    if n > 0 {
      PagesArePrefix(q, results, n - 1);
      FirstOf(n, q.pageSize);
      PageAppends(results, (n - 1) * q.pageSize, q.pageSize);
    }
  }

  lemma PagesCover(total: nat, size: int)
    requires size > 0
    ensures var pages := MaxInt(1, (total + size - 1) / size);
      total <= pages * size && (pages > 1 ==> (pages - 1) * size < total)
  {
    var x := total + size - 1;
    assert x == x / size * size + x % size;
  }

  /** With a positive page size, the pages from 1 to the total number of pages concatenate to exactly the results. */
  lemma PagesConcatenate(q: BrowseQuery, results: seq<MarketSummary>)
    requires q.pageSize > 0
    ensures Pages(q, results, BrowseResult([], |results|, q.pageSize).TotalPages()) == results
  {
    PagesCover(|results|, q.pageSize);
    EnoughPages(q, results, BrowseResult([], |results|, q.pageSize).TotalPages());
  }

  lemma EnoughPages(q: BrowseQuery, results: seq<MarketSummary>, pages: nat)
    requires q.pageSize > 0 && |results| <= pages * q.pageSize
    ensures Pages(q, results, pages) == results
  {
    PagesArePrefix(q, results, pages);
    assert results[..|results|] == results;
  }

  /** Without one there is a single page, and it drops results: all of them, or as many as the size is below zero. */
  lemma SinglePageDrops(q: BrowseQuery, results: seq<MarketSummary>)
    requires q.pageSize <= 0
    ensures BrowseResult([], |results|, q.pageSize).TotalPages() == 1
    ensures Pages(q, results, 1) == (if q.pageSize == 0 then [] else results[..MaxInt(0, |results| + q.pageSize)])
  {
    assert 0 * q.pageSize == 0;
    assert Pages(q, results, 1) == [] + PageFrom(results, 0, q.pageSize);
  }

  /** For a fixed catalog and query, exactly when the pages from 1 to the total number of pages concatenate to the
      results: whenever the page size is positive, and else only if there are none. */
  lemma PagesPartitionResults(q: BrowseQuery, results: seq<MarketSummary>)
    ensures var pages := BrowseResult([], |results|, q.pageSize).TotalPages();
      pages >= 1 && (Pages(q, results, pages) == results <==> q.pageSize > 0 || results == [])
  {
    if q.pageSize > 0 {
      PagesConcatenate(q, results);
    } else {
      SinglePageDrops(q, results);
    }
  }

  /** Every page after the last is empty, every page number below one gives the first page, and no page before the last
      is short. */
  lemma PagesOutsideAndInside(q: BrowseQuery, results: seq<MarketSummary>, page: int)
    requires q.pageSize > 0
    ensures var pages := BrowseResult([], |results|, q.pageSize).TotalPages();
      && (page > pages ==> Page(q, results, page) == [])
      && (page < 1 ==> Page(q, results, page) == Page(q, results, 1))
      && (1 <= page < pages ==> |Page(q, results, page)| == q.pageSize)
  {
    var size, pages := q.pageSize, BrowseResult([], |results|, q.pageSize).TotalPages();
    PagesCover(|results|, size);
    FirstOf(page, size);
    if page > pages {
      TimesMonotone(pages, page - 1, size);
      PageBeyond(results, (page - 1) * size, size);
    } else if 1 <= page < pages {
      TimesMonotone(page, pages - 1, size);
      PageFull(results, (page - 1) * size, size);
    } else if page < 1 {
      assert Page(q, results, 1) == PageFrom(results, 0, size) by { FirstOf(1, size); }
    }
  }

  lemma TimesMonotone(a: int, b: int, c: int)
    requires a <= b && c > 0
    ensures a * c <= b * c
  {
  }
}
