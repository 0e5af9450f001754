/** The pipeline of `assemble_context` after scoring: exclusion, deduplication, ranking, allocation. */
module Assembly {
  import opened Wrappers
  import opened ContextModel
  import opened Strings
  import opened Sorting
  import opened Deduplication
  import opened BudgetAllocation
  import opened BudgetLaws

  // ---------------------------------------------------------------- the ranking

  function SourceOrder(t: SourceType): nat {
    match t
    case TaskObjective => 1
    case ExplicitReference => 2
    case Architecture => 3
    case ProjectMap => 4
    case CurrentState => 5
    case Decision => 6
    case Report => 7
    case TaskMemory => 8
    case RepositoryFile => 9
    case ArtifactMetadata => 10
    case RecentEvents => 11
    case Issue => 12
  }

  /** `round(x, 4)` in ten-thousandths: to the nearest, ties to the even neighbour. */
  function Round4(x: real): int {
    var y := x * 10000.0;
    var f := y.Floor;
    var d := y - f as real;
    if d < 0.5 || (d == 0.5 && f % 2 == 0) then f else f + 1
  }

  /** The four parts of the sort key, compared in turn. */
  predicate RankedBefore(a: Item, b: Item) {
    if a.required != b.required then a.required
    else if Round4(a.score) != Round4(b.score) then Round4(a.score) > Round4(b.score)
    else if SourceOrder(a.source) != SourceOrder(b.source) then SourceOrder(a.source) < SourceOrder(b.source)
    else StringLeq(a.id, b.id)
  }

  /** Rounding is to the nearest ten-thousandth, and to the even one of two. */
  lemma {:induction false} RoundsToNearest(x: real)
    ensures var d := 10000.0 * x - Round4(x) as real;
      -0.5 <= d <= 0.5 && (d == 0.5 || d == -0.5 ==> Round4(x) % 2 == 0)
  {}

  /** The source types in the order in which they are presented. */
  const SOURCES := [
    TaskObjective, ExplicitReference, Architecture, ProjectMap, CurrentState, Decision,
    Report, TaskMemory, RepositoryFile, ArtifactMetadata, RecentEvents, Issue]

  /** What it means for `a` to stand before `b`, part by part. */
  ghost predicate StandsBefore(a: Item, b: Item) {
    && (b.required ==> a.required)
    && (a.required == b.required ==> Round4(a.score) >= Round4(b.score))
    && (a.required == b.required && Round4(a.score) == Round4(b.score) ==>
          exists p, q :: 0 <= p <= q < |SOURCES| && SOURCES[p] == a.source && SOURCES[q] == b.source)
    && (a.required == b.required && Round4(a.score) == Round4(b.score) && a.source == b.source ==>
          StringLeq(a.id, b.id))
  }

  /** Mandatory items first, then by descending score, then by source type, then by ascending id. */
  ghost predicate InRankOrder(items: seq<Item>) {
    forall i, j :: 0 <= i < j < |items| ==> StandsBefore(items[i], items[j])
  }

  lemma {:induction false} SourceAt(t: SourceType)
    ensures |SOURCES| == 12 && 1 <= SourceOrder(t) <= 12 && SOURCES[SourceOrder(t) - 1] == t
  {}

  lemma {:induction false} RankedStandsBefore(a: Item, b: Item)
    requires RankedBefore(a, b)
    ensures StandsBefore(a, b)
  {
    hide SourceOrder, Round4, StringLeq;
    SourceAt(a.source);
    SourceAt(b.source);
    if a.required == b.required && Round4(a.score) == Round4(b.score) {
      assert SOURCES[SourceOrder(a.source) - 1] == a.source && SOURCES[SourceOrder(b.source) - 1] == b.source;
    }
  }

  /** A list made of some items of an ordered one, in their order and perhaps cut, is ordered too. */
  lemma {:induction false} SelectionInRankOrder(xs: seq<Item>, from: seq<Item>)
    requires InOrder(xs, from) && InRankOrder(from)
    ensures InRankOrder(xs)
    ensures forall x :: x in xs ==> exists it :: it in from && SameRank(x, it)
    decreases |from|
  {
    hide StandsBefore, Truncate;
    if xs != [] {
      assert from == [from[0]] + from[1..];
      if InOrder(xs, from[1..]) {
        SelectionInRankOrder(xs, from[1..]);
      } else {
        SelectionInRankOrder(xs[1..], from[1..]);
        CutKeepsRank(xs[0], from[0]);
        assert xs == [xs[0]] + xs[1..];
        forall j | 1 <= j < |xs| ensures StandsBefore(xs[0], xs[j]) {
          assert xs[j] in xs[1..];
          var it :| it in from[1..] && SameRank(xs[j], it);
          var k :| 0 <= k < |from[1..]| && from[1..][k] == it;
          assert StandsBefore(from[0], from[k + 1]);
          SameRankStands(from[0], it, xs[0], xs[j]);
        }
      }
    }
  }

  predicate SameRank(a: Item, b: Item) {
    a.required == b.required && a.score == b.score && a.source == b.source && a.id == b.id
  }

  lemma {:induction false} CutKeepsRank(x: Item, it: Item)
    ensures x == it || IsCutOf(x, it) ==> SameRank(x, it)
  {}

  lemma {:induction false} SameRankStands(a: Item, b: Item, a': Item, b': Item)
    requires StandsBefore(a, b) && SameRank(a', a) && SameRank(b', b)
    ensures StandsBefore(a', b')
  {}

  function SortItems(items: seq<Item>): seq<Item> { Sort(items, RankedBefore) }

  lemma {:induction false} RankingIsTotal()
    ensures TotalPreorder(RankedBefore)
  {
    forall x: Item, y: Item ensures RankedBefore(x, y) || RankedBefore(y, x) {
      StringLeqTotal(x.id, y.id);
    }
    forall x: Item, y: Item, z: Item | RankedBefore(x, y) && RankedBefore(y, z) ensures RankedBefore(x, z) {
      if StringLeq(x.id, y.id) && StringLeq(y.id, z.id) {
        StringLeqTransitive(x.id, y.id, z.id);
      }
    }
  }

  ghost predicate DistinctIds(items: seq<Item>) {
    forall i, j :: 0 <= i < j < |items| ==> items[i].id != items[j].id
  }

  lemma {:induction false} IdsSeparate(items: seq<Item>)
    requires DistinctIds(items)
    ensures Separates(RankedBefore, multiset(items))
  {
    forall x, y | x in multiset(items) && y in multiset(items) && RankedBefore(x, y) && RankedBefore(y, x)
      ensures x == y
    {
      StringLeqAntisymmetric(x.id, y.id);
      var i :| 0 <= i < |items| && items[i] == x;
      var j :| 0 <= j < |items| && items[j] == y;
      assert i == j;
    }
  }

  /** In ranked order the mandatory items precede the others, so allocation keeps the ranked order. */
  lemma {:induction false} RequiredComeFirst(items: seq<Item>)
    requires SortedBy(items, RankedBefore)
    ensures items == Required(items, true) + Required(items, false)
    decreases |items|
  {
    hide Required, RankedBefore;
    if items == [] {
      RequiredOfNothing(items);
    } else {
      var rest := items[1..];
      RequiredComeFirst(rest);
      if items[0].required {
        assert items == [items[0]] + rest;
        assert [items[0]] + (Required(rest, true) + Required(rest, false))
            == ([items[0]] + Required(rest, true)) + Required(rest, false);
        RequiredOfFirst(items);
      } else {
        NoneRequired(items);
      }
    }
  }

  lemma {:induction false} RequiredOfNothing(items: seq<Item>)
    requires items == []
    ensures Required(items, true) == [] && Required(items, false) == []
  {}

  lemma {:induction false} RequiredOfFirst(items: seq<Item>)
    requires items != [] && items[0].required
    ensures Required(items, true) == [items[0]] + Required(items[1..], true)
    ensures Required(items, false) == Required(items[1..], false)
  {}

  lemma {:induction false} NoneRequired(items: seq<Item>)
    requires SortedBy(items, RankedBefore) && items != [] && !items[0].required
    ensures Required(items, true) == [] && Required(items, false) == items
    decreases |items|
  {
    var rest := items[1..];
    assert items == [items[0]] + rest;
    if rest != [] {
      assert RankedBefore(items[0], items[1]);
      NoneRequired(rest);
    }
  }

  // ---------------------------------------------------------------- the composition

  function NotExcluded(items: seq<Item>, excluded: set<SourceType>): seq<Item> {
    if items == [] then []
    else (if items[0].source in excluded then [] else [items[0]]) + NotExcluded(items[1..], excluded)
  }

  function Ranked(items: seq<Item>, excluded: set<SourceType>): seq<Item> {
    SortItems(Dedup(NotExcluded(items, excluded)).kept)
  }

  function Assemble(items: seq<Item>, excluded: set<SourceType>, b: Budget): Packing {
    Allocate(Ranked(items, excluded), b)
  }

  function Multiplicity(items: seq<Item>, excluded: set<SourceType>, it: Item): nat {
    if it.source in excluded then 0 else multiset(items)[it]
  }

  lemma {:induction false} NotExcludedElements(items: seq<Item>, excluded: set<SourceType>)
    ensures forall it :: multiset(NotExcluded(items, excluded))[it] == Multiplicity(items, excluded, it)
    decreases |items|
  {
    if items != [] {
      NotExcludedElements(items[1..], excluded);
      assert items == [items[0]] + items[1..];
    }
  }

  lemma {:induction false} NotExcludedInOrder(items: seq<Item>, excluded: set<SourceType>)
    ensures InOrder(NotExcluded(items, excluded), items)
    decreases |items|
  {
    hide IsCutOf;
    if items != [] {
      NotExcludedInOrder(items[1..], excluded);
      var rest := NotExcluded(items[1..], excluded);
      if items[0].source !in excluded {
        assert NotExcluded(items, excluded) == [items[0]] + rest && ([items[0]] + rest)[1..] == rest;
      } else {
        assert NotExcluded(items, excluded) == rest;
      }
    }
  }

  lemma {:induction false} OnceEach<T>(xs: seq<T>)
    requires forall i, j :: 0 <= i < j < |xs| ==> xs[i] != xs[j]
    ensures forall x :: multiset(xs)[x] <= 1
    decreases |xs|
  {
    if xs != [] {
      OnceEach(xs[1..]);
      assert xs == [xs[0]] + xs[1..];
      assert xs[0] !in xs[1..];
      assert xs[0] !in multiset(xs[1..]);
    }
  }

  lemma {:induction false} TwiceThere<T>(xs: seq<T>, i: nat, j: nat)
    requires i < j < |xs| && xs[i] == xs[j]
    ensures multiset(xs)[xs[i]] >= 2
  {
    assert xs == xs[..i] + [xs[i]] + xs[i + 1..j] + [xs[j]] + xs[j + 1..];
  }

  /** `f` tells the elements of the list apart. */
  ghost predicate Distinct<T>(items: seq<Item>, f: Item -> T) {
    forall i, j :: 0 <= i < j < |items| ==> f(items[i]) != f(items[j])
  }

  /** So it does for every list made of the same elements, or of fewer. */
  lemma {:induction false} Inherits<T>(items: seq<Item>, r: seq<Item>, f: Item -> T)
    requires multiset(r) <= multiset(items) && Distinct(items, f)
    ensures Distinct(r, f)
  {
    OnceEach(items);
    forall i, j | 0 <= i < j < |r| ensures f(r[i]) != f(r[j]) {
      assert r[i] in multiset(r) && r[j] in multiset(r);
      assert r[i] in multiset(items) && r[j] in multiset(items);
      if r[i] == r[j] {
        TwiceThere(r, i, j);
      } else {
        var k :| 0 <= k < |items| && items[k] == r[i];
        var l :| 0 <= l < |items| && items[l] == r[j];
        assert k != l;
      }
    }
  }

  /** Candidates that differ in source, text and id come out of deduplication as they went in. */
  ghost predicate AllDifferent(items: seq<Item>) {
    && DistinctKeys(items) && DistinctIds(items)
    && Distinct(items, (it: Item) => it.checksum)
  }

  lemma {:induction false} DifferentAfterExclusion(items: seq<Item>, excluded: set<SourceType>)
    requires AllDifferent(items)
    ensures AllDifferent(NotExcluded(items, excluded))
  {
    var r := NotExcluded(items, excluded);
    NotExcludedElements(items, excluded);
    Inherits(items, r, KeyOf);
    Inherits(items, r, (it: Item) => it.id);
    Inherits(items, r, (it: Item) => it.checksum);
    assert DistinctKeys(r) && DistinctIds(r);
  }

  lemma {:induction false} DifferentInAnyOrder(items: seq<Item>, items': seq<Item>)
    requires multiset(items) == multiset(items') && AllDifferent(items)
    ensures AllDifferent(items')
  {
    Inherits(items, items', KeyOf);
    Inherits(items, items', (it: Item) => it.id);
    Inherits(items, items', (it: Item) => it.checksum);
    assert DistinctKeys(items') && DistinctIds(items');
  }

  /** The order in which candidates are discovered has no influence on the package. */
  lemma {:induction false} AssemblyIsReproducible(
    items: seq<Item>, items': seq<Item>, excluded: set<SourceType>, b: Budget)
    requires multiset(items) == multiset(items') && AllDifferent(items)
    ensures Assemble(items, excluded, b) == Assemble(items', excluded, b)
  {
    var r, r' := NotExcluded(items, excluded), NotExcluded(items', excluded);
    DifferentInAnyOrder(items, items');
    DifferentAfterExclusion(items, excluded);
    DifferentAfterExclusion(items', excluded);
    UnchangedIffDistinct(r);
    UnchangedIffDistinct(r');
    NotExcludedElements(items, excluded);
    NotExcludedElements(items', excluded);
    assert multiset(r) == multiset(r');
    RankingIsTotal();
    IdsSeparate(r);
    SortIgnoresOrder(r, r', RankedBefore);
  }

  /** The package is taken from the ranked list in its order, mandatory items first and all of them. */
  lemma {:induction false} PackageFollowsRanking(items: seq<Item>, excluded: set<SourceType>, b: Budget)
    ensures var ranked := Ranked(items, excluded);
      && InRankOrder(ranked) && InRankOrder(Assemble(items, excluded, b).selected)
      && InOrder(Assemble(items, excluded, b).selected, ranked)
      && forall it :: it in ranked && it.required ==> it in Assemble(items, excluded, b).selected
  {
    hide Sort, Dedup, Allocate, InOrder, RankedBefore, Required, NotExcluded, StandsBefore;
    var ranked := Ranked(items, excluded);
    RankingIsTotal();
    SortSorts(Dedup(NotExcluded(items, excluded)).kept, RankedBefore);
    forall i, j | 0 <= i < j < |ranked| ensures StandsBefore(ranked[i], ranked[j]) {
      RankedStandsBefore(ranked[i], ranked[j]);
    }
    RequiredComeFirst(ranked);
    SelectionIsGreedy(ranked, b);
    var m, o := Required(ranked, true), Required(ranked, false);
    var selected := Assemble(items, excluded, b).selected;
    assert selected == m + selected[|m|..];
    InOrderAfter(m, selected[|m|..], o);
    RequiredAreGiven(ranked, false);
    assert forall it :: it in ranked ==> it in m || it in o;
    assert m + o == ranked;
    SelectionInRankOrder(selected, ranked);
  }

  /**
   The budget holds for whole packages: characters and item count are exceeded only by mandatory
   items, the tokens only by mandatory items or by a last item that was cut, and if the candidates'
   counts are those of their contents at most one item is cut.
   */
  lemma {:induction false} PackageRespectsBudget(items: seq<Item>, excluded: set<SourceType>, b: Budget)
    ensures var m, r := Mandatory(Ranked(items, excluded), b), Assemble(items, excluded, b);
      && SumChars(r.selected) <= Max(b.maxChars, SumChars(m.selected))
      && |r.selected| <= Max(b.maxItems, |m.selected|)
      && (SumTokens(r.selected) > Max(b.maxTokens, SumTokens(m.selected)) ==> LastIsCut(r, m, b))
      && (AllMeasured(items) ==> Cuts(r.warnings) <= 1)
  {
    hide Allocate, Mandatory, Sort, Dedup, LastIsCut, Measured;
    RankedWereGiven(items, excluded);
    AllocationBounds(Ranked(items, excluded), b);
  }

  lemma {:induction false} RankedWereGiven(items: seq<Item>, excluded: set<SourceType>)
    ensures forall it :: it in Ranked(items, excluded) ==> it in items
  {
    hide Sort, Dedup;
    var kept := Dedup(NotExcluded(items, excluded)).kept;
    KeptWasGiven(NotExcluded(items, excluded));
    NotExcludedElements(items, excluded);
    forall it | it in Ranked(items, excluded) ensures it in items {
      assert it in multiset(Ranked(items, excluded)) && it in multiset(kept);
      assert it in NotExcluded(items, excluded);
      assert it in multiset(NotExcluded(items, excluded));
      assert it in multiset(items) && it in items;
    }
  }

  /**
   A package exceeds its token limit if and only if its mandatory items do or an item met in ranked
   order is cut to a text too dense for what is left; never, if the limit is generous enough for the
   other two and the mandatory items respect those.
   */
  lemma {:induction false} PackageOverflowsIff(items: seq<Item>, excluded: set<SourceType>, b: Budget)
    ensures var ranked := Ranked(items, excluded);
      var m := Mandatory(ranked, b);
      SumTokens(Assemble(items, excluded, b).selected) > b.maxTokens
      <==> SumTokens(m.selected) > b.maxTokens || MeetsTooDense(m, Required(ranked, false), b)
    ensures var m := Mandatory(Ranked(items, excluded), b);
      && AllMeasured(items) && 20 * b.maxTokens >= 13 * b.maxChars + 31 * b.maxItems
      && SumChars(m.selected) <= b.maxChars && |m.selected| <= b.maxItems
      ==> SumTokens(Assemble(items, excluded, b).selected) <= b.maxTokens
  {
    hide Allocate, Mandatory, Sort, Dedup, Measured, MeetsTooDense, Required;
    var ranked := Ranked(items, excluded);
    AllocationOverflowsIff(ranked, b);
    var m := Mandatory(ranked, b);
    if && AllMeasured(items) && 20 * b.maxTokens >= 13 * b.maxChars + 31 * b.maxItems
       && SumChars(m.selected) <= b.maxChars && |m.selected| <= b.maxItems {
      RankedWereGiven(items, excluded);
      TokensSafe(ranked, b);
    }
  }

  lemma {:induction false} InOrderAfter(prefix: seq<Item>, xs: seq<Item>, from: seq<Item>)
    requires InOrder(xs, from)
    ensures InOrder(prefix + xs, prefix + from)
    decreases |prefix|
  {
    if prefix == [] {
      assert prefix + xs == xs && prefix + from == from;
    } else {
      InOrderAfter(prefix[1..], xs, from);
      assert (prefix + xs)[1..] == prefix[1..] + xs && (prefix + from)[1..] == prefix[1..] + from;
      assert (prefix + xs)[0] == (prefix + from)[0];
    }
  }

  // ---------------------------------------------------------------- on the item objects

  function NotExcludedObjects(items: seq<ContextItem>, excluded: set<SourceType>): seq<ContextItem> {
    if items == [] then []
    else (if items[0].source in excluded then [] else [items[0]]) + NotExcludedObjects(items[1..], excluded)
  }

  /** `RankedBefore` on objects; none of the fields of the key is ever overwritten. */
  predicate RankedBeforeObject(a: ContextItem, b: ContextItem) {
    if a.required != b.required then a.required
    else if Round4(a.score) != Round4(b.score) then Round4(a.score) > Round4(b.score)
    else if SourceOrder(a.source) != SourceOrder(b.source) then SourceOrder(a.source) < SourceOrder(b.source)
    else StringLeq(a.id, b.id)
  }

  lemma {:induction false} ValuesCons(x: ContextItem, xs: seq<ContextItem>)
    ensures Values([x] + xs) == [x.Value()] + Values(xs)
  {
    assert ([x] + xs)[1..] == xs;
  }

  lemma {:induction false} ValuesTail(xs: seq<ContextItem>)
    requires xs != []
    ensures Values(xs)[1..] == Values(xs[1..])
  {}

  lemma {:induction false} InsertValues(x: ContextItem, xs: seq<ContextItem>)
    ensures Values(Insert(x, xs, RankedBeforeObject)) == Insert(x.Value(), Values(xs), RankedBefore)
    decreases |xs|
  {
    hide Values, Round4, SourceOrder, StringLeq;
    if xs == [] || RankedBeforeObject(x, xs[0]) {
      ValuesCons(x, xs);
    } else {
      InsertValues(x, xs[1..]);
      ValuesCons(xs[0], Insert(x, xs[1..], RankedBeforeObject));
      ValuesTail(xs);
    }
  }

  lemma {:induction false} SortValues(xs: seq<ContextItem>)
    ensures Values(Sort(xs, RankedBeforeObject)) == SortItems(Values(xs))
    decreases |xs|
  {
    if xs != [] {
      SortValues(xs[1..]);
      InsertValues(xs[0], Sort(xs[1..], RankedBeforeObject));
      assert Values(xs)[1..] == Values(xs[1..]);
    }
  }

  lemma {:induction false} NotExcludedValues(items: seq<ContextItem>, excluded: set<SourceType>)
    ensures Values(NotExcludedObjects(items, excluded)) == NotExcluded(Values(items), excluded)
    ensures forall x :: x in NotExcludedObjects(items, excluded) ==> x in items
    decreases |items|
  {
    if items != [] {
      var rest := NotExcludedObjects(items[1..], excluded);
      NotExcludedValues(items[1..], excluded);
      ValuesCons(items[0], rest);
      assert Values(items)[1..] == Values(items[1..]);
    }
  }

  lemma {:induction false} SortKeepsObjectsApart(xs: seq<ContextItem>)
    requires forall i, j :: 0 <= i < j < |xs| ==> xs[i] != xs[j]
    ensures var r := Sort(xs, RankedBeforeObject);
      && (forall x :: x in r <==> x in xs)
      && forall i, j :: 0 <= i < j < |r| ==> r[i] != r[j]
  {
    var r := Sort(xs, RankedBeforeObject);
    assert multiset(r) == multiset(xs);
    OnceEach(xs);
    forall x ensures x in r <==> x in xs {
      assert x in r <==> x in multiset(r);
      assert x in xs <==> x in multiset(xs);
    }
    forall i, j | 0 <= i < j < |r| ensures r[i] != r[j] {
      if r[i] == r[j] {
        TwiceThere(r, i, j);
      }
    }
  }

  /** The package and its totals; only candidates that were cut are changed. */
  method AssembleContext(items: seq<ContextItem>, excluded: set<SourceType>, budget: Budget)
    returns (selected: seq<ContextItem>, warnings: seq<Warning>)
    modifies items
    ensures Values(selected) == Assemble(old(Values(items)), excluded, budget).selected
    ensures InRankOrder(Values(selected))
    ensures var candidates := NotExcluded(old(Values(items)), excluded);
      warnings == Dedup(candidates).warnings + Allocate(SortItems(Dedup(candidates).kept), budget).warnings
    ensures forall x :: x in items && x !in selected ==> x.Value() == old(x.Value())
  {
    hide Values, Sort, Allocate, Dedup, NotExcluded, NotExcludedObjects, RankedBefore, RankedBeforeObject,
      InRankOrder, InOrder;
    ghost var candidates := NotExcluded(Values(items), excluded);
    var scored := NotExcludedObjects(items, excluded);
    NotExcludedValues(items, excluded);
    assert Values(scored) == candidates;
    assert forall x :: x in scored ==> x in items;
    var deduped, dedupWarnings := Deduplicate(scored);
    var sorted := Sort(deduped, RankedBeforeObject);
    SortValues(deduped);
    SortKeepsObjectsApart(deduped);
    assert Values(sorted) == SortItems(Dedup(candidates).kept);
    assert forall i :: 0 <= i < |sorted| ==> sorted[i] in items;
    var budgetWarnings;
    selected, budgetWarnings := AllocateBudget(sorted, budget);
    warnings := dedupWarnings + budgetWarnings;
    PackageFollowsRanking(old(Values(items)), excluded, budget);
  }
}
