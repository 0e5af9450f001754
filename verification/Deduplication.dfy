/** Removal of duplicate candidates: by source, keeping the better scored one, and by content. */
module Deduplication {
  import opened ContextModel

  /** The four collections the loop fills. */
  datatype State = State(
    kept: seq<Item>, byKey: map<Key, Item>, byChecksum: map<string, Item>, warnings: seq<Warning>)

  const EMPTY := State([], map[], map[], [])

  /** `list.remove`: the first element equal to `x` goes. */
  function RemoveFirst<T(==)>(xs: seq<T>, x: T): seq<T> {
    if xs == [] then []
    else if xs[0] == x then xs[1..]
    else [xs[0]] + RemoveFirst(xs[1..], x)
  }

  function Step(s: State, it: Item): State {
    var k := KeyOf(it);
    var warned := s.warnings + [Warning(DuplicateRemoved, it.id)];
    if k in s.byKey then
      if it.score > s.byKey[k].score then
        s.(kept := RemoveFirst(s.kept, s.byKey[k]) + [it], byKey := s.byKey[k := it], warnings := warned)
      else
        s.(warnings := warned)
    else if it.checksum != "" && it.checksum in s.byChecksum then
      s.(warnings := warned)
    else
      State(s.kept + [it], s.byKey[k := it],
            if it.checksum != "" then s.byChecksum[it.checksum := it] else s.byChecksum, s.warnings)
  }

  function Dedup(items: seq<Item>): State {
    if items == [] then EMPTY else Step(Dedup(items[..|items| - 1]), items[|items| - 1])
  }

  ghost predicate DistinctKeys(items: seq<Item>) {
    forall i, j :: 0 <= i < j < |items| ==> KeyOf(items[i]) != KeyOf(items[j])
  }

  ghost predicate DistinctChecksums(items: seq<Item>) {
    forall i, j :: 0 <= i < j < |items| && items[i].checksum != "" ==> items[i].checksum != items[j].checksum
  }

  // ---------------------------------------------------------------- the loop

  method Deduplicate(items: seq<ContextItem>) returns (deduped: seq<ContextItem>, warnings: seq<Warning>)
    ensures Values(deduped) == Dedup(Values(items)).kept
    ensures warnings == Dedup(Values(items)).warnings
    ensures forall x :: x in deduped ==> x in items
    ensures forall i, j :: 0 <= i < j < |deduped| ==> deduped[i] != deduped[j]
  {
    hide Dedup, RemoveFirst, Values;
    deduped, warnings := [], [];
    var seenKeys: map<Key, ContextItem> := map[];
    var seenChecksums: map<string, ContextItem> := map[];
    ghost var vs := Values(items);
    ghost var s := EMPTY;
    DedupOfNothing(vs[..0]);
    ValuesOfNothing();
    for i := 0 to |items|
      invariant s == Dedup(vs[..i])
      invariant Values(deduped) == s.kept && warnings == s.warnings
      invariant seenKeys.Keys == s.byKey.Keys
      invariant forall k :: k in seenKeys ==> seenKeys[k].Value() == s.byKey[k]
      invariant seenChecksums.Keys == s.byChecksum.Keys
      invariant forall x :: x in deduped ==> x in items
    {
      var item := items[i];
      StepAt(vs, i);
      s := Step(s, vs[i]);
      var key := Key(item.source, item.sourceId);
      if key in seenKeys {
        var existing := seenKeys[key];
        warnings := warnings + [Warning(DuplicateRemoved, item.id)];
        if item.score > existing.score {
          deduped := RemoveEqual(deduped, existing);
          ValuesSnoc(deduped, item);
          deduped := deduped + [item];
          seenKeys := seenKeys[key := item];
        }
      } else if item.checksum != "" && item.checksum in seenChecksums {
        warnings := warnings + [Warning(DuplicateRemoved, item.id)];
      } else {
        seenKeys := seenKeys[key := item];
        if item.checksum != "" {
          seenChecksums := seenChecksums[item.checksum := item];
        }
        ValuesSnoc(deduped, item);
        deduped := deduped + [item];
      }
    }
    assert vs[..|items|] == vs;
    KeysAgree(vs);
    KeptObjectsDiffer(deduped);
  }

  lemma {:induction false} DedupOfNothing(vs: seq<Item>)
    requires vs == []
    ensures Dedup(vs) == EMPTY
  {}

  lemma {:induction false} ValuesOfNothing()
    ensures Values([]) == []
  {}

  lemma {:induction false} StepAt(vs: seq<Item>, i: nat)
    requires i < |vs|
    ensures Dedup(vs[..i + 1]) == Step(Dedup(vs[..i]), vs[i])
  {
    assert vs[..i + 1][..i] == vs[..i];
  }

  lemma {:induction false} ValuesSnoc(xs: seq<ContextItem>, x: ContextItem)
    ensures Values(xs + [x]) == Values(xs) + [x.Value()]
  {}

  lemma {:induction false} KeptObjectsDiffer(xs: seq<ContextItem>)
    requires DistinctKeys(Values(xs))
    ensures forall i, j :: 0 <= i < j < |xs| ==> xs[i] != xs[j]
  {
    hide Values;
    forall i, j | 0 <= i < j < |xs| ensures xs[i] != xs[j] {
      var vs := Values(xs);
      assert KeyOf(vs[i]) != KeyOf(vs[j]);
      assert vs[i] == xs[i].Value() && vs[j] == xs[j].Value();
    }
  }

  /** `deduped.remove(existing)` on item objects, which compare by value. */
  method RemoveEqual(xs: seq<ContextItem>, x: ContextItem) returns (r: seq<ContextItem>)
    ensures Values(r) == RemoveFirst(Values(xs), x.Value())
    ensures forall y :: y in r ==> y in xs
  {
    hide RemoveFirst, Values;
    var i := 0;
    ghost var vs, v := Values(xs), x.Value();
    while i < |xs| && !(xs[i].id == x.id && xs[i].source == x.source && xs[i].sourceId == x.sourceId
                        && xs[i].content == x.content && xs[i].required == x.required && xs[i].score == x.score
                        && xs[i].tokenEstimate == x.tokenEstimate && xs[i].characterCount == x.characterCount
                        && xs[i].checksum == x.checksum)
      invariant 0 <= i <= |xs|
      invariant forall j :: 0 <= j < i ==> vs[j] != v
    {
      assert vs[i] == xs[i].Value() != v;
      i := i + 1;
    }
    RemoveAt(vs, i, v);
    if i == |xs| {
      r := xs;
    } else {
      r := xs[..i] + xs[i + 1..];
      assert Values(r) == vs[..i] + vs[i + 1..];
    }
  }

  /** `remove` takes out the first occurrence, and nothing if there is none. */
  lemma {:induction false} RemoveAt<T>(xs: seq<T>, i: nat, x: T)
    requires i <= |xs| && (forall j :: 0 <= j < i ==> xs[j] != x) && (i < |xs| ==> xs[i] == x)
    ensures RemoveFirst(xs, x) == if i == |xs| then xs else xs[..i] + xs[i + 1..]
  {
    if i < |xs| {
      assert xs == xs[..i] + ([x] + xs[i + 1..]);
      RemoveAfter(xs[..i], [x] + xs[i + 1..], x);
    } else {
      assert xs == xs + [];
      RemoveAfter(xs, [], x);
    }
  }

  lemma {:induction false} RemoveAfter<T>(a: seq<T>, b: seq<T>, x: T)
    requires x !in a
    ensures RemoveFirst(a + b, x) == a + RemoveFirst(b, x)
    decreases |a|
  {
    if a == [] {
      assert a + b == b && [] + RemoveFirst(b, x) == RemoveFirst(b, x);
    } else {
      assert (a + b)[0] == a[0] && (a + b)[1..] == a[1..] + b;
      RemoveAfter(a[1..], b, x);
    }
  }

  lemma {:induction false} RemoveBefore<T>(a: seq<T>, b: seq<T>, x: T)
    requires x in a
    ensures RemoveFirst(a + b, x) == RemoveFirst(a, x) + b
    decreases |a|
  {
    assert (a + b)[0] == a[0] && (a + b)[1..] == a[1..] + b;
    if a[0] != x {
      RemoveBefore(a[1..], b, x);
    }
  }

  // ---------------------------------------------------------------- what one pass achieves

  ghost predicate KeysMatch(s: State) {
    && DistinctKeys(s.kept)
    && (forall i :: 0 <= i < |s.kept| ==> KeyOf(s.kept[i]) in s.byKey && s.byKey[KeyOf(s.kept[i])] == s.kept[i])
    && (forall k :: k in s.byKey ==> s.byKey[k] in s.kept && KeyOf(s.byKey[k]) == k)
  }

  /** On a list with distinct keys `remove` takes out the one element meant, and only that. */
  lemma {:induction false} RemoveExactly(xs: seq<Item>, x: Item)
    requires DistinctKeys(xs) && x in xs
    ensures var r := RemoveFirst(xs, x);
      && |r| == |xs| - 1 && DistinctKeys(r)
      && forall y :: y in r <==> y in xs && y != x
    decreases |xs|
  {
    if xs[0] != x {
      RemoveExactly(xs[1..], x);
      assert xs == [xs[0]] + xs[1..];
      var r := RemoveFirst(xs[1..], x);
      forall i | 0 <= i < |r| ensures KeyOf(xs[0]) != KeyOf(r[i]) {
        assert r[i] in xs[1..];
      }
      assert forall y :: y in [xs[0]] + r <==> y == xs[0] || y in r;
    } else {
      assert xs == [x] + xs[1..];
      assert forall y :: y in xs[1..] ==> KeyOf(y) != KeyOf(x);
    }
  }

  lemma {:induction false} StepKeepsKeysMatch(s: State, it: Item)
    requires KeysMatch(s)
    ensures KeysMatch(Step(s, it))
    ensures |Step(s, it).kept| + |Step(s, it).warnings| == |s.kept| + |s.warnings| + 1
  {
    var k := KeyOf(it);
    if k in s.byKey && it.score > s.byKey[k].score {
      var r := RemoveFirst(s.kept, s.byKey[k]);
      RemoveExactly(s.kept, s.byKey[k]);
      forall i | 0 <= i < |r| ensures KeyOf(r[i]) != k && KeyOf(r[i]) in s.byKey && s.byKey[KeyOf(r[i])] == r[i] {
        assert r[i] in s.kept;
      }
      forall q | q in s.byKey && q != k ensures s.byKey[q] in r {
        assert s.byKey[q] != s.byKey[k];
      }
    }
  }

  /** No two kept items have the same source, and each candidate is either kept or reported. */
  lemma {:induction false} KeysAgree(items: seq<Item>)
    ensures KeysMatch(Dedup(items)) && DistinctKeys(Dedup(items).kept)
    ensures |Dedup(items).kept| + |Dedup(items).warnings| == |items|
    decreases |items|
  {
    if items != [] {
      var n := |items| - 1;
      KeysAgree(items[..n]);
      StepKeepsKeysMatch(Dedup(items[..n]), items[n]);
    }
  }

  /** A kept item of the same source scores at least as much; `x` itself will do. */
  ghost predicate Covered(x: Item, kept: seq<Item>) {
    exists y :: y in kept && KeyOf(y) == KeyOf(x) && y.score >= x.score
  }

  ghost predicate RepeatsText(items: seq<Item>, i: nat)
    requires i < |items|
  {
    items[i].checksum != "" && exists j :: 0 <= j < i && items[j].checksum == items[i].checksum
  }

  ghost predicate ChecksumsSeen(items: seq<Item>, s: State) {
    forall c :: c in s.byChecksum ==> exists j :: 0 <= j < |items| && items[j].checksum == c
  }

  ghost predicate Accounted(items: seq<Item>, i: nat)
    requires i < |items|
  {
    Covered(items[i], Dedup(items).kept) || RepeatsText(items, i)
  }

  /** Nothing is lost without a reason: a better item of its source is kept, or its text came earlier. */
  lemma {:induction false} EveryItemAccounted(items: seq<Item>)
    ensures forall i :: 0 <= i < |items| ==> Accounted(items, i)
    decreases |items|
  {
    hide Accounted, Dedup;
    if items != [] {
      var before := items[..|items| - 1];
      EveryItemAccounted(before);
      forall i | 0 <= i < |items| ensures Accounted(items, i) {
        if i == |items| - 1 {
          LastAccounted(items);
        } else {
          assert Accounted(before, i);
          StillAccounted(items, i);
        }
      }
    }
  }

  lemma {:induction false} StillAccounted(items: seq<Item>, i: nat)
    requires i < |items| - 1 && Accounted(items[..|items| - 1], i)
    ensures Accounted(items, i)
  {
    hide Step;
    var before := items[..|items| - 1];
    if Covered(before[i], Dedup(before).kept) {
      KeysAgree(before);
      StillCovered(Dedup(before), items[|items| - 1], items[i]);
    } else {
      var j :| 0 <= j < i && before[j].checksum == before[i].checksum;
      assert items[j].checksum == items[i].checksum;
    }
  }

  /** What is kept, and the checksums that were seen, come from the candidates. */
  lemma {:induction false} KeptWasGiven(items: seq<Item>)
    ensures forall x :: x in Dedup(items).kept ==> x in items
    ensures ChecksumsSeen(items, Dedup(items))
    ensures "" !in Dedup(items).byChecksum
    decreases |items|
  {
    if items != [] {
      var n := |items| - 1;
      var before, it := items[..n], items[n];
      KeptWasGiven(before);
      KeysAgree(before);
      var s, s' := Dedup(before), Dedup(items);
      if KeyOf(it) in s.byKey && it.score > s.byKey[KeyOf(it)].score {
        RemoveExactly(s.kept, s.byKey[KeyOf(it)]);
      }
      forall c | c in s'.byChecksum ensures exists j :: 0 <= j < |items| && items[j].checksum == c {
        if c in s.byChecksum {
          var j :| 0 <= j < |before| && before[j].checksum == c;
          assert items[j].checksum == c;
        } else {
          assert items[n].checksum == c;
        }
      }
    }
  }

  lemma {:induction false} StillCovered(s: State, it: Item, x: Item)
    requires KeysMatch(s) && Covered(x, s.kept)
    ensures Covered(x, Step(s, it).kept)
  {
    var s', k := Step(s, it), KeyOf(it);
    var y :| y in s.kept && KeyOf(y) == KeyOf(x) && y.score >= x.score;
    if k in s.byKey && it.score > s.byKey[k].score {
      RemoveExactly(s.kept, s.byKey[k]);
      if y == s.byKey[k] {
        assert it in s'.kept && KeyOf(it) == KeyOf(x) && it.score >= x.score;
      } else {
        assert y in s'.kept;
      }
    } else {
      assert y in s'.kept;
    }
  }

  lemma {:induction false} LastAccounted(items: seq<Item>)
    requires items != []
    ensures Accounted(items, |items| - 1)
  {
    var n := |items| - 1;
    var before, it := items[..n], items[n];
    KeysAgree(before);
    KeptWasGiven(before);
    var s, k := Dedup(before), KeyOf(it);
    if k in s.byKey && it.score <= s.byKey[k].score {
      assert s.byKey[k] in Step(s, it).kept;
    } else if k in s.byKey || it.checksum == "" || it.checksum !in s.byChecksum {
      assert it in Step(s, it).kept;
    } else {
      var j :| 0 <= j < |before| && before[j].checksum == it.checksum;
      assert items[j].checksum == items[n].checksum;
    }
  }

  // ---------------------------------------------------------------- a second pass

  /** With distinct sources the pass only drops repeated texts, and the seen checksums are accurate. */
  lemma {:induction false} DistinctKeysPass(items: seq<Item>)
    requires DistinctKeys(items)
    ensures var s := Dedup(items);
      && DistinctChecksums(s.kept)
      && (forall k :: k in s.byKey ==> exists j :: 0 <= j < |items| && KeyOf(items[j]) == k)
      && (forall x :: x in s.kept && x.checksum != "" ==> x.checksum in s.byChecksum)
    decreases |items|
  {
    if items != [] {
      var n := |items| - 1;
      var before, it := items[..n], items[n];
      DistinctKeysPass(before);
      var s, s' := Dedup(before), Dedup(items);
      assert KeyOf(it) !in s.byKey;
      forall k | k in s'.byKey ensures exists j :: 0 <= j < |items| && KeyOf(items[j]) == k {
        if k in s.byKey {
          var j :| 0 <= j < |before| && KeyOf(before[j]) == k;
          assert KeyOf(items[j]) == k;
        } else {
          assert KeyOf(items[n]) == k;
        }
      }
    }
  }

  lemma {:induction false} NewIsAppended(s: State, it: Item)
    requires KeyOf(it) !in s.byKey && it.checksum !in s.byChecksum
    ensures Step(s, it).kept == s.kept + [it]
  {}

  lemma {:induction false} NothingSeen(before: seq<Item>, it: Item)
    requires DistinctKeys(before + [it]) && DistinctChecksums(before + [it])
    ensures KeyOf(it) !in Dedup(before).byKey && it.checksum !in Dedup(before).byChecksum
  {
    hide Dedup, Step;
    var items := before + [it];
    forall j | 0 <= j < |before|
      ensures KeyOf(before[j]) != KeyOf(it) && (before[j].checksum != "" ==> before[j].checksum != it.checksum)
    {
      assert items[j] == before[j] && items[|before|] == it;
    }
    assert before == items[..|before|];
    assert DistinctKeys(items[..|before|]);
    DistinctKeysPass(before);
    KeptWasGiven(before);
  }

  lemma {:induction false} DistinctIsUnchanged(items: seq<Item>)
    requires DistinctKeys(items) && DistinctChecksums(items)
    ensures Dedup(items).kept == items
    decreases |items|
  {
    hide Step;
    if items != [] {
      var n := |items| - 1;
      var before, it := items[..n], items[n];
      assert items == before + [it];
      DistinctIsUnchanged(before);
      NothingSeen(before, it);
      NewIsAppended(Dedup(before), it);
    }
  }

  /** One pass changes nothing exactly when sources and texts are already distinct. */
  lemma {:induction false} UnchangedIffDistinct(items: seq<Item>)
    ensures Dedup(items).kept == items <==> DistinctKeys(items) && DistinctChecksums(items)
  {
    if Dedup(items).kept == items {
      KeysAgree(items);
      DistinctKeysPass(items);
    }
    if DistinctKeys(items) && DistinctChecksums(items) {
      DistinctIsUnchanged(items);
    }
  }

  /** Two passes reach distinct sources and texts, and a third pass changes nothing. */
  lemma {:induction false} TwoPassesSuffice(items: seq<Item>)
    ensures var twice := Dedup(Dedup(items).kept).kept;
      && DistinctKeys(twice) && DistinctChecksums(twice)
      && Dedup(twice).kept == twice && Dedup(twice).warnings == []
  {
    var once := Dedup(items).kept;
    KeysAgree(items);
    KeysAgree(once);
    DistinctKeysPass(once);
    var twice := Dedup(once).kept;
    UnchangedIffDistinct(twice);
    KeysAgree(twice);
  }

  /** Four candidates, the third of which replaces the first. */
  const FIRST := Item("a", Report, "r", "one", false, 1.0, 1, 3, "one")
  const SECOND := Item("b", Decision, "d", "two", false, 1.0, 1, 3, "two")
  const THIRD := Item("c", Report, "r", "two", false, 2.0, 1, 3, "two")
  const FOURTH := Item("d", Issue, "i", "one", false, 1.0, 1, 3, "one")

  /**
   One pass does not suffice: a replacement leaves the superseded text among the seen checksums
   and its own text out of them.  Here both kept items have the text "two", and the text "one"
   is lost although no kept item has it.
   */
  lemma {:induction false} OnePassIsNotEnough()
    ensures Dedup([FIRST, SECOND, THIRD, FOURTH]).kept == [SECOND, THIRD]
    ensures !DistinctChecksums([SECOND, THIRD]) && !HasText([SECOND, THIRD], FOURTH.checksum)
  {
    hide Dedup;
    DedupOf(FIRST, SECOND, THIRD, FOURTH);
    RemoveAt([FIRST, SECOND], 0, FIRST);
    var kept := [SECOND, THIRD];
    assert kept[0].checksum == kept[1].checksum;
  }

  lemma {:induction false} DedupOf(a: Item, b: Item, c: Item, d: Item)
    ensures Dedup([a, b, c, d]) == Step(Step(Step(Step(EMPTY, a), b), c), d)
  {
    hide Step;
    DedupOfNothing([]);
    DedupSnoc([], a);
    DedupSnoc([a], b);
    DedupSnoc([a, b], c);
    DedupSnoc([a, b, c], d);
    assert [] + [a] == [a] && [a] + [b] == [a, b] && [a, b] + [c] == [a, b, c];
    assert [a, b, c] + [d] == [a, b, c, d];
  }

  lemma {:induction false} DedupSnoc(items: seq<Item>, it: Item)
    ensures Dedup(items + [it]) == Step(Dedup(items), it)
  {
    assert (items + [it])[..|items|] == items;
  }

  /**
   The step is blind to `y`, a kept item of another source with the same text: it replaces an item,
   where the text is not looked up, or the text is new to the seen checksums although `y` has it.
   */
  predicate BlindTo(s: State, it: Item, y: Item) {
    && y in s.kept && KeyOf(y) != KeyOf(it) && it.checksum != "" && y.checksum == it.checksum
    && if KeyOf(it) in s.byKey then it.score > s.byKey[KeyOf(it)].score else it.checksum !in s.byChecksum
  }

  predicate Blind(s: State, it: Item) { exists y :: y in s.kept && BlindTo(s, it, y) }

  /** Equal texts, of different sources. */
  predicate Twins(x: Item, y: Item) { x.checksum != "" && x.checksum == y.checksum && KeyOf(x) != KeyOf(y) }

  /** What is kept after a step. */
  lemma {:induction false} StepKeeps(s: State, it: Item)
    requires KeysMatch(s)
    ensures var placed := if KeyOf(it) in s.byKey then it.score > s.byKey[KeyOf(it)].score
                          else it.checksum == "" || it.checksum !in s.byChecksum;
      forall x :: x in Step(s, it).kept <==>
        if placed then x == it || (x in s.kept && KeyOf(x) != KeyOf(it)) else x in s.kept
  {
    var k := KeyOf(it);
    if k in s.byKey && it.score > s.byKey[k].score {
      RemoveExactly(s.kept, s.byKey[k]);
    }
  }

  /** Texts are distinct if and only if no two kept items are twins. */
  lemma {:induction false} DistinctIffNoTwins(kept: seq<Item>)
    requires DistinctKeys(kept)
    ensures DistinctChecksums(kept) <==> forall x, y :: x in kept && y in kept ==> !Twins(x, y)
  {
    if DistinctChecksums(kept) {
      TextsDiffer(kept);
    } else {
      var i, j :| 0 <= i < j < |kept| && kept[i].checksum != "" && kept[i].checksum == kept[j].checksum;
      assert kept[i] in kept && kept[j] in kept && Twins(kept[i], kept[j]);
    }
  }

  /** A step from distinct texts leads to distinct texts if and only if it is not blind. */
  lemma {:induction false} StepRepeatsIffBlind(s: State, it: Item)
    requires KeysMatch(s) && DistinctChecksums(s.kept)
    ensures DistinctChecksums(Step(s, it).kept) <==> !Blind(s, it)
  {
    hide KeysMatch, DistinctKeys, DistinctChecksums, Step;
    var s' := Step(s, it);
    StepKeepsKeysMatch(s, it);
    KeptHaveDistinctKeys(s);
    KeptHaveDistinctKeys(s');
    DistinctIffNoTwins(s.kept);
    DistinctIffNoTwins(s'.kept);
    StepKeeps(s, it);
    if Blind(s, it) {
      var y :| y in s.kept && BlindTo(s, it, y);
      assert it in s'.kept && y in s'.kept && Twins(it, y);
    } else {
      forall x, y | x in s'.kept && y in s'.kept ensures !Twins(x, y) {
        assert !BlindTo(s, it, x) || x !in s.kept;
        assert !BlindTo(s, it, y) || y !in s.kept;
      }
    }
  }

  lemma {:induction false} KeptHaveDistinctKeys(s: State)
    requires KeysMatch(s)
    ensures DistinctKeys(s.kept)
  {}

  /** The texts stay distinct throughout the pass if and only if no step of it is blind. */
  lemma {:induction false} StaysDistinctIffNeverBlind(items: seq<Item>)
    ensures (forall n :: 0 <= n <= |items| ==> DistinctChecksums(Dedup(items[..n]).kept))
      <==> forall n :: 0 <= n < |items| ==> !Blind(Dedup(items[..n]), items[n])
  {
    hide Blind, DistinctChecksums, KeysMatch, Step;
    if forall n :: 0 <= n <= |items| ==> DistinctChecksums(Dedup(items[..n]).kept) {
      forall n | 0 <= n < |items| ensures !Blind(Dedup(items[..n]), items[n]) {
        KeysAgree(items[..n]);
        StepAt(items, n);
        StepRepeatsIffBlind(Dedup(items[..n]), items[n]);
        assert DistinctChecksums(Dedup(items[..n + 1]).kept);
      }
    }
    if forall n :: 0 <= n < |items| ==> !Blind(Dedup(items[..n]), items[n]) {
      forall n | 0 <= n <= |items| ensures DistinctChecksums(Dedup(items[..n]).kept) {
        DistinctUpTo(items, n);
      }
    }
  }

  lemma {:induction false} DistinctUpTo(items: seq<Item>, n: nat)
    requires n <= |items| && forall k :: 0 <= k < n ==> !Blind(Dedup(items[..k]), items[k])
    ensures DistinctChecksums(Dedup(items[..n]).kept)
    decreases n
  {
    hide Blind, KeysMatch, Step;
    if n == 0 {
      DedupOfNothing(items[..0]);
    } else {
      DistinctUpTo(items, n - 1);
      KeysAgree(items[..n - 1]);
      StepAt(items, n - 1);
      StepRepeatsIffBlind(Dedup(items[..n - 1]), items[n - 1]);
    }
  }

  /** Both items are kept in the end, and the step that added the later was blind to the earlier. */
  ghost predicate Slipped(items: seq<Item>, n: nat, y: Item)
    requires n < |items|
  {
    items[n] in Dedup(items).kept && y in Dedup(items).kept && BlindTo(Dedup(items[..n]), items[n], y)
  }

  lemma {:induction false} TwinsSlipped(items: seq<Item>, x: Item, y: Item) returns (n: nat, z: Item)
    requires x in Dedup(items).kept && y in Dedup(items).kept && Twins(x, y)
    ensures n < |items| && {items[n], z} == {x, y} && Slipped(items, n, z)
    decreases |items|
  {
    hide Step, KeysMatch, BlindTo;
    n := |items| - 1;
    var before, it := items[..n], items[n];
    var s := Dedup(before);
    KeysAgree(before);
    StepKeeps(s, it);
    if x in s.kept && y in s.kept {
      n, z := TwinsSlipped(before, x, y);
      assert before[..n] == items[..n];
    } else {
      z := if x == it then y else x;
      LatestIsBlind(s, it, z);
    }
  }

  lemma {:induction false} LatestIsBlind(s: State, it: Item, z: Item)
    requires KeysMatch(s) && it !in s.kept && it in Step(s, it).kept && z in s.kept && Twins(it, z)
    ensures BlindTo(s, it, z)
  {
    hide KeysMatch, Step;
    StepKeeps(s, it);
  }

  /** The texts kept in the end are distinct if and only if no step slipped a twin in that stayed. */
  lemma {:induction false} RepeatsWereSlipped(items: seq<Item>)
    ensures DistinctChecksums(Dedup(items).kept)
      <==> forall n: nat, y :: n < |items| && y in Dedup(items).kept ==> !Slipped(items, n, y)
  {
    hide Dedup, DistinctChecksums;
    var kept := Dedup(items).kept;
    KeysAgree(items);
    DistinctIffNoTwins(kept);
    if x, y :| x in kept && y in kept && Twins(x, y) {
      var n, z := TwinsSlipped(items, x, y);
      assert Slipped(items, n, z);
    }
    forall n: nat, y | n < |items| && Slipped(items, n, y) ensures Twins(items[n], y) {}
  }

  /** The seen checksums are those of the kept items, and these are distinct. */
  ghost predicate TextsMatch(s: State) {
    && KeysMatch(s) && DistinctChecksums(s.kept)
    && (forall x :: x in s.kept && x.checksum != "" ==> x.checksum in s.byChecksum)
    && (forall c :: c in s.byChecksum ==> HasText(s.kept, c))
  }

  ghost predicate HasText(items: seq<Item>, c: string) {
    exists y :: y in items && y.checksum == c
  }

  ghost predicate StableSources(items: seq<Item>) {
    forall x, y :: x in items && y in items && KeyOf(x) == KeyOf(y) ==> x.checksum == y.checksum
  }

  /** If a source always comes with the same text, one pass suffices and no text is lost. */
  lemma {:induction false} OnePassForStableSources(items: seq<Item>)
    requires StableSources(items)
    ensures TextsMatch(Dedup(items))
    ensures DistinctKeys(Dedup(items).kept) && DistinctChecksums(Dedup(items).kept)
    ensures forall x :: x in items && x.checksum != "" ==> HasText(Dedup(items).kept, x.checksum)
    decreases |items|
  {
    hide Step;
    if items != [] {
      var n := |items| - 1;
      var before, it := items[..n], items[n];
      assert forall x :: x in items <==> x in before || x == it by {
        assert items == before + [it];
      }
      OnePassForStableSources(before);
      KeptWasGiven(before);
      forall x | x in Dedup(before).kept && KeyOf(x) == KeyOf(it) ensures x.checksum == it.checksum {
        assert x in items && it in items;
      }
      StableStep(Dedup(before), it);
    }
  }

  lemma {:induction false} StableStep(s: State, it: Item)
    requires TextsMatch(s)
    requires forall x :: x in s.kept && KeyOf(x) == KeyOf(it) ==> x.checksum == it.checksum
    ensures TextsMatch(Step(s, it))
    ensures it.checksum != "" ==> HasText(Step(s, it).kept, it.checksum)
    ensures forall c :: HasText(s.kept, c) ==> HasText(Step(s, it).kept, c)
  {
    hide DistinctChecksums, HasText;
    StepKeepsKeysMatch(s, it);
    var k := KeyOf(it);
    if k in s.byKey {
      var prior := s.byKey[k];
      assert prior in s.kept && prior.checksum == it.checksum;
      PriorHasText(s, prior);
      if it.score > prior.score {
        RemoveExactly(s.kept, prior);
        ReplaceKeepsTexts(s.kept, prior, it);
      }
    } else if it.checksum == "" || it.checksum !in s.byChecksum {
      AppendKeepsTexts(s, it);
    }
  }

  lemma {:induction false} PriorHasText(s: State, prior: Item)
    requires prior in s.kept
    ensures HasText(s.kept, prior.checksum)
  {}

  lemma {:induction false} AppendKeepsTexts(s: State, it: Item)
    requires TextsMatch(s) && (it.checksum == "" || it.checksum !in s.byChecksum)
    ensures DistinctChecksums(s.kept + [it])
    ensures forall c :: HasText(s.kept + [it], c) <==> HasText(s.kept, c) || it.checksum == c
  {
    hide KeysMatch;
    var all := s.kept + [it];
    forall i | 0 <= i < |s.kept| && it.checksum != "" ensures s.kept[i].checksum != it.checksum {
      assert s.kept[i] in s.kept;
    }
    forall c ensures HasText(all, c) <==> HasText(s.kept, c) || it.checksum == c {
      assert it in all && forall y :: y in s.kept ==> y in all;
    }
  }

  lemma {:induction false} ReplaceKeepsTexts(kept: seq<Item>, prior: Item, it: Item)
    requires DistinctKeys(kept) && DistinctChecksums(kept) && prior in kept && it.checksum == prior.checksum
    ensures var r := RemoveFirst(kept, prior) + [it];
      DistinctChecksums(r) && forall c :: HasText(r, c) <==> HasText(kept, c)
  {
    var r := RemoveFirst(kept, prior);
    RemoveExactly(kept, prior);
    TextsDiffer(kept);
    RemoveKeepsTextsDistinct(kept, prior);
    forall i | 0 <= i < |r| && it.checksum != "" ensures r[i].checksum != it.checksum {
      assert r[i] in r;
    }
    var r' := r + [it];
    forall c ensures HasText(r', c) <==> HasText(kept, c) {
      if HasText(kept, c) {
        var y :| y in kept && y.checksum == c;
        assert y == prior || y in r;
        assert it in r' && forall z :: z in r ==> z in r';
      }
      if HasText(r', c) {
        var y :| y in r' && y.checksum == c;
        assert y == it || y in r;
      }
    }
  }

  lemma {:induction false} TextsDiffer(kept: seq<Item>)
    requires DistinctChecksums(kept)
    ensures forall x, y :: x in kept && y in kept && x.checksum != "" && x.checksum == y.checksum ==> x == y
  {}

  lemma {:induction false} RemoveKeepsTextsDistinct(kept: seq<Item>, x: Item)
    requires DistinctChecksums(kept)
    ensures DistinctChecksums(RemoveFirst(kept, x))
    ensures forall y :: y in RemoveFirst(kept, x) ==> y in kept
    decreases |kept|
  {
    if kept != [] && kept[0] != x {
      var r := RemoveFirst(kept[1..], x);
      RemoveKeepsTextsDistinct(kept[1..], x);
      forall i | 0 <= i < |r| && kept[0].checksum != "" ensures r[i].checksum != kept[0].checksum {
        assert r[i] in kept[1..];
      }
      assert forall y :: y in [kept[0]] + r <==> y == kept[0] || y in r;
    }
  }
}
