/**
 Deduplication without its state: which candidates are kept is a matter of the list of candidates
 alone.  A candidate opens its source if nothing before it has, and if no opening candidate before
 it has its text; of the candidates of an opened source the best from then on is kept.
 */
module DeduplicationWinners {
  import opened ContextModel
  import opened Deduplication

  /** The first candidate of its source whose text no source was opened with before. */
  ghost predicate Opens(items: seq<Item>, n: nat)
    requires n < |items|
    decreases n
  {
    forall m: nat :: m < n && Opens(items, m) ==>
      && KeyOf(items[m]) != KeyOf(items[n])
      && (items[n].checksum == "" || items[m].checksum != items[n].checksum)
  }

  /** From `m` on `w` scores more than those of its source before it, and at least as much as those after it. */
  ghost predicate Leads(items: seq<Item>, n: nat, m: nat, w: nat)
    requires m <= w < n <= |items|
  {
    && KeyOf(items[m]) == KeyOf(items[w])
    && (forall j :: m <= j < w && KeyOf(items[j]) == KeyOf(items[w]) ==> items[j].score < items[w].score)
    && (forall j :: w < j < n && KeyOf(items[j]) == KeyOf(items[w]) ==> items[j].score <= items[w].score)
  }

  /** Among the first `n` candidates `w` is the best of its source since that was opened. */
  ghost predicate Wins(items: seq<Item>, n: nat, w: nat)
    requires n <= |items|
  {
    w < n && exists m: nat :: m <= w && Opens(items, m) && Leads(items, n, m, w)
  }

  /** Of the first `k` candidates those that win among the first `n`, in their order. */
  ghost function Winners(items: seq<Item>, n: nat, k: nat): seq<Item>
    requires k <= n <= |items|
  {
    if k == 0 then [] else Winners(items, n, k - 1) + if Wins(items, n, k - 1) then [items[k - 1]] else []
  }

  // ---------------------------------------------------------------- openings and winners

  ghost predicate OpenedKey(items: seq<Item>, n: nat, k: Key)
    requires n <= |items|
  {
    exists m: nat :: m < n && Opens(items, m) && KeyOf(items[m]) == k
  }

  ghost predicate OpenedText(items: seq<Item>, n: nat, c: string)
    requires n <= |items|
  {
    exists m: nat :: m < n && Opens(items, m) && items[m].checksum == c
  }

  lemma {:induction false} OpensIff(items: seq<Item>, n: nat)
    requires n < |items|
    ensures var it := items[n];
      Opens(items, n) <==> !OpenedKey(items, n, KeyOf(it)) && (it.checksum == "" || !OpenedText(items, n, it.checksum))
    ensures forall k ::
      OpenedKey(items, n + 1, k) <==> OpenedKey(items, n, k) || (Opens(items, n) && k == KeyOf(items[n]))
    ensures forall c ::
      OpenedText(items, n + 1, c) <==> OpenedText(items, n, c) || (Opens(items, n) && c == items[n].checksum)
  {
    forall k ensures OpenedKey(items, n + 1, k)
      <==> OpenedKey(items, n, k) || (Opens(items, n) && k == KeyOf(items[n]))
    {}
    forall c ensures OpenedText(items, n + 1, c)
      <==> OpenedText(items, n, c) || (Opens(items, n) && c == items[n].checksum)
    {}
  }

  lemma {:induction false} OneWinnerPerSource(items: seq<Item>, n: nat, v: nat, w: nat)
    requires n <= |items| && Wins(items, n, v) && Wins(items, n, w) && KeyOf(items[v]) == KeyOf(items[w])
    ensures v == w
  {
    var l: nat :| l <= v && Opens(items, l) && Leads(items, n, l, v);
    var m: nat :| m <= w && Opens(items, m) && Leads(items, n, m, w);
    assert l == m;
  }

  /** A winner stays one as long as no candidate of its source scores more. */
  lemma {:induction false} WinsNext(items: seq<Item>, n: nat, w: nat)
    requires w < n < |items|
    ensures Wins(items, n + 1, w)
      <==> Wins(items, n, w) && (KeyOf(items[n]) == KeyOf(items[w]) ==> items[n].score <= items[w].score)
  {
    if Wins(items, n + 1, w) {
      var m: nat :| m <= w && Opens(items, m) && Leads(items, n + 1, m, w);
      assert Leads(items, n, m, w);
    }
    if Wins(items, n, w) && (KeyOf(items[n]) == KeyOf(items[w]) ==> items[n].score <= items[w].score) {
      var m: nat :| m <= w && Opens(items, m) && Leads(items, n, m, w);
      assert Leads(items, n + 1, m, w);
    }
  }

  /** The newest candidate wins if it opens its source or scores more than the winner so far. */
  lemma {:induction false} NewestWins(items: seq<Item>, n: nat)
    requires n < |items|
    ensures Opens(items, n) ==> Wins(items, n + 1, n)
    ensures forall w: nat :: Wins(items, n, w) && KeyOf(items[w]) == KeyOf(items[n]) ==>
      (Wins(items, n + 1, n) <==> items[w].score < items[n].score)
    ensures !OpenedKey(items, n + 1, KeyOf(items[n])) ==> !Wins(items, n + 1, n)
  {
    if Opens(items, n) {
      assert Leads(items, n + 1, n, n);
    }
    forall w: nat | Wins(items, n, w) && KeyOf(items[w]) == KeyOf(items[n])
      ensures Wins(items, n + 1, n) <==> items[w].score < items[n].score
    {
      var m: nat :| m <= w && Opens(items, m) && Leads(items, n, m, w);
      if items[w].score < items[n].score {
        assert Leads(items, n + 1, m, n);
      }
      if Wins(items, n + 1, n) {
        var l: nat :| l <= n && Opens(items, l) && Leads(items, n + 1, l, n);
        assert l == m;
      }
    }
  }

  // ---------------------------------------------------------------- the list of winners

  lemma {:induction false} WinnersElements(items: seq<Item>, n: nat, k: nat)
    requires k <= n <= |items|
    ensures forall x :: x in Winners(items, n, k) <==> exists w :: 0 <= w < k && Wins(items, n, w) && items[w] == x
    decreases k
  {
    hide Wins;
    if k > 0 {
      WinnersElements(items, n, k - 1);
    }
  }

  lemma {:induction false} SameWinners(items: seq<Item>, n: nat, k: nat)
    requires k <= n < |items| && forall w :: 0 <= w < k ==> (Wins(items, n + 1, w) <==> Wins(items, n, w))
    ensures Winners(items, n + 1, k) == Winners(items, n, k)
    decreases k
  {
    hide Wins;
    if k > 0 {
      SameWinners(items, n, k - 1);
    }
  }

  /** When candidate `n` beats the winner `v`, that one goes, and the others stay in place. */
  lemma {:induction false} WithoutLoser(items: seq<Item>, n: nat, v: nat, k: nat)
    requires v < k <= n < |items| && Wins(items, n, v) && !Wins(items, n + 1, v)
    requires forall w :: 0 <= w < n && w != v ==> (Wins(items, n + 1, w) <==> Wins(items, n, w))
    ensures items[v] in Winners(items, n, k)
    ensures Winners(items, n + 1, k) == RemoveFirst(Winners(items, n, k), items[v])
    decreases k
  {
    hide Wins, RemoveFirst;
    var before := Winners(items, n, k - 1);
    if k == v + 1 {
      SameWinners(items, n, v);
      NotAmongEarlier(items, n, v);
      RemoveAt(before + [items[v]], |before|, items[v]);
      assert (before + [items[v]])[..|before|] + (before + [items[v]])[|before| + 1..] == before;
      assert before + [] == before;
    } else {
      WithoutLoser(items, n, v, k - 1);
      if Wins(items, n, k - 1) {
        RemoveBefore(before, [items[k - 1]], items[v]);
      } else {
        assert before + [] == before && RemoveFirst(before, items[v]) + [] == RemoveFirst(before, items[v]);
      }
    }
  }

  lemma {:induction false} NotAmongEarlier(items: seq<Item>, n: nat, v: nat)
    requires v < n <= |items| && Wins(items, n, v)
    ensures items[v] !in Winners(items, n, v)
  {
    hide Wins;
    WinnersElements(items, n, v);
    forall w | 0 <= w < v && Wins(items, n, w) ensures items[w] != items[v] {
      if items[w] == items[v] {
        OneWinnerPerSource(items, n, v, w);
      }
    }
  }

  // ---------------------------------------------------------------- the pass

  /** The loop's collections after `n` candidates, in terms of the candidates. */
  ghost predicate Tallies(items: seq<Item>, n: nat, s: State)
    requires n <= |items|
  {
    && s.kept == Winners(items, n, n) && s.warnings == OthersReported(items, n)
    && (forall k :: k in s.byKey <==> OpenedKey(items, n, k))
    && (forall c :: c in s.byChecksum <==> c != "" && OpenedText(items, n, c))
    && (forall k :: k in s.byKey ==> HasWinner(items, n, k, s.byKey[k]))
  }

  /** A warning for each of the first `n` candidates that does not open its source. */
  ghost function OthersReported(items: seq<Item>, n: nat): seq<Warning>
    requires n <= |items|
  {
    if n == 0 then []
    else OthersReported(items, n - 1) + if Opens(items, n - 1) then [] else [Warning(DuplicateRemoved, items[n - 1].id)]
  }

  ghost predicate HasWinner(items: seq<Item>, n: nat, k: Key, x: Item)
    requires n <= |items|
  {
    exists w :: 0 <= w < n && Wins(items, n, w) && items[w] == x && KeyOf(x) == k
  }

  lemma {:induction false} KeptNext(items: seq<Item>, n: nat, s: State)
    requires n < |items| && Tallies(items, n, s)
    ensures Step(s, items[n]).kept == Winners(items, n + 1, n + 1)
  {
    hide Opens, Wins, OpenedKey, OpenedText, RemoveFirst;
    var it, k := items[n], KeyOf(items[n]);
    OpensIff(items, n);
    NewestWins(items, n);
    forall w | 0 <= w < n
      ensures Wins(items, n + 1, w)
        <==> Wins(items, n, w) && (k == KeyOf(items[w]) ==> it.score <= items[w].score)
    {
      WinsNext(items, n, w);
    }
    if k in s.byKey {
      var v :| 0 <= v < n && Wins(items, n, v) && items[v] == s.byKey[k] && KeyOf(items[v]) == k;
      forall w | 0 <= w < n && w != v && Wins(items, n, w) ensures KeyOf(items[w]) != k {
        if KeyOf(items[w]) == k {
          OneWinnerPerSource(items, n, v, w);
        }
      }
      if it.score > s.byKey[k].score {
        WithoutLoser(items, n, v, n);
      } else {
        SameWinners(items, n, n);
      }
    } else {
      forall w | 0 <= w < n && Wins(items, n, w) ensures KeyOf(items[w]) != k {
        WinnerWasOpened(items, n, w);
      }
      SameWinners(items, n, n);
    }
  }

  lemma {:induction false} TalliesNext(items: seq<Item>, n: nat, s: State)
    requires n < |items| && Tallies(items, n, s)
    ensures Tallies(items, n + 1, Step(s, items[n]))
  {
    hide Opens, Wins, OpenedKey, OpenedText, RemoveFirst, Winners;
    var it, k, s' := items[n], KeyOf(items[n]), Step(s, items[n]);
    KeptNext(items, n, s);
    OpensIff(items, n);
    NewestWins(items, n);
    forall q | q in s'.byKey ensures HasWinner(items, n + 1, q, s'.byKey[q]) {
      if q in s.byKey && s'.byKey[q] == s.byKey[q] {
        var w :| 0 <= w < n && Wins(items, n, w) && items[w] == s.byKey[q] && KeyOf(items[w]) == q;
        WinsNext(items, n, w);
      } else {
        assert q == k && s'.byKey[k] == it && Wins(items, n + 1, n);
      }
    }
  }

  lemma {:induction false} WinnerWasOpened(items: seq<Item>, n: nat, w: nat)
    requires n <= |items| && Wins(items, n, w)
    ensures OpenedKey(items, n, KeyOf(items[w]))
  {}

  lemma {:induction false} TalliesUpTo(items: seq<Item>, n: nat)
    requires n <= |items|
    ensures Tallies(items, n, Dedup(items[..n]))
    decreases n
  {
    hide Step, Winners, Opens, HasWinner;
    if n == 0 {
      DedupOfNothing(items[..0]);
      NobodyWins(items);
    } else {
      TalliesUpTo(items, n - 1);
      StepAt(items, n - 1);
      TalliesNext(items, n - 1, Dedup(items[..n - 1]));
    }
  }

  lemma {:induction false} NobodyWins(items: seq<Item>)
    ensures Winners(items, 0, 0) == []
  {}

  /** One pass keeps the winners, in the order of the candidates, and reports those that open no source. */
  lemma {:induction false} KeptAreWinners(items: seq<Item>)
    ensures Dedup(items).kept == Winners(items, |items|, |items|)
    ensures Dedup(items).warnings == OthersReported(items, |items|)
  {
    TalliesUpTo(items, |items|);
    assert items[..|items|] == items;
  }

  /** One pass leaves distinct texts if and only if no two of the winners have the same text. */
  lemma {:induction false} OnePassSufficesIff(items: seq<Item>)
    ensures DistinctChecksums(Dedup(items).kept)
      <==> forall v, w ::
        0 <= v < w < |items| && Wins(items, |items|, v) && Wins(items, |items|, w) && items[v].checksum != ""
        ==> items[v].checksum != items[w].checksum
  {
    hide Wins, DistinctChecksums, Dedup;
    var n, kept := |items|, Dedup(items).kept;
    KeptAreWinners(items);
    KeysAgree(items);
    DistinctIffNoTwins(kept);
    WinnersElements(items, n, n);
    forall v, w | 0 <= v < n && 0 <= w < n && v != w && Wins(items, n, v) && Wins(items, n, w)
      ensures KeyOf(items[v]) != KeyOf(items[w])
    {
      if KeyOf(items[v]) == KeyOf(items[w]) {
        OneWinnerPerSource(items, n, v, w);
      }
    }
    if DistinctChecksums(kept) {
      forall v, w | 0 <= v < w < n && Wins(items, n, v) && Wins(items, n, w) && items[v].checksum != ""
        ensures items[v].checksum != items[w].checksum
      {
        assert items[v] in kept && items[w] in kept;
        assert !Twins(items[v], items[w]);
      }
    } else {
      var x, y :| x in kept && y in kept && Twins(x, y);
      var v :| 0 <= v < n && Wins(items, n, v) && items[v] == x;
      var w :| 0 <= w < n && Wins(items, n, w) && items[w] == y;
    }
  }
}
