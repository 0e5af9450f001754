/** What greedy packing guarantees: the bounds it keeps, the one cut it makes, and what it leaves out. */
module BudgetLaws {
  import opened Wrappers
  import opened ContextModel
  import opened BudgetAllocation
  import opened Strings

  function Cuts(ws: seq<Warning>): nat {
    if ws == [] then 0 else Cuts(ws[..|ws| - 1]) + if ws[|ws| - 1].kind == TruncatedItem then 1 else 0
  }

  ghost predicate AllMeasured(items: seq<Item>) { forall it :: it in items ==> Measured(it) }

  /** `x` is `it` cut short and marked. */
  ghost predicate IsCutOf(x: Item, it: Item) {
    exists limit: nat :: limit >= 400 && x == Truncate(it, limit)
  }

  ghost predicate IsSomeCut(x: Item) { exists it :: IsCutOf(x, it) }

  /** What is left of an item's content when it is cut, before the mark is added. */
  function CutContent(s: Packing, it: Item, b: Budget): string
    requires MayCut(s, it, b)
  {
    Prefix(it.content, b.maxChars - s.chars - 200)
  }

  /**
   Whether this item, met in this state, is cut to a text for which the tokens left do not suffice:
   together with the mark it has more than four characters, or more than ten thirteenths of a word,
   for each of them.
   */
  predicate TooDense(s: Packing, it: Item, b: Budget) {
    && !Fits(s, it, b) && MayCut(s, it, b)
    && var kept, left := CutContent(s, it, b), b.maxTokens - s.tokens;
      |kept| + |MARK| > 4 * left || 13 * (WordCount(kept) + WordCount(MARK)) > 10 * left
  }

  lemma {:induction false} MarkLength()
    ensures |MARK| == 50
  {
    assert |NOTICE| == 48;
  }

  // ---------------------------------------------------------------- one item

  /** After a cut either exactly 150 characters are left, or more tokens are spent than there are. */
  lemma {:induction false} CutLeavesNoRoom(s: Packing, it: Item, b: Budget)
    requires Measured(it) && !Fits(s, it, b) && MayCut(s, it, b)
    ensures var s' := Place(s, it, b);
      if |it.content| >= b.maxChars - s.chars - 200 then b.maxChars - s'.chars == 150
      else it.tokens > b.maxTokens - s.tokens && s'.tokens > b.maxTokens && s'.chars <= b.maxChars
  {
    MarkLength();
    if |it.content| < b.maxChars - s.chars - 200 {
      EstimateGrows(it.content, MARK);
    }
  }

  /** Placing an item overruns the tokens exactly when it is cut and its text is too dense. */
  lemma {:induction false} OverflowIffCutTooDense(s: Packing, it: Item, b: Budget)
    requires s.tokens <= b.maxTokens
    ensures Place(s, it, b).tokens > b.maxTokens <==> TooDense(s, it, b)
  {
    hide EstimateTokens, WordCount;
    if !Fits(s, it, b) && MayCut(s, it, b) {
      var kept := CutContent(s, it, b);
      MarkLength();
      MarkWords(kept);
      EstimateExceedsIff(kept + MARK, b.maxTokens - s.tokens);
    }
  }

  lemma {:induction false} MarkWords(t: string)
    ensures WordCount(t + MARK) == WordCount(t) + WordCount(MARK)
  {
    hide WordsFrom;
    assert IsSpace('\n') && MARK[0] == '\n';
    WordsSplit(t, MARK, false);
  }

  // ---------------------------------------------------------------- every run

  /** What holds after every step that starts from the mandatory items `m`, however items were measured. */
  ghost predicate Bounded(s: Packing, m: Packing, b: Budget) {
    && s.chars <= Max(b.maxChars, m.chars)
    && |s.selected| <= Max(b.maxItems, |m.selected|)
    && s.tokens == SumTokens(s.selected) && s.chars == SumChars(s.selected)
    && (s.tokens > Max(b.maxTokens, m.tokens) ==> LastIsCut(s, m, b))
  }

  /** At most one item has been cut, and if one has, no other will be. */
  predicate CutOnce(s: Packing, b: Budget) {
    && Cuts(s.warnings) <= 1
    && (Cuts(s.warnings) == 1 ==> b.maxChars - s.chars <= 150 || s.tokens > b.maxTokens)
  }

  /** The last selected item is the one cut; without it the tokens are within bounds. */
  ghost predicate LastIsCut(s: Packing, m: Packing, b: Budget) {
    && |s.selected| > |m.selected| && |s.warnings| > 0
    && IsSomeCut(s.selected[|s.selected| - 1])
    && s.warnings[|s.warnings| - 1] == Warning(TruncatedItem, s.selected[|s.selected| - 1].id)
    && SumTokens(s.selected[..|s.selected| - 1]) <= Max(b.maxTokens, m.tokens)
  }

  lemma {:induction false} CutsSnoc(ws: seq<Warning>, w: Warning)
    ensures Cuts(ws + [w]) == Cuts(ws) + if w.kind == TruncatedItem then 1 else 0
  {
    assert (ws + [w])[..|ws|] == ws;
  }

  lemma {:induction false} PlaceKeepsBounds(s: Packing, m: Packing, it: Item, b: Budget)
    requires Bounded(s, m, b) && !Stops(s, b) && |m.selected| <= |s.selected|
    ensures Bounded(Place(s, it, b), m, b)
  {
    hide EstimateTokens, SumTokens, SumChars;
    var s' := Place(s, it, b);
    if Fits(s, it, b) {
      SumSnoc(s.selected, it);
    } else if MayCut(s, it, b) {
      var x := Truncate(it, b.maxChars - s.chars - 200);
      MarkLength();
      SumSnoc(s.selected, x);
      assert IsCutOf(x, it);
      assert s'.selected[..|s.selected|] == s.selected;
    }
  }

  lemma {:induction false} PlaceCutsOnce(s: Packing, it: Item, b: Budget)
    requires CutOnce(s, b) && !Stops(s, b) && Measured(it)
    ensures CutOnce(Place(s, it, b), b)
  {
    hide EstimateTokens;
    if !Fits(s, it, b) && MayCut(s, it, b) {
      CutLeavesNoRoom(s, it, b);
      CutsSnoc(s.warnings, Warning(TruncatedItem, it.id));
    }
  }

  lemma {:induction false} PackKeepsBounds(s: Packing, m: Packing, optional: seq<Item>, b: Budget)
    requires Bounded(s, m, b) && |m.selected| <= |s.selected|
    ensures Bounded(Pack(s, optional, b), m, b)
    ensures CutOnce(s, b) && AllMeasured(optional) ==> CutOnce(Pack(s, optional, b), b)
    decreases |optional|
  {
    hide Place, Bounded, Stops;
    if optional != [] && !Stops(s, b) {
      PlaceKeepsBounds(s, m, optional[0], b);
      if CutOnce(s, b) && AllMeasured(optional) {
        assert Measured(optional[0]);
        PlaceCutsOnce(s, optional[0], b);
      }
      PlaceExtends(s, optional[0], b);
      PackKeepsBounds(Place(s, optional[0], b), m, optional[1..], b);
    } else {
      StoppingChangesNothing(s, m, b);
    }
  }

  lemma {:induction false} StoppingChangesNothing(s: Packing, m: Packing, b: Budget)
    ensures Bounded(s.(stopped := true), m, b) == Bounded(s, m, b)
  {}

  lemma {:induction false} PlaceExtends(s: Packing, it: Item, b: Budget)
    ensures |s.selected| <= |Place(s, it, b).selected|
    ensures s.tokens <= Place(s, it, b).tokens && s.chars <= Place(s, it, b).chars
    ensures Place(s, it, b).stopped == s.stopped
  {}

  lemma {:induction false} RequiredAreGiven(items: seq<Item>, flag: bool)
    ensures forall it :: it in Required(items, flag) ==> it in items && it.required == flag
    decreases |items|
  {
    if items != [] {
      RequiredAreGiven(items[1..], flag);
    }
  }

  /**
   For every list of items and every budget: the running totals are the sums over the selection;
   the characters and the number of items exceed their limits only as far as the mandatory items
   do; the tokens exceed theirs only if the last selected item was cut, without which they would
   not; and if the items' counts are those of their contents, at most one item is cut.
   */
  lemma {:induction false} AllocationBounds(items: seq<Item>, b: Budget)
    ensures var m, r := Mandatory(items, b), Allocate(items, b);
      && r.tokens == SumTokens(r.selected) && r.chars == SumChars(r.selected)
      && SumChars(r.selected) <= Max(b.maxChars, SumChars(m.selected))
      && |r.selected| <= Max(b.maxItems, |m.selected|)
      && (SumTokens(r.selected) > Max(b.maxTokens, SumTokens(m.selected)) ==> LastIsCut(r, m, b))
      && (AllMeasured(items) ==> Cuts(r.warnings) <= 1)
  {
    var m := Mandatory(items, b);
    RequiredAreGiven(items, false);
    assert [Warning(BudgetExceeded, "")][..0] == [];
    assert Cuts(m.warnings) == 0;
    PackKeepsBounds(m, m, Required(items, false), b);
  }

  // ---------------------------------------------------------------- when the tokens run over

  /** Whether the loop, started from `s`, meets an item that is too dense before it breaks off. */
  predicate MeetsTooDense(s: Packing, optional: seq<Item>, b: Budget)
    decreases |optional|
  {
    && optional != [] && !Stops(s, b)
    && (TooDense(s, optional[0], b) || MeetsTooDense(Place(s, optional[0], b), optional[1..], b))
  }

  lemma {:induction false} PackOverflowsIff(s: Packing, optional: seq<Item>, b: Budget)
    ensures Pack(s, optional, b).tokens > b.maxTokens <==> s.tokens > b.maxTokens || MeetsTooDense(s, optional, b)
    decreases |optional|
  {
    hide Place, TooDense;
    if optional != [] && !Stops(s, b) {
      OverflowIffCutTooDense(s, optional[0], b);
      PackOverflowsIff(Place(s, optional[0], b), optional[1..], b);
    }
  }

  /**
   The tokens of the selection exceed their limit if and only if those of the mandatory items do,
   or the loop meets an item that it cuts to a text too dense for what is left.
   */
  lemma {:induction false} AllocationOverflowsIff(items: seq<Item>, b: Budget)
    ensures var m := Mandatory(items, b);
      SumTokens(Allocate(items, b).selected) > b.maxTokens
      <==> SumTokens(m.selected) > b.maxTokens || MeetsTooDense(m, Required(items, false), b)
  {
    hide Pack, MeetsTooDense;
    AllocationBounds(items, b);
    PackOverflowsIff(Mandatory(items, b), Required(items, false), b);
  }

  // ---------------------------------------------------------------- when the tokens are safe

  ghost predicate Dense(s: Packing) { 20 * s.tokens <= 13 * s.chars + 31 * |s.selected| }

  lemma {:induction false} SumsAreDense(items: seq<Item>)
    requires AllMeasured(items)
    ensures 20 * SumTokens(items) <= 13 * SumChars(items) + 31 * |items|
    decreases |items|
  {
    if items != [] {
      EstimateBound(items[0].content);
      assert Measured(items[0]);
      SumsAreDense(items[1..]);
    }
  }

  lemma {:induction false} PackStaysDense(s: Packing, optional: seq<Item>, b: Budget)
    requires Dense(s) && AllMeasured(optional)
    ensures Dense(Pack(s, optional, b))
    decreases |optional|
  {
    hide EstimateTokens;
    if optional != [] && !Stops(s, b) {
      var it := optional[0];
      assert Measured(it);
      EstimateBound(it.content);
      if !Fits(s, it, b) && MayCut(s, it, b) {
        EstimateBound(Truncate(it, b.maxChars - s.chars - 200).content);
      }
      PackStaysDense(Place(s, it, b), optional[1..], b);
    }
  }

  /**
   If the token limit is generous enough for the other two, and the mandatory items respect those,
   the tokens never exceed their limit, cut or no cut.
   */
  lemma {:induction false} TokensSafe(items: seq<Item>, b: Budget)
    requires AllMeasured(items)
    requires 20 * b.maxTokens >= 13 * b.maxChars + 31 * b.maxItems
    requires var m := Mandatory(items, b); SumChars(m.selected) <= b.maxChars && |m.selected| <= b.maxItems
    ensures SumTokens(Allocate(items, b).selected) <= b.maxTokens
  {
    var m := Mandatory(items, b);
    RequiredAreGiven(items, true);
    RequiredAreGiven(items, false);
    SumsAreDense(m.selected);
    PackStaysDense(m, Required(items, false), b);
    AllocationBounds(items, b);
  }

  // ---------------------------------------------------------------- without that condition

  function Words(n: nat): string {
    if n == 0 then "" else "a " + Words(n - 1)
  }

  lemma {:induction false} WordsLength(n: nat)
    ensures |Words(n)| == 2 * n && WordCount(Words(n)) == n
    decreases n
  {
    if n > 0 {
      WordsLength(n - 1);
      var w := Words(n);
      var v := w[1..];
      assert w[0] == 'a' && v[0] == ' ' && v[1..] == Words(n - 1);
      assert !IsSpace('a') && IsSpace(' ');
      assert WordsFrom(w, false) == 1 + WordsFrom(v, true);
      assert WordsFrom(v, true) == WordsFrom(v[1..], false);
    }
  }

  /** A hard limit fails: a thousand short words come to 1300 tokens, and are selected under a limit of 200. */
  lemma {:induction false} TokenLimitCanFail()
    ensures var it := Item("f", RepositoryFile, "f", Words(1000), false, 0.0, 1300, 2000, "c");
      && Measured(it)
      && SumTokens(Allocate([it], Budget(200, 16000, 25)).selected) >= 1300
  {
    hide Words, EstimateTokens, SumTokens;
    WordsLength(1000);
    var text := Words(1000);
    ThousandWords(text);
    var it := Item("f", RepositoryFile, "f", text, false, 0.0, 1300, 2000, "c");
    var b := Budget(200, 16000, 25);
    var m := Mandatory([it], b);
    assert Required([it], true) == [] && Required([it], false) == [it] by {
      assert [it][1..] == [];
    }
    SumOfNothing();
    assert m == Packing([], 0, 0, [], false);
    assert !Fits(m, it, b) && MayCut(m, it, b);
    var x := Truncate(it, 15800);
    assert x.content == text + MARK;
    EstimateGrows(text, MARK);
    assert Place(m, it, b).selected == [x];
    PackUnfolds(m, [it], b);
    PackOfNothing(Place(m, it, b), b);
    assert [it][1..] == [];
    SumSnoc([], x);
    assert [] + [x] == [x];
  }

  lemma {:induction false} ThousandWords(text: string)
    requires |text| == 2000 && WordCount(text) == 1000
    ensures EstimateTokens(text) == 1300
  {}

  // ---------------------------------------------------------------- what is selected

  /** `xs` are some of the items of `from`, in their order, each as it was or cut. */
  ghost predicate InOrder(xs: seq<Item>, from: seq<Item>)
    decreases |from|
  {
    || xs == []
    || (from != [] && xs != [] && (xs[0] == from[0] || IsCutOf(xs[0], from[0])) && InOrder(xs[1..], from[1..]))
    || (from != [] && InOrder(xs, from[1..]))
  }

  /** Taken, taken cut, or too big for what is left in the end. */
  ghost predicate TakenOrTooBig(it: Item, r: Packing, b: Budget) {
    || it in r.selected
    || (exists x :: x in r.selected && IsCutOf(x, it))
    || !Fits(r, it, b)
  }

  lemma {:induction false} PackPicks(s: Packing, optional: seq<Item>, b: Budget)
    returns (picked: seq<Item>)
    requires !s.stopped
    ensures Pack(s, optional, b).selected == s.selected + picked && InOrder(picked, optional)
    ensures var r := Pack(s, optional, b);
      if r.stopped then Stops(r, b) else forall it :: it in optional ==> TakenOrTooBig(it, r, b)
    ensures s.tokens <= Pack(s, optional, b).tokens && s.chars <= Pack(s, optional, b).chars
    decreases |optional|
  {
    hide EstimateTokens, Truncate;
    picked := [];
    if optional != [] && !Stops(s, b) {
      var it, rest := optional[0], optional[1..];
      var s' := Place(s, it, b);
      PlaceExtends(s, it, b);
      var tail := PackPicks(s', rest, b);
      var r := Pack(s, optional, b);
      if |s'.selected| > |s.selected| {
        var x := s'.selected[|s.selected|];
        picked := [x] + tail;
        assert s.selected + picked == s'.selected + tail;
        assert x == it || IsCutOf(x, it);
        assert picked[1..] == tail;
        assert x in r.selected;
      } else {
        picked := tail;
      }
      assert TakenOrTooBig(it, r, b);
      assert optional == [it] + rest;
    } else if optional == [] {
      assert s.selected + [] == s.selected;
    } else {
      assert s.selected + [] == s.selected;
    }
  }

  /** The mandatory items all come first; then optional ones in their order, none skipped that would still fit. */
  lemma {:induction false} SelectionIsGreedy(items: seq<Item>, b: Budget)
    ensures var r, n := Allocate(items, b), |Required(items, true)|;
      && n <= |r.selected| && r.selected[..n] == Required(items, true)
      && InOrder(r.selected[n..], Required(items, false))
      && (if r.stopped then Stops(r, b)
          else forall it :: it in Required(items, false) ==> TakenOrTooBig(it, r, b))
  {
    var picked := PackPicks(Mandatory(items, b), Required(items, false), b);
    assert Allocate(items, b).selected[|Required(items, true)|..] == picked;
  }
}
