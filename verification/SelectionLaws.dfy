/** The allocation step by step and by number: what is left when an item is considered, and what becomes of it. */
module SelectionLaws {
  import opened Wrappers
  import opened Strings
  import opened ContextModel
  import opened BudgetAllocation
  import opened BudgetLaws

  /** The selection and the warnings after some of the optional items. */
  datatype Stage = Stage(selected: seq<Item>, warnings: seq<Warning>)

  function TokensLeft(s: Stage, b: Budget): int { b.maxTokens - SumTokens(s.selected) }

  function CharsLeft(s: Stage, b: Budget): int { b.maxChars - SumChars(s.selected) }

  /** No further item is considered once the item limit is reached or at most 50 tokens are left. */
  predicate BreaksOff(s: Stage, b: Budget) { |s.selected| >= b.maxItems || TokensLeft(s, b) <= 50 }

  /** `x` is `it` cut to 200 characters less than are left, with the notice after it, and measured again. */
  predicate IsCutTo(x: Item, it: Item, chars: int)
    requires chars >= 600
  {
    && x.content == Prefix(it.content, chars - 200) + "\n\n" + "[... Truncated due to context budget limits ...]"
    && x.chars == |x.content| && x.tokens == EstimateTokens(x.content)
    && x.id == it.id && x.source == it.source && x.sourceId == it.sourceId
    && x.required == it.required && x.score == it.score && x.checksum == it.checksum
  }

  /**
   An item that fits is taken; otherwise a file or report is cut, with a warning, while at least 150
   tokens and 600 characters are left; otherwise the item is omitted.
   */
  ghost predicate Considers(s: Stage, it: Item, s': Stage, b: Budget) {
    var tokens, chars, n := TokensLeft(s, b), CharsLeft(s, b), |s.selected|;
    if it.tokens <= tokens && it.chars <= chars then s' == Stage(s.selected + [it], s.warnings)
    else if (it.source == RepositoryFile || it.source == Report) && tokens >= 150 && chars >= 600 then
      && |s'.selected| == n + 1 && s'.selected[..n] == s.selected && IsCutTo(s'.selected[n], it, chars)
      && s'.warnings == s.warnings + [Warning(TruncatedItem, it.id)]
    else s' == s
  }

  /** A run over the first of the optional items, up to the last or to where it breaks off. */
  ghost predicate IsRun(stages: seq<Stage>, optional: seq<Item>, b: Budget) {
    && 1 <= |stages| <= |optional| + 1
    && (forall i :: 0 <= i < |stages| - 1 ==> !BreaksOff(stages[i], b))
    && (forall i :: 0 <= i < |stages| - 1 ==> Considers(stages[i], optional[i], stages[i + 1], b))
    && (|stages| == |optional| + 1 || BreaksOff(stages[|stages| - 1], b))
  }

  lemma {:induction false} PackIsRun(s: Packing, optional: seq<Item>, b: Budget) returns (stages: seq<Stage>)
    requires s.tokens == SumTokens(s.selected) && s.chars == SumChars(s.selected)
    ensures var r := Pack(s, optional, b);
      && IsRun(stages, optional, b) && stages[0] == Stage(s.selected, s.warnings)
      && stages[|stages| - 1] == Stage(r.selected, r.warnings)
    decreases |optional|
  {
    hide SumTokens, SumChars, Place, Considers;
    var stage := Stage(s.selected, s.warnings);
    stages := [stage];
    if optional != [] && !Stops(s, b) {
      var s' := Place(s, optional[0], b);
      PlaceConsiders(s, optional[0], b);
      var later := PackIsRun(s', optional[1..], b);
      stages := [stage] + later;
      forall i | 0 <= i < |stages| - 1
        ensures !BreaksOff(stages[i], b) && Considers(stages[i], optional[i], stages[i + 1], b)
      {
        if i > 0 {
          assert stages[i] == later[i - 1] && stages[i + 1] == later[i] && optional[i] == optional[1..][i - 1];
        }
      }
    }
  }

  lemma {:induction false} PlaceConsiders(s: Packing, it: Item, b: Budget)
    requires s.tokens == SumTokens(s.selected) && s.chars == SumChars(s.selected)
    ensures var s' := Place(s, it, b);
      && s'.tokens == SumTokens(s'.selected) && s'.chars == SumChars(s'.selected)
      && Considers(Stage(s.selected, s.warnings), it, Stage(s'.selected, s'.warnings), b)
  {
    hide SumTokens, SumChars, Truncate, IsCutTo;
    SumSnoc(s.selected, it);
    if !Fits(s, it, b) && MayCut(s, it, b) {
      CutIsCutTo(it, b.maxChars - s.chars);
      SumSnoc(s.selected, Truncate(it, b.maxChars - s.chars - 200));
    }
  }

  lemma {:induction false} CutIsCutTo(it: Item, chars: int)
    requires chars >= 600
    ensures IsCutTo(Truncate(it, chars - 200), it, chars)
  {
    hide EstimateTokens;
    MarkAfter(Prefix(it.content, chars - 200));
  }

  lemma {:induction false} MarkAfter(kept: string)
    ensures kept + MARK == kept + "\n\n" + "[... Truncated due to context budget limits ...]"
  {
    assert MARK == "\n\n" + NOTICE;
    assert kept + ("\n\n" + NOTICE) == kept + "\n\n" + NOTICE;
  }

  /**
   The whole allocation: it starts from the mandatory items, all of them and in their order, with a
   warning exactly if they are too many tokens, and runs over the optional ones.
   */
  lemma {:induction false} AllocationIsRun(items: seq<Item>, b: Budget) returns (stages: seq<Stage>)
    ensures var r, required := Allocate(items, b), Required(items, true);
      && IsRun(stages, Required(items, false), b)
      && stages[0] == Stage(required, if SumTokens(required) > b.maxTokens then [Warning(BudgetExceeded, "")] else [])
      && stages[|stages| - 1] == Stage(r.selected, r.warnings)
  {
    stages := PackIsRun(Mandatory(items, b), Required(items, false), b);
  }

  /** The mandatory and the optional items are those with and without the flag, in their order. */
  lemma {:induction false} RequiredAreThose(items: seq<Item>, flag: bool, it: Item)
    ensures multiset(Required(items, flag))[it] == if it.required == flag then multiset(items)[it] else 0
    ensures InOrder(Required(items, flag), items)
    decreases |items|
  {
    hide IsCutOf;
    if items != [] {
      RequiredAreThose(items[1..], flag, it);
      var rest := Required(items[1..], flag);
      assert multiset(items) == multiset{items[0]} + multiset(items[1..]) by {
        assert items == [items[0]] + items[1..];
      }
      if items[0].required == flag {
        assert Required(items, flag) == [items[0]] + rest && ([items[0]] + rest)[1..] == rest;
      } else {
        assert Required(items, flag) == rest;
      }
    }
  }

  /** What becomes of an item is determined, so there is only one such run. */
  lemma {:induction false} ConsidersOnce(s: Stage, it: Item, s': Stage, s'': Stage, b: Budget)
    requires Considers(s, it, s', b) && Considers(s, it, s'', b)
    ensures s' == s''
  {
    hide EstimateTokens, SumTokens, SumChars;
    if |s'.selected| == |s.selected| + 1 == |s''.selected| {
      assert s'.selected == s.selected + [s'.selected[|s.selected|]];
      assert s''.selected == s.selected + [s''.selected[|s.selected|]];
    }
  }
}
