/** Greedy packing of ranked items under three budgets at once, with one way to cut an item short. */
module BudgetAllocation {
  import opened ContextModel

  const NOTICE := "[... Truncated due to context budget limits ...]"
  const MARK := "\n\n" + NOTICE

  /** What the loop carries: the selection, its two running totals, the warnings, and whether it broke off. */
  datatype Packing = Packing(selected: seq<Item>, tokens: int, chars: int, warnings: seq<Warning>, stopped: bool)

  function Required(items: seq<Item>, flag: bool): seq<Item> {
    if items == [] then []
    else (if items[0].required == flag then [items[0]] else []) + Required(items[1..], flag)
  }

  function SumTokens(items: seq<Item>): nat {
    if items == [] then 0 else items[0].tokens + SumTokens(items[1..])
  }

  function SumChars(items: seq<Item>): nat {
    if items == [] then 0 else items[0].chars + SumChars(items[1..])
  }

  function Truncate(it: Item, limit: nat): Item {
    var content := (if limit <= |it.content| then it.content[..limit] else it.content) + MARK;
    it.(content := content, chars := |content|, tokens := EstimateTokens(content))
  }

  predicate Fits(s: Packing, it: Item, b: Budget) {
    it.tokens <= b.maxTokens - s.tokens && it.chars <= b.maxChars - s.chars
  }

  /** The item is long enough, of a kind that may be cut, and enough of both budgets is left. */
  predicate MayCut(s: Packing, it: Item, b: Budget) {
    && it.source in {RepositoryFile, Report}
    && b.maxTokens - s.tokens >= 150
    && b.maxChars - s.chars - 200 >= 400
  }

  function Add(s: Packing, it: Item): Packing {
    s.(selected := s.selected + [it], tokens := s.tokens + it.tokens, chars := s.chars + it.chars)
  }

  function Place(s: Packing, it: Item, b: Budget): Packing {
    if Fits(s, it, b) then Add(s, it)
    else if MayCut(s, it, b) then
      Add(s, Truncate(it, b.maxChars - s.chars - 200)).(warnings := s.warnings + [Warning(TruncatedItem, it.id)])
    else s
  }

  predicate Stops(s: Packing, b: Budget) {
    |s.selected| >= b.maxItems || b.maxTokens - s.tokens <= 50
  }

  function Pack(s: Packing, optional: seq<Item>, b: Budget): Packing
    decreases |optional|
  {
    if optional == [] then s
    else if Stops(s, b) then s.(stopped := true)
    else Pack(Place(s, optional[0], b), optional[1..], b)
  }

  function Mandatory(items: seq<Item>, b: Budget): Packing {
    var required := Required(items, true);
    Packing(required, SumTokens(required), SumChars(required),
            if SumTokens(required) > b.maxTokens then [Warning(BudgetExceeded, "")] else [], false)
  }

  function Allocate(items: seq<Item>, b: Budget): Packing {
    Pack(Mandatory(items, b), Required(items, false), b)
  }

  // ---------------------------------------------------------------- the loops

  function RequiredObjects(items: seq<ContextItem>, flag: bool): seq<ContextItem> {
    if items == [] then []
    else (if items[0].required == flag then [items[0]] else []) + RequiredObjects(items[1..], flag)
  }

  lemma {:induction false} RequiredObjectsValues(items: seq<ContextItem>, flag: bool)
    ensures Values(RequiredObjects(items, flag)) == Required(Values(items), flag)
    decreases |items|
  {
    if items != [] {
      RequiredObjectsValues(items[1..], flag);
      var rest := RequiredObjects(items[1..], flag);
      assert Values(items) == [items[0].Value()] + Values(items[1..]);
      assert Values(items)[1..] == Values(items[1..]);
      if items[0].required == flag {
        assert ([items[0]] + rest)[1..] == rest;
        assert Values([items[0]] + rest) == [items[0].Value()] + Values(rest);
      }
    }
  }

  lemma {:induction false} RequiredObjectsDiffer(items: seq<ContextItem>, flag: bool)
    requires forall i, j :: 0 <= i < j < |items| ==> items[i] != items[j]
    ensures var r := RequiredObjects(items, flag);
      && (forall x :: x in r ==> x in items && x.required == flag)
      && forall i, j :: 0 <= i < j < |r| ==> r[i] != r[j]
    decreases |items|
  {
    if items != [] {
      RequiredObjectsDiffer(items[1..], flag);
      assert forall x :: x in items[1..] ==> x in items && x != items[0];
    }
  }

  lemma {:induction false} SumSnoc(items: seq<Item>, it: Item)
    ensures SumTokens(items + [it]) == SumTokens(items) + it.tokens
    ensures SumChars(items + [it]) == SumChars(items) + it.chars
    decreases |items|
  {
    if items != [] {
      assert (items + [it])[1..] == items[1..] + [it];
      SumSnoc(items[1..], it);
    }
  }

  /** Step 1: all mandatory items, whatever they cost. */
  method AddMandatory(items: seq<ContextItem>) returns (tokens: nat, chars: nat)
    ensures tokens == SumTokens(Values(items)) && chars == SumChars(Values(items))
  {
    hide Values, SumTokens, SumChars;
    tokens, chars := 0, 0;
    ghost var vs := Values(items);
    SumOfNothing();
    assert vs[..0] == [];
    for i := 0 to |items|
      invariant tokens == SumTokens(vs[..i]) && chars == SumChars(vs[..i])
    {
      assert vs[i] == items[i].Value() && vs[..i + 1] == vs[..i] + [vs[i]];
      SumSnoc(vs[..i], vs[i]);
      tokens := tokens + items[i].tokenEstimate;
      chars := chars + items[i].characterCount;
    }
    assert vs[..|items|] == vs;
  }

  /** The item object itself is shortened and marked, and measured again. */
  method Cut(item: ContextItem, limit: nat)
    modifies item
    ensures item.Value() == Truncate(old(item.Value()), limit)
  {
    var content := (if limit <= |item.content| then item.content[..limit] else item.content) + MARK;
    item.content := content;
    item.characterCount := |content|;
    item.tokenEstimate := EstimateTokens(content);
  }

  /** Whether an optional item is taken as it is, cut to what is left, or omitted. */
  method Offer(item: ContextItem, remainingTokens: int, remainingChars: int) returns (placed: bool, cut: bool)
    modifies item
    ensures var fits := old(item.tokenEstimate) <= remainingTokens && old(item.characterCount) <= remainingChars;
      && cut == (!fits && item.source in {RepositoryFile, Report}
                 && remainingTokens >= 150 && remainingChars - 200 >= 400)
      && placed == (fits || cut)
    ensures item.Value() == if cut then Truncate(old(item.Value()), remainingChars - 200) else old(item.Value())
  {
    placed, cut := false, false;
    if item.tokenEstimate <= remainingTokens && item.characterCount <= remainingChars {
      placed := true;
    } else if item.source in {RepositoryFile, Report} && remainingTokens >= 150 {
      var truncatedCharLimit := remainingChars - 200;
      if truncatedCharLimit >= 400 {
        Cut(item, truncatedCharLimit);
        placed, cut := true, true;
      }
    }
  }

  /** Steps 1 and 2: the mandatory items, then optional ones in ranked order while the budgets last. */
  method AllocateBudget(items: seq<ContextItem>, budget: Budget)
    returns (selected: seq<ContextItem>, warnings: seq<Warning>)
    requires forall i, j :: 0 <= i < j < |items| ==> items[i] != items[j]
    modifies items
    ensures Values(selected) == Allocate(old(Values(items)), budget).selected
    ensures warnings == Allocate(old(Values(items)), budget).warnings
    ensures forall x :: x in selected ==> x in items
    ensures forall x :: x in items && x !in selected ==> x.Value() == old(x.Value())
  {
    hide Values, Required, SumTokens, SumChars, Pack, RequiredObjects, EstimateTokens, Truncate;
    ghost var goal := Allocate(Values(items), budget);
    ghost var s := Mandatory(Values(items), budget);
    var mandatoryItems, optionalItems := RequiredObjects(items, true), RequiredObjects(items, false);
    RequiredObjectsValues(items, true);
    RequiredObjectsValues(items, false);
    RequiredObjectsDiffer(items, true);
    RequiredObjectsDiffer(items, false);
    ghost var optional := Values(optionalItems);
    var currentTokens, currentChars := AddMandatory(mandatoryItems);
    selected := mandatoryItems;
    warnings := if currentTokens > budget.maxTokens then [Warning(BudgetExceeded, "")] else [];
    assert optional[0..] == optional;
    for i := 0 to |optionalItems|
      invariant Pack(s, optional[i..], budget) == goal
      invariant Values(selected) == s.selected && warnings == s.warnings
      invariant currentTokens == s.tokens && currentChars == s.chars && !s.stopped
      invariant forall j :: i <= j < |optionalItems| ==> optionalItems[j].Value() == optional[j]
      invariant forall x :: x in selected ==> x in mandatoryItems || x in optionalItems[..i]
      invariant forall x :: x in items && x !in selected ==> x.Value() == old(x.Value())
    {
      PackUnfolds(s, optional[i..], budget);
      if |selected| >= budget.maxItems {
        s := s.(stopped := true);
        break;
      }
      var remainingTokens := budget.maxTokens - currentTokens;
      var remainingChars := budget.maxChars - currentChars;
      if remainingTokens <= 50 {
        s := s.(stopped := true);
        break;
      }
      var item := optionalItems[i];
      assert optional[i..][0] == optional[i] == item.Value() && optional[i..][1..] == optional[i + 1..];
      ghost var before := s.selected;
      s := Place(s, optional[i], budget);
      assert optionalItems[..i + 1] == optionalItems[..i] + [item];
      assert forall x :: x in mandatoryItems ==> x != item;
      assert item !in selected;
      var placed, cut := Offer(item, remainingTokens, remainingChars);
      if placed {
        SameValues(selected, before);
        ValuesAppend(selected, item);
        selected := selected + [item];
        currentTokens := currentTokens + item.tokenEstimate;
        currentChars := currentChars + item.characterCount;
      }
      if cut {
        warnings := warnings + [Warning(TruncatedItem, item.id)];
      }
    }
    PackOfNothing(s, budget);
  }

  lemma {:induction false} SumOfNothing()
    ensures SumTokens([]) == 0 && SumChars([]) == 0
  {}

  lemma {:induction false} PackOfNothing(s: Packing, b: Budget)
    ensures Pack(s, [], b) == s
  {}

  lemma {:induction false} PackUnfolds(s: Packing, optional: seq<Item>, b: Budget)
    requires optional != []
    ensures Pack(s, optional, b)
         == if Stops(s, b) then s.(stopped := true) else Pack(Place(s, optional[0], b), optional[1..], b)
  {}

  lemma {:induction false} ValuesAppend(xs: seq<ContextItem>, x: ContextItem)
    ensures Values(xs + [x]) == Values(xs) + [x.Value()]
  {}

  lemma {:induction false} SameValues(xs: seq<ContextItem>, vs: seq<Item>)
    requires |xs| == |vs| && forall i :: 0 <= i < |xs| ==> xs[i].Value() == vs[i]
    ensures Values(xs) == vs
  {}
}
