/** Context items, budgets and the token estimate. */
module ContextModel {
  import opened Wrappers
  import opened Strings

  datatype SourceType =
    | TaskObjective | ExplicitReference | ProjectMap | Architecture | CurrentState | Decision
    | TaskMemory | Report | Issue | RepositoryFile | RecentEvents | ArtifactMetadata

  /** What a context item holds, as a value: the fields the pipeline reads or writes. */
  datatype Item = Item(
    id: string, source: SourceType, sourceId: string, content: string, required: bool,
    score: real, tokens: nat, chars: nat, checksum: string)

  /** Two items with the same key stand for the same source. */
  datatype Key = Key(source: SourceType, sourceId: string)

  function KeyOf(it: Item): Key { Key(it.source, it.sourceId) }

  datatype WarningType = DuplicateRemoved | BudgetExceeded | TruncatedItem

  datatype Warning = Warning(kind: WarningType, target: string)

  datatype Budget = Budget(maxTokens: int, maxChars: int, maxItems: int)

  function CeilDiv(a: nat, b: nat): nat
    requires b > 0
  {
    (a + b - 1) / b
  }

  /** A quarter of the characters or 1.3 times the words, whichever is more, rounded up. */
  function EstimateTokens(text: string): nat {
    if text == "" then 0
    else Max(1, Max(CeilDiv(|text|, 4), CeilDiv(13 * WordCount(text), 10)))
  }

  /** Adding text never makes the estimate smaller. */
  lemma EstimateGrows(a: string, b: string)
    ensures EstimateTokens(a + b) >= EstimateTokens(a)
  {
    WordsGrow(a, b, false);
    var w, w' := 13 * WordCount(a), 13 * WordCount(a + b);
    assert CeilDiv(|a|, 4) <= CeilDiv(|a + b|, 4);
    assert CeilDiv(w, 10) <= CeilDiv(w', 10);
  }

  /** At most 13 tokens for 20 characters, and less than two more for the rounding. */
  lemma EstimateBound(text: string)
    ensures 20 * EstimateTokens(text) <= 13 * |text| + 31
  {
    WordsBound(text, false);
  }

  /** The estimate in terms of what can be counted: characters and words. */
  lemma {:induction false} EstimateExceedsIff(text: string, limit: nat)
    ensures EstimateTokens(text) > limit <==> |text| > 4 * limit || 13 * WordCount(text) > 10 * limit
  {
    assert text == "" ==> WordCount(text) == 0;
  }

  // ---------------------------------------------------------------- the item object

  /** An item as the pipeline passes it around: truncation overwrites the last three fields. */
  class ContextItem {
    const id: string
    const source: SourceType
    const sourceId: string
    const required: bool
    const score: real
    const checksum: string
    var content: string
    var characterCount: nat
    var tokenEstimate: nat

    ghost function Value(): (v: Item)
      reads this
    {
      Item(id, source, sourceId, content, required, score, tokenEstimate, characterCount, checksum)
    }

    /** The counts and the checksum are computed when they are not given. */
    constructor (id: string, source: SourceType, sourceId: string, content: string, required: bool, score: real,
                 tokens: nat, chars: nat, checksum: string, hash: string -> string)
      ensures Value() == Item(id, source, sourceId, content, required, score,
                              if tokens == 0 then EstimateTokens(content) else tokens,
                              if chars == 0 then |content| else chars,
                              if checksum == "" then hash(content) else checksum)
    {
      this.id, this.source, this.sourceId, this.content := id, source, sourceId, content;
      this.required, this.score := required, score;
      characterCount := if chars == 0 then |content| else chars;
      tokenEstimate := if tokens == 0 then EstimateTokens(content) else tokens;
      this.checksum := if checksum == "" then hash(content) else checksum;
    }
  }

  ghost function Values(items: seq<ContextItem>): (vs: seq<Item>)
    reads items
    ensures |vs| == |items|
    ensures forall i :: 0 <= i < |items| ==> vs[i] == items[i].Value()
  {
    if items == [] then [] else [items[0].Value()] + Values(items[1..])
  }

  /** The counts say what the content is, as they do unless the caller gave others. */
  predicate Measured(it: Item) {
    it.chars == |it.content| && it.tokens == EstimateTokens(it.content)
  }
}
