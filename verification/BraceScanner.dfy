/**
 Step 2 of the message sanitizer: the brace scan that separates a model's text into the
 narrative shown to the user and the tool payloads kept for the execution channel.

 The scan of one object is a fold of `Step` over its characters.  `Split` is the decomposition
 the nested loops compute; the lemmas say that it is the only one of its shape, that nothing is
 lost, that rescanning the kept text finds no further payload, and exactly which payloads are found.
 */
module BraceScanner {
  import opened Wrappers
  import opened ScanPositions

  /** The three variables the inner loop carries from one character to the next. */
  datatype Scan = Scan(depth: int, inString: bool, escape: bool)

  const START := Scan(0, false, false)

  function Step(s: Scan, c: char): Scan {
    if s.escape then s.(escape := false)
    else if c == '\\' then s.(escape := true)
    else if c == '"' then s.(inString := !s.inString)
    else if s.inString then s
    else if c == '{' then s.(depth := s.depth + 1)
    else if c == '}' then s.(depth := s.depth - 1)
    else s
  }

  ghost function Run(s: Scan, t: string): Scan
    decreases |t|
  {
    if t == "" then s else Run(Step(s, t[0]), t[1..])
  }

  /** The first `n` characters of `t` are a balanced block, and no shorter nonempty prefix is one. */
  ghost predicate IsBlock(t: string, n: nat) {
    && 1 <= n <= |t|
    && Run(START, t[..n]).depth == 0
    && forall k :: 1 <= k < n ==> Run(START, t[..k]).depth > 0
  }

  ghost function Block(t: string): (n: Option<nat>)
    ensures n.Some? ==> IsBlock(t, n.value)
    ensures n.None? ==> forall k: nat :: !IsBlock(t, k)
  {
    if exists k: nat :: IsBlock(t, k) then
      var k: nat :| IsBlock(t, k);
      Some(k)
    else
      None
  }

  function FirstBrace(t: string): (b: nat)
    ensures b <= |t|
    ensures forall k :: 0 <= k < b ==> t[k] != '{'
    ensures b < |t| ==> t[b] == '{'
  {
    if t == "" || t[0] == '{' then 0 else 1 + FirstBrace(t[1..])
  }

  /** The first balanced block of the text: where it starts and how long it is. */
  datatype Span = Span(start: nat, length: nat)

  ghost function NextBlock(t: string): (r: Option<Span>)
    ensures r.Some? ==> r.value.start < |t| && 1 <= r.value.length <= |t| - r.value.start
  {
    var b := FirstBrace(t);
    if b == |t| then None
    else
      match Block(t[b..])
      case None => None
      case Some(n) => Some(Span(b, n))
  }

  /**
   A text taken apart: prose and a balanced object in turn, and at the end a rest in which
   no brace opens an object that closes.
   */
  datatype Pieces = Rest(tail: string) | Found(prose: string, obj: string, rest: Pieces)

  ghost function Split(t: string): Pieces
    decreases |t|
  {
    match NextBlock(t)
    case None => Rest(t)
    case Some(Span(b, n)) => Found(t[..b], t[b..b + n], Split(t[b + n..]))
  }

  function Whole(ps: Pieces): string {
    match ps
    case Rest(tail) => tail
    case Found(prose, obj, rest) => prose + obj + Whole(rest)
  }

  /** The narrative: everything but the objects that are tool payloads. */
  function Kept(ps: Pieces, isTool: string -> bool): string {
    match ps
    case Rest(tail) => tail
    case Found(prose, obj, rest) =>
      prose + (if isTool(obj) then "" else obj) + Kept(rest, isTool)
  }

  /** The payloads, in the order in which they stand in the text. */
  function Payloads(ps: Pieces, isTool: string -> bool): seq<string> {
    match ps
    case Rest(_) => []
    case Found(_, obj, rest) =>
      (if isTool(obj) then [obj] else []) + Payloads(rest, isTool)
  }

  ghost function Narrative(t: string, isTool: string -> bool): string { Kept(Split(t), isTool) }

  ghost function Extracted(t: string, isTool: string -> bool): seq<string> { Payloads(Split(t), isTool) }

  // ---------------------------------------------------------------- the scan as a fold

  lemma {:induction false} RunAppend(s: Scan, a: string, b: string)
    ensures Run(s, a + b) == Run(Run(s, a), b)
    decreases |a|
  {
    if a == "" {
      assert a + b == b;
    } else {
      assert (a + b)[1..] == a[1..] + b;
      RunAppend(Step(s, a[0]), a[1..], b);
    }
  }

  lemma RunSnoc(s: Scan, t: string, k: nat)
    requires k < |t|
    ensures Run(s, t[..k + 1]) == Step(Run(s, t[..k]), t[k])
  {
    assert t[..k + 1] == t[..k] + [t[k]];
    RunAppend(s, t[..k], [t[k]]);
    assert Run(Run(s, t[..k]), [t[k]]) == Step(Run(s, t[..k]), t[k]);
  }

  /** The state of the scan after `n` characters, by position. */
  lemma {:induction false} RunCounts(t: string, n: nat)
    requires n <= |t|
    ensures Run(START, t[..n]) == Scan(Depth(t, n), InString(t, n), Escaped(t, n))
    decreases n
  {
    if n > 0 {
      RunCounts(t, n - 1);
      RunSnoc(START, t, n - 1);
    }
  }

  /** A text that opens with a brace is a block exactly up to where the counts are equal for the first time. */
  lemma {:induction false} BlockIffCloses(t: string, n: nat)
    requires t != "" && t[0] == '{'
    ensures IsBlock(t, n) <==> ClosesAt(t, n)
  {
    hide Run, Depth, InString, Escaped;
    forall k: nat | k <= |t| ensures Run(START, t[..k]).depth == Depth(t, k) {
      RunCounts(t, k);
    }
    if ClosesAt(t, n) {
      OpenUntilClosed(t, n);
    }
  }

  lemma BlockIsUnique(t: string, n: nat)
    requires IsBlock(t, n)
    ensures Block(t) == Some(n)
  {
    var k := Block(t).value;
    assert IsBlock(t, k);
    assert n <= k && k <= n;
  }

  /** Whether a block closes at `n` depends on the first `n` characters only. */
  lemma BlockIsLocal(t: string, u: string, n: nat)
    requires n <= |t| && n <= |u| && t[..n] == u[..n]
    ensures IsBlock(t, n) <==> IsBlock(u, n)
  {
    forall k | 1 <= k < n ensures t[..k] == u[..k] {
      assert t[..k] == t[..n][..k] && u[..k] == u[..n][..k];
    }
  }

  /** The state of the scan of `t` after `m` characters, with no balanced block among them. */
  ghost predicate Scanned(t: string, m: nat, s: Scan) {
    && m <= |t|
    && s == Run(START, t[..m])
    && forall k :: 1 <= k <= m ==> Run(START, t[..k]).depth > 0
  }

  lemma ScanStart(t: string)
    ensures Scanned(t, 0, START)
  {}

  lemma ScanNext(t: string, m: nat, s: Scan)
    requires m < |t| && t[0] == '{' && Scanned(t, m, s)
    ensures if m == 0 then s == START else s.depth > 0
    ensures Step(s, t[m]).depth >= 0
    ensures if Step(s, t[m]).depth > 0 then Scanned(t, m + 1, Step(s, t[m])) else Block(t) == Some(m + 1)
  {
    RunSnoc(START, t, m);
    if Step(s, t[m]).depth == 0 {
      assert IsBlock(t, m + 1);
      BlockIsUnique(t, m + 1);
    }
  }

  lemma NeverCloses(t: string, s: Scan)
    requires Scanned(t, |t|, s)
    ensures Block(t) == None
  {}

  // ---------------------------------------------------------------- the loops

  /** The inner loop: the index of the brace that closes the object opened at `start`, or -1. */
  method FindClose(text: string, start: nat) returns (end: int, ghost steps: nat)
    requires start < |text| && text[start] == '{'
    ensures end == -1 || start < end < |text|
    ensures end == -1 ==> Block(text[start..]) == None
    ensures end != -1 ==> Block(text[start..]) == Some(end + 1 - start)
    ensures end == -1 ==> forall n :: !ClosesAt(text[start..], n)
    ensures end != -1 ==> ClosesAt(text[start..], end + 1 - start)
    ensures steps == (if end == -1 then |text| else end + 1) - start
  {
    hide Run, IsBlock, Block, Scanned, ClosesAt;
    ghost var t := text[start..];
    var depth, inString, escape := 0, false, false;
    end := -1;
    steps := 0;
    ScanStart(t);
    for i := start to |text|
      invariant end == -1 && steps == i - start
      invariant Scanned(t, i - start, Scan(depth, inString, escape))
    {
      var c := text[i];
      steps := steps + 1;
      assert c == t[i - start];
      ScanNext(t, i - start, Scan(depth, inString, escape));
      if escape {
        escape := false;
        continue;
      }
      if c == '\\' {
        escape := true;
        continue;
      }
      if c == '"' {
        inString := !inString;
        continue;
      }
      if !inString {
        if c == '{' {
          depth := depth + 1;
        } else if c == '}' {
          depth := depth - 1;
          if depth == 0 {
            end := i;
            break;
          }
        }
      }
    }
    if end == -1 {
      NeverCloses(t, Scan(depth, inString, escape));
    }
    BlockCloses(t);
  }

  /** `Block` is what the counts say. */
  lemma {:induction false} BlockCloses(t: string)
    requires t != "" && t[0] == '{'
    ensures Block(t).None? ==> forall n :: !ClosesAt(t, n)
    ensures Block(t).Some? ==> ClosesAt(t, Block(t).value)
  {
    hide IsBlock, ClosesAt;
    forall n: nat ensures IsBlock(t, n) <==> ClosesAt(t, n) {
      BlockIffCloses(t, n);
    }
  }

  lemma SplitAt(text: string, idx: nat, start: nat, end: nat)
    requires idx <= start <= end < |text| && start == idx + FirstBrace(text[idx..])
    requires Block(text[start..]) == Some(end + 1 - start)
    ensures Split(text[idx..]) == Found(text[idx..start], text[start..end + 1], Split(text[end + 1..]))
  {
    hide IsBlock, Run, FirstBrace;
    assert text[idx..][start - idx..] == text[start..];
    SlicesOfRest(text, idx, start, end);
  }

  lemma SlicesOfRest(text: string, idx: nat, start: nat, end: nat)
    requires idx <= start <= end < |text|
    ensures var rest, b, n := text[idx..], start - idx, end + 1 - start;
      && rest[..b] == text[idx..start]
      && rest[b..b + n] == text[start..end + 1]
      && rest[b + n..] == text[end + 1..]
  {}

  /** `acc` followed by the narrative of `ps`, built up from the left as the loop does. */
  function KeptFrom(acc: string, ps: Pieces, isTool: string -> bool): string
    decreases ps
  {
    match ps
    case Rest(tail) => acc + tail
    case Found(prose, obj, rest) =>
      KeptFrom(if isTool(obj) then acc + prose else acc + prose + obj, rest, isTool)
  }

  function PayloadsFrom(acc: seq<string>, ps: Pieces, isTool: string -> bool): seq<string>
    decreases ps
  {
    match ps
    case Rest(_) => acc
    case Found(_, obj, rest) => PayloadsFrom(if isTool(obj) then acc + [obj] else acc, rest, isTool)
  }

  lemma {:induction false} FromTheLeft(acc: string, tools: seq<string>, ps: Pieces, isTool: string -> bool)
    ensures KeptFrom(acc, ps, isTool) == acc + Kept(ps, isTool)
    ensures PayloadsFrom(tools, ps, isTool) == tools + Payloads(ps, isTool)
    decreases ps
  {
    match ps
    case Rest(_) =>
    case Found(prose, obj, rest) =>
      FromTheLeft(if isTool(obj) then acc + prose else acc + prose + obj,
                  if isTool(obj) then tools + [obj] else tools, rest, isTool);
  }

  /** What remains to be done at `idx` completes what has been collected to the result for the text. */
  ghost predicate OnTrack(narrative: string, tools: seq<string>, text: string, idx: nat, isTool: string -> bool)
    requires idx <= |text|
  {
    && KeptFrom(narrative, Split(text[idx..]), isTool) == KeptFrom("", Split(text), isTool)
    && PayloadsFrom(tools, Split(text[idx..]), isTool) == PayloadsFrom([], Split(text), isTool)
  }

  lemma AtStart(text: string, isTool: string -> bool)
    ensures OnTrack("", [], text, 0, isTool)
  {
    assert text[0..] == text;
  }

  lemma AfterBlock(narrative: string, tools: seq<string>, text: string, idx: nat, start: nat, end: nat,
                   isTool: string -> bool)
    requires idx <= start <= end < |text| && start == idx + FirstBrace(text[idx..])
    requires Block(text[start..]) == Some(end + 1 - start)
    requires OnTrack(narrative, tools, text, idx, isTool)
    ensures var o := text[start..end + 1];
      if isTool(o) then OnTrack(narrative + text[idx..start], tools + [o], text, end + 1, isTool)
      else OnTrack(narrative + text[idx..start] + o, tools, text, end + 1, isTool)
  {
    SplitAt(text, idx, start, end);
  }

  lemma NothingMore(text: string, idx: nat)
    requires idx <= |text|
    requires FirstBrace(text[idx..]) < |text[idx..]| ==> Block(text[idx + FirstBrace(text[idx..])..]) == None
    ensures Split(text[idx..]) == Rest(text[idx..])
  {
    hide IsBlock, Run, FirstBrace;
    var b := FirstBrace(text[idx..]);
    assert text[idx..][b..] == text[idx + b..];
  }

  lemma FromNothing(ps: Pieces, isTool: string -> bool)
    ensures KeptFrom("", ps, isTool) == Kept(ps, isTool) && PayloadsFrom([], ps, isTool) == Payloads(ps, isTool)
  {
    hide KeptFrom, PayloadsFrom, Kept, Payloads;
    FromTheLeft("", [], ps, isTool);
    assert "" + Kept(ps, isTool) == Kept(ps, isTool);
    assert [] + Payloads(ps, isTool) == Payloads(ps, isTool);
  }

  /** The rest of the text is kept once no block is found in it. */
  lemma AtEnd(narrative: string, tools: seq<string>, text: string, idx: nat, isTool: string -> bool)
    requires idx <= |text| && OnTrack(narrative, tools, text, idx, isTool)
    requires FirstBrace(text[idx..]) < |text[idx..]| ==> Block(text[idx + FirstBrace(text[idx..])..]) == None
    ensures narrative + text[idx..] == Narrative(text, isTool)
    ensures tools == Extracted(text, isTool)
  {
    hide IsBlock, Run, Block, FirstBrace, NextBlock, Split, Kept, Payloads;
    NothingMore(text, idx);
    FromNothing(Split(text), isTool);
  }

  /**
   The whole of step 2.  `isTool` stands for the JSON parse and the payload test; the list of
   kept segments is held joined.
   */
  method ExtractPayloads(text: string, isTool: string -> bool)
    returns (narrative: string, tools: seq<string>, ghost steps: nat)
    ensures narrative == Narrative(text, isTool)
    ensures tools == Extracted(text, isTool)
    ensures steps <= |text|
  {
    hide *;
    narrative, tools, steps := "", [], 0;
    var idx := 0;
    AtStart(text, isTool);
    while idx < |text|
      invariant 0 <= idx <= |text|
      invariant OnTrack(narrative, tools, text, idx, isTool)
      invariant steps <= idx
    {
      var startBrace := idx + FirstBrace(text[idx..]);
      if startBrace == |text| {
        AtEnd(narrative, tools, text, idx, isTool);
        narrative := narrative + text[idx..];
        return;
      }
      var endBrace, used := FindClose(text, startBrace);
      steps := steps + used;
      if endBrace != -1 {
        var candidate := text[startBrace..endBrace + 1];
        AfterBlock(narrative, tools, text, idx, startBrace, endBrace, isTool);
        narrative := narrative + text[idx..startBrace];
        if isTool(candidate) {
          tools := tools + [candidate];
        } else {
          narrative := narrative + candidate;
        }
        idx := endBrace + 1;
      } else {
        AtEnd(narrative, tools, text, idx, isTool);
        assert text[idx..startBrace] + text[startBrace..] == text[idx..];
        narrative := narrative + (text[idx..startBrace] + text[startBrace..]);
        return;
      }
    }
    assert text[idx..] == "" && narrative + text[idx..] == narrative;
    AtEnd(narrative, tools, text, idx, isTool);
  }
}
