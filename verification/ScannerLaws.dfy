/**
 What the brace scan promises about every text: its decomposition is the only one of its shape,
 nothing is lost, a second scan finds nothing more, and an object is found exactly when the text
 before it leaves no brace open.
 */
module ScannerLaws {
  import opened Wrappers
  import opened BraceScanner
  import opened ScanPositions

  predicate NoBrace(t: string) { '{' !in t }

  /** A text that opens with a brace and closes it with its last character, not before. */
  ghost predicate IsObject(o: string) {
    o != "" && o[0] == '{' && IsBlock(o, |o|)
  }

  /** Every object closes at its own end, no brace stands in the prose, and the rest opens nothing that closes. */
  ghost predicate IsDecomposition(ps: Pieces) {
    match ps
    case Rest(tail) => NextBlock(tail) == None
    case Found(prose, obj, rest) => NoBrace(prose) && IsObject(obj) && IsDecomposition(rest)
  }

  // ---------------------------------------------------------------- one block

  lemma BraceAfterProse(p: string, s: string)
    requires NoBrace(p)
    ensures FirstBrace(p + s) == |p| + FirstBrace(s)
  {
    var t := p + s;
    assert forall i :: 0 <= i < |p| ==> t[i] == p[i] && p[i] in p;
    assert forall i :: |p| <= i < |t| ==> t[i] == s[i - |p|];
    assert FirstBrace(s) < |s| ==> t[|p| + FirstBrace(s)] == '{';
    assert FirstBrace(t) >= |p|;
  }

  /** Text after the first brace does not move it. */
  lemma BraceSurvivesAppend(p: string, s: string)
    requires FirstBrace(p) < |p|
    ensures FirstBrace(p + s) == FirstBrace(p)
    ensures (p + s)[FirstBrace(p)..] == p[FirstBrace(p)..] + s
  {
    var t := p + s;
    assert forall i :: 0 <= i < |p| ==> t[i] == p[i];
    assert FirstBrace(t) >= FirstBrace(p);
    assert t[FirstBrace(p)] == '{';
  }

  /** Prose in front moves the next block along and changes nothing else. */
  lemma BlockAfterProse(p: string, s: string)
    requires NoBrace(p)
    ensures NextBlock(p + s)
         == match NextBlock(s) case None => None case Some(sp) => Some(Span(|p| + sp.start, sp.length))
  {
    BraceAfterProse(p, s);
    assert (p + s)[|p| + FirstBrace(s)..] == s[FirstBrace(s)..];
  }

  /** An object at the front is found, whatever follows it. */
  lemma ObjectIsNextBlock(p: string, o: string, s: string)
    requires NoBrace(p) && IsObject(o)
    ensures NextBlock(p + o + s) == Some(Span(|p|, |o|))
  {
    var t := o + s;
    assert p + o + s == p + t;
    assert FirstBrace(t) == 0;
    assert t[0..] == t && t[..|o|] == o && o[..|o|] == o;
    BlockIsLocal(o, t, |o|);
    BlockIsUnique(t, |o|);
    BlockAfterProse(p, t);
  }

  /** Text after a block does not change where it closes. */
  lemma BlockSurvivesAppend(p: string, s: string)
    requires NextBlock(p).Some?
    ensures NextBlock(p + s) == NextBlock(p)
  {
    var Span(b, n) := NextBlock(p).value;
    var o := p[b..b + n];
    BlockText(p);
    assert p + s == p[..b] + o + (p[b + n..] + s);
    ObjectIsNextBlock(p[..b], o, p[b + n..] + s);
  }

  lemma BlockText(t: string)
    requires NextBlock(t).Some?
    ensures var Span(b, n) := NextBlock(t).value; NoBrace(t[..b]) && IsObject(t[b..b + n])
  {
    var Span(b, n) := NextBlock(t).value;
    var o := t[b..b + n];
    assert t[b..][..n] == o == o[..n];
    BlockIsLocal(t[b..], o, n);
  }

  // ---------------------------------------------------------------- the decomposition

  lemma {:induction false} SplitDecomposes(t: string)
    ensures IsDecomposition(Split(t)) && Whole(Split(t)) == t
    decreases |t|
  {
    hide NextBlock, Block, IsBlock, Run, FirstBrace;
    match NextBlock(t)
    case None =>
    case Some(Span(b, n)) =>
      BlockText(t);
      SplitDecomposes(t[b + n..]);
      assert t[..b] + t[b..b + n] + t[b + n..] == t;
  }

  /** The pieces of a text are the only decomposition that joins up to it. */
  lemma {:induction false} SplitIsUnique(t: string, ps: Pieces)
    ensures ps == Split(t) <==> IsDecomposition(ps) && Whole(ps) == t
    decreases ps
  {
    hide NextBlock, Block, IsBlock, Run, FirstBrace;
    SplitDecomposes(t);
    if IsDecomposition(ps) && Whole(ps) == t && ps.Found? {
      var Found(p, o, rest) := ps;
      ObjectIsNextBlock(p, o, Whole(rest));
      assert t[..|p|] == p && t[|p|..|p| + |o|] == o && t[|p| + |o|..] == Whole(rest);
      SplitIsUnique(Whole(rest), rest);
    }
  }

  /** The same in terms of counts: of braces that are unescaped and outside strings. */
  ghost predicate TilesByCounts(ps: Pieces) {
    match ps
    case Rest(tail) =>
      forall b :: 0 <= b < |tail| && tail[b] == '{' && NoBrace(tail[..b]) ==> forall n :: !ClosesAt(tail[b..], n)
    case Found(prose, obj, rest) =>
      NoBrace(prose) && obj != "" && obj[0] == '{' && ClosesAt(obj, |obj|) && TilesByCounts(rest)
  }

  /** The pieces of a text, by counts alone. */
  lemma {:induction false} SplitByCounts(t: string, ps: Pieces)
    ensures ps == Split(t) <==> TilesByCounts(ps) && Whole(ps) == t
  {
    SplitIsUnique(t, ps);
    DecompositionByCounts(ps);
  }

  lemma {:induction false} DecompositionByCounts(ps: Pieces)
    ensures IsDecomposition(ps) <==> TilesByCounts(ps)
    decreases ps
  {
    hide IsBlock, ClosesAt, Block;
    match ps
    case Rest(tail) =>
      var b := FirstBrace(tail);
      if b < |tail| {
        BlockCloses(tail[b..]);
        assert NoBrace(tail[..b]);
        forall k | b < k <= |tail| ensures !NoBrace(tail[..k]) {
          assert tail[..k][b] == '{';
        }
      }
    case Found(_, obj, rest) =>
      if obj != "" && obj[0] == '{' {
        BlockIffCloses(obj, |obj|);
      }
      DecompositionByCounts(rest);
  }

  /** Kept text and payloads together have as many characters as the text. */
  lemma {:induction false} NothingIsLost(t: string, isTool: string -> bool)
    ensures Whole(Split(t)) == t
    ensures |Narrative(t, isTool)| + |Joined(Extracted(t, isTool))| == |t|
  {
    SplitDecomposes(t);
    LengthsAddUp(Split(t), isTool);
  }

  function Joined(ss: seq<string>): string {
    if ss == [] then "" else ss[0] + Joined(ss[1..])
  }

  lemma {:induction false} LengthsAddUp(ps: Pieces, isTool: string -> bool)
    ensures |Kept(ps, isTool)| + |Joined(Payloads(ps, isTool))| == |Whole(ps)|
    decreases ps
  {
    match ps
    case Rest(_) =>
    case Found(_, obj, rest) =>
      LengthsAddUp(rest, isTool);
      if isTool(obj) {
        assert Payloads(ps, isTool) == [obj] + Payloads(rest, isTool);
        assert Payloads(ps, isTool)[1..] == Payloads(rest, isTool);
      } else {
        assert Payloads(ps, isTool) == Payloads(rest, isTool);
      }
  }

  /** Every payload is a balanced object that the payload test accepts. */
  lemma {:induction false} PayloadsAreObjects(t: string, isTool: string -> bool)
    ensures forall o :: o in Extracted(t, isTool) ==> IsObject(o) && isTool(o)
    decreases |t|
  {
    hide NextBlock, Block, IsBlock, Run, FirstBrace;
    if NextBlock(t).Some? {
      var Span(b, n) := NextBlock(t).value;
      BlockText(t);
      PayloadsAreObjects(t[b + n..], isTool);
    }
  }

  // ---------------------------------------------------------------- scanning again

  function Prepend(p: string, ps: Pieces): Pieces {
    match ps
    case Rest(tail) => Rest(p + tail)
    case Found(prose, obj, rest) => Found(p + prose, obj, rest)
  }

  /** The pieces without their payloads, the prose on both sides of a payload run together. */
  function Cleaned(ps: Pieces, isTool: string -> bool): Pieces {
    match ps
    case Rest(_) => ps
    case Found(prose, obj, rest) =>
      if isTool(obj) then Prepend(prose, Cleaned(rest, isTool)) else Found(prose, obj, Cleaned(rest, isTool))
  }

  lemma PrependDecomposes(p: string, ps: Pieces, isTool: string -> bool)
    requires NoBrace(p) && IsDecomposition(ps)
    ensures IsDecomposition(Prepend(p, ps)) && Whole(Prepend(p, ps)) == p + Whole(ps)
    ensures Kept(Prepend(p, ps), isTool) == p + Kept(ps, isTool)
    ensures Payloads(Prepend(p, ps), isTool) == Payloads(ps, isTool)
  {
    hide NextBlock, Block, IsBlock, Run, FirstBrace;
    match ps
    case Rest(tail) => BlockAfterProse(p, tail);
    case Found(_, _, _) =>
  }

  lemma {:induction false} CleanedDecomposes(ps: Pieces, isTool: string -> bool)
    requires IsDecomposition(ps)
    ensures var c := Cleaned(ps, isTool);
      IsDecomposition(c) && Whole(c) == Kept(ps, isTool) == Kept(c, isTool) && Payloads(c, isTool) == []
    decreases ps
  {
    hide NextBlock, Block, IsBlock, Run, FirstBrace;
    match ps
    case Rest(_) =>
    case Found(prose, obj, rest) =>
      CleanedDecomposes(rest, isTool);
      if isTool(obj) {
        PrependDecomposes(prose, Cleaned(rest, isTool), isTool);
      }
  }

  /**
   Scanning the narrative again takes it apart into the very pieces that were kept: no payload
   is found in it, also not across the places where payloads stood, and nothing changes.
   */
  lemma RescanFindsNothing(t: string, isTool: string -> bool)
    ensures Split(Narrative(t, isTool)) == Cleaned(Split(t), isTool)
    ensures Narrative(Narrative(t, isTool), isTool) == Narrative(t, isTool)
    ensures Extracted(Narrative(t, isTool), isTool) == []
  {
    SplitDecomposes(t);
    CleanedDecomposes(Split(t), isTool);
    SplitIsUnique(Narrative(t, isTool), Cleaned(Split(t), isTool));
  }

  // ---------------------------------------------------------------- texts in two parts

  /** The scan of `p` ends outside every object: each brace it opened has been closed. */
  ghost predicate Settled(p: string)
    decreases |p|
  {
    match NextBlock(p)
    case None => NoBrace(p)
    case Some(Span(b, n)) => Settled(p[b + n..])
  }

  /** After a settled text the scan starts afresh. */
  lemma {:induction false} ScansIndependently(p: string, s: string, isTool: string -> bool)
    requires Settled(p)
    ensures Narrative(p + s, isTool) == Narrative(p, isTool) + Narrative(s, isTool)
    ensures Extracted(p + s, isTool) == Extracted(p, isTool) + Extracted(s, isTool)
    decreases |p|
  {
    hide NextBlock, Block, IsBlock, Run, FirstBrace;
    match NextBlock(p)
    case None =>
      ScansAfterProse(p, s, isTool);
      assert Split(p) == Rest(p);
    case Some(Span(b, n)) =>
      AppendKeepsFirstPiece(p, s);
      ScansIndependently(p[b + n..], s, isTool);
      var front := p[..b] + if isTool(p[b..b + n]) then "" else p[b..b + n];
      assert front + (Narrative(p[b + n..], isTool) + Narrative(s, isTool))
          == (front + Narrative(p[b + n..], isTool)) + Narrative(s, isTool);
  }

  lemma ScansAfterProse(p: string, s: string, isTool: string -> bool)
    requires NoBrace(p)
    ensures Narrative(p + s, isTool) == p + Narrative(s, isTool)
    ensures Extracted(p + s, isTool) == Extracted(s, isTool)
  {
    hide NextBlock, Block, IsBlock, Run, FirstBrace;
    SplitDecomposes(s);
    PrependDecomposes(p, Split(s), isTool);
    SplitIsUnique(p + s, Prepend(p, Split(s)));
  }

  lemma AppendKeepsFirstPiece(p: string, s: string)
    requires NextBlock(p).Some?
    ensures var Span(b, n) := NextBlock(p).value;
      Split(p + s) == Found(p[..b], p[b..b + n], Split(p[b + n..] + s))
  {
    hide NextBlock, Block, IsBlock, Run, FirstBrace;
    var Span(b, n) := NextBlock(p).value;
    BlockSurvivesAppend(p, s);
    assert (p + s)[..b] == p[..b] && (p + s)[b..b + n] == p[b..b + n];
    assert (p + s)[b + n..] == p[b + n..] + s;
  }

  /** The object `o` is one of the pieces, and starts at position `at` of the text. */
  predicate ObjectAt(ps: Pieces, at: int, o: string) {
    match ps
    case Rest(_) => false
    case Found(prose, obj, rest) =>
      (at == |prose| && o == obj) || ObjectAt(rest, at - |prose| - |obj|, o)
  }

  lemma {:induction false} ObjectsStartInside(ps: Pieces, at: int, o: string)
    requires ObjectAt(ps, at, o)
    ensures at >= 0
    decreases ps
  {
    if !(at == |ps.prose| && o == ps.obj) {
      ObjectsStartInside(ps.rest, at - |ps.prose| - |ps.obj|, o);
    }
  }

  /**
   An object inside a text is recognised as such if and only if the text before it is settled.
   So a payload behind a brace left open by the prose stays in the narrative.
   */
  lemma {:induction false} FoundIffSettled(p: string, o: string, s: string)
    requires IsObject(o)
    ensures ObjectAt(Split(p + (o + s)), |p|, o) <==> Settled(p)
    decreases |p|
  {
    hide NextBlock, Block, IsBlock, Run, FirstBrace;
    match NextBlock(p)
    case Some(Span(b, n)) =>
      AppendKeepsFirstPiece(p, o + s);
      FoundIffSettled(p[b + n..], o, s);
    case None =>
      if NoBrace(p) {
        FoundAfterProse(p, o, s);
      } else {
        NotFoundInside(p, o, s);
      }
  }

  lemma FoundAfterProse(p: string, o: string, s: string)
    requires NoBrace(p) && IsObject(o)
    ensures ObjectAt(Split(p + (o + s)), |p|, o)
  {
    hide NextBlock, Block, IsBlock, Run, FirstBrace;
    var t := p + (o + s);
    assert t == p + o + s;
    ObjectIsNextBlock(p, o, s);
    assert t[..|p|] == p && t[|p|..|p| + |o|] == o;
  }

  lemma NotFoundInside(p: string, o: string, s: string)
    requires NextBlock(p) == None && !NoBrace(p)
    ensures !ObjectAt(Split(p + (o + s)), |p|, o)
  {
    hide NextBlock, Block, IsBlock, Run, FirstBrace;
    var t := p + (o + s);
    OpenBlockSwallows(p, o + s);
    if NextBlock(t).Some? && ObjectAt(Split(t), |p|, o) {
      var Span(b, n) := NextBlock(t).value;
      ObjectsStartInside(Split(t[b + n..]), |p| - b - n, o);
    }
  }

  /** If `p` leaves an object open, the next block of `p + s` starts in `p` and ends in `s`, if anywhere. */
  lemma OpenBlockSwallows(p: string, s: string)
    requires NextBlock(p) == None && !NoBrace(p)
    ensures NextBlock(p + s).Some? ==>
      var Span(b, n) := NextBlock(p + s).value; b < |p| < b + n
  {
    var b := FirstBrace(p);
    assert b < |p|;
    BraceSurvivesAppend(p, s);
    if NextBlock(p + s).Some? {
      var n := NextBlock(p + s).value.length;
      if n <= |p| - b {
        assert (p[b..] + s)[..n] == p[b..][..n];
        BlockIsLocal(p[b..] + s, p[b..], n);
      }
    }
  }
}
