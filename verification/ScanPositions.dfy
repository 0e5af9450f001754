/**
 What the brace scan counts, by position: which characters are escaped, which stand inside a
 string, and how many braces have been opened and closed.
 */
module ScanPositions {

  /** The run of backslashes that ends directly before position `i`. */
  function Backslashes(t: string, i: nat): nat
    requires i <= |t|
  {
    if i > 0 && t[i - 1] == '\\' then 1 + Backslashes(t, i - 1) else 0
  }

  /** A character is escaped by an odd number of backslashes before it, inside a string or not. */
  predicate Escaped(t: string, i: nat)
    requires i <= |t|
  {
    Backslashes(t, i) % 2 == 1
  }

  /** The unescaped quotes before position `i`. */
  function Quotes(t: string, i: nat): nat
    requires i <= |t|
  {
    if i == 0 then 0 else Quotes(t, i - 1) + if t[i - 1] == '"' && !Escaped(t, i - 1) then 1 else 0
  }

  predicate InString(t: string, i: nat)
    requires i <= |t|
  {
    Quotes(t, i) % 2 == 1
  }

  /** How often `c` stands before position `i`, unescaped and outside strings. */
  function Seen(t: string, i: nat, c: char): nat
    requires i <= |t|
  {
    if i == 0 then 0
    else Seen(t, i - 1, c) + if t[i - 1] == c && !Escaped(t, i - 1) && !InString(t, i - 1) then 1 else 0
  }

  function Depth(t: string, i: nat): int
    requires i <= |t|
  {
    Seen(t, i, '{') - Seen(t, i, '}')
  }

  /** After `n` characters, and not before, as many braces have been closed as opened. */
  predicate ClosesAt(t: string, n: nat) {
    && 1 <= n <= |t| && Depth(t, n) == 0
    && forall k :: 1 <= k < n ==> Depth(t, k) != 0
  }

  /** The counts depend on the characters counted only. */
  lemma {:induction false} CountsAreLocal(t: string, u: string, i: nat)
    requires i <= |t| && i <= |u| && t[..i] == u[..i]
    ensures Backslashes(t, i) == Backslashes(u, i) && Quotes(t, i) == Quotes(u, i)
    ensures forall c :: Seen(t, i, c) == Seen(u, i, c)
    decreases i
  {
    if i > 0 {
      assert t[..i - 1] == t[..i][..i - 1] == u[..i - 1];
      assert t[i - 1] == t[..i][i - 1] == u[i - 1];
      CountsAreLocal(t, u, i - 1);
    }
  }

  /** A text that opens with a brace stays open until the counts are equal for the first time. */
  lemma {:induction false} OpenUntilClosed(t: string, n: nat)
    requires n <= |t| && t != "" && t[0] == '{'
    requires forall k :: 1 <= k < n ==> Depth(t, k) != 0
    ensures forall k :: 1 <= k < n ==> Depth(t, k) > 0
    decreases n
  {
    if n > 1 {
      OpenUntilClosed(t, n - 1);
      assert Depth(t, 1) == 1 by { FirstBraceCounts(t); }
      if n > 2 {
        assert Depth(t, n - 2) > 0;
        DepthStep(t, n - 2);
      }
    }
  }

  lemma {:induction false} FirstBraceCounts(t: string)
    requires t != "" && t[0] == '{'
    ensures Depth(t, 1) == 1
  {
    assert Seen(t, 0, '{') == 0 && Seen(t, 0, '}') == 0;
    assert !Escaped(t, 0) && !InString(t, 0);
  }

  lemma {:induction false} DepthStep(t: string, i: nat)
    requires i < |t|
    ensures Depth(t, i) - 1 <= Depth(t, i + 1) <= Depth(t, i) + 1
  {}
}
