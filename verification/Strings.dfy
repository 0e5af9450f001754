/** The operations on strings that the program takes from Python. */
module Strings {

  /** What `str.split()` and `str.strip()` treat as white space. */
  predicate IsSpace(c: char) {
    || c in "\t\n\U{0B}\U{0C}\r\U{1C}\U{1D}\U{1E}\U{1F} \U{85}\U{A0}\U{1680}"
    || '\U{2000}' <= c <= '\U{200A}'
    || c in "\U{2028}\U{2029}\U{202F}\U{205F}\U{3000}"
  }

  /** The number of words `t.split()` yields when `inWord` says whether a word is under way. */
  function WordsFrom(t: string, inWord: bool): nat {
    if t == "" then 0
    else if IsSpace(t[0]) then WordsFrom(t[1..], false)
    else (if inWord then 0 else 1) + WordsFrom(t[1..], true)
  }

  function WordCount(t: string): nat { WordsFrom(t, false) }

  /** A word starts at each visible character that follows no other. */
  predicate WordStarts(t: string, i: nat)
    requires i < |t|
  {
    !IsSpace(t[i]) && (i == 0 || IsSpace(t[i - 1]))
  }

  function Starts(t: string, n: nat): nat
    requires n <= |t|
  {
    if n == 0 then 0 else Starts(t, n - 1) + if WordStarts(t, n - 1) then 1 else 0
  }

  lemma {:induction false} WordCountIsStarts(t: string)
    ensures WordCount(t) == Starts(t, |t|)
  {
    WordsAfter(t, 0);
    assert t[0..] == t;
  }

  lemma {:induction false} WordsAfter(t: string, i: nat)
    requires i <= |t|
    ensures WordsFrom(t[i..], i > 0 && !IsSpace(t[i - 1])) == Starts(t, |t|) - Starts(t, i)
    decreases |t| - i
  {
    hide IsSpace;
    if i < |t| {
      WordsAfter(t, i + 1);
      assert t[i..][0] == t[i] && t[i..][1..] == t[i + 1..];
    }
  }

  lemma {:induction false} WordsGrow(a: string, b: string, inWord: bool)
    ensures WordsFrom(a + b, inWord) >= WordsFrom(a, inWord)
    decreases |a|
  {
    if a != "" {
      assert (a + b)[0] == a[0] && (a + b)[1..] == a[1..] + b;
      WordsGrow(a[1..], b, !IsSpace(a[0]));
    }
  }

  /** A space in between keeps the words of two texts apart. */
  lemma {:induction false} WordsSplit(a: string, b: string, inWord: bool)
    requires b != "" && IsSpace(b[0])
    ensures WordsFrom(a + b, inWord) == WordsFrom(a, inWord) + WordCount(b)
    decreases |a|
  {
    if a == "" {
      assert a + b == b;
    } else {
      assert (a + b)[0] == a[0] && (a + b)[1..] == a[1..] + b;
      WordsSplit(a[1..], b, !IsSpace(a[0]));
    }
  }

  /** Two words need a space between them. */
  lemma {:induction false} WordsBound(t: string, inWord: bool)
    ensures 2 * WordsFrom(t, inWord) <= |t| + if inWord then 0 else 1
    decreases |t|
  {
    if t != "" {
      WordsBound(t[1..], !IsSpace(t[0]));
    }
  }

  /** `a <= b` on strings: by the first character in which they differ, a prefix being smaller. */
  predicate StringLeq(a: string, b: string) {
    if a == "" then true
    else if b == "" then false
    else a[0] < b[0] || (a[0] == b[0] && StringLeq(a[1..], b[1..]))
  }

  /** What is stripped is white space, all of it at both ends. */
  lemma {:induction false} StripIs(t: string) returns (i: nat, j: nat)
    ensures i <= j <= |t| && Strip(t) == t[i..j]
    ensures (forall k :: 0 <= k < i ==> IsSpace(t[k])) && forall k :: j <= k < |t| ==> IsSpace(t[k])
    ensures i < j ==> !IsSpace(t[i]) && !IsSpace(t[j - 1])
  {
    hide IsSpace;
    i := StripLeftIs(t);
    var l := t[i..];
    var m := StripRightIs(l);
    j := i + m;
    assert l[..m] == t[i..j];
    forall k | j <= k < |t| ensures IsSpace(t[k]) {
      assert t[k] == l[k - i];
    }
    if i < j {
      assert l[m - 1] == t[j - 1];
    }
  }

  lemma {:induction false} StripLeftIs(t: string) returns (i: nat)
    ensures i <= |t| && StripLeft(t) == t[i..] && forall k :: 0 <= k < i ==> IsSpace(t[k])
    ensures i < |t| ==> !IsSpace(t[i])
    decreases |t|
  {
    hide IsSpace;
    i := 0;
    if t != "" && IsSpace(t[0]) {
      var j := StripLeftIs(t[1..]);
      i := j + 1;
      forall k | 0 <= k < i ensures IsSpace(t[k]) {
        assert k > 0 ==> t[k] == t[1..][k - 1];
      }
    }
  }

  lemma {:induction false} StripRightIs(t: string) returns (j: nat)
    ensures j <= |t| && StripRight(t) == t[..j] && forall k :: j <= k < |t| ==> IsSpace(t[k])
    ensures j > 0 ==> !IsSpace(t[j - 1])
    decreases |t|
  {
    hide IsSpace;
    j := |t|;
    if t != "" && IsSpace(t[|t| - 1]) {
      j := StripRightIs(t[..|t| - 1]);
    } else {
      assert t[..|t|] == t;
    }
  }

  /** Either `a` is a prefix of `b`, or it is smaller at the first place where they differ. */
  lemma {:induction false} StringLeqIff(a: string, b: string)
    ensures StringLeq(a, b) <==> a <= b || exists k :: 0 <= k < |a| && k < |b| && a[..k] == b[..k] && a[k] < b[k]
    decreases |a|
  {
    if a != "" && b != "" && a[0] == b[0] {
      var v, w := a[1..], b[1..];
      StringLeqIff(v, w);
      assert a == [a[0]] + v && b == [b[0]] + w;
      if k :| 0 <= k < |v| && k < |w| && v[..k] == w[..k] && v[k] < w[k] {
        assert a[..k + 1] == [a[0]] + v[..k] && b[..k + 1] == [b[0]] + w[..k] && a[k + 1] < b[k + 1];
      }
      if k :| 0 <= k < |a| && k < |b| && a[..k] == b[..k] && a[k] < b[k] {
        assert v[..k - 1] == a[..k][1..] && w[..k - 1] == b[..k][1..] && v[k - 1] < w[k - 1];
      }
    } else if a != "" && b != "" {
      assert a[..0] == b[..0];
      if k :| 0 <= k < |a| && k < |b| && a[..k] == b[..k] && a[k] < b[k] {
        assert k > 0 ==> a[..k][0] == b[..k][0];
      }
    }
  }

  lemma {:induction false} StringLeqTotal(a: string, b: string)
    ensures StringLeq(a, b) || StringLeq(b, a)
    decreases |a|
  {
    if a != "" && b != "" && a[0] == b[0] {
      StringLeqTotal(a[1..], b[1..]);
    }
  }

  lemma {:induction false} StringLeqTransitive(a: string, b: string, c: string)
    requires StringLeq(a, b) && StringLeq(b, c)
    ensures StringLeq(a, c)
    decreases |a|
  {
    if a != "" && a[0] == b[0] == c[0] {
      StringLeqTransitive(a[1..], b[1..], c[1..]);
    }
  }

  lemma {:induction false} StringLeqAntisymmetric(a: string, b: string)
    requires StringLeq(a, b) && StringLeq(b, a)
    ensures a == b
    decreases |a|
  {
    if a != "" {
      StringLeqAntisymmetric(a[1..], b[1..]);
      assert a == [a[0]] + a[1..] && b == [b[0]] + b[1..];
    }
  }

  /** `sub in t`. */
  predicate Contains(t: string, sub: string) {
    sub <= t || (t != "" && Contains(t[1..], sub))
  }

  lemma {:induction false} ContainsIff(t: string, sub: string)
    ensures Contains(t, sub) <==> exists i :: 0 <= i <= |t| && sub <= t[i..]
    decreases |t|
  {
    if t != "" {
      ContainsIff(t[1..], sub);
      if i :| 0 <= i <= |t[1..]| && sub <= t[1..][i..] {
        assert t[1..][i..] == t[i + 1..];
      }
      if i :| 0 <= i <= |t| && sub <= t[i..] {
        if i == 0 {
          assert t[0..] == t;
        } else {
          assert t[1..][i - 1..] == t[i..];
        }
      }
    }
    if sub <= t {
      assert t[0..] == t;
    }
  }

  lemma {:induction false} LowerAt(t: string)
    ensures |Lower(t)| == |t|
    ensures forall i :: 0 <= i < |t| ==> Lower(t)[i] == if 'A' <= t[i] <= 'Z' then t[i] + 32 as char else t[i]
    decreases |t|
  {
    if t != "" {
      LowerAt(t[1..]);
    }
  }

  /** `str.lower` on the letters A to Z; no other letter becomes one that the program looks for. */
  function Lower(t: string): string {
    if t == "" then ""
    else [if 'A' <= t[0] <= 'Z' then t[0] + 32 as char else t[0]] + Lower(t[1..])
  }

  function Prefix(t: string, n: nat): string { if n <= |t| then t[..n] else t }

  function StripLeft(t: string): string {
    if t != "" && IsSpace(t[0]) then StripLeft(t[1..]) else t
  }

  function StripRight(t: string): string {
    if t != "" && IsSpace(t[|t| - 1]) then StripRight(t[..|t| - 1]) else t
  }

  function Strip(t: string): string { StripRight(StripLeft(t)) }

  /** The decimal text of a number. */
  function Decimal(n: int): string
    decreases n < 0, if n < 0 then -n else n
  {
    if n < 0 then "-" + Decimal(-n)
    else if n < 10 then ["0123456789"[n]]
    else Decimal(n / 10) + ["0123456789"[n % 10]]
  }
}
