/**
 JSON texts as RFC 8259 writes them, and the claim that the brace scan agrees with that grammar:
 started at the brace that opens an object it stops at the brace that closes it, whatever the
 strings inside contain.

 A value is kept with its white space, so that every text the grammar derives is the text of
 some value here.
 */
module JsonText {
  import opened Wrappers
  import opened BraceScanner
  import opened ScannerLaws

  // ---------------------------------------------------------------- the grammar

  /** One character of a string (section 7): itself, a two-character escape, or `\u` and four digits. */
  datatype StringChar = Plain(c: char) | Escaped(e: char) | Unicode(h0: char, h1: char, h2: char, h3: char)

  datatype Exponent = Exponent(letter: char, sign: string, digits: string)

  datatype Json =
    | Null | False | True
    | Number(minus: bool, whole: string, frac: Option<string>, exp: Option<Exponent>)
    | String(chars: seq<StringChar>)
    | Array(pad: string, items: Items)
    | Object(pad: string, members: Members)

  /** The values of an array, each with the white space before and after it. */
  datatype Items = NoItems | Item(before: string, value: Json, after: string, more: Items)

  /** The members of an object, with the white space around the name, the colon and the value. */
  datatype Members =
    | NoMembers
    | Member(before: string, name: seq<StringChar>, gap: string, before': string, value: Json, after: string,
             more: Members)

  predicate IsWhite(t: string) { forall i :: 0 <= i < |t| ==> t[i] in " \t\n\r" }

  predicate IsDigits(t: string) { |t| > 0 && forall i :: 0 <= i < |t| ==> '0' <= t[i] <= '9' }

  predicate IsHex(c: char) { '0' <= c <= '9' || 'a' <= c <= 'f' || 'A' <= c <= 'F' }

  predicate ValidChar(c: StringChar) {
    match c
    case Plain(c) => c >= ' ' && c != '"' && c != '\\'
    case Escaped(e) => e in "\"\\/bfnrt"
    case Unicode(a, b, c, d) => IsHex(a) && IsHex(b) && IsHex(c) && IsHex(d)
  }

  predicate ValidString(cs: seq<StringChar>) { forall i :: 0 <= i < |cs| ==> ValidChar(cs[i]) }

  predicate ValidExponent(x: Exponent) {
    x.letter in "eE" && x.sign in ["", "+", "-"] && IsDigits(x.digits)
  }

  predicate Valid(v: Json) {
    match v
    case Null => true
    case False => true
    case True => true
    case Number(_, whole, frac, exp) =>
      && IsDigits(whole) && (whole[0] == '0' ==> whole == "0")
      && (frac.Some? ==> IsDigits(frac.value))
      && (exp.Some? ==> ValidExponent(exp.value))
    case String(chars) => ValidString(chars)
    case Array(pad, items) => IsWhite(pad) && ValidItems(items)
    case Object(pad, members) => IsWhite(pad) && ValidMembers(members)
  }

  predicate ValidItems(xs: Items) {
    match xs
    case NoItems => true
    case Item(before, value, after, more) => IsWhite(before) && Valid(value) && IsWhite(after) && ValidItems(more)
  }

  predicate ValidMembers(ms: Members) {
    match ms
    case NoMembers => true
    case Member(before, name, gap, before', value, after, more) =>
      && IsWhite(before) && ValidString(name) && IsWhite(gap)
      && IsWhite(before') && Valid(value) && IsWhite(after) && ValidMembers(more)
  }

  function CharText(c: StringChar): string {
    match c
    case Plain(c) => [c]
    case Escaped(e) => ['\\', e]
    case Unicode(a, b, c, d) => ['\\', 'u', a, b, c, d]
  }

  function CharsText(cs: seq<StringChar>): string {
    if cs == [] then "" else CharText(cs[0]) + CharsText(cs[1..])
  }

  function StringText(cs: seq<StringChar>): string { ['"'] + CharsText(cs) + ['"'] }

  function NumberText(v: Json): string
    requires v.Number?
  {
    (if v.minus then "-" else "") + v.whole
    + (if v.frac.Some? then "." + v.frac.value else "")
    + (if v.exp.Some? then [v.exp.value.letter] + v.exp.value.sign + v.exp.value.digits else "")
  }

  function Text(v: Json): string {
    match v
    case Null => "null"
    case False => "false"
    case True => "true"
    case Number(_, _, _, _) => NumberText(v)
    case String(chars) => StringText(chars)
    case Array(pad, items) => ['['] + (pad + ItemsText(items, true)) + [']']
    case Object(pad, members) => ['{'] + (pad + MembersText(members, true)) + ['}']
  }

  function ItemsText(xs: Items, first: bool): string {
    match xs
    case NoItems => ""
    case Item(before, value, after, more) =>
      (if first then "" else ",") + before + (Text(value) + (after + ItemsText(more, false)))
  }

  function MembersText(ms: Members, first: bool): string {
    match ms
    case NoMembers => ""
    case Member(before, name, gap, before', value, after, more) =>
      (if first then "" else ",") + before
      + (StringText(name) + ((gap + ":" + before') + (Text(value) + (after + MembersText(more, false)))))
  }

  // ---------------------------------------------------------------- scanning balanced text

  /** Scanning `t` from `s` comes back to `s` without going below its depth on the way. */
  ghost predicate Stays(s: Scan, t: string) {
    && Run(s, t) == s
    && forall k :: 0 <= k <= |t| ==> Run(s, t[..k]).depth >= s.depth
  }

  /** A text without quotes, backslashes and braces. */
  predicate Quiet(t: string) { forall i :: 0 <= i < |t| ==> t[i] !in "\"\\{}" }

  lemma {:induction false} QuietRun(s: Scan, t: string)
    requires Quiet(t) && !s.escape
    ensures Run(s, t) == s
    decreases |t|
  {
    if t != "" {
      assert t[0] !in "\"\\{}";
      assert t[0] != '"' && t[0] != '\\' && t[0] != '{' && t[0] != '}';
      assert Step(s, t[0]) == s;
      QuietRun(s, t[1..]);
    }
  }

  lemma QuietStays(s: Scan, t: string)
    requires Quiet(t) && !s.escape
    ensures Stays(s, t)
  {
    QuietRun(s, t);
    forall k | 0 <= k <= |t| ensures Run(s, t[..k]).depth >= s.depth {
      QuietRun(s, t[..k]);
    }
  }

  lemma StaysAppend(s: Scan, a: string, b: string)
    requires Stays(s, a) && Stays(s, b)
    ensures Stays(s, a + b)
  {
    RunAppend(s, a, b);
    forall k | 0 <= k <= |a + b| ensures Run(s, (a + b)[..k]).depth >= s.depth {
      if k <= |a| {
        assert (a + b)[..k] == a[..k];
      } else {
        assert (a + b)[..k] == a + b[..k - |a|];
        RunAppend(s, a, b[..k - |a|]);
      }
    }
  }

  /** A balanced body between two characters that undo each other. */
  lemma Enclosed(s: Scan, open: char, body: string, close: char)
    requires var s' := Step(s, open); s'.depth >= s.depth && Stays(s', body) && Step(s', close) == s
    ensures var t := [open] + body + [close];
      && Stays(s, t)
      && forall k :: 1 <= k < |t| ==> Run(s, t[..k]).depth >= Step(s, open).depth
  {
    var t := [open] + body + [close];
    var s' := Step(s, open);
    RunAppend(s, [open], body);
    RunAppend(s, [open] + body, [close]);
    OneStep(s, open);
    OneStep(s', close);
    forall k | 1 <= k < |t| ensures Run(s, t[..k]).depth >= s'.depth {
      assert t[..k] == [open] + body[..k - 1];
      RunAppend(s, [open], body[..k - 1]);
    }
    assert t[..0] == "" && t[..|t|] == t;
  }

  lemma OneStep(s: Scan, c: char)
    ensures Run(s, [c]) == Step(s, c)
  {
    assert Run(Step(s, c), [c][1..]) == Step(s, c);
  }

  // ---------------------------------------------------------------- the grammar is balanced

  lemma CharStays(s: Scan, c: StringChar)
    requires s.inString && !s.escape && ValidChar(c)
    ensures Run(s, CharText(c)) == s
    ensures forall k :: 0 <= k <= |CharText(c)| ==> Run(s, CharText(c)[..k]).depth >= s.depth
  {
    match c
    case Plain(c) =>
      OneStep(s, c);
      assert [c][..1] == [c];
    case Escaped(e) =>
      EscapeStays(s, e, "");
      assert ['\\', e] + "" == ['\\', e];
    case Unicode(a, b, c, d) =>
      EscapeStays(s, 'u', [a, b, c, d]);
      assert ['\\', 'u'] + [a, b, c, d] == ['\\', 'u', a, b, c, d];
  }

  lemma EscapeStays(s: Scan, e: char, digits: string)
    requires s.inString && !s.escape && Quiet(digits)
    ensures Stays(s, ['\\', e] + digits)
  {
    var t := ['\\', e];
    assert t == ['\\'] + [e];
    RunAppend(s, ['\\'], [e]);
    OneStep(s, '\\');
    OneStep(s.(escape := true), e);
    assert t[..0] == "" && t[..1] == ['\\'] && t[..2] == t;
    assert Stays(s, t);
    QuietStays(s, digits);
    StaysAppend(s, t, digits);
  }

  lemma {:induction false} CharsStay(s: Scan, cs: seq<StringChar>)
    requires s.inString && !s.escape && ValidString(cs)
    ensures Stays(s, CharsText(cs))
    decreases |cs|
  {
    if cs != [] {
      CharStays(s, cs[0]);
      CharsStay(s, cs[1..]);
      StaysAppend(s, CharText(cs[0]), CharsText(cs[1..]));
    }
  }

  lemma StringStays(s: Scan, cs: seq<StringChar>)
    requires !s.inString && !s.escape && ValidString(cs)
    ensures Stays(s, StringText(cs))
  {
    CharsStay(s.(inString := true), cs);
    Enclosed(s, '"', CharsText(cs), '"');
  }

  lemma DigitsQuiet(t: string)
    requires IsDigits(t) || IsWhite(t)
    ensures Quiet(t)
  {
    forall i | 0 <= i < |t| ensures t[i] !in "\"\\{}" {
      assert '0' <= t[i] <= '9' || t[i] in " \t\n\r";
    }
  }

  lemma NumberQuiet(v: Json)
    requires v.Number? && Valid(v)
    ensures Quiet(NumberText(v))
  {
    DigitsQuiet(v.whole);
    if v.frac.Some? { DigitsQuiet(v.frac.value); }
    if v.exp.Some? { DigitsQuiet(v.exp.value.digits); }
  }

  lemma {:induction false} ValueStays(s: Scan, v: Json)
    requires !s.inString && !s.escape && Valid(v)
    ensures Stays(s, Text(v))
    decreases v
  {
    hide Run, Stays;
    match v
    case Null => QuietStays(s, "null");
    case False => QuietStays(s, "false");
    case True => QuietStays(s, "true");
    case Number(_, _, _, _) =>
      NumberQuiet(v);
      QuietStays(s, NumberText(v));
    case String(chars) => StringStays(s, chars);
    case Array(pad, items) =>
      WhiteStays(s, pad);
      ItemsStay(s, items, true);
      StaysAppend(s, pad, ItemsText(items, true));
      Enclosed(s, '[', pad + ItemsText(items, true), ']');
    case Object(pad, members) =>
      var s' := s.(depth := s.depth + 1);
      WhiteStays(s', pad);
      MembersStay(s', members, true);
      StaysAppend(s', pad, MembersText(members, true));
      Enclosed(s, '{', pad + MembersText(members, true), '}');
  }

  lemma WhiteStays(s: Scan, t: string)
    requires !s.escape && IsWhite(t)
    ensures Stays(s, t) && Stays(s, "" + t) && Stays(s, "," + t)
  {
    DigitsQuiet(t);
    QuietStays(s, t);
    assert "" + t == t;
    QuietStays(s, "," + t);
  }

  lemma {:induction false} ItemsStay(s: Scan, xs: Items, first: bool)
    requires !s.inString && !s.escape && ValidItems(xs)
    ensures Stays(s, ItemsText(xs, first))
    decreases xs
  {
    hide Run, Stays;
    match xs
    case NoItems => QuietStays(s, "");
    case Item(before, value, after, more) =>
      var rest := ItemsText(more, false);
      WhiteStays(s, before);
      ValueStays(s, value);
      WhiteStays(s, after);
      ItemsStay(s, more, false);
      StaysAppend(s, after, rest);
      StaysAppend(s, Text(value), after + rest);
      StaysAppend(s, (if first then "" else ",") + before, Text(value) + (after + rest));
  }

  lemma {:induction false} MembersStay(s: Scan, ms: Members, first: bool)
    requires !s.inString && !s.escape && ValidMembers(ms)
    ensures Stays(s, MembersText(ms, first))
    decreases ms
  {
    hide Run, Stays;
    match ms
    case NoMembers => QuietStays(s, "");
    case Member(before, name, gap, before', value, after, more) =>
      var rest := MembersText(more, false);
      var colon := gap + ":" + before';
      WhiteStays(s, before);
      StringStays(s, name);
      DigitsQuiet(gap);
      DigitsQuiet(before');
      QuietStays(s, colon);
      ValueStays(s, value);
      WhiteStays(s, after);
      MembersStay(s, more, false);
      StaysAppend(s, after, rest);
      StaysAppend(s, Text(value), after + rest);
      StaysAppend(s, colon, Text(value) + (after + rest));
      StaysAppend(s, StringText(name), colon + (Text(value) + (after + rest)));
      StaysAppend(s, (if first then "" else ",") + before, StringText(name) + (colon + (Text(value) + (after + rest))));
  }

  // ---------------------------------------------------------------- the main claims

  /** The text of a JSON object closes at its last character and not before. */
  lemma ObjectClosesAtItsEnd(v: Json)
    requires v.Object? && Valid(v)
    ensures IsObject(Text(v))
  {
    var body := v.pad + MembersText(v.members, true);
    var s' := Scan(1, false, false);
    WhiteStays(s', v.pad);
    MembersStay(s', v.members, true);
    StaysAppend(s', v.pad, MembersText(v.members, true));
    Enclosed(START, '{', body, '}');
    assert Text(v)[..|Text(v)|] == Text(v);
  }

  /** Whatever follows a JSON object, the scan started at its brace stops at the end of the object. */
  lemma ScanAgreesWithGrammar(v: Json, suffix: string)
    requires v.Object? && Valid(v)
    ensures Block(Text(v) + suffix) == Some(|Text(v)|)
  {
    ObjectClosesAtItsEnd(v);
    var t := Text(v);
    assert (t + suffix)[..|t|] == t == t[..|t|];
    BlockIsLocal(t, t + suffix, |t|);
    BlockIsUnique(t + suffix, |t|);
  }

  /**
   A JSON object after a settled text is cut out if it is a tool payload, and kept as it is
   otherwise; the text on both sides is treated as if it stood alone.
   */
  lemma EmbeddedObject(prefix: string, v: Json, suffix: string, isTool: string -> bool)
    requires v.Object? && Valid(v) && Settled(prefix)
    ensures var t := prefix + (Text(v) + suffix);
      && Narrative(t, isTool)
         == Narrative(prefix, isTool) + ((if isTool(Text(v)) then "" else Text(v)) + Narrative(suffix, isTool))
      && Extracted(t, isTool)
         == Extracted(prefix, isTool) + ((if isTool(Text(v)) then [Text(v)] else []) + Extracted(suffix, isTool))
  {
    hide NextBlock, Block, IsBlock, Run, FirstBrace, Text;
    var o := Text(v);
    var t := o + suffix;
    ObjectClosesAtItsEnd(v);
    ScansIndependently(prefix, t, isTool);
    ObjectIsNextBlock("", o, suffix);
    assert "" + o + suffix == t && t[..0] == "" && t[0..|o|] == o && t[|o|..] == suffix;
    assert Split(t) == Found("", o, Split(suffix));
  }

  /**
   The other case: if the prose leaves a brace open outside a string, a JSON object behind it is
   not recognised, the scan is still inside the open block after it, and no payload is extracted.
   */
  lemma ObjectBehindOpenBrace(p: string, v: Json, isTool: string -> bool)
    requires v.Object? && Valid(v)
    requires NextBlock(p) == None && FirstBrace(p) < |p|
    requires var s := Run(START, p[FirstBrace(p)..]); !s.inString && !s.escape
    ensures Narrative(p + Text(v), isTool) == p + Text(v)
    ensures Extracted(p + Text(v), isTool) == []
  {
    hide Block, IsBlock, Run, Text, Stays;
    ValueStays(Run(START, p[FirstBrace(p)..]), v);
    OpenPlusBalanced(p[FirstBrace(p)..], Text(v));
    BraceSurvivesAppend(p, Text(v));
    assert NextBlock(p + Text(v)) == None;
  }

  lemma OpenPlusBalanced(q: string, o: string)
    requires q != "" && q[0] == '{' && Block(q) == None && Stays(Run(START, q), o)
    ensures Block(q + o) == None
  {
    OpenStaysOpen(q);
    forall n: nat ensures !IsBlock(q + o, n) {
      if 1 <= n <= |q| {
        assert (q + o)[..n] == q[..n];
      } else if |q| < n <= |q + o| {
        assert (q + o)[..n] == q + o[..n - |q|];
        RunAppend(START, q, o[..n - |q|]);
      }
    }
  }

  /** In a text with no block, every nonempty prefix from its brace on has a brace open. */
  lemma OpenStaysOpen(q: string)
    requires q != "" && q[0] == '{' && Block(q) == None
    ensures forall n :: 1 <= n <= |q| ==> Run(START, q[..n]).depth > 0
    ensures Run(START, q).depth > 0
  {
    OpenUpTo(q, |q|);
    assert q[..|q|] == q;
  }

  lemma {:induction false} OpenUpTo(q: string, m: nat)
    requires m <= |q| && q != "" && q[0] == '{' && Block(q) == None
    ensures Scanned(q, m, Run(START, q[..m]))
    decreases m
  {
    if m == 0 {
      ScanStart(q);
    } else {
      OpenUpTo(q, m - 1);
      ScanNext(q, m - 1, Run(START, q[..m - 1]));
      RunSnoc(START, q, m - 1);
    }
  }
}
