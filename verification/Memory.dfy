/**
 Project memory: documents indexed in a store and mirrored as files, under optimistic versioning.
 Whether index and files agree is a matter of the paths that are used: `AgreementIff`.
 */
module Memory {
  import opened Wrappers

  /** An absolute, resolved path. */
  type Path = seq<string>

  datatype Document = Document(
    id: string, project: string, title: string, path: string, content: string, summary: string,
    tags: seq<string>, references: seq<string>, version: int, checksum: string)

  datatype State = State(docs: map<string, Document>, files: map<Path, string>)

  const EMPTY := State(map[], map[])

  /** The registered projects with their roots, and the hash function for checksums. */
  datatype Setting = Setting(roots: map<string, Path>, hash: string -> string)

  datatype Op =
    | Create(project: string, id: string, title: string, content: string, path: string,
             summary: string, tags: seq<string>, references: seq<string>)
    | Update(project: string, id: string, content: string, newTitle: Option<string>, newSummary: Option<string>,
             newTags: Option<seq<string>>, newReferences: Option<seq<string>>, expected: Option<int>)
    | Delete(project: string, id: string)

  datatype Outcome = Done(doc: Document) | Deleted | ProjectNotFound | AlreadyExists | NotFound | Conflict

  // ---------------------------------------------------------------- paths

  const MANAGED := ".autonomos"

  /** `lstrip("/\\")`. */
  function Strip(path: string): string {
    if path != "" && (path[0] == '/' || path[0] == '\\') then Strip(path[1..]) else path
  }

  /** The path as it is indexed: relative, and under the managed directory. */
  function Normalize(path: string): string {
    var clean := Strip(path);
    if MANAGED <= clean then clean else MANAGED + "/" + clean
  }

  function Segments(path: string): (r: seq<string>)
    ensures r != []
  {
    if path == "" then [""]
    else
      var rest := Segments(path[1..]);
      if path[0] == '/' then [""] + rest else [[path[0]] + rest[0]] + rest[1..]
  }

  /** One segment after another: empty ones and `.` stand still, `..` goes up, others go down. */
  function Walk(from: Path, segments: seq<string>): Path
    decreases |segments|
  {
    if segments == [] then from
    else
      var s := segments[0];
      Walk(if s == "" || s == "." then from
           else if s == ".." then (if from == [] then [] else from[..|from| - 1])
           else from + [s],
           segments[1..])
  }

  function FileOf(root: Path, path: string): Path { Walk(root, Segments(path)) }

  lemma {:induction false} NormalizeTwice(path: string)
    ensures Normalize(Normalize(path)) == Normalize(path)
  {
    var n := Normalize(path);
    assert MANAGED <= n && n[0] == '.';
    assert Strip(n) == n;
  }

  /** What precedes the name in a path: slashes and backslashes, all of them. */
  predicate IsLeading(t: string) { forall i :: 0 <= i < |t| ==> t[i] == '/' || t[i] == '\\' }

  /** Normalizing takes off what leads, and puts the managed directory in front if it is not there. */
  lemma {:induction false} NormalizeKeepsName(lead: string, name: string)
    requires IsLeading(lead) && (name == "" || (name[0] != '/' && name[0] != '\\'))
    ensures Normalize(lead + name) == if ".autonomos" <= name then name else ".autonomos/" + name
  {
    StripLead(lead, name);
    assert MANAGED + "/" + name == ".autonomos/" + name;
  }

  lemma {:induction false} StripLead(lead: string, name: string)
    requires IsLeading(lead) && (name == "" || (name[0] != '/' && name[0] != '\\'))
    ensures Strip(lead + name) == name
    decreases |lead|
  {
    if lead == "" {
      assert lead + name == name;
    } else {
      assert (lead + name)[0] == lead[0] && (lead + name)[1..] == lead[1..] + name;
      StripLead(lead[1..], name);
    }
  }

  /** Paths that name nothing in the managed directory are indexed apart, unless they are equal. */
  lemma {:induction false} UnmanagedStayApart(x: string, y: string)
    requires x == "" || (x[0] != '/' && x[0] != '\\')
    requires y == "" || (y[0] != '/' && y[0] != '\\')
    requires !(".autonomos" <= x) && !(".autonomos" <= y)
    ensures Normalize(x) == Normalize(y) <==> x == y
  {
    NormalizeKeepsName("", x);
    NormalizeKeepsName("", y);
    assert "" + x == x && "" + y == y;
    var front := ".autonomos/";
    assert (front + x)[|front|..] == x && (front + y)[|front|..] == y;
  }

  // ---------------------------------------------------------------- one operation

  ghost predicate PathTaken(s: State, project: string, path: string) {
    exists id :: id in s.docs && s.docs[id].project == project && s.docs[id].path == path
  }

  function Updated(d: Document, op: Op, st: Setting): Document
    requires op.Update?
  {
    d.(title := if op.newTitle.Some? then op.newTitle.value else d.title,
       content := op.content, checksum := st.hash(op.content),
       summary := if op.newSummary.Some? then op.newSummary.value else d.summary,
       tags := if op.newTags.Some? then op.newTags.value else d.tags,
       references := if op.newReferences.Some? then op.newReferences.value else d.references,
       version := d.version + 1)
  }

  ghost function Result(s: State, op: Op, st: Setting): Outcome {
    match op
    case Create(project, id, title, content, path, summary, tags, references) =>
      if project !in st.roots then ProjectNotFound
      else if id in s.docs || PathTaken(s, project, Normalize(path)) then AlreadyExists
      else Done(Document(id, project, title, Normalize(path), content, summary, tags, references, 1, st.hash(content)))
    case Update(project, id, _, _, _, _, _, expected) =>
      if id !in s.docs || s.docs[id].project != project then NotFound
      else if expected.Some? && s.docs[id].version != expected.value then Conflict
      else if project !in st.roots then ProjectNotFound
      else Done(Updated(s.docs[id], op, st))
    case Delete(project, id) =>
      if id !in s.docs || s.docs[id].project != project then NotFound
      else if project !in st.roots then ProjectNotFound
      else Deleted
  }

  ghost function Step(s: State, op: Op, st: Setting): State {
    match Result(s, op, st)
    case Done(d) =>
      if d.project in st.roots then
        State(s.docs[d.id := d], s.files[FileOf(st.roots[d.project], d.path) := d.content])
      else s
    case Deleted =>
      if op.id in s.docs && op.project in st.roots then
        State(s.docs - {op.id}, s.files - {FileOf(st.roots[op.project], s.docs[op.id].path)})
      else s
    case _ => s
  }

  ghost function Run(ops: seq<Op>, st: Setting): State {
    if ops == [] then EMPTY else Step(Run(ops[..|ops| - 1], st), ops[|ops| - 1], st)
  }

  ghost function OutcomeAt(ops: seq<Op>, i: nat, st: Setting): Outcome
    requires i < |ops|
  {
    Result(Run(ops[..i], st), ops[i], st)
  }

  lemma {:induction false} RunSnoc(ops: seq<Op>, op: Op, st: Setting)
    ensures Run(ops + [op], st) == Step(Run(ops, st), op, st)
  {
    assert (ops + [op])[..|ops|] == ops;
  }

  // ---------------------------------------------------------------- index and files

  /** The document's file holds its content, and its checksum is that of the content. */
  ghost predicate Mirrored(s: State, id: string, st: Setting)
    requires id in s.docs
  {
    var d := s.docs[id];
    && d.id == id && d.project in st.roots
    && FileOf(st.roots[d.project], d.path) in s.files
    && s.files[FileOf(st.roots[d.project], d.path)] == d.content
    && d.checksum == st.hash(d.content)
  }

  ghost predicate Agrees(s: State, st: Setting) { forall id :: id in s.docs ==> Mirrored(s, id, st) }

  /** No two documents of a project have the same path. */
  ghost predicate PathsUnique(s: State) {
    forall i, j :: i in s.docs && j in s.docs && i != j ==>
      s.docs[i].project != s.docs[j].project || s.docs[i].path != s.docs[j].path
  }

  /** Uniqueness of paths needs no assumption about them. */
  lemma {:induction false} PathsStayUnique(ops: seq<Op>, st: Setting)
    ensures PathsUnique(Run(ops, st))
    ensures forall id :: id in Run(ops, st).docs ==> Run(ops, st).docs[id].id == id
    decreases |ops|
  {
    if ops != [] {
      PathsStayUnique(ops[..|ops| - 1], st);
    }
  }

  /** Where a document goes: its project and its indexed path. */
  type Place = (string, string)

  ghost predicate Within(op: Op, places: set<Place>) {
    op.Create? ==> (op.project, Normalize(op.path)) in places
  }

  ghost predicate AllWithin(ops: seq<Op>, places: set<Place>) {
    forall i :: 0 <= i < |ops| ==> Within(ops[i], places)
  }

  /** Different places have different files. */
  ghost predicate OwnFiles(places: set<Place>, st: Setting) {
    forall x, y :: x in places && y in places && x != y && x.0 in st.roots && y.0 in st.roots ==>
      FileOf(st.roots[x.0], x.1) != FileOf(st.roots[y.0], y.1)
  }

  ghost predicate DocsWithin(s: State, places: set<Place>) {
    forall id :: id in s.docs ==> (s.docs[id].project, s.docs[id].path) in places
  }

  lemma {:induction false} StepKeepsAgreement(s: State, op: Op, places: set<Place>, st: Setting)
    requires OwnFiles(places, st) && Within(op, places)
    requires Agrees(s, st) && PathsUnique(s) && DocsWithin(s, places)
    ensures Agrees(Step(s, op, st), st) && DocsWithin(Step(s, op, st), places)
  {
    hide FileOf, Normalize, Agrees;
    match Result(s, op, st)
    case Done(d) =>
      assert op.Update? ==> s.docs[op.id].id == op.id && s.docs[op.id].project == op.project by {
        if op.Update? { AgreesAt(s, op.id, st); }
      }
      WriteKeepsAgreement(s, d, places, st);
    case Deleted => RemoveKeepsAgreement(s, op.id, places, st);
    case _ =>
  }

  lemma {:induction false} AgreesAt(s: State, id: string, st: Setting)
    requires Agrees(s, st) && id in s.docs
    ensures Mirrored(s, id, st)
  {}

  /** Writing a document at a place of its own, or again at its own place, leaves the others' files alone. */
  lemma {:induction false} WriteKeepsAgreement(s: State, d: Document, places: set<Place>, st: Setting)
    requires OwnFiles(places, st) && (d.project, d.path) in places && d.project in st.roots
    requires d.checksum == st.hash(d.content)
    requires Agrees(s, st) && DocsWithin(s, places)
    requires forall id :: id in s.docs && id != d.id ==> (s.docs[id].project, s.docs[id].path) != (d.project, d.path)
    ensures var s' := State(s.docs[d.id := d], s.files[FileOf(st.roots[d.project], d.path) := d.content]);
      Agrees(s', st) && DocsWithin(s', places)
  {
    hide FileOf;
    var s' := State(s.docs[d.id := d], s.files[FileOf(st.roots[d.project], d.path) := d.content]);
    forall id | id in s'.docs ensures Mirrored(s', id, st) {
      if id != d.id {
        assert Mirrored(s, id, st);
      }
    }
  }

  lemma {:induction false} RemoveKeepsAgreement(s: State, gone: string, places: set<Place>, st: Setting)
    requires OwnFiles(places, st) && gone in s.docs && s.docs[gone].project in st.roots
    requires Agrees(s, st) && PathsUnique(s) && DocsWithin(s, places)
    ensures var s' := State(s.docs - {gone}, s.files - {FileOf(st.roots[s.docs[gone].project], s.docs[gone].path)});
      Agrees(s', st) && DocsWithin(s', places)
  {
    hide FileOf;
    var s' := State(s.docs - {gone}, s.files - {FileOf(st.roots[s.docs[gone].project], s.docs[gone].path)});
    forall id | id in s'.docs ensures Mirrored(s', id, st) {
      assert Mirrored(s, id, st);
    }
  }

  lemma {:induction false} RunsAgree(ops: seq<Op>, places: set<Place>, st: Setting)
    requires OwnFiles(places, st) && AllWithin(ops, places)
    ensures Agrees(Run(ops, st), st) && DocsWithin(Run(ops, st), places)
    decreases |ops|
  {
    hide Step, Normalize, FileOf;
    if ops != [] {
      var n := |ops| - 1;
      RunsAgree(ops[..n], places, st);
      PathsStayUnique(ops[..n], st);
      StepKeepsAgreement(Run(ops[..n], st), ops[n], places, st);
    }
  }

  /** Two places with one file: creating both leaves the first document without its content. */
  ghost function Clash(x: Place, y: Place): seq<Op> {
    [Create(x.0, "1", "", "first", x.1, "", [], []), Create(y.0, "2", "", "second", y.1, "", [], [])]
  }

  lemma {:induction false} ClashDisagrees(x: Place, y: Place, st: Setting)
    requires x != y && x.0 in st.roots && y.0 in st.roots && Normalize(x.1) == x.1 && Normalize(y.1) == y.1
    requires FileOf(st.roots[x.0], x.1) == FileOf(st.roots[y.0], y.1)
    ensures !Agrees(Run(Clash(x, y), st), st)
  {
    hide FileOf, Normalize;
    var ops := Clash(x, y);
    assert ops[..1][..0] == [] && ops[..2] == ops;
    var s1 := Step(EMPTY, ops[0], st);
    assert Run(ops[..1], st) == s1;
    var s2 := Step(s1, ops[1], st);
    assert s1.docs.Keys == {"1"};
    assert !PathTaken(s1, y.0, y.1);
    assert s2.docs["1"].content == "first" && s2.files[FileOf(st.roots[x.0], x.1)] == "second";
    assert !Mirrored(s2, "1", st);
  }

  /**
   Index and files agree after every sequence of operations confined to a set of indexed places
   if and only if no two of these places have the same file.
   */
  lemma {:induction false} AgreementIff(places: set<Place>, st: Setting)
    requires forall x :: x in places ==> Normalize(x.1) == x.1
    ensures (forall ops :: AllWithin(ops, places) ==> Agrees(Run(ops, st), st)) <==> OwnFiles(places, st)
  {
    hide FileOf, Normalize, Run, Agrees;
    if OwnFiles(places, st) {
      forall ops | AllWithin(ops, places) ensures Agrees(Run(ops, st), st) {
        RunsAgree(ops, places, st);
      }
    } else {
      var x, y :| x in places && y in places && x != y && x.0 in st.roots && y.0 in st.roots
        && FileOf(st.roots[x.0], x.1) == FileOf(st.roots[y.0], y.1);
      ClashDisagrees(x, y, st);
      assert AllWithin(Clash(x, y), places);
    }
  }

  // ---------------------------------------------------------------- when places have their own files

  predicate Plain(s: string) { s != "" && s != "." && s != ".." }

  /** A path whose every segment leads down. */
  predicate Canonical(path: string) {
    forall i :: 0 <= i < |Segments(path)| ==> Plain(Segments(path)[i])
  }

  /** No project's root lies inside another's. */
  ghost predicate RootsApart(roots: map<string, Path>) {
    forall p, q :: p in roots && q in roots && p != q ==> !(roots[p] <= roots[q])
  }

  lemma {:induction false} WalkPlain(from: Path, segments: seq<string>)
    requires forall i :: 0 <= i < |segments| ==> Plain(segments[i])
    ensures Walk(from, segments) == from + segments
    decreases |segments|
  {
    if segments != [] {
      assert Plain(segments[0]);
      WalkPlain(from + [segments[0]], segments[1..]);
      assert segments == [segments[0]] + segments[1..];
    }
  }

  function Unsplit(segments: seq<string>): string
    requires segments != []
  {
    if |segments| == 1 then segments[0] else segments[0] + "/" + Unsplit(segments[1..])
  }

  /** Nothing is lost in taking a path apart. */
  lemma {:induction false} UnsplitSegments(path: string)
    ensures Unsplit(Segments(path)) == path
    decreases |path|
  {
    if path != "" {
      var rest := Segments(path[1..]);
      UnsplitSegments(path[1..]);
      assert path == [path[0]] + path[1..];
      if path[0] == '/' {
        assert ([""] + rest)[1..] == rest;
      } else {
        assert ([[path[0]] + rest[0]] + rest[1..])[1..] == rest[1..];
      }
    }
  }

  lemma {:induction false} CommonStart<T>(a: seq<T>, s: seq<T>, b: seq<T>, t: seq<T>)
    requires a + s == b + t
    ensures a <= b || b <= a
    ensures a == b ==> s == t
  {
    assert forall i :: 0 <= i < |a| ==> (a + s)[i] == a[i];
    assert forall i :: 0 <= i < |b| ==> (b + t)[i] == b[i];
    assert s == (a + s)[|a|..] && t == (b + t)[|b|..];
  }

  /** With canonical paths and separate project roots, every place has its own file. */
  lemma {:induction false} CanonicalPlacesHaveOwnFiles(places: set<Place>, st: Setting)
    requires RootsApart(st.roots) && forall x :: x in places ==> Canonical(x.1)
    ensures OwnFiles(places, st)
  {
    hide Walk, Segments;
    forall x, y | x in places && y in places && x != y && x.0 in st.roots && y.0 in st.roots
      ensures FileOf(st.roots[x.0], x.1) != FileOf(st.roots[y.0], y.1)
    {
      var a, b := st.roots[x.0], st.roots[y.0];
      WalkPlain(a, Segments(x.1));
      WalkPlain(b, Segments(y.1));
      if a + Segments(x.1) == b + Segments(y.1) {
        CommonStart(a, Segments(x.1), b, Segments(y.1));
        UnsplitSegments(x.1);
        UnsplitSegments(y.1);
      }
    }
  }

  /** Without canonical paths it can fail: a dot segment makes another indexed path for the same file. */
  lemma {:induction false} DottedPathClashes(root: Path, name: string)
    requires '/' !in name
    ensures FileOf(root, MANAGED + "/" + name) == FileOf(root, MANAGED + "/" + ("." + "/" + name))
    ensures MANAGED + "/" + name != MANAGED + "/" + ("." + "/" + name)
    ensures Normalize(MANAGED + "/" + name) == MANAGED + "/" + name
    ensures Normalize(MANAGED + "/" + ("." + "/" + name)) == MANAGED + "/" + ("." + "/" + name)
  {
    SegmentsOf(MANAGED, name);
    SegmentsOf(MANAGED, "." + "/" + name);
    SegmentsOf(".", name);
    SegmentsOfName(name);
    var tail := [name];
    var dotted := ["."] + tail;
    assert ([MANAGED] + tail)[1..] == tail && ([MANAGED] + dotted)[1..] == dotted && dotted[1..] == tail;
    assert Walk(root, [MANAGED] + tail) == Walk(root + [MANAGED], tail);
    assert Walk(root, [MANAGED] + dotted) == Walk(root + [MANAGED], dotted) == Walk(root + [MANAGED], tail);
    assert |MANAGED + "/" + name| != |MANAGED + "/" + ("." + "/" + name)|;
  }

  /** A parent segment takes back the one before it, and at the top nothing. */
  lemma {:induction false} ParentClashes(root: Path, inner: string, name: string)
    requires '/' !in name && '/' !in inner && Plain(inner)
    ensures FileOf(root, MANAGED + "/" + name) == FileOf(root, MANAGED + "/" + (inner + "/" + (".." + "/" + name)))
    ensures FileOf([], ".." + "/" + name) == FileOf([], name)
  {
    var up := ".." + "/" + name;
    SegmentsOf(MANAGED, name);
    SegmentsOf(MANAGED, inner + "/" + up);
    SegmentsOf(inner, up);
    SegmentsOf("..", name);
    SegmentsOfName(name);
    var from := root + [MANAGED];
    var rest := [".."] + [name];
    assert ([MANAGED] + [name])[1..] == [name] && ([MANAGED] + ([inner] + rest))[1..] == [inner] + rest;
    assert ([inner] + rest)[1..] == rest && rest[1..] == [name];
    assert Walk(from, [inner] + rest) == Walk(from + [inner], rest);
    assert (from + [inner])[..|from|] == from;
    assert Walk(from + [inner], rest) == Walk(from, [name]);
    assert Walk([], rest) == Walk([], [name]);
  }

  lemma {:induction false} SegmentsOfName(name: string)
    requires '/' !in name
    ensures Segments(name) == [name]
    decreases |name|
  {
    if name != "" {
      SegmentsOfName(name[1..]);
      assert [name[0]] + name[1..] == name;
    }
  }

  lemma {:induction false} SegmentsOf(head: string, rest: string)
    requires '/' !in head
    ensures Segments(head + "/" + rest) == [head] + Segments(rest)
    decreases |head|
  {
    if head == "" {
      assert head + "/" + rest == "/" + rest;
      assert ("/" + rest)[1..] == rest;
    } else {
      assert head[0] != '/';
      assert (head + "/" + rest)[1..] == head[1..] + "/" + rest;
      SegmentsOf(head[1..], rest);
      assert [head[0]] + head[1..] == head;
    }
  }

  // ---------------------------------------------------------------- what an operation does for its caller

  /** A creation fails only for an unknown project, an id in use, or a document at that path. */
  lemma {:induction false} CreateSucceedsIff(s: State, op: Op, st: Setting)
    requires op.Create?
    ensures Result(s, op, st).Done? <==>
      && op.project in st.roots && op.id !in s.docs
      && forall id :: id in s.docs && s.docs[id].project == op.project ==> s.docs[id].path != Normalize(op.path)
    ensures Result(s, op, st).Done? || Step(s, op, st) == s
    ensures Result(s, op, st) in {ProjectNotFound, AlreadyExists} || Result(s, op, st).Done?
    ensures Result(s, op, st) == ProjectNotFound <==> op.project !in st.roots
  {
    hide FileOf, Normalize;
  }

  /** Two creations under different unmanaged paths, with different new ids, both succeed. */
  lemma {:induction false} TwoCreationsSucceed(s: State, op: Op, op': Op, st: Setting)
    requires op.Create? && op'.Create? && op.project == op'.project
    requires Result(s, op, st).Done? && op'.id !in s.docs && op'.id != op.id
    requires !PathTaken(s, op.project, Normalize(op'.path))
    requires op.path != op'.path && !(".autonomos" <= op.path) && !(".autonomos" <= op'.path)
    requires op.path == "" || (op.path[0] != '/' && op.path[0] != '\\')
    requires op'.path == "" || (op'.path[0] != '/' && op'.path[0] != '\\')
    ensures Result(Step(s, op, st), op', st).Done?
  {
    hide FileOf, Normalize;
    UnmanagedStayApart(op.path, op'.path);
  }

  /** What was created can be read under its id, at version 1, with the content given. */
  lemma {:induction false} CreatedIsThere(s: State, op: Op, st: Setting)
    requires op.Create? && Result(s, op, st).Done?
    ensures var t := Step(s, op, st);
      && t.docs.Keys == s.docs.Keys + {op.id} && (forall id :: id in s.docs && id != op.id ==> t.docs[id] == s.docs[id])
      && var d := t.docs[op.id];
        && Result(s, op, st) == Done(d) && d.id == op.id && d.project == op.project && d.path == Normalize(op.path)
        && d.title == op.title && d.content == op.content && d.summary == op.summary && d.tags == op.tags
        && d.references == op.references && d.version == 1 && d.checksum == st.hash(op.content)
        && t.files == s.files[FileOf(st.roots[op.project], d.path) := op.content]
  {
    hide FileOf, Normalize;
  }

  /** An update fails only for an unknown document, a stale version, or an unknown project, in this order. */
  lemma {:induction false} UpdateFailsWhen(s: State, op: Op, st: Setting)
    requires op.Update?
    ensures var known := op.id in s.docs && s.docs[op.id].project == op.project;
      var stale := known && op.expected.Some? && op.expected.value != s.docs[op.id].version;
      && (Result(s, op, st) == NotFound <==> !known)
      && (Result(s, op, st) == Conflict <==> stale)
      && (Result(s, op, st) == ProjectNotFound <==> known && !stale && op.project !in st.roots)
      && (Result(s, op, st).Done? <==> known && !stale && op.project in st.roots)
    ensures Result(s, op, st).Done? || Step(s, op, st) == s
  {
    hide FileOf, Updated;
  }

  /** An update changes one document, its fields as given, its version by one, and one file. */
  lemma {:induction false} UpdateChangesOne(s: State, op: Op, st: Setting)
    requires op.Update? && Result(s, op, st).Done? && s.docs[op.id].id == op.id
    ensures var t := Step(s, op, st);
      && t.docs.Keys == s.docs.Keys && (forall id :: id in s.docs && id != op.id ==> t.docs[id] == s.docs[id])
      && var d, d' := s.docs[op.id], t.docs[op.id];
        && Result(s, op, st) == Done(d') && d'.id == d.id && d'.project == d.project && d'.path == d.path
        && d'.content == op.content && d'.checksum == st.hash(op.content) && d'.version == d.version + 1
        && Given(op.newTitle, d.title, d'.title) && Given(op.newSummary, d.summary, d'.summary)
        && Given(op.newTags, d.tags, d'.tags) && Given(op.newReferences, d.references, d'.references)
        && t.files == s.files[FileOf(st.roots[d.project], d.path) := op.content]
  {
    hide FileOf;
  }

  /** A field takes the value given, if one is. */
  predicate Given<T(==)>(new': Option<T>, was: T, now: T) { new' == Some(now) || (new'.None? && now == was) }

  /** A deletion takes away one document and its file, or fails and changes nothing. */
  lemma {:induction false} DeleteTakesOne(s: State, op: Op, st: Setting)
    requires op.Delete?
    ensures var known, t := op.id in s.docs && s.docs[op.id].project == op.project, Step(s, op, st);
      if !known then Result(s, op, st) == NotFound && t == s
      else if op.project !in st.roots then Result(s, op, st) == ProjectNotFound && t == s
      else
        && Result(s, op, st) == Deleted && t.docs == s.docs - {op.id}
        && t.files == s.files - {FileOf(st.roots[op.project], s.docs[op.id].path)}
  {
    hide FileOf;
  }

  // ---------------------------------------------------------------- versions

  /** The successful updates of a document since it was last created. */
  ghost function Updates(ops: seq<Op>, id: string, st: Setting): nat {
    if ops == [] then 0
    else
      var n := |ops| - 1;
      var out := OutcomeAt(ops, n, st);
      if ops[n].id != id || (!out.Done? && !out.Deleted?) then Updates(ops[..n], id, st)
      else if ops[n].Update? then Updates(ops[..n], id, st) + 1
      else 0
  }

  /** The version counts the successful updates. */
  lemma {:induction false} VersionCountsUpdates(ops: seq<Op>, id: string, st: Setting)
    ensures id in Run(ops, st).docs ==> Run(ops, st).docs[id].version == 1 + Updates(ops, id, st)
    decreases |ops|
  {
    hide FileOf, Normalize, PathTaken, PathsUnique;
    if ops != [] {
      var n := |ops| - 1;
      VersionCountsUpdates(ops[..n], id, st);
      PathsStayUnique(ops[..n], st);
      assert OutcomeAt(ops, n, st) == Result(Run(ops[..n], st), ops[n], st);
    }
  }

  ghost predicate DeletedBetween(ops: seq<Op>, id: string, i: nat, j: nat, st: Setting)
    requires j <= |ops|
  {
    exists k :: i < k < j && ops[k].Delete? && ops[k].id == id && OutcomeAt(ops, k, st) == Deleted
  }

  lemma {:induction false} StepGrowsVersion(s: State, op: Op, id: string, st: Setting)
    requires (forall j :: j in s.docs ==> s.docs[j].id == j) && id in s.docs
    requires !(op.Delete? && op.id == id && Result(s, op, st) == Deleted)
    ensures id in Step(s, op, st).docs && Step(s, op, st).docs[id].version >= s.docs[id].version
  {
    hide FileOf, Normalize;
  }

  lemma {:induction false} VersionOnlyGrows(ops: seq<Op>, id: string, i: nat, j: nat, st: Setting)
    requires i < j <= |ops| && id in Run(ops[..i + 1], st).docs && !DeletedBetween(ops, id, i, j, st)
    ensures id in Run(ops[..j], st).docs
    ensures Run(ops[..j], st).docs[id].version >= Run(ops[..i + 1], st).docs[id].version
    decreases j
  {
    hide FileOf, Normalize, Step, Result;
    if i + 1 < j {
      assert !DeletedBetween(ops, id, i, j - 1, st);
      VersionOnlyGrows(ops, id, i, j - 1, st);
      PathsStayUnique(ops[..j - 1], st);
      assert ops[..j] == ops[..j - 1] + [ops[j - 1]];
      RunSnoc(ops[..j - 1], ops[j - 1], st);
      assert OutcomeAt(ops, j - 1, st) == Result(Run(ops[..j - 1], st), ops[j - 1], st);
      StepGrowsVersion(Run(ops[..j - 1], st), ops[j - 1], id, st);
    }
  }

  /**
   Of all updates of a document that expect the same version, at most one succeeds in the
   document's lifetime: two can only if it was deleted in between.
   */
  lemma {:induction false} OneWinner(ops: seq<Op>, i: nat, j: nat, v: int, st: Setting)
    requires i < j < |ops| && ops[i].Update? && ops[j].Update? && ops[i].id == ops[j].id
    requires ops[i].expected == ops[j].expected == Some(v)
    requires OutcomeAt(ops, i, st).Done? && OutcomeAt(ops, j, st).Done?
    ensures DeletedBetween(ops, ops[i].id, i, j, st)
  {
    hide FileOf, Normalize;
    var id := ops[i].id;
    PathsStayUnique(ops[..i], st);
    assert ops[..i + 1] == ops[..i] + [ops[i]];
    RunSnoc(ops[..i], ops[i], st);
    assert id in Run(ops[..i + 1], st).docs && Run(ops[..i + 1], st).docs[id].version == v + 1;
    if !DeletedBetween(ops, id, i, j, st) {
      VersionOnlyGrows(ops, id, i, j, st);
    }
  }

  // ---------------------------------------------------------------- the manager

  /** A document as its holder has it: a copy of the stored one, which saving copies back. */
  class MemoryDocument {
    const id: string
    const project: string
    const path: string
    var title: string
    var content: string
    var summary: string
    var tags: seq<string>
    var references: seq<string>
    var version: int
    var checksum: string

    ghost function Value(): Document
      reads this
    {
      Document(id, project, title, path, content, summary, tags, references, version, checksum)
    }

    constructor (d: Document)
      ensures Value() == d
    {
      id, project, path, title, content := d.id, d.project, d.path, d.title, d.content;
      summary, tags, references, version, checksum := d.summary, d.tags, d.references, d.version, d.checksum;
    }

    method SetTitle(title: string)
      modifies this`title
      ensures Value() == old(Value()).(title := title)
    {
      this.title := title;
    }

    /** New content, its checksum and the next version; the other fields only if they are given. */
    method UpdateContent(newContent: string, summary: Option<string>, tags: Option<seq<string>>,
                         references: Option<seq<string>>, hash: string -> string)
      modifies this
      ensures Value() == old(Value()).(
        content := newContent, checksum := hash(newContent), version := old(version) + 1,
        summary := if summary.Some? then summary.value else old(this.summary),
        tags := if tags.Some? then tags.value else old(this.tags),
        references := if references.Some? then references.value else old(this.references))
    {
      content := newContent;
      checksum := hash(newContent);
      if summary.Some? {
        this.summary := summary.value;
      }
      if tags.Some? {
        this.tags := tags.value;
      }
      if references.Some? {
        this.references := references.value;
      }
      version := version + 1;
    }

    /** The stored document, as a new value. */
    method Copy() returns (d: Document)
      ensures d == Value()
    {
      d := Document(id, project, title, path, content, summary, tags, references, version, checksum);
    }
  }

  class MemoryManager {
    const setting: Setting
    var docs: map<string, Document>
    var files: map<Path, string>

    ghost function View(): State
      reads this
    {
      State(docs, files)
    }

    ghost predicate Valid()
      reads this
    {
      PathsUnique(View()) && forall id :: id in docs ==> docs[id].id == id
    }

    constructor (setting: Setting)
      ensures Valid() && View() == EMPTY && this.setting == setting
    {
      this.setting, docs, files := setting, map[], map[];
    }

    method CreateMemory(op: Op) returns (r: Outcome)
      requires Valid() && op.Create?
      modifies this
      ensures Valid() && View() == Step(old(View()), op, setting)
      ensures r == Result(old(View()), op, setting)
    {
      hide FileOf, Normalize;
      if op.project !in setting.roots {
        return ProjectNotFound;
      }
      if op.id in docs {
        return AlreadyExists;
      }
      var cleanRel := Normalize(op.path);
      if exists id :: id in docs && docs[id].project == op.project && docs[id].path == cleanRel {
        return AlreadyExists;
      }
      files := files[FileOf(setting.roots[op.project], cleanRel) := op.content];
      var doc := Document(op.id, op.project, op.title, cleanRel, op.content, op.summary, op.tags, op.references,
                          1, setting.hash(op.content));
      docs := docs[doc.id := doc];
      return Done(doc);
    }

    method ReadMemory(project: string, id: string) returns (r: Option<Document>)
      ensures r == if id in docs && docs[id].project == project then Some(docs[id]) else None
    {
      if id !in docs || docs[id].project != project {
        return None;
      }
      return Some(docs[id]);
    }

    /** The path may be given in any form that normalizes to the indexed one. */
    method ReadMemoryByPath(project: string, path: string) returns (r: Option<Document>)
      requires Valid()
      ensures r.None? <==> !PathTaken(View(), project, Normalize(path))
      ensures r.Some? ==> r.value.project == project && r.value.path == Normalize(path)
      ensures r.Some? ==> r.value.id in docs && docs[r.value.id] == r.value
    {
      var cleanRel := Normalize(path);
      if id :| id in docs && docs[id].project == project && docs[id].path == cleanRel {
        return Some(docs[id]);
      }
      return None;
    }

    method UpdateMemory(op: Op) returns (r: Outcome)
      requires Valid() && op.Update?
      modifies this
      ensures Valid() && View() == Step(old(View()), op, setting)
      ensures r == Result(old(View()), op, setting)
    {
      hide FileOf, Normalize;
      var found := ReadMemory(op.project, op.id);
      if found.None? {
        return NotFound;
      }
      var doc := new MemoryDocument(found.value);
      if op.expected.Some? && doc.version != op.expected.value {
        return Conflict;
      }
      if op.project !in setting.roots {
        return ProjectNotFound;
      }
      if op.newTitle.Some? {
        doc.SetTitle(op.newTitle.value);
      }
      doc.UpdateContent(op.content, op.newSummary, op.newTags, op.newReferences, setting.hash);
      var stored := doc.Copy();
      assert stored == Updated(found.value, op, setting);
      files := files[FileOf(setting.roots[op.project], stored.path) := op.content];
      docs := docs[stored.id := stored];
      return Done(stored);
    }

    method DeleteMemory(op: Op) returns (r: Outcome)
      requires Valid() && op.Delete?
      modifies this
      ensures Valid() && View() == Step(old(View()), op, setting)
      ensures r == Result(old(View()), op, setting)
    {
      hide FileOf, Normalize;
      var found := ReadMemory(op.project, op.id);
      if found.None? {
        return NotFound;
      }
      if op.project !in setting.roots {
        return ProjectNotFound;
      }
      files := files - {FileOf(setting.roots[op.project], found.value.path)};
      docs := docs - {op.id};
      return Deleted;
    }
  }
}
