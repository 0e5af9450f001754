/** What an activity shows after any stream of events, in terms of the events alone. */
module ActivityStories {
  import opened Wrappers
  import opened Strings
  import opened Activities
  import opened ActivityLaws
  import opened ActivityEffects
  import opened ActivityEffectLaws
  import opened ActivityLists
  import opened ActiveWorkers
  import opened Projection

  // ---------------------------------------------------------------- the last that counts

  /** The value that the last delivery which brings one brings. */
  function LastOf<T>(ds: seq<Delivery>, f: Event -> Option<T>, none: T): T {
    if ds == [] then none else GetOr(f(ds[|ds| - 1].event), LastOf(ds[..|ds| - 1], f, none))
  }

  lemma {:induction false} LastOfIs<T>(ds: seq<Delivery>, f: Event -> Option<T>, none: T)
    ensures forall j :: 0 <= j < |ds| && f(ds[j].event).Some? && (forall k :: j < k < |ds| ==> f(ds[k].event).None?) ==>
      LastOf(ds, f, none) == f(ds[j].event).value
    ensures (forall j :: 0 <= j < |ds| ==> f(ds[j].event).None?) ==> LastOf(ds, f, none) == none
    decreases |ds|
  {
    if ds != [] {
      var n := |ds| - 1;
      var before := ds[..n];
      LastOfIs(before, f, none);
      assert ds == before + [ds[n]];
      forall j | 0 <= j < n && f(ds[j].event).Some? && (forall k :: j < k < |ds| ==> f(ds[k].event).None?)
        ensures LastOf(ds, f, none) == f(ds[j].event).value
      {
        assert f(before[j].event).Some? && forall k :: j < k < |before| ==> before[k] == ds[k];
        assert f(ds[n].event).None?;
      }
    }
  }

  /** The error reported last. */
  function LastError(ds: seq<Delivery>, style: Style): Option<string> {
    if ds == [] then None else GetOr(ErrorBy(ds[|ds| - 1].event, style), LastError(ds[..|ds| - 1], style))
  }

  /** The action shown last. */
  ghost function LastAction(ds: seq<Delivery>, style: Style): string {
    if ds == [] then Say(InitialAction)
    else GetOr(ActionBy(Found(ds, style), ds[|ds| - 1].event, style), LastAction(ds[..|ds| - 1], style))
  }

  // ---------------------------------------------------------------- first occurrences

  /** The texts of a list without the empty one, each where it occurs first. */
  function Firsts(xs: seq<string>): seq<string> {
    if xs == [] then [] else With(Firsts(xs[..|xs| - 1]), xs[|xs| - 1])
  }

  function IndexIn(xs: seq<string>, x: string): nat
    requires x in xs
  {
    if xs[0] == x then 0 else 1 + IndexIn(xs[1..], x)
  }

  lemma {:induction false} IndexIs(xs: seq<string>, x: string)
    requires x in xs
    ensures var i := IndexIn(xs, x); i < |xs| && xs[i] == x && forall k :: 0 <= k < i ==> xs[k] != x
    decreases |xs|
  {
    if xs[0] != x {
      assert xs == [xs[0]] + xs[1..];
      IndexIs(xs[1..], x);
    }
  }

  lemma {:induction false} FirstsAre(xs: seq<string>)
    ensures NoRepeats(Firsts(xs)) && forall x :: x in Firsts(xs) <==> x != "" && x in xs
    ensures forall i, j :: 0 <= i < j < |Firsts(xs)| ==> IndexIn(xs, Firsts(xs)[i]) < IndexIn(xs, Firsts(xs)[j])
    decreases |xs|
  {
    if xs != [] {
      var n := |xs| - 1;
      var before, last := xs[..n], xs[n];
      FirstsAre(before);
      assert xs == before + [last];
      var r := Firsts(before);
      forall i, j | 0 <= i < j < |Firsts(xs)| ensures IndexIn(xs, Firsts(xs)[i]) < IndexIn(xs, Firsts(xs)[j]) {
        var x, y := Firsts(xs)[i], Firsts(xs)[j];
        assert x == r[i] && x in before;
        SameIndex(before, last, x);
        if j < |r| {
          assert y == r[j] && y in before;
          SameIndex(before, last, y);
        } else {
          assert y == last && y !in before;
          IndexIs(xs, y);
          IndexIs(before, x);
        }
      }
    }
  }

  lemma {:induction false} SameIndex(xs: seq<string>, last: string, x: string)
    requires x in xs
    ensures IndexIn(xs + [last], x) == IndexIn(xs, x) < |xs|
  {
    IndexIs(xs, x);
    IndexIs(xs + [last], x);
    assert (xs + [last])[IndexIn(xs, x)] == x && IndexIn(xs + [last], x) <= IndexIn(xs, x);
  }

  function TextsOf(ds: seq<Delivery>, f: Event -> string): seq<string> {
    if ds == [] then [] else TextsOf(ds[..|ds| - 1], f) + [f(ds[|ds| - 1].event)]
  }

  /** The completed actions that the deliveries bring, each from what it finds. */
  ghost function DoneTexts(ds: seq<Delivery>, style: Style): seq<string> {
    if ds == [] then []
    else DoneTexts(ds[..|ds| - 1], style) + [Strip(DoneBy(Found(ds, style), ds[|ds| - 1].event))]
  }

  // ---------------------------------------------------------------- commands as a stack

  /** The commands under way: a start puts one on top unless it is there, an end takes the top one off. */
  function StackAfter(ds: seq<Delivery>, style: Style): seq<string> {
    if ds == [] then []
    else
      var stack := StackAfter(ds[..|ds| - 1], style);
      match CommandBy(ds[|ds| - 1].event, style)
      case NoCommand => stack
      case Starts(c) => if c in stack then stack else stack + [c]
      case Ends(_, _, _) => if stack == [] then [] else stack[..|stack| - 1]
  }

  /** The commands ever started, those not counted that were under way already. */
  function StartedBy(ds: seq<Delivery>, style: Style): seq<string> {
    if ds == [] then []
    else
      var before := ds[..|ds| - 1];
      var effect := CommandBy(ds[|ds| - 1].event, style);
      StartedBy(before, style)
      + if effect.Starts? && effect.command !in StackAfter(before, style) then [effect.command] else []
  }

  function Commands(cs: seq<Command>): seq<string> {
    if cs == [] then [] else Commands(cs[..|cs| - 1]) + [cs[|cs| - 1].command]
  }

  function RunningOnes(cs: seq<Command>): seq<string> {
    if cs == [] then []
    else RunningOnes(cs[..|cs| - 1]) + if cs[|cs| - 1].running then [cs[|cs| - 1].command] else []
  }

  lemma {:induction false} RunningElements(cs: seq<Command>)
    ensures forall c :: c in RunningOnes(cs) <==> IsRunningCommand(cs, c)
    ensures RunningOnes(cs) == [] <==> forall j :: 0 <= j < |cs| ==> !cs[j].running
    decreases |cs|
  {
    if cs != [] {
      var n := |cs| - 1;
      RunningElements(cs[..n]);
      assert cs == cs[..n] + [cs[n]];
      forall c ensures c in RunningOnes(cs) <==> IsRunningCommand(cs, c) {
        if cs[n].running && cs[n].command == c {
          assert IsRunningCommand(cs, c);
        }
        if IsRunningCommand(cs[..n], c) {
          var j :| 0 <= j < n && cs[..n][j].command == c && cs[..n][j].running;
          assert cs[j].command == c && cs[j].running;
        }
      }
    }
  }

  /** When the last running command ends, it is taken off the top. */
  lemma {:induction false} EndTakesTop(cs: seq<Command>, j: nat, c: Command)
    requires j < |cs| && cs[j].running && !c.running && c.command == cs[j].command
    requires forall k :: j < k < |cs| ==> !cs[k].running
    ensures RunningOnes(cs) != [] && RunningOnes(cs[j := c]) == RunningOnes(cs)[..|RunningOnes(cs)| - 1]
    ensures Commands(cs[j := c]) == Commands(cs)
    decreases |cs|
  {
    var n := |cs| - 1;
    var ds := cs[j := c];
    if j == n {
      assert ds[..n] == cs[..n];
    } else {
      EndTakesTop(cs[..n], j, c);
      assert ds[..n] == cs[..n][j := c] && ds[n] == cs[n];
    }
  }

  lemma {:induction false} StackStep(cs: seq<Command>, ds: seq<Command>, effect: CommandEffect, now: string)
    requires CommandsTo(cs, ds, effect, now)
    ensures var stack := RunningOnes(cs);
      RunningOnes(ds) == match effect
                         case NoCommand => stack
                         case Starts(c) => if c in stack then stack else stack + [c]
                         case Ends(_, _, _) => if stack == [] then [] else stack[..|stack| - 1]
    ensures Commands(ds)
         == Commands(cs) + if effect.Starts? && effect.command !in RunningOnes(cs) then [effect.command] else []
  {
    hide RunningOnes, Commands;
    RunningElements(cs);
    match effect
    case NoCommand =>
    case Starts(c) => OneMoreCommand(cs, Command(c, None, None, true, "", now));
    case Ends(exitCode, duration, preview) => EndStep(cs, ds, exitCode, duration, preview, now);
  }

  lemma {:induction false} OneMoreCommand(cs: seq<Command>, c: Command)
    ensures RunningOnes(cs + [c]) == RunningOnes(cs) + if c.running then [c.command] else []
    ensures Commands(cs + [c]) == Commands(cs) + [c.command]
  {
    assert (cs + [c])[..|cs|] == cs;
  }

  lemma {:induction false} EndStep(cs: seq<Command>, ds: seq<Command>, exitCode: int, duration: Option<real>,
                                   preview: Option<string>, now: string)
    requires CommandsTo(cs, ds, Ends(exitCode, duration, preview), now)
    ensures var stack := RunningOnes(cs); RunningOnes(ds) == if stack == [] then [] else stack[..|stack| - 1]
    ensures Commands(ds) == Commands(cs)
  {
    hide RunningOnes, Commands, IsRunningCommand;
    RunningElements(cs);
    if j :| 0 <= j < |cs| && cs[j].running && forall k :: j < k < |cs| ==> !cs[k].running {
      var i := LastChanged(cs, ds, exitCode, duration, preview, now);
      EndTakesTop(cs, i, ds[i]);
    } else {
      NoneRunning(cs);
    }
  }

  lemma {:induction false} LastChanged(cs: seq<Command>, ds: seq<Command>, exitCode: int, duration: Option<real>,
                                       preview: Option<string>, now: string) returns (i: nat)
    requires CommandsTo(cs, ds, Ends(exitCode, duration, preview), now)
    requires exists j :: 0 <= j < |cs| && cs[j].running && forall k :: j < k < |cs| ==> !cs[k].running
    ensures i < |cs| && cs[i].running && (forall k :: i < k < |cs| ==> !cs[k].running)
    ensures i < |ds| && !ds[i].running && ds[i].command == cs[i].command && ds == cs[i := ds[i]]
  {
    var j: nat :| j < |cs| && cs[j].running && forall k :: j < k < |cs| ==> !cs[k].running;
    i := j;
  }

  // ---------------------------------------------------------------- changed files

  function Paths(fs: seq<FileChange>): seq<string> {
    if fs == [] then [] else Paths(fs[..|fs| - 1]) + [fs[|fs| - 1].path]
  }

  lemma {:induction false} PathsAt(fs: seq<FileChange>)
    ensures |Paths(fs)| == |fs| && forall i :: 0 <= i < |fs| ==> Paths(fs)[i] == fs[i].path
    decreases |fs|
  {
    if fs != [] {
      PathsAt(fs[..|fs| - 1]);
    }
  }

  /** `g` is the last change of its file among the deliveries. */
  ghost predicate IsLastChange(ds: seq<Delivery>, g: FileChange) {
    exists j :: 0 <= j < |ds| && ChangeBy(ds[j].event).0 == g.path && g.path != ""
      && g == FileChange(g.path, ChangeBy(ds[j].event).1, ds[j].now)
      && forall k :: j < k < |ds| ==> ChangeBy(ds[k].event).0 != g.path
  }

  function ChangedPath(e: Event): string { ChangeBy(e).0 }

  lemma {:induction false} ChangeStep(ds: seq<Delivery>, d: Delivery, fs: seq<FileChange>, gs: seq<FileChange>)
    requires DistinctPaths(fs) && ChangedTo(fs, gs, ChangeBy(d.event), d.now)
    requires forall f :: f in fs ==> IsLastChange(ds, f)
    ensures Paths(gs) == With(Paths(fs), ChangedPath(d.event))
    ensures forall g :: g in gs ==> IsLastChange(ds + [d], g)
  {
    hide ChangeBy;
    var change, all := ChangeBy(d.event), ds + [d];
    PathsAt(fs);
    PathsAt(gs);
    forall i | 0 <= i < |gs| ensures IsLastChange(all, gs[i]) {
      if change.0 != "" && (i == |fs| || fs[i].path == change.0) {
        assert all[|ds|] == d && gs[i] == FileChange(change.0, change.1, d.now);
      } else {
        assert gs[i] == fs[i] && fs[i] in fs && fs[i].path != change.0;
        LaterChange(ds, d, fs[i]);
      }
    }
    if change.0 != "" {
      assert change.0 in Paths(fs) <==> HasPath(fs, change.0);
      if HasPath(fs, change.0) {
        assert forall i :: 0 <= i < |fs| ==> gs[i].path == fs[i].path;
      } else {
        assert gs[|fs|].path == change.0;
      }
      assert Paths(gs) == With(Paths(fs), change.0);
    }
  }

  lemma {:induction false} LaterChange(ds: seq<Delivery>, d: Delivery, f: FileChange)
    requires IsLastChange(ds, f) && ChangeBy(d.event).0 != f.path
    ensures IsLastChange(ds + [d], f)
  {
    hide ChangeBy;
    var all := ds + [d];
    var j :| 0 <= j < |ds| && ChangeBy(ds[j].event).0 == f.path && f.path != ""
      && f == FileChange(f.path, ChangeBy(ds[j].event).1, ds[j].now)
      && forall k :: j < k < |ds| ==> ChangeBy(ds[k].event).0 != f.path;
    assert all[j] == ds[j] && forall k :: j < k < |ds| ==> all[k] == ds[k];
  }

  // ---------------------------------------------------------------- the whole activity

  /** Status, liveness, end, error, reason for waiting and action are each the last that an event brought. */
  ghost predicate TellsState(a: Activity, ds: seq<Delivery>, style: Style) {
    && a.status == LastOf(ds, StatusBy, Pending) && a.live == LastOf(ds, LiveBy, true)
    && a.endTime == LastOf(ds, EndBy, None)
    && a.errorSummary == LastError(ds, style)
    && a.waitingReason == LastOf(ds, WaitBy, None)
    && a.currentAction == LastAction(ds, style)
  }

  /** The lists hold exactly what the events brought, in the order of first occurrence. */
  ghost predicate TellsLists(a: Activity, ds: seq<Delivery>, style: Style) {
    && a.filesRead == Firsts(TextsOf(ds, ReadBy))
    && Paths(a.filesChanged) == Firsts(TextsOf(ds, ChangedPath))
    && (forall f :: f in a.filesChanged ==> IsLastChange(ds, f))
    && a.completedActions == Firsts(DoneTexts(ds, style))
    && Commands(a.commands) == StartedBy(ds, style) && RunningOnes(a.commands) == StackAfter(ds, style)
  }

  lemma {:induction false} FirstsSnoc(xs: seq<string>, x: string)
    ensures Firsts(xs + [x]) == With(Firsts(xs), x)
  {
    assert (xs + [x])[..|xs|] == xs;
  }

  lemma {:induction false} StoryTells(ds: seq<Delivery>, style: Style)
    requires ds != []
    ensures Story(ds, style).Some?
    ensures var a := Story(ds, style).value; Consistent(a) && TellsState(a, ds, style) && TellsLists(a, ds, style)
    decreases |ds|
  {
    hide Apply, Touch, NewActivity, TellsState, TellsLists, Consistent, DoesAs;
    var d, before := ds[|ds| - 1], ds[..|ds| - 1];
    var a := Found(ds, style);
    if before != [] {
      StoryTells(before, style);
    } else {
      NewTells(d.event, d.now, style);
    }
    var t := Touch(a, d.event);
    EveryEventKeepsConsistent(a, d.event, style, d.now);
    TouchKeeps(a, d.event);
    EveryEventDoes(t, d.event, style, d.now);
    StateStep(ds, t, Apply(t, d.event, style, d.now), style);
    ListsStep(ds, t, Apply(t, d.event, style, d.now), style);
  }

  lemma {:induction false} NewTells(e: Event, now: string, style: Style)
    ensures var a := NewActivity(e, now); Consistent(a) && TellsState(a, [], style) && TellsLists(a, [], style)
  {
    hide Say;
  }

  /** `t` is `a` but for what is noted before an event is applied. */
  ghost predicate Noted(a: Activity, t: Activity) {
    t == a.(startTime := t.startTime, workerId := t.workerId, workerType := t.workerType, title := t.title)
  }

  /** Only the first event's time and the worker's identity are noted before the event is applied. */
  lemma {:induction false} TouchKeeps(a: Activity, e: Event)
    ensures var t := Touch(a, e);
      && Noted(a, t)
      && (Consistent(a) ==> DistinctPaths(t.filesChanged))
  {
    hide Say, Contains, Lower, Lists;
    if Consistent(a) {
      ListsHaveDistinctPaths(a);
    }
  }

  /** The start is the first time noted; the worker is the last one named, and a specialist's id names its trade. */
  lemma {:induction false} TouchNotes(a: Activity, e: Event)
    ensures var t := Touch(a, e);
      && t.startTime == (if a.startTime != "" then a.startTime else e.timestamp)
      && t.workerId == (if e.workerId != "" then e.workerId else a.workerId)
      && (t.workerType, t.title) == (if e.workerId == "" then (a.workerType, a.title)
                                     else TradeOf(Lower(e.workerId), (a.workerType, a.title)))
  {
    hide Say, Contains, Lower;
  }

  function TradeOf(id: string, otherwise: (string, string)): (string, string) {
    if Contains(id, "researcher") then (Say(ResearcherName), Say(ResearcherTitle))
    else if Contains(id, "programmer") then (Say(ProgrammerName), Say(ProgrammerTitle))
    else if Contains(id, "tester") then (Say(TesterName), Say(TesterTitle))
    else if Contains(id, "crawler") then (Say(CrawlerType), otherwise.1)
    else otherwise
  }

  lemma {:induction false} ListsHaveDistinctPaths(a: Activity)
    requires Lists(a)
    ensures DistinctPaths(a.filesChanged)
  {}

  /** One more delivery: the state that it brings takes the place of the one before. */
  lemma {:induction false} StateStep(ds: seq<Delivery>, t: Activity, b: Activity, style: Style)
    requires ds != []
    ensures var a, d := Found(ds, style), ds[|ds| - 1];
      TellsState(a, ds[..|ds| - 1], style) && Noted(a, t) && DoesAs(t, b, d.event, style, d.now)
      ==> TellsState(b, ds, style)
  {
    hide Found, StatusBy, LiveBy, EndBy, ErrorBy, WaitBy, NamesBy, FilesAs, WorkAs;
    var a, d := Found(ds, style), ds[|ds| - 1];
    if TellsState(a, ds[..|ds| - 1], style) && Noted(a, t) && DoesAs(t, b, d.event, style, d.now) {
      SameAction(a, t, d.event, style);
    }
  }

  lemma {:induction false} SameAction(a: Activity, t: Activity, e: Event, style: Style)
    requires t.taskId == a.taskId && t.metrics == a.metrics && t.filesRead == a.filesRead
    ensures ActionBy(t, e, style) == ActionBy(a, e, style) && DoneBy(t, e) == DoneBy(a, e)
  {
    hide Say, FirstOf, Prefix, Decimal, ReasonBy, ToolActionBy, Contains;
  }

  /** One more delivery: the lists take what it brings. */
  lemma {:induction false} ListsStep(ds: seq<Delivery>, t: Activity, b: Activity, style: Style)
    requires ds != []
    ensures var a, d := Found(ds, style), ds[|ds| - 1];
      TellsLists(a, ds[..|ds| - 1], style) && DistinctPaths(t.filesChanged) && Noted(a, t)
      && DoesAs(t, b, d.event, style, d.now)
      ==> TellsLists(b, ds, style)
  {
    hide Found, ReadBy, ChangeBy, DoneBy, CommandBy, WorkerBy, StateAs, ShownAs, WorkersTo, CommandsTo, ChangedTo,
      Firsts, With, Strip, Commands, RunningOnes, Paths, IsLastChange;
    var a, d, before := Found(ds, style), ds[|ds| - 1], ds[..|ds| - 1];
    if TellsLists(a, before, style) && DistinctPaths(t.filesChanged) && Noted(a, t)
      && DoesAs(t, b, d.event, style, d.now) {
      assert ds == before + [d];
      SameAction(a, t, d.event, style);
      FirstsSnoc(TextsOf(before, ReadBy), ReadBy(d.event));
      FirstsSnoc(TextsOf(before, ChangedPath), ChangedPath(d.event));
      FirstsSnoc(DoneTexts(before, style), Strip(DoneBy(a, d.event)));
      ChangeStep(before, d, a.filesChanged, b.filesChanged);
      StackStep(a.commands, b.commands, CommandBy(d.event, style), d.now);
    }
  }

  /**
   For every stream in which ids are not reused: what the activity at `k` shows and lists is what
   the first deliveries of its own events brought, and nothing else.
   */
  lemma {:induction false} ActivityTells(ds: seq<Delivery>, k: string, style: Style)
    requires OneEventPerId(ds) && k in ProjectAll(ds, style).activities
    ensures var a, own := ProjectAll(ds, style).activities[k], Own(ds, k);
      own != [] && TellsState(a, own, style) && TellsLists(a, own, style)
  {
    hide ProjectAll, Own, TellsState, TellsLists, Consistent;
    EachKeyTellsItsStory(ds, style);
    assert TellsStory(ds, k, style);
    if Own(ds, k) != [] {
      StoryTells(Own(ds, k), style);
    } else {
      NoStory(style);
    }
  }

  lemma {:induction false} NoStory(style: Style)
    ensures Story([], style) == None
  {}

  // ---------------------------------------------------------------- keys and new activities

  /** A new activity takes the identities of the event that brings it about. */
  lemma {:induction false} NewActivityIs(e: Event, now: string)
    ensures var a := NewActivity(e, now);
      && a.projectId == e.projectId && a.taskId == e.taskId && a.correlationId == e.correlationId
      && a.workerId == e.workerId && a.startTime == now && a.endTime == None
      && a.workerType == Say(ManagerType) && a.title == Say(DefaultTitle) && a.workers == [] && a.metrics == NO_METRICS
  {
    hide Say;
  }

  /** An event belongs to its correlation, or else to its task, or else to its project's or the global activity. */
  lemma {:induction false} KeyIs(e: Event)
    ensures e.correlationId != "" ==> KeyOf(e) == e.correlationId
    ensures e.correlationId == "" && e.taskId != "" ==> KeyOf(e) == e.taskId
    ensures e.correlationId == e.taskId == "" && e.projectId != "" ==> KeyOf(e) == e.projectId + "-main"
    ensures e.correlationId == e.taskId == e.projectId == "" ==> KeyOf(e) == "global-main"
  {}
}
