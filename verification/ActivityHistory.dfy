/** Over a whole stream: an activity forgets nothing, and its research counters are exact totals. */
module ActivityHistory {
  import opened Wrappers
  import opened Strings
  import opened Activities
  import opened ActivityLaws
  import opened ActivityEffects
  import opened ActivityEffectLaws
  import opened Projection

  /** Commands are only added, and one that has ended stays as it is. */
  ghost predicate CommandsGrow(cs: seq<Command>, ds: seq<Command>) {
    && |cs| <= |ds|
    && forall i :: 0 <= i < |cs| ==> ds[i].command == cs[i].command && (!cs[i].running ==> ds[i] == cs[i])
  }

  /** Workers are only added, and stay who they are, whatever becomes of their work. */
  ghost predicate WorkersGrow(ws: seq<Worker>, vs: seq<Worker>) {
    && |ws| <= |vs|
    && forall i :: 0 <= i < |ws| ==>
         && vs[i].id == ws[i].id && vs[i].name == ws[i].name
         && vs[i].role == ws[i].role && vs[i].startedAt == ws[i].startedAt
  }

  /** Changed files are only added; the last change of each is what is kept. */
  ghost predicate ChangesGrow(fs: seq<FileChange>, gs: seq<FileChange>) {
    |fs| <= |gs| && forall i :: 0 <= i < |fs| ==> gs[i].path == fs[i].path
  }

  /** All five lists of an activity. */
  ghost predicate ListsGrow(a: Activity, b: Activity) {
    && a.completedActions <= b.completedActions
    && a.filesRead <= b.filesRead
    && CommandsGrow(a.commands, b.commands)
    && WorkersGrow(a.workers, b.workers)
    && ChangesGrow(a.filesChanged, b.filesChanged)
  }

  function Sources(a: Activity): int { GetOr(a.metrics.sources, 0) }

  function Evidence(a: Activity): int { GetOr(a.metrics.evidence, 0) }

  /** From `a` to `b` nothing listed is lost, and the counters grow by the given amounts. */
  ghost predicate Advances(a: Activity, b: Activity, sources: int, evidence: int) {
    && ListsGrow(a, b)
    && Sources(b) == Sources(a) + sources
    && Evidence(b) == Evidence(a) + evidence
  }

  /** What an event contributes to the sources collected, and to the evidence. */
  function NewSources(k: Kind): int {
    match k
    case SearchPerformed(_, _, count) => GetOr(count, 0)
    case SourceFetched(_, _) => 1
    case _ => 0
  }

  function NewEvidence(k: Kind): int { if k.FindingCreated? then 1 else 0 }

  // ---------------------------------------------------------------- every event

  lemma {:induction false} WorkersAreKept(ws: seq<Worker>, vs: seq<Worker>, effect: WorkerEffect, now: string)
    requires WorkersTo(ws, vs, effect, now)
    ensures WorkersGrow(ws, vs)
  {}

  lemma {:induction false} ChangesAreKept(
    fs: seq<FileChange>, gs: seq<FileChange>, change: (string, FileOperation), now: string)
    requires ChangedTo(fs, gs, change, now)
    ensures ChangesGrow(fs, gs)
  {}

  lemma {:induction false} CommandsAreKept(cs: seq<Command>, ds: seq<Command>, effect: CommandEffect, now: string)
    requires CommandsTo(cs, ds, effect, now)
    ensures CommandsGrow(cs, ds)
  {}

  /** What the table says loses nothing, and counts what the event brings. */
  lemma {:induction false} DoesAdvance(a: Activity, b: Activity, e: Event, style: Style, now: string)
    ensures DoesAs(a, b, e, style, now) ==> Advances(a, b, NewSources(e.kind), NewEvidence(e.kind))
  {
    hide ReadBy, ChangeBy, DoneBy, CommandBy, WorkerBy, WorkersTo, ChangedTo, CommandsTo, StatusBy, LiveBy, EndBy,
      ErrorBy,
      WaitBy, AnsweredBy, ShownAs, Strip, ActiveTo, WorkersGrow, ChangesGrow, CommandsGrow;
    if DoesAs(a, b, e, style, now) {
      WorkersAreKept(a.workers, b.workers, WorkerBy(a, e, style), now);
      ChangesAreKept(a.filesChanged, b.filesChanged, ChangeBy(e), now);
      CommandsAreKept(a.commands, b.commands, CommandBy(e, style), now);
    }
  }

  /** Whatever the event, nothing listed is lost, and the counters grow by what the event brings. */
  lemma {:induction false} EveryEventAdvances(a: Activity, e: Event, style: Style, now: string)
    ensures Advances(a, Apply(Touch(a, e), e, style, now), NewSources(e.kind), NewEvidence(e.kind))
  {
    hide Apply, DoesAs, NewSources, NewEvidence, Contains, Lower, Say;
    var t := Touch(a, e);
    EveryEventDoes(t, e, style, now);
    DoesAdvance(t, Apply(t, e, style, now), e, style, now);
  }

  lemma {:induction false} NothingLost(a: Activity)
    ensures ListsGrow(a, a)
  {}

  // ---------------------------------------------------------------- over a stream

  function TotalSources(ds: seq<Delivery>): int {
    if ds == [] then 0 else TotalSources(ds[..|ds| - 1]) + NewSources(ds[|ds| - 1].event.kind)
  }

  function TotalEvidence(ds: seq<Delivery>): int {
    if ds == [] then 0 else TotalEvidence(ds[..|ds| - 1]) + NewEvidence(ds[|ds| - 1].event.kind)
  }

  lemma {:induction false} StoryTotals(ds: seq<Delivery>, style: Style)
    requires ds != []
    ensures Story(ds, style).Some?
    ensures Sources(Story(ds, style).value) == TotalSources(ds) && Evidence(Story(ds, style).value) == TotalEvidence(ds)
    decreases |ds|
  {
    hide Apply, Touch, ListsGrow;
    var n := |ds| - 1;
    var d := ds[n];
    var a := GetOr(Story(ds[..n], style), NewActivity(d.event, d.now));
    if n > 0 {
      StoryTotals(ds[..n], style);
    }
    EveryEventAdvances(a, d.event, style, d.now);
  }

  /**
   For every stream in which ids are not reused: the counters of an activity are the totals over
   the first deliveries of its own events, whatever else was delivered, and however often.
   */
  lemma {:induction false} CountersAreExact(ds: seq<Delivery>, k: string, style: Style)
    requires OneEventPerId(ds) && k in ProjectAll(ds, style).activities
    ensures var a := ProjectAll(ds, style).activities[k];
      Sources(a) == TotalSources(Own(ds, k)) && Evidence(a) == TotalEvidence(Own(ds, k))
  {
    hide ProjectAll, Own, TotalSources, TotalEvidence;
    EachKeyTellsItsStory(ds, style);
    assert TellsStory(ds, k, style);
    if Own(ds, k) != [] {
      StoryTotals(Own(ds, k), style);
    }
  }

  /** One more delivery, new or repeated, of this key or another, loses nothing an activity lists. */
  lemma {:induction false} NothingIsForgotten(ds: seq<Delivery>, d: Delivery, k: string, style: Style)
    requires k in ProjectAll(ds, style).activities
    ensures k in ProjectAll(ds + [d], style).activities
    ensures ListsGrow(ProjectAll(ds, style).activities[k], ProjectAll(ds + [d], style).activities[k])
  {
    hide Apply, Touch, NewActivity, KeyOf, ProjectAll, ListsGrow;
    ProjectSnoc(ds, d, style);
    NothingLost(ProjectAll(ds, style).activities[k]);
    EveryEventAdvances(ProjectAll(ds, style).activities[k], d.event, style, d.now);
  }
}
