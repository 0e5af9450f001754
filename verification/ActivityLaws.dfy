/** What every reachable activity satisfies. */
module ActivityLaws {
  import opened Wrappers
  import opened Strings
  import opened Activities
  import opened ActivityEffects
  import opened ActivityEffectLaws

  ghost predicate NoRepeats<T>(xs: seq<T>) { forall i, j :: 0 <= i < j < |xs| ==> xs[i] != xs[j] }

  ghost predicate DistinctWorkers(ws: seq<Worker>) { forall i, j :: 0 <= i < j < |ws| ==> ws[i].id != ws[j].id }

  ghost predicate DistinctPaths(fs: seq<FileChange>) { forall i, j :: 0 <= i < j < |fs| ==> fs[i].path != fs[j].path }

  /** No command is running twice at once. */
  ghost predicate DistinctRunning(cs: seq<Command>) {
    forall i, j :: 0 <= i < j < |cs| && cs[i].running && cs[j].running ==> cs[i].command != cs[j].command
  }

  ghost predicate Lists(a: Activity) {
    && NoRepeats(a.filesRead) && NoRepeats(a.completedActions)
    && DistinctWorkers(a.workers) && DistinctPaths(a.filesChanged) && DistinctRunning(a.commands)
    && GetOr(a.metrics.commandsRun, 0) == |a.commands|
    && GetOr(a.metrics.filesRead, 0) == |a.filesRead|
    && GetOr(a.metrics.filesChanged, 0) == |a.filesChanged|
  }

  ghost predicate Lifecycle(a: Activity) {
    && (a.status in {Completed, Cancelled} ==> !a.live)
    && (!a.live ==> a.endTime.Some?)
  }

  ghost predicate Consistent(a: Activity) { Lists(a) && Lifecycle(a) }

  // ---------------------------------------------------------------- lists

  lemma {:induction false} WorkersStayDistinct(ws: seq<Worker>, vs: seq<Worker>, effect: WorkerEffect, now: string)
    requires DistinctWorkers(ws) && WorkersTo(ws, vs, effect, now)
    ensures DistinctWorkers(vs)
  {}

  lemma {:induction false} PathsStayDistinct(
    fs: seq<FileChange>, gs: seq<FileChange>, change: (string, FileOperation), now: string)
    requires DistinctPaths(fs) && ChangedTo(fs, gs, change, now)
    ensures DistinctPaths(gs) && |gs| >= |fs|
  {}

  lemma {:induction false} CommandsStayDistinct(
    cs: seq<Command>, ds: seq<Command>, effect: CommandEffect, now: string)
    requires DistinctRunning(cs) && CommandsTo(cs, ds, effect, now)
    ensures DistinctRunning(ds) && |ds| >= |cs|
  {}

  // ---------------------------------------------------------------- every event

  /** What the table says keeps an activity in order. */
  lemma {:induction false} DoesConsistently(a: Activity, b: Activity, e: Event, style: Style, now: string)
    ensures Consistent(a) && DoesAs(a, b, e, style, now) ==> Consistent(b)
  {
    hide ReadBy, ChangeBy, DoneBy, CommandBy, WorkerBy, WorkersTo, ChangedTo, CommandsTo, ErrorBy, WaitBy, ShownAs,
      Strip,
      SourcesBy, EvidenceBy, AnsweredBy, ActiveTo, DistinctWorkers, DistinctPaths, DistinctRunning;
    if Consistent(a) && DoesAs(a, b, e, style, now) {
      WorkersStayDistinct(a.workers, b.workers, WorkerBy(a, e, style), now);
      PathsStayDistinct(a.filesChanged, b.filesChanged, ChangeBy(e), now);
      CommandsStayDistinct(a.commands, b.commands, CommandBy(e, style), now);
    }
  }

  /** Whatever the event, an activity that was in order stays so. */
  lemma {:induction false} EveryEventKeepsConsistent(a: Activity, e: Event, style: Style, now: string)
    requires Consistent(a)
    ensures Consistent(Apply(Touch(a, e), e, style, now))
  {
    hide Apply, Touch, DoesAs, Lists, Lifecycle;
    var t := Touch(a, e);
    NotedIsConsistent(a, e);
    EveryEventDoes(t, e, style, now);
    DoesConsistently(t, Apply(t, e, style, now), e, style, now);
  }

  lemma {:induction false} NotedIsConsistent(a: Activity, e: Event)
    requires Consistent(a)
    ensures Consistent(Touch(a, e))
  {
    hide Contains, Lower, Say;
  }

  lemma {:induction false} NewIsConsistent(e: Event, now: string)
    ensures Consistent(NewActivity(e, now))
  {}
}
