/** The metric of active workers: by how much each event puts it off, and a stream that does. */
module ActiveWorkers {
  import opened Wrappers
  import opened Strings
  import opened Activities
  import opened ActivityEffects
  import opened ActivityEffectLaws
  import opened Projection

  /** By how much the metric exceeds the number of running workers. */
  function Surplus(a: Activity): int { GetOr(a.metrics.activeWorkers, 0) - RunningCount(a.workers) }

  /** The metric is right. */
  predicate CountsActive(a: Activity) { Surplus(a) == 0 }

  function StatusOf(ws: seq<Worker>, id: string): Option<WorkerStatus> {
    if ws == [] then None else if ws[0].id == id then Some(ws[0].status) else StatusOf(ws[1..], id)
  }

  function One(status: WorkerStatus): nat { if status == IsRunning then 1 else 0 }

  /** A listed worker is recorded without a recount, so the metric misses the change in its status. */
  function SurplusAfter(a: Activity, effect: WorkerEffect): int {
    match effect
    case NoWorker => Surplus(a)
    case Updates(_, _, _) => 0
    case FinishesAll => 0
    case Records(id, _, _, status, _) =>
      match StatusOf(a.workers, id)
      case None => 0
      case Some(was) => Surplus(a) + One(was) - One(status)
  }

  /** Recording the worker starts or stops the running of one that is already listed. */
  predicate Flips(a: Activity, effect: WorkerEffect) {
    && effect.Records? && StatusOf(a.workers, effect.id).Some?
    && (StatusOf(a.workers, effect.id).value == IsRunning) != (effect.status == IsRunning)
  }

  // ---------------------------------------------------------------- counting

  lemma {:induction false} StatusOfFirst(ws: seq<Worker>, id: string)
    ensures StatusOf(ws, id).Some? <==> HasWorker(ws, id)
    ensures forall i :: IsFirst(ws, id, i) ==> StatusOf(ws, id) == Some(ws[i].status)
    decreases |ws|
  {
    if ws != [] && ws[0].id != id {
      var rest := ws[1..];
      StatusOfFirst(rest, id);
      if i :| 0 <= i < |ws| && ws[i].id == id {
        assert rest[i - 1].id == id;
      }
      forall i | IsFirst(ws, id, i) ensures StatusOf(ws, id) == Some(ws[i].status) {
        assert IsFirst(rest, id, i - 1) by {
          assert forall k :: 0 <= k < i - 1 ==> rest[k] == ws[k + 1];
        }
      }
    }
  }

  lemma {:induction false} CountWithChange(ws: seq<Worker>, i: nat, w: Worker)
    requires i < |ws|
    ensures RunningCount(ws[i := w]) == RunningCount(ws) + One(w.status) - One(ws[i].status)
    decreases |ws|
  {
    if i == 0 {
      assert ws[0 := w][1..] == ws[1..];
    } else {
      CountWithChange(ws[1..], i - 1, w);
      assert ws[i := w][1..] == ws[1..][i - 1 := w];
    }
  }

  lemma {:induction false} NoneCounted(ws: seq<Worker>)
    requires forall i :: 0 <= i < |ws| ==> ws[i].status != IsRunning
    ensures RunningCount(ws) == 0
  {
    if ws != [] {
      NoneCounted(ws[1..]);
    }
  }

  /** Exactly how far a change of the workers puts the metric off, or right again, from every state. */
  lemma {:induction false} WorkersSurplus(a: Activity, b: Activity, effect: WorkerEffect, now: string)
    requires WorkersTo(a.workers, b.workers, effect, now)
    requires b.metrics.activeWorkers == ActiveTo(a.workers, b.workers, effect, a.metrics.activeWorkers)
    ensures Surplus(b) == SurplusAfter(a, effect)
  {
    hide RunningCount, StatusOf, HasWorker;
    match effect
    case NoWorker =>
    case Records(id, _, _, status, action) =>
      StatusOfFirst(a.workers, id);
      if HasWorker(a.workers, id) {
        var i :| IsFirst(a.workers, id,
                         i) && b.workers == a.workers[i := a.workers[i].(status := status, action := action)];
        CountWithChange(a.workers, i, a.workers[i].(status := status, action := action));
      }
    case Updates(_, _, _) =>
    case FinishesAll => NoneCounted(b.workers);
  }

  // ---------------------------------------------------------------- every event

  /** Recording a worker keeps the metric right if and only if no listed worker thereby starts or stops running. */
  lemma {:induction false} CountStaysRightIff(a: Activity, id: string, name: string, role: string, status: WorkerStatus,
                                              action: string, now: string)
    requires CountsActive(a)
    ensures CountsActive(RecordWorker(a, id, name, role, status, action, now))
      <==> !Flips(a, Records(id, name, role, status, action))
  {
    hide RecordWorker, StatusOf, RunningCount, WorkersTo, ActiveTo;
    RecordsWorker(a, id, name, role, status, action, now);
    WorkersSurplus(a, RecordWorker(a, id, name, role, status, action, now), Records(id, name, role, status, action),
                   now);
  }

  /** A new worker, a status update and the end of all workers each set the metric right, whatever it was. */
  lemma {:induction false} CountIsSetRight(a: Activity, id: string, name: string, role: string, status: WorkerStatus,
                                           action: string, error: Option<string>, now: string)
    ensures !HasWorker(a.workers, id) ==> CountsActive(RecordWorker(a, id, name, role, status, action, now))
    ensures CountsActive(UpdateWorkerStatus(a, id, status, error, now))
    ensures CountsActive(MarkWorkersCompleted(a, now))
  {
    hide MarkWorkersCompleted, RunningCount, WorkersTo;
    FinishesWorkers(a, now);
    WorkersSurplus(a, MarkWorkersCompleted(a, now), FinishesAll, now);
  }

  /** Exactly how far an event puts the metric off, or right again, from every state. */
  lemma {:induction false} EveryEventSurplus(a: Activity, e: Event, style: Style, now: string)
    ensures var t := Touch(a, e);
      Surplus(Apply(t, e, style, now)) == SurplusAfter(a, WorkerBy(t, e, style))
  {
    hide Apply, StateAs, ShownAs, FilesAs, WorkerBy, WorkersTo, ActiveTo, StatusOf, RunningCount, Contains, Lower, Say;
    var t := Touch(a, e);
    EveryEventDoes(t, e, style, now);
    WorkersSurplus(t, Apply(t, e, style, now), WorkerBy(t, e, style), now);
  }

  /** A metric that was right goes wrong exactly when the event records a listed worker as started or stopped. */
  lemma {:induction false} EventKeepsCountIff(a: Activity, e: Event, style: Style, now: string)
    requires CountsActive(a)
    ensures CountsActive(Apply(Touch(a, e), e, style, now)) <==> !Flips(a, WorkerBy(Touch(a, e), e, style))
  {
    hide Apply, Touch, WorkerBy, StatusOf, RunningCount;
    EveryEventSurplus(a, e, style, now);
  }

  // ---------------------------------------------------------------- over a stream

  /** The activity that the last of some deliveries of one key finds. */
  ghost function Found(ds: seq<Delivery>, style: Style): Activity
    requires ds != []
  {
    var d := ds[|ds| - 1];
    GetOr(Story(ds[..|ds| - 1], style), NewActivity(d.event, d.now))
  }

  /** What the flips since the last recount add up to; the record of a new worker recounts too. */
  ghost function FlipsSinceRecount(ds: seq<Delivery>, style: Style): int {
    if ds == [] then 0
    else
      var a, e := Found(ds, style), ds[|ds| - 1].event;
      var effect := WorkerBy(Touch(a, e), e, style);
      if effect.Updates? || effect.FinishesAll? || (effect.Records? && StatusOf(a.workers, effect.id).None?) then 0
      else
        FlipsSinceRecount(ds[..|ds| - 1], style)
        + if !Flips(a, effect) then 0 else if effect.status == IsRunning then -1 else 1
  }

  lemma {:induction false} StorySurplus(ds: seq<Delivery>, style: Style)
    requires ds != []
    ensures Story(ds, style).Some? && Surplus(Story(ds, style).value) == FlipsSinceRecount(ds, style)
    decreases |ds|
  {
    hide Apply, Touch, WorkerBy, StatusOf, RunningCount;
    var d := ds[|ds| - 1];
    if |ds| > 1 {
      StorySurplus(ds[..|ds| - 1], style);
    } else {
      assert ds[..0] == [];
      NewHasNoSurplus(d.event, d.now);
    }
    EveryEventSurplus(Found(ds, style), d.event, style, d.now);
  }

  lemma {:induction false} NewHasNoSurplus(e: Event, now: string)
    ensures Surplus(NewActivity(e, now)) == 0
  {
    hide Say;
  }

  /**
   For every stream in which ids are not reused: the metric of an activity exceeds its running
   workers by the flips since its last recount, so it is right if and only if these cancel out.
   */
  lemma {:induction false} MetricIsOffByFlips(ds: seq<Delivery>, k: string, style: Style)
    requires OneEventPerId(ds) && k in ProjectAll(ds, style).activities
    ensures var a := ProjectAll(ds, style).activities[k];
      && Surplus(a) == FlipsSinceRecount(Own(ds, k), style)
      && (CountsActive(a) <==> FlipsSinceRecount(Own(ds, k), style) == 0)
  {
    hide ProjectAll, Own, FlipsSinceRecount, RunningCount;
    EachKeyTellsItsStory(ds, style);
    assert TellsStory(ds, k, style);
    if Own(ds, k) != [] {
      StorySurplus(Own(ds, k), style);
    }
  }

  /** A worker starts, finishes and starts again. */
  const STARTED := Event("1", WorkerStarted(Some("w"), None), "t", "k", "", "", "")
  const FINISHED := Event("2", WorkerFinished(Some("w")), "t", "k", "", "", "")
  const RESTARTED := Event("3", WorkerStarted(Some("w"), None), "t", "k", "", "", "")

  /** Three events after which the metric is wrong: it says 0 while one worker is running. */
  lemma {:induction false} MetricGoesWrong(style: Style, now: string)
    ensures var ds := [Delivery(STARTED, now), Delivery(FINISHED, now), Delivery(RESTARTED, now)];
      && OneEventPerId(ds) && "k" in ProjectAll(ds, style).activities
      && var a := ProjectAll(ds, style).activities["k"];
        GetOr(a.metrics.activeWorkers, 0) == 0 && RunningCount(a.workers) == 1 && !CountsActive(a)
  {
    hide Say, Apply, Touch, NewActivity, ProjectAll, RunningCount, KeyOf;
    var d, f, r := Delivery(STARTED, now), Delivery(FINISHED, now), Delivery(RESTARTED, now);
    TheirKeys();
    ProjectThree(d, f, r, style);
    var first := NewActivity(STARTED, now);
    NewHasNoWorkers(STARTED, now);
    var a := Apply(Touch(first, STARTED), STARTED, style, now);
    var b := Apply(Touch(a, FINISHED), FINISHED, style, now);
    AfterStart(first, STARTED, style, now);
    AfterFinish(a, style, now);
    AfterStart(b, RESTARTED, style, now);
  }

  lemma {:induction false} TheirKeys()
    ensures KeyOf(STARTED) == KeyOf(FINISHED) == KeyOf(RESTARTED) == "k"
  {}

  lemma {:induction false} ProjectThree(d: Delivery, f: Delivery, r: Delivery, style: Style)
    requires KeyOf(d.event) == KeyOf(f.event) == KeyOf(r.event)
    requires d.event.eventId != f.event.eventId && f.event.eventId != r.event.eventId
    requires d.event.eventId != r.event.eventId
    ensures var a := Apply(Touch(NewActivity(d.event, d.now), d.event), d.event, style, d.now);
      var b := Apply(Touch(a, f.event), f.event, style, f.now);
      ProjectAll([d, f, r], style).activities
      == map[KeyOf(d.event) := Apply(Touch(b, r.event), r.event, style, r.now)]
  {
    hide Apply, Touch, NewActivity, ProjectAll, KeyOf;
    assert [] + [d] == [d] && [d] + [f] == [d, f] && [d, f] + [r] == [d, f, r];
    NothingProjected(style);
    ProjectSnoc([], d, style);
    ProjectSnoc([d], f, style);
    ProjectSnoc([d, f], r, style);
  }

  lemma {:induction false} NothingProjected(style: Style)
    ensures ProjectAll([], style) == START
  {}

  lemma {:induction false} NewHasNoWorkers(e: Event, now: string)
    ensures NewActivity(e, now).workers == []
  {
    hide Say;
  }

  /** The start of worker "w", when it is the first worker or the only one. */
  lemma {:induction false} AfterStart(a: Activity, e: Event, style: Style, now: string)
    requires e.kind == WorkerStarted(Some("w"), None) && e.workerId == ""
    requires a.workers == [] || (|a.workers| == 1 && a.workers[0].id == "w")
    ensures var b := Apply(Touch(a, e), e, style, now);
      && |b.workers| == 1 && b.workers[0].id == "w" && b.workers[0].status == IsRunning && RunningCount(b.workers) == 1
      && (a.workers != [] ==> b.metrics.activeWorkers == a.metrics.activeWorkers)
  {
    hide Say, Contains, Lower;
    if a.workers != [] {
      assert a.workers[0].id == "w";
    }
  }

  lemma {:induction false} AfterFinish(a: Activity, style: Style, now: string)
    requires |a.workers| == 1 && a.workers[0].id == "w"
    ensures var b := Apply(Touch(a, FINISHED), FINISHED, style, now);
      && |b.workers| == 1 && b.workers[0].id == "w" && b.metrics.activeWorkers == Some(0)
  {
    hide Say, Contains, Lower, RunningCount;
    var ws := Apply(Touch(a, FINISHED), FINISHED, style, now).workers;
    assert ws[0].status == IsCompleted && ws[1..] == [];
    OneStopped(ws);
  }

  lemma {:induction false} OneStopped(ws: seq<Worker>)
    requires |ws| == 1 && ws[0].status != IsRunning
    ensures RunningCount(ws) == 0
  {
    assert ws[1..] == [];
  }
}
