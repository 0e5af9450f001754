/**
 The projection of the event stream onto activities, one for each key: a fold over the deliveries
 that ignores repeated event ids.
 */
module Projection {
  import opened Wrappers
  import opened Activities
  import opened ActivityLaws

  /** An event as it arrives, with the clock reading during its projection. */
  datatype Delivery = Delivery(event: Event, now: string)

  datatype State = State(activities: map<string, Activity>, seen: set<string>)

  const START := State(map[], {})

  function KeyOf(e: Event): string {
    Or(e.correlationId, Or(e.taskId, if e.projectId != "" then e.projectId + "-main" else "global-main"))
  }

  function Existing(s: State, d: Delivery): Activity {
    var k := KeyOf(d.event);
    if k in s.activities then s.activities[k] else NewActivity(d.event, d.now)
  }

  function Project(s: State, d: Delivery, style: Style): State {
    var k := KeyOf(d.event);
    if d.event.eventId in s.seen then s.(activities := s.activities[k := Existing(s, d)])
    else
      State(s.activities[k := Apply(Touch(Existing(s, d), d.event), d.event, style, d.now)],
            s.seen + {d.event.eventId})
  }

  function ProjectAll(ds: seq<Delivery>, style: Style): State {
    if ds == [] then START else Project(ProjectAll(ds[..|ds| - 1], style), ds[|ds| - 1], style)
  }

  lemma {:induction false} ProjectSnoc(ds: seq<Delivery>, d: Delivery, style: Style)
    ensures ProjectAll(ds + [d], style) == Project(ProjectAll(ds, style), d, style)
  {
    assert (ds + [d])[..|ds|] == ds;
  }

  // ---------------------------------------------------------------- what the fold comes to

  ghost predicate IdIn(ds: seq<Delivery>, id: string) {
    exists i :: 0 <= i < |ds| && ds[i].event.eventId == id
  }

  /** The deliveries that carry an id for the first time and belong to the key `k`, in their order. */
  ghost function Own(ds: seq<Delivery>, k: string): seq<Delivery> {
    if ds == [] then []
    else
      var before, d := ds[..|ds| - 1], ds[|ds| - 1];
      Own(before, k) + if KeyOf(d.event) == k && !IdIn(before, d.event.eventId) then [d] else []
  }

  /** The activity that a list of deliveries of one key amounts to. */
  ghost function Story(ds: seq<Delivery>, style: Style): Option<Activity> {
    if ds == [] then None
    else
      var d := ds[|ds| - 1];
      var a := GetOr(Story(ds[..|ds| - 1], style), NewActivity(d.event, d.now));
      Some(Apply(Touch(a, d.event), d.event, style, d.now))
  }

  /** Equal ids mean equal events; only the time of delivery may differ. */
  ghost predicate OneEventPerId(ds: seq<Delivery>) {
    forall i, j :: 0 <= i < j < |ds| && ds[i].event.eventId == ds[j].event.eventId ==> ds[i].event == ds[j].event
  }

  ghost function Lookup(s: State, k: string): Option<Activity> {
    if k in s.activities then Some(s.activities[k]) else None
  }

  lemma {:induction false} OwnSnoc(ds: seq<Delivery>, d: Delivery, k: string)
    ensures Own(ds + [d], k) == Own(ds, k) + if KeyOf(d.event) == k && !IdIn(ds, d.event.eventId) then [d] else []
  {
    assert (ds + [d])[..|ds|] == ds;
  }

  lemma {:induction false} StorySnoc(ds: seq<Delivery>, d: Delivery, style: Style)
    ensures Story(ds + [d], style)
         == Some(Apply(Touch(GetOr(Story(ds, style), NewActivity(d.event, d.now)), d.event), d.event, style, d.now))
  {
    assert (ds + [d])[..|ds|] == ds;
  }

  ghost predicate SeenAre(ds: seq<Delivery>, s: State) {
    && (forall id :: id in s.seen <==> IdIn(ds, id))
    && (forall i :: 0 <= i < |ds| ==> KeyOf(ds[i].event) in s.activities)
  }

  ghost predicate TellsStory(ds: seq<Delivery>, k: string, style: Style) {
    Lookup(ProjectAll(ds, style), k) == Story(Own(ds, k), style)
  }

  /**
   For every stream in which ids are not reused: what the projector holds for a key is the story
   of the first deliveries of that key's events, and of nothing else.
   */
  lemma {:induction false} EachKeyTellsItsStory(ds: seq<Delivery>, style: Style)
    requires OneEventPerId(ds)
    ensures forall k :: TellsStory(ds, k, style)
    ensures SeenAre(ds, ProjectAll(ds, style))
    decreases |ds|
  {
    hide TellsStory, SeenAre, ProjectAll, KeyOf;
    if ds == [] {
      NothingToTell(style);
    } else {
      var n := |ds| - 1;
      var before, d := ds[..n], ds[n];
      EachKeyTellsItsStory(before, style);
      assert ds == before + [d];
      SeenStep(before, d, style);
      forall k ensures TellsStory(ds, k, style) {
        StoryStep(before, d, k, style);
      }
    }
  }

  lemma {:induction false} NothingToTell(style: Style)
    ensures forall k :: TellsStory([], k, style)
    ensures SeenAre([], ProjectAll([], style))
  {
    hide KeyOf;
    assert ProjectAll([], style) == START;
    forall k ensures TellsStory([], k, style) {
      assert Own([], k) == [];
    }
  }

  lemma {:induction false} SeenStep(ds: seq<Delivery>, d: Delivery, style: Style)
    requires SeenAre(ds, ProjectAll(ds, style))
    ensures SeenAre(ds + [d], ProjectAll(ds + [d], style))
  {
    hide IdIn, Apply, Touch, NewActivity, KeyOf, ProjectAll;
    SeenSnoc(ds, d);
    ProjectSnoc(ds, d, style);
  }

  lemma {:induction false} StoryStep(ds: seq<Delivery>, d: Delivery, k: string, style: Style)
    requires OneEventPerId(ds + [d]) && SeenAre(ds, ProjectAll(ds, style)) && TellsStory(ds, k, style)
    ensures TellsStory(ds + [d], k, style)
  {
    hide Apply, Touch, NewActivity, KeyOf, ProjectAll, Own, Story;
    var s := ProjectAll(ds, style);
    ProjectSnoc(ds, d, style);
    OwnSnoc(ds, d, k);
    StorySnoc(Own(ds, k), d, style);
    assert Own(ds, k) + [] == Own(ds, k);
    assert Existing(s, d) == GetOr(Lookup(s, KeyOf(d.event)), NewActivity(d.event, d.now));
    if IdIn(ds, d.event.eventId) {
      var i :| 0 <= i < |ds| && ds[i].event.eventId == d.event.eventId;
      var es := ds + [d];
      assert es[i].event == es[|ds|].event;
      assert s.activities[KeyOf(d.event) := Existing(s, d)] == s.activities;
    }
  }

  lemma {:induction false} SeenSnoc(ds: seq<Delivery>, d: Delivery)
    ensures forall id :: IdIn(ds + [d], id) <==> IdIn(ds, id) || d.event.eventId == id
  {
    var es := ds + [d];
    forall id ensures IdIn(es, id) <==> IdIn(ds, id) || d.event.eventId == id {
      if IdIn(ds, id) {
        var i :| 0 <= i < |ds| && ds[i].event.eventId == id;
        assert es[i].event.eventId == id;
      }
      if d.event.eventId == id {
        assert es[|ds|].event.eventId == id;
      }
    }
  }

  lemma {:induction false} SameLookups(s: State, t: State)
    requires forall k :: Lookup(s, k) == Lookup(t, k)
    ensures s.activities == t.activities
  {
    forall k ensures k in s.activities <==> k in t.activities {
      assert Lookup(s, k) == Lookup(t, k);
    }
    forall k | k in s.activities ensures s.activities[k] == t.activities[k] {
      assert Lookup(s, k) == Lookup(t, k);
    }
  }

  /**
   Streams that deliver the same events of each key in the same order, first deliveries only,
   lead to the same state: neither the interleaving of keys nor repetitions matter.
   */
  lemma {:induction false} OnlyOwnOrderMatters(ds: seq<Delivery>, es: seq<Delivery>, style: Style)
    requires OneEventPerId(ds) && OneEventPerId(es)
    requires forall k :: SameOwn(ds, es, k)
    ensures ProjectAll(ds, style) == ProjectAll(es, style)
  {
    hide Own, Story, ProjectAll, IdIn;
    EachKeyTellsItsStory(ds, style);
    EachKeyTellsItsStory(es, style);
    var s, t := ProjectAll(ds, style), ProjectAll(es, style);
    forall k ensures Lookup(s, k) == Lookup(t, k) {
      assert TellsStory(ds, k, style) && TellsStory(es, k, style) && SameOwn(ds, es, k);
    }
    SameLookups(s, t);
    assert SameOwn(ds, es, "");
    assert forall id :: id in s.seen <==> id in t.seen;
    assert s.seen == t.seen;
  }

  // ---------------------------------------------------------------- repetitions and swaps

  ghost predicate SameOwn(ds: seq<Delivery>, es: seq<Delivery>, k: string) {
    Own(ds, k) == Own(es, k) && forall id :: IdIn(ds, id) <==> IdIn(es, id)
  }

  lemma {:induction false} SameOwnSnoc(ds: seq<Delivery>, es: seq<Delivery>, d: Delivery, k: string)
    requires SameOwn(ds, es, k)
    ensures SameOwn(ds + [d], es + [d], k)
  {
    hide Own, IdIn, KeyOf;
    OwnSnoc(ds, d, k);
    OwnSnoc(es, d, k);
    SeenSnoc(ds, d);
    SeenSnoc(es, d);
  }

  /** What `more` adds for a key depends on the ids seen before, not on how they came. */
  lemma {:induction false} SameOwnAppend(ds: seq<Delivery>, es: seq<Delivery>, more: seq<Delivery>, k: string)
    requires SameOwn(ds, es, k)
    ensures SameOwn(ds + more, es + more, k)
    decreases |more|
  {
    hide SameOwn;
    if more == [] {
      assert ds + more == ds && es + more == es;
    } else {
      var m := |more| - 1;
      SameOwnAppend(ds, es, more[..m], k);
      SameOwnSnoc(ds + more[..m], es + more[..m], more[m], k);
      assert ds + more == (ds + more[..m]) + [more[m]] && es + more == (es + more[..m]) + [more[m]];
    }
  }

  lemma {:induction false} FewerDeliveries(ds: seq<Delivery>, es: seq<Delivery>)
    requires OneEventPerId(ds) && forall d :: d in es ==> d in ds
    ensures OneEventPerId(es)
  {
    forall i, j | 0 <= i < j < |es| && es[i].event.eventId == es[j].event.eventId ensures es[i].event == es[j].event {
      assert es[i] in ds && es[j] in ds;
      var k :| 0 <= k < |ds| && ds[k] == es[i];
      var l :| 0 <= l < |ds| && ds[l] == es[j];
      assert ds[k].event == ds[l].event;
    }
  }

  /** Delivering an event again, at any time later, leaves all state as it would have been. */
  lemma {:induction false} RepetitionIsHarmless(ds: seq<Delivery>, d: Delivery, more: seq<Delivery>, style: Style)
    requires OneEventPerId(ds + [d] + more) && IdIn(ds, d.event.eventId)
    ensures ProjectAll(ds + [d] + more, style) == ProjectAll(ds + more, style)
  {
    hide Own, ProjectAll, KeyOf;
    FewerDeliveries(ds + [d] + more, ds + more);
    forall k ensures SameOwn(ds + [d] + more, ds + more, k) {
      RepetitionIsNotOwn(ds, d, k);
      SameOwnAppend(ds + [d], ds, more, k);
    }
    assert SameOwn(ds + [d] + more, ds + more, "");
    OnlyOwnOrderMatters(ds + [d] + more, ds + more, style);
  }

  lemma {:induction false} RepetitionIsNotOwn(ds: seq<Delivery>, d: Delivery, k: string)
    requires IdIn(ds, d.event.eventId)
    ensures SameOwn(ds + [d], ds, k)
  {
    hide Own, IdIn;
    OwnSnoc(ds, d, k);
    assert Own(ds, k) + [] == Own(ds, k);
    SeenSnoc(ds, d);
  }

  /** Neighbouring events of different keys may arrive in either order. */
  lemma {:induction false} DifferentKeysCommute(ds: seq<Delivery>, x: Delivery, y: Delivery, more: seq<Delivery>,
                                                style: Style)
    requires OneEventPerId(ds + [x] + [y] + more) && KeyOf(x.event) != KeyOf(y.event)
    ensures ProjectAll(ds + [x] + [y] + more, style) == ProjectAll(ds + [y] + [x] + more, style)
  {
    hide Own, ProjectAll, KeyOf;
    var xy, yx := ds + [x] + [y], ds + [y] + [x];
    FewerDeliveries(xy + more, yx + more);
    assert x.event.eventId != y.event.eventId by {
      var all := xy + more;
      assert all[|ds|] == x && all[|ds| + 1] == y;
    }
    forall k ensures SameOwn(xy + more, yx + more, k) {
      SwapOwn(ds, x, y, k);
      SameOwnAppend(xy, yx, more, k);
    }
    assert SameOwn(xy + more, yx + more, "");
    OnlyOwnOrderMatters(xy + more, yx + more, style);
  }

  lemma {:induction false} SwapOwn(ds: seq<Delivery>, x: Delivery, y: Delivery, k: string)
    requires KeyOf(x.event) != KeyOf(y.event) && x.event.eventId != y.event.eventId
    ensures SameOwn(ds + [x] + [y], ds + [y] + [x], k)
  {
    hide Own, IdIn, KeyOf;
    OwnSnoc(ds, x, k);
    OwnSnoc(ds, y, k);
    OwnSnoc(ds + [x], y, k);
    OwnSnoc(ds + [y], x, k);
    SeenSnoc(ds, x);
    SeenSnoc(ds, y);
    SeenSnoc(ds + [x], y);
    SeenSnoc(ds + [y], x);
  }

  // ---------------------------------------------------------------- every reachable activity

  /** Every activity the projector can hold is in order, ids reused or not. */
  lemma {:induction false} ReachableIsConsistent(ds: seq<Delivery>, style: Style)
    ensures forall k :: k in ProjectAll(ds, style).activities ==> Consistent(ProjectAll(ds, style).activities[k])
    decreases |ds|
  {
    hide Apply, Touch, NewActivity, KeyOf, Consistent;
    if ds != [] {
      var before, d := ds[..|ds| - 1], ds[|ds| - 1];
      ReachableIsConsistent(before, style);
      NewIsConsistent(d.event, d.now);
      EveryEventKeepsConsistent(Existing(ProjectAll(before, style), d), d.event, style, d.now);
    }
  }
}
