/** One client's event stream: a bounded queue that drops its oldest entry, behind a bounded memory of seen ids. */
module EventStream {
  import opened Wrappers

  const QUEUE_LIMIT: nat := 1000
  const SEEN_LIMIT: nat := 5000
  const SEEN_KEPT: nat := 2500

  datatype Event = Event(eventId: string, sequence: Option<int>, data: string)

  /** An event that has left the queue: how, and how many had been accepted by then. */
  datatype Exit = Exit(event: Event, dropped: bool, accepted: nat)

  function Events(xs: seq<Exit>): (r: seq<Event>)
    ensures |r| == |xs|
    ensures forall i :: 0 <= i < |xs| ==> r[i] == xs[i].event
  {
    if xs == [] then [] else Events(xs[..|xs| - 1]) + [xs[|xs| - 1].event]
  }

  /** The events that left in one of the two ways, in order. */
  function Left(xs: seq<Exit>, dropped: bool): seq<Event> {
    if xs == [] then []
    else
      var last := xs[|xs| - 1];
      Left(xs[..|xs| - 1], dropped) + if last.dropped == dropped then [last.event] else []
  }

  /** The largest of the start value and all sequence numbers. */
  function HighWater(since: int, es: seq<Event>): int {
    if es == [] then since
    else
      var e := es[|es| - 1];
      var before := HighWater(since, es[..|es| - 1]);
      if e.sequence.Some? then Max(before, e.sequence.value) else before
  }

  ghost function Ids(es: seq<Event>): set<string> { set e | e in es :: e.eventId }

  /** Which stretch between two trims of the seen ids the `i`-th accepted event falls into. */
  function Window(i: nat): nat {
    if i <= SEEN_LIMIT then 0 else 1 + (i - SEEN_LIMIT - 1) / (SEEN_LIMIT - SEEN_KEPT + 1)
  }

  function WindowStart(w: nat): nat {
    if w == 0 then 0 else SEEN_LIMIT + 1 + (w - 1) * (SEEN_LIMIT - SEEN_KEPT + 1)
  }

  lemma {:induction false} SubsetOfSize<T>(s: set<T>, n: nat)
    requires n <= |s|
    ensures exists r :: r <= s && |r| == n
    decreases |s|
  {
    if n == |s| {
      assert s <= s;
    } else {
      var x :| x in s;
      SubsetOfSize(s - {x}, n);
      var r :| r <= s - {x} && |r| == n;
      assert r <= s;
    }
  }

  class EventStreamConnection {
    const since: int
    var lastSequence: int
    var queue: seq<Event>
    var seenEventIds: set<string>
    var connected: bool
    ghost var accepted: seq<Event>
    ghost var exits: seq<Exit>

    ghost predicate Valid()
      reads this
    {
      && |queue| <= QUEUE_LIMIT && |seenEventIds| <= SEEN_LIMIT
      && accepted == Events(exits) + queue
      && lastSequence == HighWater(since, accepted)
      && DropsWhenFull(exits)
      && SeenIsRecent(seenEventIds, accepted)
      && RepeatsAreFar(accepted)
    }

    constructor (since: int)
      ensures Valid() && this.since == since && accepted == [] && connected
    {
      this.since, lastSequence, queue, seenEventIds, connected := since, since, [], {}, true;
      accepted, exits := [], [];
    }

    method Disconnect()
      requires Valid()
      modifies this`connected
      ensures Valid() && !connected
    {
      connected := false;
    }

    /** The event is accepted unless the connection is closed or remembers its id. */
    method Deliver(event: Event)
      requires Valid()
      modifies this`lastSequence, this`queue, this`seenEventIds, this`accepted, this`exits
      ensures Valid()
      ensures accepted == old(accepted)
        + if connected && event.eventId !in old(seenEventIds) then [event] else []
      ensures if accepted == old(accepted) || |old(queue)| < 1000 then exits == old(exits)
        else exits == old(exits) + [Exit(old(queue)[0], true, |accepted|)]
      ensures queue == if accepted == old(accepted) then old(queue)
        else (if |old(queue)| < 1000 then old(queue) else old(queue)[1..]) + [event]
      ensures lastSequence == if accepted == old(accepted) || event.sequence.None? then old(lastSequence)
        else Max(old(lastSequence), event.sequence.value)
      ensures |queue| <= 1000 && |seenEventIds| <= 5000 && seenEventIds <= old(seenEventIds) + {event.eventId}
      ensures |seenEventIds| == if accepted == old(accepted) then |old(seenEventIds)|
        else if |old(seenEventIds)| == 5000 then 2500 else |old(seenEventIds)| + 1
    {
      hide HighWater, Events, RepeatsAreFar, SeenIsRecent, DropsWhenFull, Ids, Window, WindowStart;
      if !connected {
        return;
      }
      if event.eventId in seenEventIds {
        return;
      }
      NewIdIsFar(seenEventIds, accepted, event);
      AcceptKeepsWindows(seenEventIds, accepted, event);
      seenEventIds := seenEventIds + {event.eventId};
      if |seenEventIds| > SEEN_LIMIT {
        SubsetOfSize(seenEventIds, SEEN_KEPT);
        var kept :| kept <= seenEventIds && |kept| == SEEN_KEPT;
        TrimStartsWindow(seenEventIds, kept, accepted + [event]);
        seenEventIds := kept;
      }
      HighWaterSnoc(since, accepted, event);
      if event.sequence.Some? {
        lastSequence := Max(lastSequence, event.sequence.value);
      }
      accepted := accepted + [event];
      Enqueue(event);
    }

    /** `put_nowait`, and if the queue is full, after making room. */
    method Enqueue(event: Event)
      requires |queue| <= QUEUE_LIMIT && DropsWhenFull(exits) && accepted == Events(exits) + queue + [event]
      modifies this`queue, this`exits
      ensures |queue| <= QUEUE_LIMIT && DropsWhenFull(exits) && accepted == Events(exits) + queue
      ensures if |old(queue)| < QUEUE_LIMIT then exits == old(exits)
        else exits == old(exits) + [Exit(old(queue)[0], true, |accepted|)]
      ensures queue == (if |old(queue)| < QUEUE_LIMIT then old(queue) else old(queue)[1..]) + [event]
    {
      hide Events;
      if |queue| < QUEUE_LIMIT {
        queue := queue + [event];
      } else {
        EventsSnoc(exits, Exit(queue[0], true, |accepted|));
        exits := exits + [Exit(queue[0], true, |accepted|)];
        queue := queue[1..] + [event];
      }
    }

    method GetNextEvent() returns (r: Option<Event>)
      requires Valid()
      modifies this`queue, this`exits
      ensures Valid()
      ensures r == if old(queue) == [] then None else Some(old(queue)[0])
      ensures queue == if old(queue) == [] then [] else old(queue)[1..]
      ensures exits == old(exits) + if r.Some? then [Exit(r.value, false, |accepted|)] else []
    {
      hide HighWater, Events, RepeatsAreFar, SeenIsRecent;
      if queue == [] {
        return None;
      }
      r := Some(queue[0]);
      EventsSnoc(exits, Exit(queue[0], false, |accepted|));
      exits := exits + [Exit(queue[0], false, |accepted|)];
      queue := queue[1..];
    }
  }

  // ---------------------------------------------------------------- what Valid consists of

  /** An event is dropped only when a whole queue of newer ones has been accepted. */
  ghost predicate DropsWhenFull(exits: seq<Exit>) {
    forall i :: 0 <= i < |exits| && exits[i].dropped ==> exits[i].accepted == i + QUEUE_LIMIT + 1
  }

  /** The ids seen are ids accepted, all those of the current window among them, and their number is known. */
  ghost predicate SeenIsRecent(seen: set<string>, accepted: seq<Event>) {
    var w := Window(|accepted|);
    && seen <= Ids(accepted)
    && WindowStart(w) <= |accepted|
    && Ids(accepted[WindowStart(w)..]) <= seen
    && |seen| == if w == 0 then |accepted| else SEEN_KEPT + |accepted| - WindowStart(w)
  }

  /** Equal ids are accepted twice only with a trim in between. */
  ghost predicate RepeatsAreFar(accepted: seq<Event>) {
    forall i: nat, j: nat :: i < j < |accepted| && accepted[i].eventId == accepted[j].eventId ==> Window(i) < Window(j)
  }

  lemma {:induction false} EventsSnoc(xs: seq<Exit>, x: Exit)
    ensures Events(xs + [x]) == Events(xs) + [x.event]
  {
    assert (xs + [x])[..|xs|] == xs;
  }

  lemma {:induction false} HighWaterSnoc(since: int, es: seq<Event>, e: Event)
    ensures HighWater(since, es + [e])
         == if e.sequence.Some? then Max(HighWater(since, es), e.sequence.value) else HighWater(since, es)
  {
    assert (es + [e])[..|es|] == es;
  }

  /** Windows follow one another; the next begins exactly when the seen ids overflow. */
  lemma {:induction false} WindowNext(n: nat)
    ensures WindowStart(Window(n)) <= n
    ensures Window(n + 1) == if n + 1 == WindowStart(Window(n) + 1) then Window(n) + 1 else Window(n)
    ensures n + 1 <= WindowStart(Window(n) + 1)
  {}

  lemma {:induction false} WindowMonotone(i: nat, n: nat)
    ensures i < WindowStart(Window(n)) ==> Window(i) < Window(n)
    ensures i >= WindowStart(Window(n)) && i <= n ==> Window(i) == Window(n)
  {}

  /** An id that is not remembered has not been accepted in the current window. */
  lemma {:induction false} NewIdIsFar(seen: set<string>, accepted: seq<Event>, e: Event)
    requires SeenIsRecent(seen, accepted) && RepeatsAreFar(accepted) && e.eventId !in seen
    ensures RepeatsAreFar(accepted + [e])
  {
    var n, all := |accepted|, accepted + [e];
    var start := WindowStart(Window(n));
    forall i: nat | start <= i < n ensures accepted[i].eventId in Ids(accepted[start..]) {
      assert accepted[start..][i - start] == accepted[i];
    }
    forall i: nat, j: nat | i < j < |all| && all[i].eventId == all[j].eventId ensures Window(i) < Window(j) {
      if j == n {
        WindowMonotone(i, n);
      }
    }
  }

  /** A new id comes at the end of the window; unless that is full, everything stays as recorded. */
  lemma {:induction false} AcceptKeepsWindows(seen: set<string>, accepted: seq<Event>, e: Event)
    requires SeenIsRecent(seen, accepted) && e.eventId !in seen
    ensures |seen + {e.eventId}| == |seen| + 1
    ensures seen + {e.eventId} <= Ids(accepted + [e])
    ensures |seen| + 1 <= SEEN_LIMIT ==> SeenIsRecent(seen + {e.eventId}, accepted + [e])
    ensures |seen| + 1 > SEEN_LIMIT ==> |accepted| + 1 == WindowStart(Window(|accepted|) + 1)
  {
    hide Window, Ids;
    var n, all := |accepted|, accepted + [e];
    var start := WindowStart(Window(n));
    WindowNext(n);
    IdsSnoc(accepted, e);
    assert all[start..] == accepted[start..] + [e];
    IdsSnoc(accepted[start..], e);
  }

  lemma {:induction false} IdsSnoc(es: seq<Event>, e: Event)
    ensures Ids(es + [e]) == Ids(es) + {e.eventId}
  {
    var all := es + [e];
    assert forall x :: x in all <==> x in es || x == e;
    assert forall x :: x in es ==> x.eventId in Ids(all);
    assert e.eventId in Ids(all);
  }

  /** When the window is full, any selection of the seen ids starts the next one. */
  lemma {:induction false} TrimStartsWindow(all: set<string>, kept: set<string>, accepted: seq<Event>)
    requires kept <= all <= Ids(accepted) && |kept| == SEEN_KEPT
    requires accepted != [] && |accepted| == WindowStart(Window(|accepted| - 1) + 1)
    ensures SeenIsRecent(kept, accepted)
  {
    WindowNext(|accepted| - 1);
    assert accepted[|accepted|..] == [];
  }

  // ---------------------------------------------------------------- what follows from it

  /**
   Conservation: what was accepted is what the client took and what was dropped, interleaved in
   order, followed by the queue.
   */
  ghost predicate Interleaves(zs: seq<Event>, xs: seq<Event>, ys: seq<Event>) {
    if zs == [] then xs == [] && ys == []
    else
      var n := |zs| - 1;
      || (xs != [] && xs[|xs| - 1] == zs[n] && Interleaves(zs[..n], xs[..|xs| - 1], ys))
      || (ys != [] && ys[|ys| - 1] == zs[n] && Interleaves(zs[..n], xs, ys[..|ys| - 1]))
  }

  lemma {:induction false} ExitsInterleave(xs: seq<Exit>)
    ensures Interleaves(Events(xs), Left(xs, false), Left(xs, true))
    decreases |xs|
  {
    if xs != [] {
      var n := |xs| - 1;
      ExitsInterleave(xs[..n]);
      var es, took, lost := Events(xs), Left(xs, false), Left(xs, true);
      assert es[..n] == Events(xs[..n]) && es[n] == xs[n].event;
      if xs[n].dropped {
        assert lost[..|lost| - 1] == Left(xs[..n], true) && took == Left(xs[..n], false);
      } else {
        assert took[..|took| - 1] == Left(xs[..n], false) && lost == Left(xs[..n], true);
      }
    }
  }

  /** The high-water mark is at least the start value and every accepted number, and is one of them. */
  lemma {:induction false} HighWaterIsMaximum(since: int, es: seq<Event>)
    ensures HighWater(since, es) >= since
    ensures forall e :: e in es && e.sequence.Some? ==> e.sequence.value <= HighWater(since, es)
    ensures HighWater(since, es) == since || exists e :: e in es && e.sequence == Some(HighWater(since, es))
    decreases |es|
  {
    if es != [] {
      var n := |es| - 1;
      HighWaterIsMaximum(since, es[..n]);
      assert es == es[..n] + [es[n]];
      var h := HighWater(since, es[..n]);
      if h != since {
        var e :| e in es[..n] && e.sequence == Some(h);
        assert e in es;
      }
      assert es[n] in es;
    }
  }

  /** Before the first trim, that is among the first 5001 events accepted, no id occurs twice. */
  lemma {:induction false} NoRepeatBeforeFirstTrim(accepted: seq<Event>)
    requires RepeatsAreFar(accepted)
    ensures forall i: nat, j: nat ::
      i < j < |accepted| && j <= 5000 ==> accepted[i].eventId != accepted[j].eventId
  {
    forall i: nat, j: nat | i < j < |accepted| && j <= SEEN_LIMIT ensures accepted[i].eventId != accepted[j].eventId {
      assert Window(i) == Window(j) == 0;
    }
  }

  /** Among `w` windows of acceptances an id occurs at most `w` times, however often it is delivered. */
  lemma {:induction false} OncePerWindow(accepted: seq<Event>, id: string)
    requires RepeatsAreFar(accepted)
    ensures Occurrences(accepted, id) <= if accepted == [] then 0 else Window(|accepted| - 1) + 1
    ensures Occurrences(accepted, id) == 0
      || exists i: nat :: i < |accepted| && accepted[i].eventId == id && Occurrences(accepted, id) <= Window(i) + 1
    decreases |accepted|
  {
    if accepted != [] {
      var n := |accepted| - 1;
      var before := accepted[..n];
      OncePerWindow(before, id);
      if accepted[n].eventId == id {
        if Occurrences(before, id) > 0 {
          var i: nat :| i < n && before[i].eventId == id && Occurrences(before, id) <= Window(i) + 1;
          assert accepted[i].eventId == accepted[n].eventId;
        }
        assert accepted[n].eventId == id && Occurrences(accepted, id) <= Window(n) + 1;
      } else {
        if Occurrences(before, id) > 0 {
          var i: nat :| i < n && before[i].eventId == id && Occurrences(before, id) <= Window(i) + 1;
          assert accepted[i].eventId == id;
        }
        if n > 0 {
          WindowMonotone(n - 1, n);
          WindowNext(n - 1);
        }
      }
    }
  }

  ghost function Occurrences(es: seq<Event>, id: string): nat {
    if es == [] then 0 else Occurrences(es[..|es| - 1], id) + if es[|es| - 1].eventId == id then 1 else 0
  }
}
