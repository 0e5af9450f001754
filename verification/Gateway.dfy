/** The fallback loop of the inference gateway, and what holds over any sequence of its requests. */
module Gateway {
  import opened Wrappers
  import opened Breaker
  import opened Routing
  import opened Sorting

  /**
   What a call to a model brings: a response; an exception; or a response in whose handling, after
   the success has been recorded, an exception is raised.
   */
  datatype Reply = Content(text: string) | Failed | Mishandled

  /** A call to a provider: when it began, when its outcome was recorded, and what it brought. */
  datatype Call = Call(provider: string, start: real, done: real, reply: Reply)

  datatype Result = Answer(model: Model, content: string) | NoProviderAvailable

  // ---------------------------------------------------------------- the loop as a choice

  /** The fallback event: who failed, which candidate it names as the next, and for which attempt. */
  datatype Announcement = Announcement(failed: Model, next: Model, attempt: nat)

  /** The loop: what it returns, the models it calls in turn, and the event after each failure, if there is one. */
  datatype Run = Run(result: Result, tried: seq<Model>, announced: seq<Option<Announcement>>)

  /** The event counts the attempts to find the next candidate, whatever was skipped on the way. */
  function Announce(all: seq<Model>, m: Model, attempts: nat, limit: int): Option<Announcement> {
    if attempts < |all| && attempts < limit then Some(Announcement(m, all[attempts], attempts + 1)) else None
  }

  /**
   `cands` are the candidates still to come of `all`, `present` the providers the registry still
   knows when their turn comes, and `reply` is what a call to a model would bring.
   */
  function Fallback(all: seq<Model>, cands: seq<Model>, failed: set<string>, attempts: nat, limit: int,
                    present: set<string>, reply: Model -> Reply): Run
    decreases |cands|
  {
    if cands == [] || attempts >= limit then Run(NoProviderAvailable, [], [])
    else
      var m, rest := cands[0], cands[1..];
      if m.providerId in failed then Fallback(all, rest, failed, attempts, limit, present, reply)
      else if m.providerId !in present then Fallback(all, rest, failed, attempts + 1, limit, present, reply)
      else if reply(m).Content? then Run(Answer(m, reply(m).text), [m], [])
      else
        var run := Fallback(all, rest, failed + {m.providerId}, attempts + 1, limit, present, reply);
        Run(run.result, [m] + run.tried, [Announce(all, m, attempts + 1, limit)] + run.announced)
  }

  function Models(cs: seq<Candidate>): seq<Model> {
    if cs == [] then [] else [cs[0].model] + Models(cs[1..])
  }

  /** The best candidate of each provider, in rank order, without the providers in `seen`. */
  function FirstPerProvider(cands: seq<Model>, seen: set<string>): seq<Model> {
    if cands == [] then []
    else if cands[0].providerId in seen then FirstPerProvider(cands[1..], seen)
    else [cands[0]] + FirstPerProvider(cands[1..], seen + {cands[0].providerId})
  }

  function Take<T>(xs: seq<T>, n: int): seq<T> {
    if n <= 0 then [] else if n <= |xs| then xs[..n] else xs
  }

  datatype Choice = Choice(result: Result, tried: seq<Model>)

  /** The first model of a list that answers; all before it are called in vain. */
  function FirstSuccess(ms: seq<Model>, reply: Model -> Reply): Choice {
    if ms == [] then Choice(NoProviderAvailable, [])
    else if reply(ms[0]).Content? then Choice(Answer(ms[0], reply(ms[0]).text), [ms[0]])
    else
      var rest := FirstSuccess(ms[1..], reply);
      rest.(tried := [ms[0]] + rest.tried)
  }

  /** With the registry unchanged, the loop picks the first success among the best of each provider, up to the limit. */
  lemma {:induction false} FallbackIsFirstSuccess(
    all: seq<Model>, cands: seq<Model>, failed: set<string>, attempts: nat, limit: int, present: set<string>,
    reply: Model -> Reply)
    requires forall m :: m in cands ==> m.providerId in present
    ensures var run := Fallback(all, cands, failed, attempts, limit, present, reply);
      Choice(run.result, run.tried) == FirstSuccess(Take(FirstPerProvider(cands, failed), limit - attempts), reply)
    decreases |cands|
  {
    if cands != [] && attempts < limit {
      var m, rest := cands[0], cands[1..];
      if m.providerId in failed {
        FallbackIsFirstSuccess(all, rest, failed, attempts, limit, present, reply);
      } else {
        FallbackIsFirstSuccess(all, rest, failed + {m.providerId}, attempts + 1, limit, present, reply);
        TakeCons(m, FirstPerProvider(rest, failed + {m.providerId}), limit - attempts);
      }
    }
  }

  lemma {:induction false} TakeCons<T>(x: T, xs: seq<T>, n: int)
    requires n > 0
    ensures Take([x] + xs, n) == [x] + Take(xs, n - 1)
    ensures Take([x] + xs, n)[1..] == Take(xs, n - 1)
  {
    if n <= |xs| + 1 {
      assert ([x] + xs)[..n] == [x] + xs[..n - 1];
    }
  }

  /** Nobody is called twice in a request, and not more often in all than the limit says. */
  lemma {:induction false} EachProviderOnce(
    all: seq<Model>, cands: seq<Model>, failed: set<string>, attempts: nat, limit: int, present: set<string>,
    reply: Model -> Reply)
    ensures var tried := Fallback(all, cands, failed, attempts, limit, present, reply).tried;
      && (forall m :: m in tried ==> m in cands && m.providerId !in failed && m.providerId in present)
      && (forall i, j :: 0 <= i < j < |tried| ==> tried[i].providerId != tried[j].providerId)
      && |tried| <= if limit > attempts then limit - attempts else 0
    decreases |cands|
  {
    if cands != [] && attempts < limit {
      var m, rest := cands[0], cands[1..];
      var skipped := m.providerId in failed;
      EachProviderOnce(all, rest, if skipped || m.providerId !in present then failed else failed + {m.providerId},
                       if skipped then attempts else attempts + 1, limit, present, reply);
    }
  }

  /** Before a model answers, every candidate above it had a provider that was tried in vain or is gone. */
  lemma {:induction false} AnswersInOrder(
    all: seq<Model>, cands: seq<Model>, failed: set<string>, attempts: nat, limit: int, present: set<string>,
    reply: Model -> Reply)
    returns (k: nat)
    ensures var run := Fallback(all, cands, failed, attempts, limit, present, reply);
      run.result.Answer? ==>
        && k < |cands| && cands[k] == run.result.model && reply(cands[k]) == Content(run.result.content)
        && run.tried != [] && run.tried[|run.tried| - 1] == cands[k]
        && forall i :: 0 <= i < k ==> TriedOrGone(cands[i], failed, present, run.tried[..|run.tried| - 1])
    ensures var run := Fallback(all, cands, failed, attempts, limit, present, reply);
      forall i :: 0 <= i < |run.tried| ==> reply(run.tried[i]).Content? ==>
        i == |run.tried| - 1 && run.result == Answer(run.tried[i], reply(run.tried[i]).text)
    decreases |cands|
  {
    k := 0;
    if cands != [] && attempts < limit {
      var m, rest := cands[0], cands[1..];
      var skipped := m.providerId in failed;
      if skipped || m.providerId !in present || !reply(m).Content? {
        var failed' := if skipped || m.providerId !in present then failed else failed + {m.providerId};
        var j := AnswersInOrder(all, rest, failed', if skipped then attempts else attempts + 1, limit, present, reply);
        k := j + 1;
        var run := Fallback(all, cands, failed, attempts, limit, present, reply);
        var later := Fallback(all, rest, failed', if skipped then attempts else attempts + 1, limit, present, reply);
        if run.result.Answer? {
          var vain, laterVain := run.tried[..|run.tried| - 1], later.tried[..|later.tried| - 1];
          if !skipped && m.providerId in present {
            assert vain == [m] + laterVain;
          }
          forall i | 0 <= i < k ensures TriedOrGone(cands[i], failed, present, vain) {
            if i > 0 {
              assert TriedOrGone(rest[i - 1], failed', present, laterVain);
              TriedStays(rest[i - 1], m, failed, failed', present, laterVain, vain);
            } else if !skipped && m.providerId in present {
              assert m in vain;
            }
          }
        }
      }
    }
  }

  ghost predicate TriedOrGone(m: Model, failed: set<string>, present: set<string>, tried: seq<Model>) {
    m.providerId in failed || m.providerId !in present || exists t :: t in tried && t.providerId == m.providerId
  }

  lemma {:induction false} TriedStays(
    x: Model, m: Model, failed: set<string>, failed': set<string>, present: set<string>, later: seq<Model>,
    tried: seq<Model>)
    requires TriedOrGone(x, failed', present, later) && failed' <= failed + {m.providerId}
    requires tried == later || tried == [m] + later
    requires tried == later ==> failed' == failed
    ensures TriedOrGone(x, failed, present, tried)
  {
    if t :| t in later && t.providerId == x.providerId {
      assert t in tried;
    }
    if tried != later {
      assert m in tried;
    }
  }

  // ---------------------------------------------------------------- the fallback event

  /** No provider that is present occurs twice among the first `n` candidates. */
  ghost predicate NoRepeat(all: seq<Model>, n: nat, present: set<string>)
    requires n <= |all|
  {
    forall i, j :: 0 <= i < j < n && all[i].providerId == all[j].providerId ==> all[i].providerId !in present
  }

  /** Candidate `a` has its turn at attempt `a + 1`: it can be called, and nobody before it was skipped. */
  ghost predicate NextUp(all: seq<Model>, a: nat, present: set<string>) {
    a < |all| && all[a].providerId in present && NoRepeat(all, a + 1, present)
  }

  /** The loop's variables after `c` candidates: an attempt for each of them, unless some were skipped. */
  ghost predicate Reached(all: seq<Model>, c: nat, failed: set<string>, attempts: nat, present: set<string>) {
    && c <= |all| && attempts <= c
    && (forall p :: p in failed <==> p in present && exists i :: 0 <= i < c && all[i].providerId == p)
    && (forall k :: 0 <= k <= c && NoRepeat(all, k, present) ==> attempts >= k)
    && (attempts == c ==> NoRepeat(all, c, present))
  }

  lemma {:induction false} ReachedNext(all: seq<Model>, c: nat, failed: set<string>, attempts: nat,
                                       present: set<string>)
    requires c < |all| && Reached(all, c, failed, attempts, present)
    ensures var p := all[c].providerId;
      if p in failed then Reached(all, c + 1, failed, attempts, present)
      else Reached(all, c + 1, if p in present then failed + {p} else failed, attempts + 1, present)
  {
    var p := all[c].providerId;
    var failed' := if p in present then failed + {p} else failed;
    forall q ensures q in failed' <==> q in present && exists i :: 0 <= i < c + 1 && all[i].providerId == q {
      if i :| 0 <= i < c + 1 && all[i].providerId == q && q in present {
        assert i < c || q == p;
      }
    }
    if p in failed {
      var i :| 0 <= i < c && all[i].providerId == p;
      assert !NoRepeat(all, c + 1, present);
    } else {
      assert NoRepeat(all, c + 1, present) ==> NoRepeat(all, c, present);
      assert all[c].providerId == p;
      if NoRepeat(all, c, present) {
        forall i, j | 0 <= i < j < c + 1 && all[i].providerId == all[j].providerId
          ensures all[i].providerId !in present
        {}
      }
    }
  }

  /** The first model called from here on is candidate number `attempts` exactly if that is next up. */
  lemma {:induction false} NextTriedIff(
    all: seq<Model>, c: nat, failed: set<string>, attempts: nat, limit: int, present: set<string>,
    reply: Model -> Reply)
    requires Reached(all, c, failed, attempts, present) && attempts < |all| && attempts < limit
    ensures var tried := Fallback(all, all[c..], failed, attempts, limit, present, reply).tried;
      && (tried != [] && tried[0].providerId == all[attempts].providerId <==> NextUp(all, attempts, present))
      && (NextUp(all, attempts, present) ==> tried[0] == all[attempts])
  {
    var p := all[attempts].providerId;
    EachProviderOnce(all, all[c..], failed, attempts, limit, present, reply);
    if attempts < c {
      assert p in present ==> p in failed;
    } else {
      assert all[c..][0] == all[attempts];
      if p in failed {
        var i :| 0 <= i < c && all[i].providerId == p;
        assert !NoRepeat(all, attempts + 1, present);
      }
    }
  }

  /** Whether event `i` names the provider that is tried next, if one is. */
  ghost predicate NamesNext(run: Run, i: nat)
    requires i < |run.announced| && run.announced[i].Some?
  {
    i + 1 < |run.tried| && run.tried[i + 1].providerId == run.announced[i].value.next.providerId
  }

  /** Event `i` is about the `i`-th failure, and names the next provider exactly if its candidate is next up. */
  ghost predicate RightIffNextUp(run: Run, i: nat, all: seq<Model>, present: set<string>)
    requires i < |run.announced| && run.announced[i].Some?
  {
    var e := run.announced[i].value;
    && i < |run.tried| && e.failed == run.tried[i]
    && 1 <= e.attempt <= |all| && e.next == all[e.attempt - 1]
    && (NamesNext(run, i) <==> NextUp(all, e.attempt - 1, present))
    && (NamesNext(run, i) ==> run.tried[i + 1] == e.next)
  }

  lemma {:induction false} LaterEvent(run: Run, later: Run, i: nat, all: seq<Model>, present: set<string>)
    requires |run.tried| == |later.tried| + 1 && run.tried[1..] == later.tried
    requires |run.announced| == |later.announced| + 1 && run.announced[1..] == later.announced
    requires 0 < i < |run.announced| && run.announced[i].Some?
    requires forall k ::
      0 <= k < |later.announced| && later.announced[k].Some? ==> RightIffNextUp(later, k, all, present)
    ensures RightIffNextUp(run, i, all, present)
  {
    hide NextUp;
    assert run.announced[i] == later.announced[i - 1];
    assert RightIffNextUp(later, i - 1, all, present);
    assert run.tried[i] == later.tried[i - 1];
    assert i < |later.tried| ==> run.tried[i + 1] == later.tried[i];
  }

  lemma {:induction false} EventsFrom(
    all: seq<Model>, c: nat, failed: set<string>, attempts: nat, limit: int, present: set<string>,
    reply: Model -> Reply)
    requires Reached(all, c, failed, attempts, present)
    ensures var run := Fallback(all, all[c..], failed, attempts, limit, present, reply);
      forall i :: 0 <= i < |run.announced| && run.announced[i].Some? ==> RightIffNextUp(run, i, all, present)
    decreases |all| - c
  {
    hide NextUp, Fallback, RightIffNextUp;
    var cands := all[c..];
    var run := Fallback(all, cands, failed, attempts, limit, present, reply);
    if c == |all| {
      FallbackOfNothing(all, limit, present, reply);
    } else {
      var m, rest := cands[0], all[c + 1..];
      assert m == all[c] && cands[1..] == rest;
      FallbackUnfolds(all, cands, failed, attempts, limit, present, reply);
      ReachedNext(all, c, failed, attempts, present);
      if attempts >= limit {
      } else if m.providerId in failed {
        EventsFrom(all, c + 1, failed, attempts, limit, present, reply);
      } else if m.providerId !in present {
        EventsFrom(all, c + 1, failed, attempts + 1, limit, present, reply);
      } else if !reply(m).Content? {
        var failed' := failed + {m.providerId};
        EventsFrom(all, c + 1, failed', attempts + 1, limit, present, reply);
        var later := Fallback(all, rest, failed', attempts + 1, limit, present, reply);
        if attempts + 1 < |all| && attempts + 1 < limit {
          NextTriedIff(all, c + 1, failed', attempts + 1, limit, present, reply);
          FirstEvent(run, later, all, m, attempts + 1, limit, present);
        }
        forall i | 0 < i < |run.announced| && run.announced[i].Some? ensures RightIffNextUp(run, i, all, present) {
          LaterEvent(run, later, i, all, present);
        }
      }
    }
  }

  lemma {:induction false} FirstEvent(
    run: Run, later: Run, all: seq<Model>, m: Model, attempts: nat, limit: int, present: set<string>)
    requires 1 <= attempts < |all| && attempts < limit
    requires run.tried == [m] + later.tried && run.announced == [Announce(all, m, attempts, limit)] + later.announced
    requires later.tried != [] && later.tried[0].providerId == all[attempts].providerId
      <==> NextUp(all, attempts, present)
    requires NextUp(all, attempts, present) ==> later.tried[0] == all[attempts]
    ensures RightIffNextUp(run, 0, all, present)
  {}

  /**
   Each fallback event of a request names the provider that is tried next if and only if the
   candidate it names can be called and no provider occurs twice among the candidates up to it
   (not counting those that have left the registry).  If it does not, another provider is tried
   next, or nobody.
   */
  lemma {:induction false} FallbackEventIff(all: seq<Model>, limit: int, present: set<string>, reply: Model -> Reply)
    ensures var run := Fallback(all, all, {}, 0, limit, present, reply);
      forall i :: 0 <= i < |run.announced| && run.announced[i].Some? ==> RightIffNextUp(run, i, all, present)
  {
    assert all[0..] == all;
    EventsFrom(all, 0, {}, 0, limit, present, reply);
  }

  /** How many of the models called brought no response. */
  function Vain(tried: seq<Model>, reply: Model -> Reply): nat {
    if tried == [] then 0 else (if reply(tried[0]).Content? then 0 else 1) + Vain(tried[1..], reply)
  }

  /**
   With the registry unchanged, the `i`-th failure (from 0) is followed by an event if and only if
   there is a candidate number `i + 1`, and an attempt left for it.
   */
  lemma {:induction false} EventEmittedIff(
    all: seq<Model>, cands: seq<Model>, failed: set<string>, attempts: nat, limit: int, present: set<string>,
    reply: Model -> Reply)
    requires forall m :: m in cands ==> m.providerId in present
    ensures var run := Fallback(all, cands, failed, attempts, limit, present, reply);
      && |run.announced| == Vain(run.tried, reply)
      && forall i :: 0 <= i < |run.announced| ==>
           (run.announced[i].Some? <==> attempts + i + 1 < |all| && attempts + i + 1 < limit)
    decreases |cands|
  {
    if cands != [] && attempts < limit {
      var m, rest := cands[0], cands[1..];
      if m.providerId in failed {
        EventEmittedIff(all, rest, failed, attempts, limit, present, reply);
      } else if !reply(m).Content? {
        EventEmittedIff(all, rest, failed + {m.providerId}, attempts + 1, limit, present, reply);
        var later := Fallback(all, rest, failed + {m.providerId}, attempts + 1, limit, present, reply);
        assert ([m] + later.tried)[1..] == later.tried;
      }
    }
  }

  /** Two models of one provider: when the first fails, the event names that same provider, and nobody is tried next. */
  lemma {:induction false} EventCanNameTheFailed(m: Model, n: Model, limit: int, present: set<string>,
                                                 reply: Model -> Reply)
    requires m.providerId == n.providerId && m.providerId in present && !reply(m).Content? && limit >= 2
    ensures Fallback([m, n], [m, n], {}, 0, limit, present, reply)
         == Run(NoProviderAvailable, [m], [Some(Announcement(m, n, 2))])
  {
    assert [m, n][1..] == [n] && [n][1..] == [];
    FallbackUnfolds([m, n], [m, n], {}, 0, limit, present, reply);
    FallbackUnfolds([m, n], [n], {} + {m.providerId}, 1, limit, present, reply);
  }

  // ---------------------------------------------------------------- the log of calls

  /** What is recorded of a call: one outcome, or a success and then a failure. */
  ghost function RecordsOf(c: Call): seq<Outcome> {
    match c.reply
    case Content(_) => [Outcome(c.provider, c.done, true)]
    case Failed => [Outcome(c.provider, c.done, false)]
    case Mishandled => [Outcome(c.provider, c.done, true), Outcome(c.provider, c.done, false)]
  }

  ghost function Records(calls: seq<Call>): seq<Outcome> {
    if calls == [] then [] else Records(calls[..|calls| - 1]) + RecordsOf(calls[|calls| - 1])
  }

  /** Calls follow one another, and at its start the breaker of the provider called is not open. */
  ghost predicate SafeLog(calls: seq<Call>, threshold: int, cooldown: real) {
    && (forall i :: 0 <= i < |calls| ==> calls[i].start <= calls[i].done)
    && (forall i :: 0 < i < |calls| ==> calls[i - 1].done <= calls[i].start)
    && (forall i :: 0 <= i < |calls| ==> SafeCall(calls, i, threshold, cooldown))
  }

  ghost predicate SafeCall(calls: seq<Call>, i: nat, threshold: int, cooldown: real)
    requires i < |calls|
  {
    !Open(Records(calls[..i]), calls[i].provider, calls[i].start, threshold, cooldown)
  }

  lemma {:induction false} RecordsSnoc(calls: seq<Call>, c: Call)
    ensures Records(calls + [c]) == Records(calls) + RecordsOf(c)
  {
    assert (calls + [c])[..|calls|] == calls;
  }

  lemma {:induction false} SafeSnoc(calls: seq<Call>, c: Call, threshold: int, cooldown: real)
    requires SafeLog(calls, threshold, cooldown) && c.start <= c.done
    requires calls != [] ==> calls[|calls| - 1].done <= c.start
    requires !Open(Records(calls), c.provider, c.start, threshold, cooldown)
    ensures SafeLog(calls + [c], threshold, cooldown)
  {
    hide Open, Records;
    var r := calls + [c];
    forall i | 0 <= i < |r| ensures SafeCall(r, i, threshold, cooldown) {
      if i < |calls| {
        assert SafeCall(calls, i, threshold, cooldown);
        assert r[..i] == calls[..i];
      } else {
        assert r[..i] == calls;
      }
    }
  }

  // ---------------------------------------------------------------- the gateway

  /**
   A request and what it meets: the models registered, the providers still known in the loop, what
   calls bring, and the clock.  The clock is read at `clock(i)` for the `i`-th model in routing, and
   afterwards twice for each candidate: when its call begins and when its outcome is recorded.
   */
  datatype Occasion = Occasion(
    models: seq<Model>, request: Request, setting: Setting, present: set<string>, reply: Model -> Reply,
    clock: nat -> real)

  function LastReading(q: Occasion): nat { 3 * |q.models| }

  /** What the loop does with the candidates that routing ranks after the history `h`. */
  ghost function RunOf(q: Occasion, h: seq<Outcome>, threshold: int, cooldown: real, limit: int): Run {
    var open := Answers(q.models, h, threshold, cooldown, q.clock);
    var ranked := Models(Sort(Eligible(q.models, q.request, q.setting, open), RankedAbove));
    Fallback(ranked, ranked, {}, 0, limit, q.present, q.reply)
  }

  class InferenceGateway {
    const breaker: CircuitBreaker
    const maxFallbackAttempts: int
    ghost var calls: seq<Call>

    /** The breaker has the records of the calls ever made and no others, and every call was safe. */
    ghost predicate Valid()
      reads this, breaker
    {
      && breaker.Valid()
      && breaker.history == Records(calls)
      && SafeLog(calls, breaker.failureThreshold, breaker.cooldownSeconds)
      && (calls != [] ==> calls[|calls| - 1].done <= breaker.clock)
    }

    constructor (failureThreshold: int, cooldownSeconds: real, maxFallbackAttempts: int)
      ensures Valid() && fresh(breaker) && calls == [] && breaker.clock == 0.0
      ensures breaker.failureThreshold == failureThreshold && breaker.cooldownSeconds == cooldownSeconds
      ensures this.maxFallbackAttempts == maxFallbackAttempts
    {
      breaker := new CircuitBreaker(failureThreshold, cooldownSeconds);
      this.maxFallbackAttempts := maxFallbackAttempts;
      calls := [];
    }

    ghost predicate MayCall(p: string, now: real)
      reads breaker
    {
      !breaker.IsOpenAt(p, now)
    }

    /** One request.  It ends before the last of the clock readings it may take. */
    method Execute(q: Occasion) returns (result: Result, announced: seq<Option<Announcement>>)
      requires Valid() && DistinctModels(q.models) && Increasing(q.clock) && breaker.clock <= q.clock(0)
      modifies this`calls, breaker
      ensures Valid() && breaker.clock <= q.clock(LastReading(q))
      ensures var run := RunOf(q, old(breaker.history), breaker.failureThreshold, breaker.cooldownSeconds,
                               maxFallbackAttempts);
        result == run.result && announced == run.announced && Logged(old(calls), run.tried, calls, q.reply)
    {
      hide Streak, LastFailure, Open, Records, SafeLog, Breaker.CircuitBreaker.Valid, Eligible, Answers, Models,
        Fallback;
      var candidates, rejected := EvaluateRoute(q.models, q.request, q.setting, breaker, q.clock);
      RoutedMayBeCalled(q.models, q.request, q.setting, breaker, q.clock, candidates);
      ModelsAt(candidates);
      EligibleNoLonger(q.models, q.request, q.setting,
                       Answers(q.models, breaker.history, breaker.failureThreshold, breaker.cooldownSeconds, q.clock));
      result, announced := TryInOrder(Models(candidates), q.present, q.reply, q.clock, |q.models|);
    }

    /** The candidates in rank order; `n` is the first clock reading after routing. */
    method TryInOrder(ranked: seq<Model>, present: set<string>, reply: Model -> Reply, clock: nat -> real, n: nat)
      returns (result: Result, announced: seq<Option<Announcement>>)
      requires Valid() && Increasing(clock) && breaker.clock <= clock(n)
      requires forall m :: m in ranked ==> MayCall(m.providerId, clock(n))
      modifies this`calls, breaker
      ensures Valid() && breaker.clock <= clock(n + 2 * |ranked|)
      ensures var run := Fallback(ranked, ranked, {}, 0, maxFallbackAttempts, present, reply);
        result == run.result && announced == run.announced && Logged(old(calls), run.tried, calls, reply)
    {
      hide Fallback, Logged, Valid, MayCall, Announce, Extends;
      ghost var goal := Fallback(ranked, ranked, {}, 0, maxFallbackAttempts, present, reply);
      FallbackOfNothing(ranked, maxFallbackAttempts, present, reply);
      LoggedNothing(calls, reply);
      ExtendsNothing(goal);
      assert ranked[0..] == ranked;
      var attempts := 0;
      var failed: set<string> := {};
      ghost var tried: seq<Model> := [];
      result, announced := NoProviderAvailable, [];
      for i := 0 to |ranked|
        invariant Valid() && breaker.clock <= clock(n + 2 * i)
        invariant Extends(goal, tried, announced,
                          Fallback(ranked, ranked[i..], failed, attempts, maxFallbackAttempts, present, reply))
        invariant Logged(old(calls), tried, calls, reply)
        invariant forall m :: m in ranked && m.providerId !in failed ==> MayCall(m.providerId, clock(n))
      {
        var model := ranked[i];
        assert ranked[i..][0] == model && ranked[i..][1..] == ranked[i + 1..];
        FallbackUnfolds(ranked, ranked[i..], failed, attempts, maxFallbackAttempts, present, reply);
        if attempts >= maxFallbackAttempts {
          ExtendsToEnd(goal, tried, announced, NoProviderAvailable);
          return NoProviderAvailable, announced;
        }
        var providerId := model.providerId;
        if providerId in failed {
          continue;
        }
        attempts := attempts + 1;
        if providerId !in present {
          continue;
        }
        var start, done := clock(n + 2 * i), clock(n + 2 * i + 1);
        var response := reply(model);
        ghost var before := calls;
        Attempt(providerId, start, done, response, clock(n));
        LoggedSnoc(old(calls), tried, before, model, calls[|before|], reply);
        if response.Content? {
          ExtendsToAnswer(goal, tried, announced, model, response.text);
          return Answer(model, response.text), announced;
        }
        failed := failed + {providerId};
        var event := Announce(ranked, model, attempts, maxFallbackAttempts);
        ExtendsByCall(goal, tried, announced, model, event,
                      Fallback(ranked, ranked[i + 1..], failed, attempts, maxFallbackAttempts, present, reply));
        tried := tried + [model];
        announced := announced + [event];
      }
      ExtendsToEnd(goal, tried, announced, NoProviderAvailable);
      return NoProviderAvailable, announced;
    }

    /** One call to a provider, and the records of its outcome. */
    method Attempt(providerId: string, start: real, done: real, reply: Reply, ghost routed: real)
      requires Valid() && breaker.clock <= start <= done && routed <= start
      requires MayCall(providerId, routed)
      modifies this`calls, breaker
      ensures Valid() && breaker.clock == done
      ensures calls == old(calls) + [Call(providerId, start, done, reply)]
      ensures forall p :: p != providerId && old(MayCall(p, routed)) ==> MayCall(p, routed)
    {
      hide Streak, LastFailure, Open, Records, SafeLog, Breaker.CircuitBreaker.Valid;
      ghost var call := Call(providerId, start, done, reply);
      NotOpenLater(breaker.history, providerId, routed, start, breaker.failureThreshold, breaker.cooldownSeconds);
      LogGrows(call);
      OthersStay(breaker.history, call, routed, breaker.failureThreshold, breaker.cooldownSeconds);
      if !reply.Failed? {
        breaker.RecordSuccess(providerId, done);
      }
      if !reply.Content? {
        breaker.RecordFailure(providerId, done);
      }
      assert breaker.history == old(breaker.history) + RecordsOf(call);
    }

    ghost method LogGrows(c: Call)
      requires breaker.Valid() && breaker.history == Records(calls)
      requires SafeLog(calls, breaker.failureThreshold, breaker.cooldownSeconds)
      requires c.start <= c.done && (calls != [] ==> calls[|calls| - 1].done <= c.start)
      requires MayCall(c.provider, c.start)
      modifies this`calls
      ensures calls == old(calls) + [c] && Records(calls) == breaker.history + RecordsOf(c)
      ensures SafeLog(calls, breaker.failureThreshold, breaker.cooldownSeconds)
    {
      RecordsSnoc(calls, c);
      SafeSnoc(calls, c, breaker.failureThreshold, breaker.cooldownSeconds);
      calls := calls + [c];
    }
  }

  // ---------------------------------------------------------------- the best model answers

  /** The models that satisfy the request after the history `h`. */
  ghost predicate Qualifies(m: Model, q: Occasion, h: seq<Outcome>, threshold: int, cooldown: real) {
    m in q.models && Satisfies(m, q.request, q.setting, Answers(q.models, h, threshold, cooldown, q.clock)(m))
  }

  function ScoreOf(m: Model, q: Occasion): real { q.setting.score(m, q.request) }

  /** A model called in vain, of the provider of `m`. */
  ghost predicate ProviderFailed(m: Model, q: Occasion, run: Run) {
    exists t :: t in run.tried && t.providerId == m.providerId && !q.reply(t).Content?
  }

  /**
   With the registry unchanged: if anybody qualifies, the first to be called is one of the best
   score; and when a model answers, each qualifying model with a better score belongs to a provider
   that was called in vain before.
   */
  lemma {:induction false} BestAnswers(q: Occasion, h: seq<Outcome>, threshold: int, cooldown: real, limit: int)
    requires forall m :: Qualifies(m, q, h, threshold, cooldown) ==> m.providerId in q.present
    ensures var run := RunOf(q, h, threshold, cooldown, limit);
      && (forall m :: m in run.tried ==> Qualifies(m, q, h, threshold, cooldown))
      && (limit >= 1 && (exists m :: Qualifies(m, q, h, threshold, cooldown)) ==> run.tried != [])
      && (run.tried != [] ==>
            forall m :: Qualifies(m, q, h, threshold, cooldown) ==> ScoreOf(run.tried[0], q) >= ScoreOf(m, q))
      && (run.result.Answer? ==>
            forall m ::
              Qualifies(m, q, h, threshold, cooldown) && ScoreOf(m, q) > ScoreOf(run.result.model, q)
              ==> ProviderFailed(m, q, run))
  {
    hide Fallback, Qualifies, ScoreOf, Sort, Eligible, Answers;
    var open := Answers(q.models, h, threshold, cooldown, q.clock);
    var ranked := Models(Sort(Eligible(q.models, q.request, q.setting, open), RankedAbove));
    var run := RunOf(q, h, threshold, cooldown, limit);
    RankedWell(q, h, threshold, cooldown);
    EachProviderOnce(ranked, ranked, {}, 0, limit, q.present, q.reply);
    if limit >= 1 && ranked != [] {
      FallbackUnfolds(ranked, ranked, {}, 0, limit, q.present, q.reply);
      assert ranked[0] in ranked;
    } else {
      NobodyCalled(ranked, limit, q.present, q.reply);
    }
    BetterFailed(ranked, q, limit);
  }

  /** Nobody is called if there is nobody, or no attempt is allowed. */
  lemma {:induction false} NobodyCalled(ranked: seq<Model>, limit: int, present: set<string>, reply: Model -> Reply)
    requires ranked == [] || limit < 1
    ensures Fallback(ranked, ranked, {}, 0, limit, present, reply).tried == []
    ensures !Fallback(ranked, ranked, {}, 0, limit, present, reply).result.Answer?
  {}

  ghost predicate NonIncreasing(ranked: seq<Model>, q: Occasion) {
    forall i, j :: 0 <= i < j < |ranked| ==> ScoreOf(ranked[i], q) >= ScoreOf(ranked[j], q)
  }

  /** The ranked models are those that qualify, by descending score. */
  lemma {:induction false} RankedWell(q: Occasion, h: seq<Outcome>, threshold: int, cooldown: real)
    ensures var open := Answers(q.models, h, threshold, cooldown, q.clock);
      var ranked := Models(Sort(Eligible(q.models, q.request, q.setting, open), RankedAbove));
      NonIncreasing(ranked, q) && forall m :: m in ranked <==> Qualifies(m, q, h, threshold, cooldown)
  {
    hide Sort, Eligible, Answers, Satisfies;
    var open := Answers(q.models, h, threshold, cooldown, q.clock);
    var cs := Sort(Eligible(q.models, q.request, q.setting, open), RankedAbove);
    RankedElements(q.models, q.request, q.setting, open);
    RankedIsBestFirst(Eligible(q.models, q.request, q.setting, open));
    ModelsAt(cs);
    forall i | 0 <= i < |cs| ensures IsCandidate(cs[i], q.models, q.request, q.setting, open) {
      assert cs[i] in cs;
    }
    forall m ensures m in Models(cs) <==> Qualifies(m, q, h, threshold, cooldown) {
      if Qualifies(m, q, h, threshold, cooldown) {
        var c := Candidate(m, ScoreOf(m, q));
        assert IsCandidate(c, q.models, q.request, q.setting, open);
        var i :| 0 <= i < |cs| && cs[i] == c;
        assert Models(cs)[i] == m;
      }
    }
  }

  /** When a model answers, each ranked one with a better score has a provider that was called in vain. */
  lemma {:induction false} BetterFailed(ranked: seq<Model>, q: Occasion, limit: int)
    requires NonIncreasing(ranked, q) && forall m :: m in ranked ==> m.providerId in q.present
    ensures var run := Fallback(ranked, ranked, {}, 0, limit, q.present, q.reply);
      run.result.Answer? ==>
        forall m :: m in ranked && ScoreOf(m, q) > ScoreOf(run.result.model, q) ==> ProviderFailed(m, q, run)
  {
    hide Fallback, ScoreOf;
    var run := Fallback(ranked, ranked, {}, 0, limit, q.present, q.reply);
    var k := AnswersInOrder(ranked, ranked, {}, 0, limit, q.present, q.reply);
    if run.result.Answer? {
      var vain := run.tried[..|run.tried| - 1];
      forall m | m in ranked && ScoreOf(m, q) > ScoreOf(run.result.model, q) ensures ProviderFailed(m, q, run) {
        var i :| 0 <= i < |ranked| && ranked[i] == m;
        assert i < k && TriedOrGone(ranked[i], {}, q.present, vain);
        var t :| t in vain && t.providerId == m.providerId;
        var j :| 0 <= j < |vain| && vain[j] == t;
        assert run.tried[j] == t && !q.reply(t).Content?;
      }
    }
  }

  // ---------------------------------------------------------------- sequences of requests

  /** Each request is made after the one before it has ended. */
  ghost predicate InTurn(qs: seq<Occasion>) {
    && (forall i :: 0 <= i < |qs| ==> DistinctModels(qs[i].models) && Increasing(qs[i].clock) && qs[i].clock(0) >= 0.0)
    && (forall i :: 0 < i < |qs| ==> qs[i - 1].clock(LastReading(qs[i - 1])) <= qs[i].clock(0))
  }

  /** From one log to the next a request adds the calls of its run, and returns its result. */
  ghost predicate Serves(q: Occasion, before: seq<Call>, after: seq<Call>, result: Result, threshold: int,
                         cooldown: real, limit: int)
  {
    var run := RunOf(q, Records(before), threshold, cooldown, limit);
    result == run.result && Logged(before, run.tried, after, q.reply)
  }

  /** Between the failure that opens the breaker of `p` and a later one in the row lies a cooldown for each. */
  ghost predicate HeldBack(calls: seq<Call>, p: string, i: nat, j: nat, threshold: int, cooldown: real)
    requires i <= j < |calls|
  {
    && calls[i].provider == calls[j].provider == p && !calls[i].reply.Content?
    && OnlyFailures(calls, p, i + 1, j + 1) && StreakAt(calls, p, i + 1) == threshold
    ==> calls[j].done - calls[i].done >= (StreakAt(calls, p, j + 1) - threshold) as real * cooldown
  }

  /**
   A new gateway and any sequence of requests.  Each is served as if alone with the log so far; no
   call is made while the breaker of its provider is open; and failures in a row are spaced out.
   */
  method ServeInTurn(qs: seq<Occasion>, failureThreshold: int, cooldownSeconds: real, maxFallbackAttempts: int)
    returns (results: seq<Result>, ghost calls: seq<Call>, ghost logs: seq<seq<Call>>)
    requires InTurn(qs)
    ensures |results| == |qs| && |logs| == |qs| + 1 && logs[0] == [] && logs[|qs|] == calls
    ensures forall i :: 0 <= i < |qs| ==>
      Serves(qs[i], logs[i], logs[i + 1], results[i], failureThreshold, cooldownSeconds, maxFallbackAttempts)
    ensures SafeLog(calls, failureThreshold, cooldownSeconds)
    ensures failureThreshold >= 1 ==> forall p, i: nat, j: nat :: i <= j < |calls| ==>
      HeldBack(calls, p, i, j, failureThreshold, cooldownSeconds)
  {
    hide RunOf, Logged, SafeLog, HeldBack, Records;
    var gateway := new InferenceGateway(failureThreshold, cooldownSeconds, maxFallbackAttempts);
    results, logs := [], [[]];
    for k := 0 to |qs|
      invariant gateway.Valid() && fresh(gateway) && fresh(gateway.breaker)
      invariant gateway.breaker.failureThreshold == failureThreshold
      invariant gateway.breaker.cooldownSeconds == cooldownSeconds
      invariant gateway.maxFallbackAttempts == maxFallbackAttempts
      invariant gateway.breaker.clock <= if k == 0 then 0.0 else qs[k - 1].clock(LastReading(qs[k - 1]))
      invariant |results| == k && |logs| == k + 1 && logs[0] == [] && logs[k] == gateway.calls
      invariant forall i :: 0 <= i < k ==>
        Serves(qs[i], logs[i], logs[i + 1], results[i], failureThreshold, cooldownSeconds, maxFallbackAttempts)
    {
      var result, announced := gateway.Execute(qs[k]);
      results, logs := results + [result], logs + [gateway.calls];
    }
    calls := gateway.calls;
    if failureThreshold >= 1 {
      forall p, i: nat, j: nat | i <= j < |calls| ensures HeldBack(calls, p, i, j, failureThreshold, cooldownSeconds) {
        SafeIsHeldBack(calls, p, i, j, failureThreshold, cooldownSeconds);
      }
    }
  }

  // ---------------------------------------------------------------- steps of these proofs

  /** What was tried so far, and what the rest of the loop will do, make up the whole run. */
  ghost predicate Extends(goal: Run, tried: seq<Model>, announced: seq<Option<Announcement>>, rest: Run) {
    goal.result == rest.result && goal.tried == tried + rest.tried && goal.announced == announced + rest.announced
  }

  lemma {:induction false} ExtendsNothing(goal: Run)
    ensures Extends(goal, [], [], goal)
  {}

  lemma {:induction false} ExtendsByCall(
    goal: Run, tried: seq<Model>, announced: seq<Option<Announcement>>, m: Model, event: Option<Announcement>,
    rest: Run)
    requires Extends(goal, tried, announced, Run(rest.result, [m] + rest.tried, [event] + rest.announced))
    ensures Extends(goal, tried + [m], announced + [event], rest)
  {}

  lemma {:induction false} ExtendsToEnd(
    goal: Run, tried: seq<Model>, announced: seq<Option<Announcement>>, result: Result)
    requires Extends(goal, tried, announced, Run(result, [], []))
    ensures goal == Run(result, tried, announced)
  {}

  lemma {:induction false} ExtendsToAnswer(
    goal: Run, tried: seq<Model>, announced: seq<Option<Announcement>>, m: Model, text: string)
    requires Extends(goal, tried, announced, Run(Answer(m, text), [m], []))
    ensures goal == Run(Answer(m, text), tried + [m], announced)
  {}

  /** The calls made are those of the run, one for each model tried, with the outcome it had. */
  ghost predicate Logged(before: seq<Call>, tried: seq<Model>, calls: seq<Call>, reply: Model -> Reply) {
    && |calls| == |before| + |tried|
    && calls[..|before|] == before
    && forall i :: 0 <= i < |tried| ==>
         calls[|before| + i].provider == tried[i].providerId && calls[|before| + i].reply == reply(tried[i])
  }

  lemma {:induction false} LoggedNothing(calls: seq<Call>, reply: Model -> Reply)
    ensures Logged(calls, [], calls, reply)
  {}

  lemma {:induction false} LoggedSnoc(
    before: seq<Call>, tried: seq<Model>, calls: seq<Call>, m: Model, c: Call, reply: Model -> Reply)
    requires Logged(before, tried, calls, reply) && c.provider == m.providerId && c.reply == reply(m)
    ensures Logged(before, tried + [m], calls + [c], reply)
  {
    assert (calls + [c])[..|before|] == calls[..|before|];
  }

  lemma {:induction false} FallbackOfNothing(all: seq<Model>, limit: int, present: set<string>, reply: Model -> Reply)
    ensures forall failed, attempts ::
      Fallback(all, [], failed, attempts, limit, present, reply) == Run(NoProviderAvailable, [], [])
  {}

  lemma {:induction false} FallbackUnfolds(
    all: seq<Model>, cands: seq<Model>, failed: set<string>, attempts: nat, limit: int, present: set<string>,
    reply: Model -> Reply)
    requires cands != []
    ensures var m, rest := cands[0], cands[1..];
      Fallback(all, cands, failed, attempts, limit, present, reply) ==
        if attempts >= limit then Run(NoProviderAvailable, [], [])
        else if m.providerId in failed then Fallback(all, rest, failed, attempts, limit, present, reply)
        else if m.providerId !in present then Fallback(all, rest, failed, attempts + 1, limit, present, reply)
        else if reply(m).Content? then Run(Answer(m, reply(m).text), [m], [])
        else
          var run := Fallback(all, rest, failed + {m.providerId}, attempts + 1, limit, present, reply);
          Run(run.result, [m] + run.tried, [Announce(all, m, attempts + 1, limit)] + run.announced)
  {}

  lemma {:induction false} ModelsAt(cs: seq<Candidate>)
    ensures |Models(cs)| == |cs| && forall i :: 0 <= i < |cs| ==> Models(cs)[i] == cs[i].model
    decreases |cs|
  {
    if cs != [] {
      ModelsAt(cs[1..]);
    }
  }

  /** A breaker that is not open stays so while nothing is recorded. */
  lemma {:induction false} NotOpenLater(h: seq<Outcome>, p: string, t: real, t': real, threshold: int, cooldown: real)
    requires t <= t' && !Open(h, p, t, threshold, cooldown)
    ensures !Open(h, p, t', threshold, cooldown)
  {}

  lemma {:induction false} OthersStay(h: seq<Outcome>, c: Call, t: real, threshold: int, cooldown: real)
    ensures forall p :: p != c.provider ==>
      Open(h + RecordsOf(c), p, t, threshold, cooldown) == Open(h, p, t, threshold, cooldown)
  {
    forall p | p != c.provider
      ensures Open(h + RecordsOf(c), p, t, threshold, cooldown) == Open(h, p, t, threshold, cooldown)
    {
      OthersDoNotMatter(h, RecordsOf(c), p);
    }
  }

  lemma {:induction false} EligibleNoLonger(models: seq<Model>, r: Request, s: Setting, open: Model -> bool)
    ensures |Sort(Eligible(models, r, s, open), RankedAbove)| <= |models|
    decreases |models|
  {
    hide Verdict;
    var n := |Eligible(models, r, s, open)|;
    assert |Sort(Eligible(models, r, s, open), RankedAbove)| == n;
    if models != [] {
      EligibleNoLonger(models[..|models| - 1], r, s, open);
    }
  }

  /** Whoever passed routing is not refused by the breaker when routing is over. */
  lemma {:induction false} RoutedMayBeCalled(
    models: seq<Model>, r: Request, s: Setting, breaker: CircuitBreaker, clock: nat -> real, candidates: seq<Candidate>)
    requires DistinctModels(models) && Increasing(clock)
    requires var open := Answers(models, breaker.history, breaker.failureThreshold, breaker.cooldownSeconds, clock);
      candidates == Sort(Eligible(models, r, s, open), RankedAbove)
    ensures forall k :: 0 <= k < |candidates| ==> !breaker.IsOpenAt(candidates[k].model.providerId, clock(|models|))
  {
    hide Streak, LastFailure, Open, Eligible, Answers, Satisfies;
    var open := Answers(models, breaker.history, breaker.failureThreshold, breaker.cooldownSeconds, clock);
    EligibleElements(models, r, s, open);
    forall k | 0 <= k < |candidates| ensures !breaker.IsOpenAt(candidates[k].model.providerId, clock(|models|)) {
      var c := candidates[k];
      assert c in multiset(candidates);
      assert c in Eligible(models, r, s, open);
      assert IsCandidate(c, models, r, s, open);
      var i: nat :| i < |models| && models[i] == c.model;
      SatisfiesNotOpen(c.model, r, s, open(c.model));
      AnswerAt(models, i, breaker.history, breaker.failureThreshold, breaker.cooldownSeconds, clock);
      NotOpenLater(breaker.history, c.model.providerId, clock(i), clock(|models|), breaker.failureThreshold,
                   breaker.cooldownSeconds);
    }
  }

  lemma {:induction false} SatisfiesNotOpen(m: Model, r: Request, s: Setting, open: bool)
    requires Satisfies(m, r, s, open)
    ensures !open
  {}

  // ---------------------------------------------------------------- whole runs

  /** Every call to `p` between the two positions fails. */
  ghost predicate OnlyFailures(calls: seq<Call>, p: string, from: nat, to: nat)
    requires to <= |calls|
  {
    forall k :: from <= k < to && calls[k].provider == p ==> calls[k].reply.Failed?
  }

  /** The failures of `p` since its last success, among the first `n` calls. */
  ghost function StreakAt(calls: seq<Call>, p: string, n: nat): nat
    requires n <= |calls|
  {
    Streak(Records(calls[..n]), p)
  }

  lemma {:induction false} StreakAtNext(calls: seq<Call>, p: string, n: nat)
    requires n < |calls|
    ensures StreakAt(calls, p, n + 1) ==
      if calls[n].provider != p then StreakAt(calls, p, n)
      else match calls[n].reply case Content(_) => 0 case Failed => 1 + StreakAt(calls, p, n) case Mishandled => 1
    ensures LastFailure(Records(calls[..n + 1]), p) ==
      if calls[n].provider == p && !calls[n].reply.Content? then calls[n].done else LastFailure(Records(calls[..n]), p)
  {
    hide Streak, LastFailure, Records;
    var c, h := calls[n], Records(calls[..n]);
    assert calls[..n + 1] == calls[..n] + [c];
    RecordsSnoc(calls[..n], c);
    var ok, failure := Outcome(c.provider, c.done, true), Outcome(c.provider, c.done, false);
    StreakSnoc(h, ok, p);
    StreakSnoc(h, failure, p);
    StreakSnoc(h + [ok], failure, p);
    assert h + [ok, failure] == h + [ok] + [failure];
  }

  /**
   Over any sequence of requests: once `p` has failed often enough in a row, each further failure
   in the row comes at least one cooldown after the one before it.
   */
  lemma {:induction false} FailuresAreSpaced(calls: seq<Call>, p: string, i: nat, n: nat, threshold: int,
                                             cooldown: real)
    requires SafeLog(calls, threshold, cooldown)
    requires i < n <= |calls| && calls[i].provider == p && !calls[i].reply.Content?
    requires StreakAt(calls, p, i + 1) >= threshold && OnlyFailures(calls, p, i + 1, n)
    ensures StreakAt(calls, p, n) >= StreakAt(calls, p, i + 1)
    ensures LastFailure(Records(calls[..n]), p) - calls[i].done
         >= (StreakAt(calls, p, n) - StreakAt(calls, p, i + 1)) as real * cooldown
    decreases n
  {
    hide Streak, LastFailure, Records;
    StreakAtNext(calls, p, n - 1);
    if n > i + 1 {
      FailuresAreSpaced(calls, p, i, n - 1, threshold, cooldown);
      var last := calls[n - 1];
      if last.provider == p {
        assert SafeCall(calls, n - 1, threshold, cooldown);
        StreakAtNext(calls, p, i);
        assert last.start >= LastFailure(Records(calls[..n - 1]), p) + cooldown;
        OneMore(StreakAt(calls, p, n - 1) - StreakAt(calls, p, i + 1), cooldown);
      }
    }
  }

  /**
   A provider that answers every call does not accumulate failures, whatever becomes of its
   answers: with a threshold above one its breaker never opens.
   */
  lemma {:induction false} AnswersKeepClosed(calls: seq<Call>, p: string, n: nat, t: real, threshold: int,
                                             cooldown: real)
    requires n <= |calls| && threshold > 1
    requires forall k :: 0 <= k < n && calls[k].provider == p ==> !calls[k].reply.Failed?
    ensures StreakAt(calls, p, n) <= 1 && !Open(Records(calls[..n]), p, t, threshold, cooldown)
    decreases n
  {
    hide LastFailure;
    if n == 0 {
      assert calls[..0] == [];
    } else {
      hide Records;
      AnswersKeepClosed(calls, p, n - 1, t, threshold, cooldown);
      StreakAtNext(calls, p, n - 1);
    }
  }

  lemma {:induction false} OneMore(k: int, cooldown: real)
    ensures (k + 1) as real * cooldown == k as real * cooldown + cooldown
  {}

  /**
   In particular from the failure that opens the breaker, the threshold-th in a row, to the n-th:
   at least n minus threshold cooldowns.
   */
  lemma {:induction false} OpenBreakerHoldsBack(calls: seq<Call>, p: string, i: nat, j: nat, threshold: int,
                                                cooldown: real)
    requires SafeLog(calls, threshold, cooldown) && threshold >= 1
    requires i <= j < |calls| && OnlyFailures(calls, p, i + 1, j + 1)
    requires calls[i].provider == calls[j].provider == p && !calls[i].reply.Content?
    requires StreakAt(calls, p, i + 1) == threshold
    ensures calls[j].done - calls[i].done >= (StreakAt(calls, p, j + 1) - threshold) as real * cooldown
  {
    hide Streak, LastFailure, Records, SafeLog;
    FailuresAreSpaced(calls, p, i, j + 1, threshold, cooldown);
    StreakAtNext(calls, p, j);
  }

  lemma {:induction false} SafeIsHeldBack(calls: seq<Call>, p: string, i: nat, j: nat, threshold: int, cooldown: real)
    requires SafeLog(calls, threshold, cooldown) && threshold >= 1 && i <= j < |calls|
    ensures HeldBack(calls, p, i, j, threshold, cooldown)
  {
    hide SafeLog, StreakAt;
    if && calls[i].provider == calls[j].provider == p && !calls[i].reply.Content?
       && OnlyFailures(calls, p, i + 1, j + 1) && StreakAt(calls, p, i + 1) == threshold {
      OpenBreakerHoldsBack(calls, p, i, j, threshold, cooldown);
    }
  }
}
