/**
 The circuit breaker, against the history of call outcomes: which providers are refused at a
 given time is a matter of that history alone.
 */
module Breaker {

  /** One recorded outcome of a call to a provider. */
  datatype Outcome = Outcome(provider: string, time: real, ok: bool)

  /** The failures of `p` since its last success. */
  ghost function Streak(h: seq<Outcome>, p: string): nat {
    if h == [] then 0
    else
      var last := h[|h| - 1];
      if last.provider != p then Streak(h[..|h| - 1], p)
      else if last.ok then 0
      else 1 + Streak(h[..|h| - 1], p)
  }

  /** When `p` failed last; meaningful while it has a streak. */
  ghost function LastFailure(h: seq<Outcome>, p: string): real {
    if h == [] then 0.0
    else
      var last := h[|h| - 1];
      if last.provider == p && !last.ok then last.time else LastFailure(h[..|h| - 1], p)
  }

  /** The specification: enough failures in a row, the last of them not longer ago than the cooldown. */
  ghost predicate Open(h: seq<Outcome>, p: string, now: real, threshold: int, cooldown: real) {
    Streak(h, p) > 0 && Streak(h, p) >= threshold && now < LastFailure(h, p) + cooldown
  }

  ghost predicate Before(h: seq<Outcome>, t: real) {
    forall i :: 0 <= i < |h| ==> h[i].time <= t
  }

  lemma {:induction false} StreakSnoc(h: seq<Outcome>, o: Outcome, p: string)
    ensures Streak(h + [o], p) == if o.provider != p then Streak(h, p) else if o.ok then 0 else 1 + Streak(h, p)
    ensures LastFailure(h + [o], p) == if o.provider == p && !o.ok then o.time else LastFailure(h, p)
  {
    assert (h + [o])[..|h|] == h;
  }

  lemma {:induction false} LastFailureIsPast(h: seq<Outcome>, p: string, t: real)
    requires Before(h, t) && Streak(h, p) > 0
    ensures LastFailure(h, p) <= t
    decreases |h|
  {
    var last := h[|h| - 1];
    if last.provider != p {
      LastFailureIsPast(h[..|h| - 1], p, t);
    }
  }

  class CircuitBreaker {
    const failureThreshold: int
    const cooldownSeconds: real
    var consecutiveFailures: map<string, nat>
    var openUntil: map<string, real>
    ghost var history: seq<Outcome>
    ghost var clock: real

    /** The two dictionaries tell what the history says; an entry that is gone had expired. */
    ghost predicate Valid()
      reads this
    {
      && clock >= 0.0 && Before(history, clock)
      && (forall p :: Streak(history, p) == if p in consecutiveFailures then consecutiveFailures[p] else 0)
      && (forall p :: Tells(p))
    }

    ghost predicate Tells(p: string)
      reads this
    {
      var due := Streak(history, p) > 0 && Streak(history, p) >= failureThreshold;
      if p in openUntil then due && openUntil[p] == LastFailure(history, p) + cooldownSeconds
      else due ==> LastFailure(history, p) + cooldownSeconds <= clock
    }

    ghost predicate IsOpenAt(p: string, now: real)
      reads this
    {
      Open(history, p, now, failureThreshold, cooldownSeconds)
    }

    constructor (failureThreshold: int, cooldownSeconds: real)
      ensures Valid() && history == [] && clock == 0.0
      ensures this.failureThreshold == failureThreshold && this.cooldownSeconds == cooldownSeconds
    {
      this.failureThreshold, this.cooldownSeconds := failureThreshold, cooldownSeconds;
      consecutiveFailures, openUntil, history, clock := map[], map[], [], 0.0;
    }

    /** The answer is the one the history gives; dropping an expired entry changes no later answer. */
    method IsOpen(providerId: string, now: real) returns (open: bool)
      requires Valid() && clock <= now
      modifies this`openUntil, this`clock
      ensures Valid() && clock == now
      ensures open == IsOpenAt(providerId, now)
      ensures openUntil - {providerId} == old(openUntil) - {providerId}
    {
      assert Tells(providerId);
      var until := if providerId in openUntil then openUntil[providerId] else 0.0;
      clock := now;
      if now < until {
        assert forall p :: old(Tells(p)) ==> Tells(p);
        return true;
      }
      if until > 0.0 {
        openUntil := openUntil - {providerId};
      }
      assert forall p :: old(Tells(p)) ==> Tells(p);
      return false;
    }

    method RecordSuccess(providerId: string, now: real)
      requires Valid() && clock <= now
      modifies this`consecutiveFailures, this`openUntil, this`history, this`clock
      ensures Valid() && clock == now
      ensures history == old(history) + [Outcome(providerId, now, true)]
    {
      hide Streak, LastFailure, Before;
      consecutiveFailures := consecutiveFailures[providerId := 0];
      openUntil := openUntil - {providerId};
      Grow(Outcome(providerId, now, true));
      assert forall p :: old(Tells(p)) ==> Tells(p);
    }

    method RecordFailure(providerId: string, now: real)
      requires Valid() && clock <= now
      modifies this`consecutiveFailures, this`openUntil, this`history, this`clock
      ensures Valid() && clock == now
      ensures history == old(history) + [Outcome(providerId, now, false)]
    {
      hide Streak, LastFailure, Before;
      var count := (if providerId in consecutiveFailures then consecutiveFailures[providerId] else 0) + 1;
      assert Tells(providerId);
      consecutiveFailures := consecutiveFailures[providerId := count];
      if count >= failureThreshold {
        openUntil := openUntil[providerId := now + cooldownSeconds];
      }
      Grow(Outcome(providerId, now, false));
      assert Tells(providerId);
      assert forall p :: p != providerId && old(Tells(p)) ==> Tells(p);
    }

    ghost method Grow(o: Outcome)
      requires Before(history, clock) && clock <= o.time
      modifies this`history, this`clock
      ensures history == old(history) + [o] && clock == o.time && Before(history, clock)
      ensures forall p ::
        Streak(history, p)
        == if o.provider != p then Streak(old(history), p) else if o.ok then 0 else 1 + Streak(old(history), p)
      ensures forall p ::
        LastFailure(history, p) == if o.provider == p && !o.ok then o.time else LastFailure(old(history), p)
    {
      forall p { StreakSnoc(history, o, p); }
      history, clock := history + [o], o.time;
    }
  }

  // ---------------------------------------------------------------- what the specification means

  /** Outcome `j` is a failure of `p`, and no success of `p` follows it. */
  ghost predicate FailingSince(h: seq<Outcome>, p: string, j: nat) {
    && j < |h| && h[j].provider == p && !h[j].ok
    && forall k :: j < k < |h| && h[k].provider == p ==> !h[k].ok
  }

  ghost function Failing(h: seq<Outcome>, p: string): set<nat> { set j: nat | j < |h| && FailingSince(h, p, j) }

  lemma {:induction false} FailingNext(h: seq<Outcome>, o: Outcome, p: string)
    ensures Failing(h + [o], p)
         == if o.provider != p then Failing(h, p) else if o.ok then {} else Failing(h, p) + {|h|}
    ensures |h| !in Failing(h, p)
  {
    var all := h + [o];
    forall j: nat | j < |h|
      ensures FailingSince(all, p, j) <==> FailingSince(h, p, j) && (o.provider == p ==> !o.ok)
    {
      if FailingSince(all, p, j) {
        assert all[|h|] == o && forall k :: j < k < |h| ==> all[k] == h[k];
      }
    }
  }

  /** The streak by position: the failures that no success follows, the last of them at `LastFailure`. */
  lemma {:induction false} StreakByPosition(h: seq<Outcome>, p: string)
    ensures Streak(h, p) == |Failing(h, p)|
    ensures Streak(h, p) > 0 ==> exists j: nat :: IsLatest(h, p, j) && h[j].time == LastFailure(h, p) && !h[j].ok
    decreases |h|
  {
    hide FailingSince;
    if h == [] {
      assert Failing(h, p) == {};
    } else {
      hide Failing;
      var n := |h| - 1;
      assert h == h[..n] + [h[n]];
      StreakByPosition(h[..n], p);
      FailingNext(h[..n], h[n], p);
      if Streak(h, p) > 0 && h[n].provider == p {
        assert IsLatest(h, p, n);
      } else if Streak(h, p) > 0 {
        var j: nat :| IsLatest(h[..n], p, j) && h[..n][j].time == LastFailure(h[..n], p) && !h[..n][j].ok;
        assert IsLatest(h, p, j);
      }
    }
  }

  /** Outcome `j` is the latest of `p`. */
  ghost predicate IsLatest(h: seq<Outcome>, p: string, j: nat) {
    j < |h| && h[j].provider == p && forall k :: j < k < |h| ==> h[k].provider != p
  }

  /** Once the streak is long enough, one more failure opens the breaker for another whole cooldown. */
  lemma {:induction false} FailureReopens(h: seq<Outcome>, p: string, t: real, now: real, threshold: int,
                                          cooldown: real)
    requires Streak(h, p) + 1 >= threshold
    ensures Open(h + [Outcome(p, t, false)], p, now, threshold, cooldown) <==> now < t + cooldown
  {
    StreakSnoc(h, Outcome(p, t, false), p);
  }

  /** A success closes the breaker, whatever came before. */
  lemma {:induction false} SuccessCloses(h: seq<Outcome>, p: string, t: real, now: real, threshold: int, cooldown: real)
    ensures !Open(h + [Outcome(p, t, true)], p, now, threshold, cooldown)
  {
    StreakSnoc(h, Outcome(p, t, true), p);
  }

  /** Outcomes of other providers are of no consequence. */
  lemma {:induction false} OthersDoNotMatter(h: seq<Outcome>, more: seq<Outcome>, p: string)
    requires forall i :: 0 <= i < |more| ==> more[i].provider != p
    ensures Streak(h + more, p) == Streak(h, p) && LastFailure(h + more, p) == LastFailure(h, p)
    decreases |more|
  {
    if more == [] {
      assert h + more == h;
    } else {
      var n := |more| - 1;
      OthersDoNotMatter(h, more[..n], p);
      StreakSnoc(h + more[..n], more[n], p);
      assert h + more == h + more[..n] + [more[n]];
    }
  }
}
