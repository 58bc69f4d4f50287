/** How long a cohort waits for the contract: one clock, counted in nanoseconds by
    the servers and in whole seconds by the contract. */
module Waiting {
  import opened Common
  import opened CoordinatorProtocol
  import opened Voting
  import opened System
  import opened SystemSafety

  /** The contract's view of the clock. */
  function WholeSeconds(clock: int): int {
    clock / SECOND
  }

  lemma TimestampRoundTrip(nanos: int)
    ensures Nanos(ToTimestamp(nanos)) == nanos
    ensures 0 <= ToTimestamp(nanos).nanos < SECOND
    ensures WholeSeconds(nanos) == ToTimestamp(nanos).seconds
  {
  }

  lemma SecondsAreMonotone(a: int, b: int)
    requires a <= b
    ensures WholeSeconds(a) <= WholeSeconds(b)
  {
  }

  /** For every accepted submission to several cohorts, the timeout given to the
      contract is the abort time given to all cohorts, rounded down to seconds.
      So at every cohort's abort time the contract has timed out. */
  lemma TimeoutIsFloorOfAbortTime(m: Coord, id: TxnId, subs: seq<SubTransaction>, asked: Option<Timestamp>, now: int,
                                  dflt: int, votingOk: bool, i: nat, clock: int)
    requires |subs| > 1 && i < |Commit(m, id, subs, asked, now, dflt, votingOk).prepares|
    ensures var out := Commit(m, id, subs, asked, now, dflt, votingOk);
            && out.voting.Some? && out.voting.value.timeout == WholeSeconds(Nanos(out.prepares[i].config))
            && now <= Nanos(out.prepares[i].config)
            && (Nanos(out.prepares[i].config) <= clock ==> out.voting.value.timeout <= WholeSeconds(clock))
  {
    var config := ComputeFinalConfig(asked, now, dflt).value;
    TimestampRoundTrip(match asked case Some(t) => Nanos(t) case None => now + dflt);
    if Nanos(config) <= clock {
      SecondsAreMonotone(Nanos(config), clock);
    }
  }

  /** One attempt to read the decision: when, and what came back. */
  datatype Attempt = Attempt(clock: int, result: Option<Decision>)

  /** After the first attempt the cohort sleeps until the abort time. */
  predicate Slept(attempts: seq<Attempt>, abortTime: int) {
    forall i | 1 <= i < |attempts| :: abortTime <= attempts[i].clock
  }

  /** Each successful read reports the decision about the round as it is then,
      whatever the other participants have done to it. */
  ghost predicate Faithful(attempts: seq<Attempt>, rounds: seq<Round>, timeout: nat) {
    && |rounds| == |attempts|
    && forall i | 0 <= i < |attempts| ::
         && attempts[i].clock >= 0 && rounds[i].timeout == timeout
         && (attempts[i].result.Some? ==> attempts[i].result.value == Decide(rounds[i], WholeSeconds(attempts[i].clock)))
  }

  predicate Decisive(attempt: Attempt) {
    attempt.result.Some? && Final(attempt.result.value)
  }

  /** Which of the first n attempts succeeded. */
  function Successful(attempts: seq<Attempt>, n: nat): set<nat>
    requires n <= |attempts|
  {
    set i: nat | i < n && attempts[i].result.Some?
  }

  lemma SuccessfulNext(attempts: seq<Attempt>, n: nat)
    requires n < |attempts|
    ensures |Successful(attempts, n + 1)| == |Successful(attempts, n)| + (if attempts[n].result.Some? then 1 else 0)
  {
    assert Successful(attempts, n + 1) == Successful(attempts, n) + (if attempts[n].result.Some? then {n} else {});
  }

  /** The first final decision that is read. */
  function FirstDecision(attempts: seq<Attempt>): (answer: Option<Decision>)
    ensures answer.Some? ==> Final(answer.value)
  {
    if attempts == [] then None
    else if Decisive(attempts[0]) then attempts[0].result
    else FirstDecision(attempts[1..])
  }

  /** Reads until the decision is final. */
  method WaitForBlockchainDecision(attempts: seq<Attempt>)
    returns (answer: Option<Decision>, used: nat, successes: nat)
    ensures answer == FirstDecision(attempts)
    ensures used <= |attempts| && successes == |Successful(attempts, used)|
    ensures answer.Some? ==> used > 0 && attempts[used - 1].result == answer
    ensures answer.None? ==> used == |attempts|
    ensures forall i | 0 <= i < used :: (answer.Some? && i == used - 1) || !Decisive(attempts[i])
  {
    answer, used, successes := None, 0, 0;
    assert attempts[0..] == attempts;
    while used < |attempts|
      invariant used <= |attempts| && answer.None?
      invariant successes == |Successful(attempts, used)|
      invariant FirstDecision(attempts) == FirstDecision(attempts[used..])
      invariant forall i | 0 <= i < used :: !Decisive(attempts[i])
    {
      SuccessfulNext(attempts, used);
      assert attempts[used..][1..] == attempts[used + 1..];
      var decision := if attempts[used].result.Some? then attempts[used].result.value else PendingDecision;
      if attempts[used].result.Some? {
        successes := successes + 1;
      }
      used := used + 1;
      if decision != PendingDecision && decision != UnknownDecision {
        return Some(decision), used, successes;
      }
    }
  }

  /** Bounded waiting: with a shared clock, and whatever the other participants do,
      the wait uses at most two successful reads. If it has not ended, no read
      since the abort time succeeded. */
  lemma TwoReadsSuffice(attempts: seq<Attempt>, abortTime: int, rounds: seq<Round>, used: nat)
    requires abortTime >= 0 && Slept(attempts, abortTime) && Faithful(attempts, rounds, WholeSeconds(abortTime))
    requires used <= |attempts| && forall i | 0 <= i < used - 1 :: !Decisive(attempts[i])
    ensures |Successful(attempts, used)| <= 2
    ensures (forall i | 0 <= i < used :: !Decisive(attempts[i])) ==>
              forall i | 1 <= i < used :: attempts[i].result.None?
  {
    forall i | 1 <= i < used && attempts[i].result.Some? ensures Decisive(attempts[i]) {
      SecondsAreMonotone(abortTime, attempts[i].clock);
      DecidedAtTimeout(rounds[i], WholeSeconds(attempts[i].clock));
    }
    if used > 0 {
      var ends: set<nat> := {0, used - 1};
      assert Successful(attempts, used) <= ends;
      CountWithin(Successful(attempts, used), ends);
    }
  }

  // ----- waiting in the composed system -----

  /** Whenever a participant of a transaction that was sent to several cohorts asks
      at or after its abort time, in any state of any run, the contract has
      decided. */
  lemma DecidedAtAbortTime(run: seq<State>, steps: seq<SysStep>, i: nat, t: TxnId, x: int, a: Address, clock: int)
    requires IsRun(run, steps) && i < |run| && Participant(run[i], t, x, a) && |run[i].prepares[t]| > 1
    requires run[i].now == WholeSeconds(clock) && Nanos(run[i].prepares[t][x].config) <= clock
    ensures t in run[i].rounds && Final(Decide(run[i].rounds[t], run[i].now))
  {
    SafeRun(run, steps, i);
    assert RoundOk(run[i], t);
    FloorOf(run[i].prepares[t][x].config);
    SecondsAreMonotone(Nanos(run[i].prepares[t][x].config), clock);
    DecidedAtTimeout(run[i].rounds[t], run[i].now);
  }

  lemma FloorOf(config: Timestamp)
    requires 0 <= config.nanos < SECOND
    ensures WholeSeconds(Nanos(config)) == config.seconds
  {
  }

  /** The attempts of a participant are made in the states `asked` of a run, on a
      shared clock. */
  ghost predicate MadeIn(run: seq<State>, asked: seq<nat>, t: TxnId, attempts: seq<Attempt>) {
    && |asked| == |attempts|
    && forall k | 0 <= k < |asked| :: ReadIn(run, asked[k], t, attempts[k])
  }

  ghost predicate ReadIn(run: seq<State>, i: nat, t: TxnId, attempt: Attempt) {
    && i < |run| && attempt.clock >= 0 && run[i].now == WholeSeconds(attempt.clock)
    && (attempt.result.Some? ==> t in run[i].rounds && attempt.result.value == Decide(run[i].rounds[t], run[i].now))
  }

  /** Bounded waiting over runs: a participant that sleeps until its abort time
      after the first attempt ends its wait with at most two successful reads, the
      second of them final, whatever all the others do meanwhile. */
  lemma BoundedWaiting(run: seq<State>, steps: seq<SysStep>, asked: seq<nat>, t: TxnId, attempts: seq<Attempt>,
                       config: Timestamp, used: nat)
    requires IsRun(run, steps) && MadeIn(run, asked, t, attempts)
    requires forall k | 0 <= k < |asked| :: SentWith(run[asked[k]], t, config)
    requires Nanos(config) >= 0 && Slept(attempts, Nanos(config))
    requires used <= |attempts| && forall k | 0 <= k < used - 1 :: !Decisive(attempts[k])
    ensures |Successful(attempts, used)| <= 2
    ensures forall k | 1 <= k < |attempts| && attempts[k].result.Some? :: Decisive(attempts[k])
  {
    var rounds := seq(|asked|, k requires 0 <= k < |asked| => RoundOf(run[asked[k]], t));
    forall k | 0 <= k < |asked|
      ensures attempts[k].clock >= 0 && rounds[k].timeout == WholeSeconds(Nanos(config))
      ensures attempts[k].result.Some? ==>
                attempts[k].result.value == Decide(rounds[k], WholeSeconds(attempts[k].clock))
    {
      assert ReadIn(run, asked[k], t, attempts[k]) && SentWith(run[asked[k]], t, config);
      SafeRun(run, steps, asked[k]);
      RoundIsTimed(run[asked[k]], t, config);
    }
    assert Faithful(attempts, rounds, WholeSeconds(Nanos(config)));
    TwoReadsSuffice(attempts, Nanos(config), rounds, used);
    forall k | 1 <= k < |attempts| && attempts[k].result.Some? ensures Decisive(attempts[k]) {
      SecondsAreMonotone(Nanos(config), attempts[k].clock);
      DecidedAtTimeout(rounds[k], WholeSeconds(attempts[k].clock));
    }
  }

  /** The transaction was sent to several cohorts, to one of them with this abort
      time. */
  ghost predicate SentWith(s: State, t: TxnId, config: Timestamp) {
    && t in s.prepares && |s.prepares[t]| > 1
    && exists x :: 0 <= x < |s.prepares[t]| && s.prepares[t][x].config == config
  }

  function RoundOf(s: State, t: TxnId): Round {
    if t in s.rounds then s.rounds[t] else Round(0, [])
  }

  lemma RoundIsTimed(s: State, t: TxnId, config: Timestamp)
    requires Safe(s) && SentWith(s, t, config)
    ensures t in s.rounds && s.rounds[t].timeout == WholeSeconds(Nanos(config))
  {
    assert RoundOk(s, t);
    var x :| 0 <= x < |s.prepares[t]| && s.prepares[t][x].config == config;
    assert InTime(s.rounds[t], s.prepares[t][x]);
    FloorOf(config);
  }

  lemma {:induction false} CountWithin(small: set<nat>, large: set<nat>)
    requires small <= large
    ensures |small| <= |large|
  {
    if small != {} {
      var x :| x in small;
      CountWithin(small - {x}, large - {x});
    }
  }
}
