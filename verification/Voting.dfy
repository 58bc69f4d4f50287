/** The voting rounds of the contract, as ballot arrays: the calls it accepts,
    the decision rule, and when a decision is final. */
module Voting {
  import opened Common

  const MAX_COHORTS: nat := 120

  /** One round: when it times out, and the ballot of each cohort index. */
  datatype Round = Round(timeout: nat, ballots: seq<Ballot>)

  type Rounds = map<TxnId, Round>

  predicate AcceptsStart(now: nat, cohorts: nat, timeout: nat) {
    0 < cohorts <= MAX_COHORTS && now < timeout
  }

  function NewRound(cohorts: nat, timeout: nat): Round {
    Round(timeout, seq(cohorts, _ => NoBallot))
  }

  /** A call that the contract rejects leaves its storage alone. */
  function StartVoting(rounds: Rounds, now: nat, id: TxnId, cohorts: nat, timeout: nat): Rounds {
    if AcceptsStart(now, cohorts, timeout) then rounds[id := NewRound(cohorts, timeout)] else rounds
  }

  predicate AcceptsVote(rounds: Rounds, now: nat, id: TxnId, index: nat, ballot: Ballot) {
    && id in rounds
    && now < rounds[id].timeout
    && index < |rounds[id].ballots|
    && ballot != NoBallot
  }

  function Cast(round: Round, index: nat, ballot: Ballot): Round
    requires index < |round.ballots|
  {
    round.(ballots := round.ballots[index := ballot])
  }

  function Vote(rounds: Rounds, now: nat, id: TxnId, index: nat, ballot: Ballot): Rounds {
    if AcceptsVote(rounds, now, id, index, ballot)
    then rounds[id := Cast(rounds[id], index, ballot)]
    else rounds
  }

  predicate AllCommit(round: Round) {
    forall i | 0 <= i < |round.ballots| :: round.ballots[i] == CommitBallot
  }

  predicate SomeAbort(round: Round) {
    exists i | 0 <= i < |round.ballots| :: round.ballots[i] == AbortBallot
  }

  /** The decision rule in the order the design gives it. */
  function Decide(round: Round, now: nat): Decision {
    if SomeAbort(round) then AbortDecision
    else if AllCommit(round) then CommitDecision
    else if now >= round.timeout then AbortDecision
    else PendingDecision
  }

  predicate Final(d: Decision) {
    d == CommitDecision || d == AbortDecision
  }

  /** No round is open for ever: at the timeout the decision is final. */
  lemma DecidedAtTimeout(round: Round, now: nat)
    requires now >= round.timeout
    ensures Final(Decide(round, now))
  {
  }

  lemma CommitIsAllCommit(round: Round, now: nat)
    requires |round.ballots| > 0
    ensures Decide(round, now) == CommitDecision <==> AllCommit(round)
  {
  }

  /** The clock alone never changes a final decision. */
  lemma TimeKeepsDecision(round: Round, now: nat, later: nat)
    requires now <= later
    requires Final(Decide(round, now))
    ensures Decide(round, later) == Decide(round, now)
  {
  }

  /** What a caller can check before the call: the ballot does not take back
      the only thing the decision rests on. */
  predicate KeepsBasis(round: Round, index: nat, ballot: Ballot)
    requires index < |round.ballots|
  {
    if AllCommit(round) then ballot == CommitBallot
    else ballot == AbortBallot || exists j | 0 <= j < |round.ballots| :: j != index && round.ballots[j] == AbortBallot
  }

  /** A final decision is NOT safe against every accepted ballot, because the
      contract lets an index overwrite its own ballot. It survives exactly when
      the ballot keeps the basis of the decision. */
  lemma VoteKeepsDecisionExactly(round: Round, now: nat, index: nat, ballot: Ballot)
    requires |round.ballots| > 0 && now < round.timeout && index < |round.ballots| && ballot != NoBallot
    requires Final(Decide(round, now))
    ensures Decide(Cast(round, index, ballot), now) == Decide(round, now) <==> KeepsBasis(round, index, ballot)
  {
    var after := Cast(round, index, ballot);
    CommitIsAllCommit(round, now);
    assert after.ballots[index] == ballot;
    if AllCommit(round) {
      if ballot == CommitBallot {
        assert after.ballots == round.ballots;
      } else {
        assert SomeAbort(after);
      }
    } else {
      assert Decide(round, now) == AbortDecision && SomeAbort(round);
      if ballot == AbortBallot {
        assert SomeAbort(after);
      } else if j :| 0 <= j < |round.ballots| && j != index && round.ballots[j] == AbortBallot {
        assert after.ballots[j] == AbortBallot;
      } else {
        assert !SomeAbort(after);
      }
    }
  }

  /** The family that fails: an index changes its only abort ballot. */
  lemma OverwritingBallotFlipsDecision(id: TxnId)
    ensures var start := StartVoting(map[], 0, id, 2, 9);
            var abort := Vote(Vote(start, 1, id, 0, CommitBallot), 2, id, 1, AbortBallot);
            var flipped := Vote(abort, 3, id, 1, CommitBallot);
            && Decide(abort[id], 2) == AbortDecision
            && Decide(flipped[id], 3) == CommitDecision
  {
    var start := StartVoting(map[], 0, id, 2, 9);
    var one := Vote(start, 1, id, 0, CommitBallot);
    var abort := Vote(one, 2, id, 1, AbortBallot);
    var flipped := Vote(abort, 3, id, 1, CommitBallot);
    assert abort[id].ballots[1] == AbortBallot;
    assert flipped[id].ballots == [CommitBallot, CommitBallot];
  }

  /** Restarting always loses the decision: an accepted restart is pending. */
  lemma RestartLosesDecision(rounds: Rounds, now: nat, id: TxnId, cohorts: nat, timeout: nat)
    requires id in rounds && Final(Decide(rounds[id], now))
    ensures Decide(StartVoting(rounds, now, id, cohorts, timeout)[id], now) == Decide(rounds[id], now)
       <==> !AcceptsStart(now, cohorts, timeout)
  {
    if AcceptsStart(now, cohorts, timeout) {
      var round := NewRound(cohorts, timeout);
      assert round.ballots[0] == NoBallot;
      assert !SomeAbort(round) && !AllCommit(round);
    }
  }

  /** An index that never changes its kind of ballot keeps every decision. */
  lemma SameKindKeepsDecision(round: Round, now: nat, index: nat, ballot: Ballot)
    requires |round.ballots| > 0 && now < round.timeout && index < |round.ballots| && ballot != NoBallot
    requires round.ballots[index] == NoBallot || round.ballots[index] == ballot
    requires Final(Decide(round, now))
    ensures Decide(Cast(round, index, ballot), now) == Decide(round, now)
  {
    CommitIsAllCommit(round, now);
    if AllCommit(round) {
      assert round.ballots[index] == CommitBallot;
    } else {
      var j :| 0 <= j < |round.ballots| && round.ballots[j] == AbortBallot;
      assert j == index ==> ballot == AbortBallot;
    }
    VoteKeepsDecisionExactly(round, now, index, ballot);
  }

  // ----- whole runs of one round -----

  /** A ballot call reaching the contract at some time; it may be late,
      repeated, out of range or unknown. */
  datatype Call = Call(now: nat, index: nat, ballot: Ballot)

  /** What the contract checks of a call about a known round. */
  predicate Accepts(round: Round, call: Call) {
    call.now < round.timeout && call.index < |round.ballots| && call.ballot != NoBallot
  }

  function AfterCalls(round: Round, calls: seq<Call>): (r: Round)
    ensures r.timeout == round.timeout && |r.ballots| == |round.ballots|
  {
    if calls == [] then round else
    var before := AfterCalls(round, calls[..|calls| - 1]);
    var call := calls[|calls| - 1];
    if Accepts(before, call)
    then Cast(before, call.index, call.ballot)
    else before
  }

  predicate Ordered(calls: seq<Call>) {
    forall i, j | 0 <= i <= j < |calls| :: calls[i].now <= calls[j].now
  }

  /** Each index has at most one kind of ballot accepted; what is rejected may be
      of any kind. */
  predicate OneKind(round: Round, calls: seq<Call>) {
    forall i, j | 0 <= i < |calls| && 0 <= j < |calls| && calls[i].index == calls[j].index ::
      Accepts(round, calls[i]) && Accepts(round, calls[j]) ==> calls[i].ballot == calls[j].ballot
  }

  lemma {:induction false} BallotsComeFromCalls(round: Round, calls: seq<Call>, index: nat) returns (i: nat)
    requires index < |round.ballots| && round.ballots[index] == NoBallot
    requires AfterCalls(round, calls).ballots[index] != NoBallot
    ensures i < |calls| && calls[i].index == index && calls[i].ballot == AfterCalls(round, calls).ballots[index]
    ensures Accepts(round, calls[i])
  {
    var last := |calls| - 1;
    var before := AfterCalls(round, calls[..last]);
    if AfterCalls(round, calls).ballots[index] == before.ballots[index] {
      i := BallotsComeFromCalls(round, calls[..last], index);
    } else {
      i := last;
    }
  }

  lemma PrefixIsFit(start: Round, calls: seq<Call>, n: nat)
    requires Ordered(calls) && OneKind(start, calls) && n <= |calls|
    ensures Ordered(calls[..n]) && OneKind(start, calls[..n])
    ensures forall i | 0 <= i < n :: calls[..n][i] == calls[i]
    ensures n < |calls| ==> forall i | 0 <= i < n :: calls[..n][i].now <= calls[n].now
  {
  }

  /** The last of a sequence of calls leaves a final decision as it found it. */
  lemma LastCallKeepsDecision(start: Round, calls: seq<Call>)
    requires calls != [] && |start.ballots| > 0 && OneKind(start, calls)
    requires forall i | 0 <= i < |start.ballots| :: start.ballots[i] == NoBallot
    requires var last := |calls| - 1; Final(Decide(AfterCalls(start, calls[..last]), calls[last].now))
    ensures var last := |calls| - 1;
            Decide(AfterCalls(start, calls), calls[last].now) == Decide(AfterCalls(start, calls[..last]), calls[last].now)
  {
    var call, prefix := calls[|calls| - 1], calls[..|calls| - 1];
    var before := AfterCalls(start, prefix);
    if Accepts(before, call) {
      if before.ballots[call.index] != NoBallot {
        var i := BallotsComeFromCalls(start, prefix, call.index);
        assert prefix[i] == calls[i];
      }
      SameKindKeepsDecision(before, call.now, call.index, call.ballot);
    }
  }

  /** Decision stability over every run of one round: whatever the mix of late,
      repeated and rejected ballots, a decision read after `n` calls at time
      `now` is the decision read after all calls at any later time. */
  lemma {:induction false} DecisionIsStable(cohorts: nat, timeout: nat, calls: seq<Call>, n: nat, now: nat, later: nat)
    requires cohorts > 0 && n <= |calls| && now <= later
    requires Ordered(calls) && OneKind(NewRound(cohorts, timeout), calls)
    requires forall i | n <= i < |calls| :: now <= calls[i].now
    requires forall i | 0 <= i < |calls| :: calls[i].now <= later
    requires Final(Decide(AfterCalls(NewRound(cohorts, timeout), calls[..n]), now))
    ensures Decide(AfterCalls(NewRound(cohorts, timeout), calls), later)
         == Decide(AfterCalls(NewRound(cohorts, timeout), calls[..n]), now)
    decreases |calls|
  {
    var start := NewRound(cohorts, timeout);
    if n == |calls| {
      assert calls[..n] == calls;
      TimeKeepsDecision(AfterCalls(start, calls), now, later);
    } else {
      var last := |calls| - 1;
      var call := calls[last];
      var prefix := calls[..last];
      assert prefix[..n] == calls[..n];
      PrefixIsFit(start, calls, last);
      DecisionIsStable(cohorts, timeout, prefix, n, now, call.now);
      LastCallKeepsDecision(start, calls);
      TimeKeepsDecision(AfterCalls(start, calls), call.now, later);
    }
  }
}
