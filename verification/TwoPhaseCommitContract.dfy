/** The voting contract as it is stored and computed: two mappings, ballots
    packed into a 256-bit word, arithmetic that wraps. */
module TwoPhaseCommitContract {
  import opened Common
  import opened Base3
  import Voting

  type uint32 = x: int | 0 <= x < 0x1_0000_0000
  type uint256 = x: int | 0 <= x < UINT256

  /** 256-bit arithmetic wraps around. */
  function Wrap(x: int): uint256 {
    x % UINT256
  }

  /** Words have 256 bits: below zero and above they wrap. */
  lemma WordsWrap()
    ensures UINT256 == 0x10000_0000_0000_0000_0000_0000_0000_0000_0000_0000_0000_0000_0000_0000_0000_0000
    ensures Wrap(-1) == UINT256 - 1 && Wrap(UINT256) == 0 && Wrap(UINT256 - 1) == UINT256 - 1
  {
  }

  lemma SmallStays(x: int)
    requires 0 <= x < UINT256
    ensures Wrap(x) == x
  {
  }

  function Base(cohort: uint32): uint256 {
    Wrap(Pow3(cohort))
  }

  lemma BaseIsExact(cohort: uint32)
    requires cohort <= 120
    ensures Base(cohort) == Pow3(cohort) && Base(cohort) > 0
  {
    PowersFit(cohort);
  }

  function GetCohortBallot(encoded: uint256, cohort: uint32): Ballot
    requires Base(cohort) > 0
  {
    FromCode((encoded / Base(cohort)) % 3)
  }

  /** Takes one amount out of the word and puts another one in. */
  function Replace(encoded: uint256, out: uint256, put: uint256): uint256 {
    Wrap(Wrap(encoded - out) + put)
  }

  function GetNewCohortBallot(encoded: uint256, cohort: uint32, ballot: Ballot): uint256
    requires Base(cohort) > 0
  {
    var original := GetCohortBallot(encoded, cohort);
    Replace(encoded, Wrap(Code(original) * Base(cohort)), Wrap(Code(ballot) * Base(cohort)))
  }

  /** Clearing and setting, on exact numbers, when both digits fit. */
  lemma NothingWraps(encoded: uint256, out: nat, put: nat)
    requires out <= encoded && put < UINT256 && encoded - out + put < UINT256
    ensures Wrap(out) == out && Wrap(put) == put && Replace(encoded, out, put) == encoded - out + put
  {
    SmallStays(out);
    SmallStays(put);
    SmallStays(encoded - out);
    SmallStays(encoded - out + put);
  }

  lemma ReadsEntry(encoded: uint256, n: nat, cohort: uint32)
    requires cohort < n <= 120
    ensures Base(cohort) > 0 && GetCohortBallot(encoded, cohort) == Ballots(encoded, n)[cohort]
  {
    BaseIsExact(cohort);
    DigitIsBallot(encoded, n, cohort);
  }

  /** Both digits fit below the word they are taken from and added to. */
  lemma DigitsFit(encoded: uint256, n: nat, cohort: uint32, ballot: Ballot, out: nat, put: nat)
    requires cohort < n <= 120 && encoded < Pow3(n)
    requires out == Code(Ballots(encoded, n)[cohort]) * Pow3(cohort) && put == Code(ballot) * Pow3(cohort)
    ensures out <= encoded && put < UINT256 && encoded - out + put < UINT256
    ensures encoded - out + put == Encode(Ballots(encoded, n)[cohort := ballot])
  {
    var before := Ballots(encoded, n);
    var after := before[cohort := ballot];
    EncodeDecode(encoded, n);
    EncodeUpdate(before, cohort, ballot);
    EncodeBound(after);
    DigitBound(before, cohort);
    DigitBound(after, cohort);
    PowersFit(n);
  }

  lemma NewWord(encoded: uint256, n: nat, cohort: uint32, ballot: Ballot)
    requires cohort < n <= 120 && encoded < Pow3(n)
    requires Base(cohort) > 0 && GetCohortBallot(encoded, cohort) == Ballots(encoded, n)[cohort]
    ensures GetNewCohortBallot(encoded, cohort, ballot) == Encode(Ballots(encoded, n)[cohort := ballot])
  {
    BaseIsExact(cohort);
    var original := Ballots(encoded, n)[cohort];
    var out, put := Code(original) * Base(cohort), Code(ballot) * Base(cohort);
    DigitsFit(encoded, n, cohort, ballot, out, put);
    NothingWraps(encoded, out, put);
    assert GetNewCohortBallot(encoded, cohort, ballot) == Replace(encoded, out, put);
  }

  /** With at most 120 cohorts nothing wraps: clearing and setting the digit
      rewrites entry `cohort` of the ballot array, no other, and the word stays
      in range. */
  lemma WordRefinesArray(encoded: uint256, n: nat, cohort: uint32, ballot: Ballot)
    requires cohort < n <= 120 && encoded < Pow3(n)
    ensures Base(cohort) > 0
    ensures GetCohortBallot(encoded, cohort) == Ballots(encoded, n)[cohort]
    ensures Ballots(GetNewCohortBallot(encoded, cohort, ballot), n) == Ballots(encoded, n)[cohort := ballot]
    ensures GetNewCohortBallot(encoded, cohort, ballot) < Pow3(n)
  {
    ReadsEntry(encoded, n, cohort);
    NewWord(encoded, n, cohort, ballot);
    EncodeBound(Ballots(encoded, n)[cohort := ballot]);
    DecodeEncode(Ballots(encoded, n)[cohort := ballot]);
  }

  lemma ZeroIsNoBallots(n: nat)
    ensures Ballots(0, n) == seq(n, _ => NoBallot)
    decreases n
  {
    if n > 0 {
      ZeroIsNoBallots(n - 1);
    }
  }

  datatype VotingDecision = VotingDecision(option: Decision, reason: string)

  function Serialize(decision: VotingDecision): string {
    var option := match decision.option
                  case PendingDecision => "1:"
                  case CommitDecision => "2:"
                  case AbortDecision => "3:"
                  case UnknownDecision => "?:";
    option + decision.reason
  }

  /** The reason text that goes with a decision. */
  function Explain(round: Voting.Round, now: nat): VotingDecision {
    var d := Voting.Decide(round, now);
    VotingDecision(d,
      if Voting.SomeAbort(round) then "Cohort voted to abort."
      else if Voting.AllCommit(round) then "Sufficient vote collected before timeout."
      else if now >= round.timeout then "Insufficient vote after timeout."
      else "Insufficient vote before timeout.")
  }

  /** The four decisions with their reasons. */
  lemma ReasonsAre(round: Voting.Round, now: nat)
    ensures Explain(round, now) ==
            if exists i :: 0 <= i < |round.ballots| && round.ballots[i] == AbortBallot
            then VotingDecision(AbortDecision, "Cohort voted to abort.")
            else if forall i | 0 <= i < |round.ballots| :: round.ballots[i] == CommitBallot
            then VotingDecision(CommitDecision, "Sufficient vote collected before timeout.")
            else if now >= round.timeout then VotingDecision(AbortDecision, "Insufficient vote after timeout.")
            else VotingDecision(PendingDecision, "Insufficient vote before timeout.")
  {
    assert Voting.SomeAbort(round) <==> exists i :: 0 <= i < |round.ballots| && round.ballots[i] == AbortBallot;
  }

  /** The answer string: a digit, a colon, the reason. */
  lemma AnswerIs(decision: VotingDecision)
    ensures |Serialize(decision)| == 2 + |decision.reason| && Serialize(decision)[2..] == decision.reason
    ensures Serialize(decision)[1] == ':'
    ensures Serialize(decision)[0] == match decision.option
                                      case PendingDecision => '1'
                                      case CommitDecision => '2'
                                      case AbortDecision => '3'
                                      case UnknownDecision => '?'
  {
  }

  datatype TransactionConfig = TransactionConfig(cohorts: uint32, voteTimeoutTime: uint256)

  /** A mapping reads as zero where nothing was stored. */
  function ConfigOf(configs: map<TxnId, TransactionConfig>, id: TxnId): TransactionConfig {
    if id in configs then configs[id] else TransactionConfig(0, 0)
  }

  function WordOf(states: map<TxnId, uint256>, id: TxnId): uint256 {
    if id in states then states[id] else 0
  }

  ghost predicate ValidStorage(states: map<TxnId, uint256>, configs: map<TxnId, TransactionConfig>) {
    && states.Keys == configs.Keys
    && forall id | id in configs ::
         && 0 < configs[id].cohorts <= 120
         && states[id] < Pow3(configs[id].cohorts)
  }

  /** The rounds that the two mappings stand for. */
  ghost function RoundsOf(states: map<TxnId, uint256>, configs: map<TxnId, TransactionConfig>): Voting.Rounds
    requires ValidStorage(states, configs)
  {
    map id | id in configs ::
      Voting.Round(configs[id].voteTimeoutTime, Ballots(states[id], configs[id].cohorts))
  }

  /** Storing a new word of one transaction casts one ballot in its round. */
  lemma VoteInStorage(states: map<TxnId, uint256>, configs: map<TxnId, TransactionConfig>, id: TxnId, cohort: uint32,
                      ballot: Ballot)
    requires ValidStorage(states, configs) && id in configs && cohort < configs[id].cohorts
    ensures Base(cohort) > 0
    ensures var after := states[id := GetNewCohortBallot(states[id], cohort, ballot)];
            && ValidStorage(after, configs)
            && var rounds := RoundsOf(states, configs);
               RoundsOf(after, configs) == rounds[id := Voting.Cast(rounds[id], cohort, ballot)]
  {
    WordRefinesArray(states[id], configs[id].cohorts, cohort, ballot);
    var after := states[id := GetNewCohortBallot(states[id], cohort, ballot)];
    assert after.Keys == states.Keys;
  }

  class TwoPhaseCommit {
    var states: map<TxnId, uint256>
    var configs: map<TxnId, TransactionConfig>

    ghost predicate Valid()
      reads this
    {
      ValidStorage(states, configs)
    }

    ghost function Rounds(): Voting.Rounds
      reads this
      requires Valid()
    {
      RoundsOf(states, configs)
    }

    constructor ()
      ensures Valid() && Rounds() == map[]
    {
      states, configs := map[], map[];
    }

    method StartVoting(now: uint256, id: TxnId, cohorts: uint32, timeout: uint256) returns (accepted: bool)
      requires Valid()
      modifies this
      ensures Valid()
      ensures accepted <==> 0 < cohorts <= 120 && now < timeout
      ensures accepted ==>
                && id in Rounds() && Rounds()[id].timeout == timeout && |Rounds()[id].ballots| == cohorts
                && forall i | 0 <= i < cohorts :: Rounds()[id].ballots[i] == NoBallot
      ensures forall other | other != id || !accepted ::
                && (other in Rounds() <==> other in old(Rounds()))
                && (other in Rounds() ==> Rounds()[other] == old(Rounds())[other])
      ensures Rounds() == Voting.StartVoting(old(Rounds()), now, id, cohorts, timeout)
    {
      if !(cohorts > 0) || !(cohorts <= 120) || !(now < timeout) {
        return false;
      }
      configs := configs[id := TransactionConfig(cohorts, timeout)];
      states := states[id := 0];
      ZeroIsNoBallots(cohorts);
      assert Rounds() == old(Rounds())[id := Voting.NewRound(cohorts, timeout)];
      return true;
    }

    method Vote(now: uint256, id: TxnId, cohort: uint32, ballot: Ballot) returns (accepted: bool)
      requires Valid()
      modifies this`states
      ensures Valid()
      ensures accepted <==>
                && id in old(Rounds()) && now < old(Rounds())[id].timeout
                && cohort < |old(Rounds())[id].ballots| && ballot != NoBallot
      ensures accepted ==>
                && Rounds().Keys == old(Rounds()).Keys
                && Rounds()[id].timeout == old(Rounds())[id].timeout
                && Rounds()[id].ballots == old(Rounds())[id].ballots[cohort := ballot]
                && forall other | other in Rounds() && other != id :: Rounds()[other] == old(Rounds())[other]
      ensures !accepted ==> Rounds() == old(Rounds())
      ensures Rounds() == Voting.Vote(old(Rounds()), now, id, cohort, ballot)
    {
      if !(now < ConfigOf(configs, id).voteTimeoutTime)
         || !(ConfigOf(configs, id).cohorts > cohort)
         || !(ballot != NoBallot)
      {
        return false;
      }
      VoteInStorage(states, configs, id, cohort, ballot);
      states := states[id := GetNewCohortBallot(WordOf(states, id), cohort, ballot)];
      return true;
    }

    /** The early-exit tally computes the declarative rule; a call about an
        unknown transaction reverts. */
    method GetVotingDecision(now: uint256, id: TxnId) returns (answer: Option<string>)
      requires Valid()
      ensures answer.None? <==> id !in Rounds()
      ensures answer.Some? ==> answer.value == Serialize(Explain(Rounds()[id], now))
    {
      if !(ConfigOf(configs, id).cohorts > 0) {
        return None;
      }
      var cohorts := ConfigOf(configs, id).cohorts;
      var votes: int := 0;
      ghost var round := Rounds()[id];
      for i := 0 to cohorts
        invariant 0 <= votes <= i
        invariant forall j | 0 <= j < i :: round.ballots[j] != AbortBallot
        invariant votes == i <==> forall j | 0 <= j < i :: round.ballots[j] == CommitBallot
      {
        WordRefinesArray(states[id], cohorts, i, NoBallot);
        if GetCohortBallot(WordOf(states, id), i) == CommitBallot {
          votes := votes + 1;
        }
        if GetCohortBallot(WordOf(states, id), i) == AbortBallot {
          return Some(Serialize(VotingDecision(AbortDecision, "Cohort voted to abort.")));
        }
      }
      if cohorts == votes {
        return Some(Serialize(VotingDecision(CommitDecision, "Sufficient vote collected before timeout.")));
      }
      if now >= ConfigOf(configs, id).voteTimeoutTime {
        return Some(Serialize(VotingDecision(AbortDecision, "Insufficient vote after timeout.")));
      }
      return Some(Serialize(VotingDecision(PendingDecision, "Insufficient vote before timeout.")));
    }
  }
}
