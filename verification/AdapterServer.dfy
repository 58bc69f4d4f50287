/** The adapter between the C++ servers and the contract. */
module AdapterServer {
  import opened Common
  import opened TwoPhaseCommitContract
  import Base3
  import Voting

  /** The contract's number for a ballot. */
  function BallotCode(ballot: Ballot): nat {
    if ballot == CommitBallot then 1 else if ballot == AbortBallot then 2 else 0
  }

  /** The adapter's numbers are the digits that the contract stores. */
  lemma BallotCodeIsTheDigit(ballot: Ballot)
    ensures BallotCode(ballot) == Base3.Code(ballot) && Base3.FromCode(BallotCode(ballot)) == ballot
    ensures BallotCode(NoBallot) == 0 && BallotCode(CommitBallot) == 1 && BallotCode(AbortBallot) == 2
  {
  }

  /** Reads the first character as the option and drops two characters. */
  function DecodeDecision(answer: string): VotingDecision {
    var option := if answer == [] then UnknownDecision
                  else if answer[0] == '1' then PendingDecision
                  else if answer[0] == '2' then CommitDecision
                  else if answer[0] == '3' then AbortDecision
                  else UnknownDecision;
    VotingDecision(option, if |answer| < 2 then "" else answer[2..])
  }

  /** Decoding recovers option and reason, whatever the reason text is. */
  lemma DecodeInvertsSerialize(decision: VotingDecision)
    ensures DecodeDecision(Serialize(decision)) == decision
  {
    var answer := Serialize(decision);
    assert answer[2..] == decision.reason;
  }

  /** Only the three digits of the contract decode to a known option. */
  lemma OnlyDigitsDecode(answer: string)
    ensures DecodeDecision(answer).option != UnknownDecision <==>
              |answer| > 0 && (answer[0] == '1' || answer[0] == '2' || answer[0] == '3')
  {
  }

  /** So what a server sees is the decision rule applied to the stored ballots. */
  lemma ServersSeeTheDecision(round: Voting.Round, now: nat)
    ensures DecodeDecision(Serialize(Explain(round, now))).option == Voting.Decide(round, now)
  {
    DecodeInvertsSerialize(Explain(round, now));
  }
}
