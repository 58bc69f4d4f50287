/** The composed system: the coordinator, every cohort, the voting contract, the
    network between them and a clock, as one step machine. */
module System {
  import opened Common
  import opened Semantics
  import opened Voting
  import opened CoordinatorProtocol
  import C = CohortProtocol

  type Cohort = C.Cohort

  /** A ballot that was cast. The network may deliver it late, more than once or
      never. */
  datatype BallotMsg = BallotMsg(id: TxnId, index: nat, ballot: Ballot)

  /** `prepares` are the prepare requests sent for an id, and `txns` the client's
      operations they were split from. `order` and `genesis` only record history:
      the transactions in the order in which their commit was decided, and the
      first combined store. */
  datatype State = State(
    cohorts: map<Address, Cohort>, rounds: Rounds, now: nat, ballots: set<BallotMsg>, coord: Coord,
    prepares: map<TxnId, seq<Prepare>>, txns: map<TxnId, seq<Op>>, order: seq<TxnId>, genesis: GStore)

  /** `Submit` is CommitAtomicTransaction: `executed` says whether the contract
      ran the call that starts voting, `votingOk` what was reported. `Ask` is
      GetTransactionResult, reaching some of the cohorts. */
  datatype SysStep =
    | Tick(now: nat)
    | Submit(id: TxnId, ops: seq<Op>, subs: seq<SubTransaction>, asked: Option<Timestamp>, clock: int,
             dflt: int, executed: bool, votingOk: bool)
    | Local(a: Address, step: C.Step)
    | Deliver(msg: BallotMsg)
    | Ask(id: TxnId, decisionRead: bool, reached: set<Address>)

  ghost predicate Initial(s: State) {
    && (forall a | a in s.cohorts :: s.cohorts[a] == C.Fresh(s.cohorts[a].kind, Slice(s.genesis, a)))
    && (forall p | p in s.genesis :: p.0 in s.cohorts)
    && s.rounds == map[] && s.ballots == {} && s.coord == Coord(map[], map[])
    && s.prepares == map[] && s.txns == map[] && s.order == []
  }

  function Submission(s: State, step: SysStep): CommitOutcome
    requires step.Submit?
  {
    Commit(s.coord, step.id, step.subs, step.asked, step.clock, step.dflt, step.votingOk)
  }

  predicate StartAccepted(now: nat, call: VotingCall) {
    call.timeout >= 0 && AcceptsStart(now, call.cohorts, call.timeout)
  }

  /** Request `i` of transaction `t` is addressed to `a`. */
  predicate Participant(s: State, t: TxnId, i: int, a: Address) {
    t in s.prepares && 0 <= i < |s.prepares[t]| && s.prepares[t][i].address == a
  }

  ghost predicate LocalAllowed(s: State, a: Address, step: C.Step) {
    match step
    case Receive(req) => exists i :: Participant(s, req.id, i, a) && s.prepares[req.id][i].req == req
    case LearnCommit(id) => id in s.rounds && Decide(s.rounds[id], s.now) == CommitDecision
    case LearnAbort(id, _) => id in s.rounds && Decide(s.rounds[id], s.now) == AbortDecision
    case _ => true
  }

  /** A client does not submit an id again once its reply is complete. */
  ghost predicate Disciplined(s: State, step: SysStep) {
    step.Submit? ==> !Complete(s.coord, step.id)
  }

  ghost predicate Enabled(s: State, step: SysStep) {
    match step
    case Tick(now) => s.now <= now
    case Submit(id, ops, subs, _, _, _, executed, votingOk) =>
      && IsSplit(ops, subs)
      && (votingOk && Submission(s, step).voting.Some? ==>
            executed && StartAccepted(s.now, Submission(s, step).voting.value))
    case Local(a, local) => a in s.cohorts && C.Enabled(s.cohorts[a], local) && LocalAllowed(s, a, local)
    case Deliver(msg) => msg in s.ballots
    case Ask(_, _, _) => true
  }

  /** The ballot that a cohort step casts. */
  function Emits(c: Cohort, step: C.Step): set<BallotMsg> {
    match step
    case Promise(id) => if id in c.live then {BallotMsg(id, c.live[id].req.index, CommitBallot)} else {}
    case Refuse(id, _) => if id in c.live then {BallotMsg(id, c.live[id].req.index, AbortBallot)} else {}
    case _ => {}
  }

  /** A transaction alone at one cohort is decided by its database commit. */
  predicate DecidesAlone(c: Cohort, step: C.Step) {
    step.Apply? && step.id in c.live && c.live[step.id].req.onlyCohort
  }

  predicate Carried(rounds: Rounds, t: TxnId) {
    t in rounds && AllCommit(rounds[t])
  }

  function Answers(s: State, id: TxnId, reached: set<Address>): map<Address, Reply> {
    map a | a in reached && a in s.cohorts :: C.Published(s.cohorts[a], id)
  }

  function ReadDecision(s: State, id: TxnId, read: bool): Option<Decision> {
    if read && id in s.rounds then Some(Decide(s.rounds[id], s.now)) else None
  }

  /** The coordinator's call about `id` had outcome `out`. */
  ghost function AfterSubmit(s: State, id: TxnId, ops: seq<Op>, executed: bool, out: CommitOutcome): State {
    var s := s.(coord := out.coord,
                rounds := if out.voting.Some? && executed && out.voting.value.timeout >= 0
                          then StartVoting(s.rounds, s.now, id, out.voting.value.cohorts, out.voting.value.timeout)
                          else s.rounds);
    if out.prepares == [] then s
    else s.(prepares := s.prepares[id := out.prepares], txns := s.txns[id := ops])
  }

  ghost function Next(s: State, step: SysStep): State
    requires Enabled(s, step)
  {
    match step
    case Tick(now) => s.(now := now)
    case Submit(id, ops, _, _, _, _, executed, _) =>
      AfterSubmit(s, id, ops, executed, Submission(s, step))
    case Local(a, local) =>
      var c := s.cohorts[a];
      s.(cohorts := s.cohorts[a := C.Next(c, local)],
         ballots := s.ballots + Emits(c, local),
         order := if DecidesAlone(c, local) then s.order + [local.id] else s.order)
    case Deliver(msg) =>
      var rounds := Vote(s.rounds, s.now, msg.id, msg.index, msg.ballot);
      s.(rounds := rounds,
         order := if Carried(rounds, msg.id) && !Carried(s.rounds, msg.id) then s.order + [msg.id] else s.order)
    case Ask(id, decisionRead, reached) =>
      s.(coord := Poll(s.coord, id, ReadDecision(s, id, decisionRead), Answers(s, id, reached)).coord)
  }

  /** Step `i` of a run is enabled, keeps the discipline and leads on. */
  ghost predicate Taken(run: seq<State>, steps: seq<SysStep>, i: nat)
    requires |run| == |steps| + 1 && i < |steps|
  {
    Enabled(run[i], steps[i]) && Disciplined(run[i], steps[i]) && run[i + 1] == Next(run[i], steps[i])
  }

  /** What each step keeps from i on is kept from i to j. */
  lemma {:induction false} Along(run: seq<State>, i: nat, j: nat, p: State -> bool)
    requires i <= j < |run| && p(run[i])
    requires forall k | i <= k < j :: p(run[k]) ==> p(run[k + 1])
    ensures p(run[j])
  {
    if i < j {
      Along(run, i, j - 1, p);
      assert p(run[j - 1]) ==> p(run[j - 1 + 1]);
    }
  }

  /** A run from an initial state, taking one enabled step after the other. */
  ghost predicate IsRun(run: seq<State>, steps: seq<SysStep>) {
    && |run| == |steps| + 1
    && Initial(run[0])
    && forall i | 0 <= i < |steps| :: Taken(run, steps, i)
  }
}
