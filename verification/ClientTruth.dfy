/** What the client is told is true. */
module ClientTruth {
  import opened Common
  import opened Semantics
  import opened Voting
  import opened CoordinatorProtocol
  import opened System
  import opened SystemSafety
  import opened Serializability
  import C = CohortProtocol
  import P = CohortProofs

  // ----- invariants -----

  /** The commit replies that the cohorts have published for a transaction. */
  function Finals(s: State, t: TxnId): map<Address, seq<GetResponse>> {
    map a | a in s.cohorts && t in s.cohorts[a].final && s.cohorts[a].final[t].Committed? ::
      s.cohorts[a].final[t].results
  }

  function Participants(s: State, t: TxnId): set<Address> {
    if t in s.prepares then set i | 0 <= i < |s.prepares[t]| :: s.prepares[t][i].address else {}
  }

  /** The transaction can never commit any more. */
  ghost predicate Doomed(s: State, t: TxnId)
    requires t in s.prepares
  {
    && s.prepares[t] != []
    && if |s.prepares[t]| > 1 then t in s.rounds && Decide(s.rounds[t], s.now) == AbortDecision
       else s.prepares[t][0].address in s.cohorts && t in s.cohorts[s.prepares[t][0].address].dropped
  }

  /** A complete reply says aborted of a doomed transaction, or committed with
      each participant's published results exactly once. */
  ghost predicate Told(s: State, t: TxnId) {
    Complete(s.coord, t) ==>
      && t !in s.coord.metadata
      && match StoredOf(s.coord, t).response
         case AbortedResponse(_, _) => t !in s.prepares || Doomed(s, t)
         case CommittedResponse(complete, results) =>
           complete && t in s.prepares && Holds(results, Participants(s, t), Finals(s, t))
         case _ => false
  }

  /** A submission that sent nothing yet left an empty record. */
  ghost predicate NotSentYet(s: State, t: TxnId) {
    && StoredOf(s.coord, t).response == Unset
    && MetaOf(s.coord, t).namespaces == [] && MetaOf(s.coord, t).single.None?
    && MetaOf(s.coord, t).responded == {}
    && MetaOf(s.coord, t).decision in {UnknownDecision, PendingDecision}
  }

  ghost predicate SameAddresses(namespaces: seq<Namespace>, ps: seq<Prepare>) {
    && |namespaces| == |ps|
    && forall i | 0 <= i < |ps| :: namespaces[i].address == ps[i].address
  }

  /** The coordinator's record of a transaction that was sent. */
  ghost predicate Following(s: State, t: TxnId)
    requires t in s.prepares
  {
    && t in s.coord.metadata
    && var meta, response := s.coord.metadata[t], StoredOf(s.coord, t).response;
       && SameAddresses(meta.namespaces, s.prepares[t])
       && if |s.prepares[t]| == 1 then
            && meta.single.Some? && meta.single.value.address == s.prepares[t][0].address
            && response in {Unset, PendingResponse}
          else
            && meta.single.None? && meta.decision != AbortDecision
            && (meta.decision == CommitDecision ==> Carried(s.rounds, t))
            && meta.responded <= Participants(s, t)
            && Gathered(response, meta.responded, Finals(s, t))
  }

  ghost predicate Tracked(s: State, t: TxnId) {
    !Complete(s.coord, t) ==> if t in s.prepares then Following(s, t) else NotSentYet(s, t)
  }

  ghost predicate Honest(s: State) {
    forall t :: Told(s, t) && Tracked(s, t)
  }

  // ----- facts -----

  lemma {:induction false} ResultsForTagged(results: seq<GetResponse>, a: Address)
    ensures Tagged(ResultsFor(results, a), a)
  {
    if results != [] {
      ResultsForTagged(results[..|results| - 1], a);
    }
  }

  /** What a cohort publishes is tagged with its own address. */
  lemma FinalsAreTagged(s: State, t: TxnId, a: Address)
    requires Safe(s) && Serialized(s) && a in Finals(s, t)
    ensures Tagged(Finals(s, t)[a], a)
    ensures t in s.order && Finals(s, t)[a] == ResultsAt(s.cohorts[a], t)
  {
    At(s, a, t);
    OnlyDecidedApplied(s, a, t);
    var n :| 0 <= n < |s.order| && s.order[n] == t;
    assert EntryOk(s, n);
    ResultsForTagged(GRun(KindsOf(s), SerialOf(s, n).value, OpsOf(s.txns, t)).results, a);
  }

  lemma AnswersAreConsistent(s: State, t: TxnId, reached: set<Address>)
    requires Safe(s) && Serialized(s)
    ensures Consistent(Answers(s, t, reached), Finals(s, t))
  {
    var answers := Answers(s, t, reached);
    forall a | a in answers && answers[a].Committed?
      ensures a in Finals(s, t) && Finals(s, t)[a] == answers[a].results && Tagged(Finals(s, t)[a], a)
    {
      FinalsAreTagged(s, t, a);
    }
  }

  // ----- steps that leave the coordinator alone -----

  ghost predicate FinalsGrow(f: map<Address, seq<GetResponse>>, f': map<Address, seq<GetResponse>>) {
    forall a | a in f :: a in f' && f'[a] == f[a]
  }

  lemma HoldsGrows(results: seq<GetResponse>, responded: set<Address>,
                   f: map<Address, seq<GetResponse>>, f': map<Address, seq<GetResponse>>)
    requires Holds(results, responded, f) && FinalsGrow(f, f')
    ensures Holds(results, responded, f')
  {
    forall a ensures HoldsAt(results, responded, f', a) {
      assert HoldsAt(results, responded, f, a);
    }
  }

  /** Outcomes only become firmer. */
  ghost predicate Firmer(s: State, n: State, t: TxnId) {
    && (t in n.coord.metadata <==> t in s.coord.metadata) && MetaOf(n.coord, t) == MetaOf(s.coord, t)
    && StoredOf(n.coord, t) == StoredOf(s.coord, t)
    && (t in n.prepares <==> t in s.prepares) && (t in s.prepares ==> n.prepares[t] == s.prepares[t])
    && FinalsGrow(Finals(s, t), Finals(n, t))
    && (t in s.prepares && Doomed(s, t) ==> Doomed(n, t))
    && (Carried(s.rounds, t) ==> Carried(n.rounds, t))
  }

  lemma FirmerHonest(s: State, n: State, t: TxnId)
    requires Told(s, t) && Tracked(s, t) && Firmer(s, n, t)
    ensures Told(n, t) && Tracked(n, t)
  {
    var response := StoredOf(s.coord, t).response;
    if Complete(s.coord, t) {
      if response.CommittedResponse? {
        HoldsGrows(response.results, Participants(s, t), Finals(s, t), Finals(n, t));
      }
    } else if t in s.prepares && |s.prepares[t]| > 1 {
      var responded := s.coord.metadata[t].responded;
      if responded != {} {
        HoldsGrows(response.results, responded, Finals(s, t), Finals(n, t));
      }
    }
  }

  lemma LocalFinals(c: Cohort, step: C.Step, t: TxnId)
    requires C.Inv(c) && C.Enabled(c, step)
    ensures t in c.final ==> t in C.Next(c, step).final && C.Next(c, step).final[t] == c.final[t]
    ensures t in c.dropped ==> t in C.Next(c, step).dropped
  {
    if t in c.final {
      P.AnswerStays(c, step, t);
    } else if t != C.IdOf(step) {
      P.OthersSame(c, step, t);
    }
  }

  lemma CohortFirmer(s: State, n: State, a: Address, d: Cohort, t: TxnId)
    requires a in s.cohorts && n.cohorts == s.cohorts[a := d]
    requires n.coord == s.coord && n.prepares == s.prepares && n.rounds == s.rounds && n.now == s.now
    requires t in s.cohorts[a].final ==> t in d.final && d.final[t] == s.cohorts[a].final[t]
    requires t in s.cohorts[a].dropped ==> t in d.dropped
    ensures Firmer(s, n, t)
  {
    forall b | b in Finals(s, t) ensures b in Finals(n, t) && Finals(n, t)[b] == Finals(s, t)[b] {
    }
  }

  lemma LocalFirmer(s: State, a: Address, step: C.Step, t: TxnId)
    requires CohortsOk(s) && Enabled(s, Local(a, step))
    ensures Firmer(s, Next(s, Local(a, step)), t)
  {
    assert CohortOk(s, a);
    LocalFinals(s.cohorts[a], step, t);
    CohortFirmer(s, Next(s, Local(a, step)), a, C.Next(s.cohorts[a], step), t);
  }

  lemma TickFirmer(s: State, now: nat, t: TxnId)
    requires Enabled(s, Tick(now))
    ensures Firmer(s, Next(s, Tick(now)), t)
  {
    if t in s.rounds && Final(Decide(s.rounds[t], s.now)) {
      TimeKeepsDecision(s.rounds[t], s.now, now);
    }
  }

  lemma DeliverFirmer(s: State, msg: BallotMsg, t: TxnId)
    requires Safe(s) && Enabled(s, Deliver(msg))
    ensures Firmer(s, Next(s, Deliver(msg)), t)
  {
    var n := Next(s, Deliver(msg));
    assert RoundOk(s, t);
    DeliverRound(s, msg, t);
    if t in s.rounds {
      CommitIsAllCommit(s.rounds[t], s.now);
      if Final(Decide(s.rounds[t], s.now)) {
        DeliverKeepsDecision(s, msg, t);
        CommitIsAllCommit(n.rounds[t], n.now);
      }
    }
  }

  // ----- submission -----

  lemma SameFinals(s: State, n: State, t: TxnId)
    requires n.cohorts == s.cohorts
    ensures Finals(n, t) == Finals(s, t)
  {
  }

  /** A transaction that a step does not concern. */
  lemma Untouched(s: State, n: State, t: TxnId)
    requires n.cohorts == s.cohorts && n.now == s.now
    requires (t in n.prepares <==> t in s.prepares) && (t in s.prepares ==> n.prepares[t] == s.prepares[t])
    requires (t in n.rounds <==> t in s.rounds) && (t in s.rounds ==> n.rounds[t] == s.rounds[t])
    requires SameRecord(s.coord, n.coord, t)
    ensures Firmer(s, n, t)
  {
    SameFinals(s, n, t);
  }

  /** Submitting again what was sent changes nothing. */
  lemma SubmitAgain(s: State, n: State, step: SysStep, out: CommitOutcome)
    requires Submitted(s, n, step, out) && step.id in s.prepares && step.id in s.coord.metadata
    requires MetaOf(s.coord, step.id).sent
    ensures Firmer(s, n, step.id)
  {
    Untouched(s, n, step.id);
  }

  /** A submission that does not get as far as sending leaves an empty record. */
  lemma SubmitInVain(s: State, n: State, step: SysStep, out: CommitOutcome)
    requires Submitted(s, n, step, out) && step.id !in s.prepares && !Complete(s.coord, step.id)
    requires NotSentYet(s, step.id) && out.prepares == []
    ensures Told(n, step.id) && Tracked(n, step.id)
  {
  }

  lemma SubmitSends(s: State, n: State, step: SysStep, out: CommitOutcome)
    requires Submitted(s, n, step, out) && step.id !in s.prepares && !Complete(s.coord, step.id)
    requires NotSentYet(s, step.id) && out.prepares != []
    ensures Told(n, step.id) && Tracked(n, step.id)
  {
    var t := step.id;
    assert n.coord.metadata[t].namespaces == NamespacesOf(step.subs);
    assert SameAddresses(n.coord.metadata[t].namespaces, n.prepares[t]);
  }

  lemma SubmittedHonest(s: State, n: State, step: SysStep, out: CommitOutcome, t: TxnId)
    requires Safe(s) && Told(s, t) && Tracked(s, t) && Submitted(s, n, step, out) && Disciplined(s, step)
    ensures Told(n, t) && Tracked(n, t)
  {
    if t != step.id {
      assert SameRecord(s.coord, out.coord, t);
      SubmitOtherNetwork(s, n, step, out, t);
      Untouched(s, n, t);
      FirmerHonest(s, n, t);
    } else if t in s.prepares {
      assert FlagOk(s, t);
      SubmitAgain(s, n, step, out);
      FirmerHonest(s, n, t);
    } else if out.prepares == [] {
      SubmitInVain(s, n, step, out);
    } else {
      SubmitSends(s, n, step, out);
    }
  }

  lemma SubmitHonest(s: State, step: SysStep, t: TxnId)
    requires Safe(s) && Told(s, t) && Tracked(s, t) && step.Submit? && Enabled(s, step) && Disciplined(s, step)
    ensures Told(Next(s, step), t) && Tracked(Next(s, step), t)
  {
    SubmitEffect(s, step);
    SubmittedHonest(s, Next(s, step), step, Submission(s, step), t);
  }

  // ----- polls -----

  lemma AskOther(s: State, id: TxnId, read: bool, reached: set<Address>, t: TxnId)
    requires t != id
    ensures var m := Poll(s.coord, id, ReadDecision(s, id, read), Answers(s, id, reached)).coord;
            SameRecord(s.coord, m, t)
  {
    CallConcerns(s.coord, PollCall(id, ReadDecision(s, id, read), Answers(s, id, reached)), t);
  }

  /** A poll about a complete transaction returns it. */
  lemma AskComplete(s: State, id: TxnId, read: bool, reached: set<Address>)
    requires Complete(s.coord, id)
    ensures var m := Poll(s.coord, id, ReadDecision(s, id, read), Answers(s, id, reached)).coord;
            && m.metadata == s.coord.metadata && StoredOf(m, id) == StoredOf(s.coord, id)
  {
  }

  lemma AskUnsent(s: State, id: TxnId, read: bool, reached: set<Address>)
    requires Safe(s) && id !in s.prepares && NotSentYet(s, id) && !Complete(s.coord, id)
    ensures var n := Next(s, Ask(id, read, reached));
            Told(n, id) && Tracked(n, id)
  {
    if id in s.rounds {
      assert RoundOk(s, id);
      CommitIsAllCommit(s.rounds[id], s.now);
      var first := BallotMsg(id, 0, CommitBallot);
      assert BallotOk(s, first);
      assert !Carried(s.rounds, id) by {
        if Carried(s.rounds, id) {
          CarriedIsShared(s, id);
        }
      }
    }
  }

  /** The only participant's answer, where there is one. */
  lemma SingleAnswer(s: State, id: TxnId, a: Address)
    requires Safe(s) && Serialized(s) && a in s.cohorts
    ensures C.Published(s.cohorts[a], id).Aborted? ==> id in s.cohorts[a].dropped
    ensures C.Published(s.cohorts[a], id).Committed? ==>
              Holds(C.Published(s.cohorts[a], id).results, {a}, Finals(s, id))
  {
    At(s, a, id);
    if a in Finals(s, id) {
      FinalsAreTagged(s, id, a);
      SingleHolds(Finals(s, id), a);
    }
  }

  lemma AskSingle(s: State, id: TxnId, read: bool, reached: set<Address>)
    requires Safe(s) && Serialized(s) && id in s.prepares && |s.prepares[id]| == 1
    requires Following(s, id) && !Complete(s.coord, id)
    ensures var n := Next(s, Ask(id, read, reached));
            Told(n, id) && Tracked(n, id)
  {
    var a := s.prepares[id][0].address;
    PollAlone(s.coord, id, ReadDecision(s, id, read), Answers(s, id, reached));
    if a in s.cohorts {
      SingleAnswer(s, id, a);
    }
    SingleTold(s, Next(s, Ask(id, read, reached)), id, a, Answers(s, id, reached));
  }

  lemma SingleTold(s: State, n: State, id: TxnId, a: Address, answers: map<Address, Reply>)
    requires id in s.prepares && |s.prepares[id]| == 1 && s.prepares[id][0].address == a && Following(s, id)
    requires n.cohorts == s.cohorts && n.prepares == s.prepares
    requires AloneOutcome(s.coord, n.coord, id, s.coord.metadata[id].single.value, answers)
    requires a in answers ==>
               && a in s.cohorts
               && (answers[a].Aborted? ==> id in s.cohorts[a].dropped)
               && (answers[a].Committed? ==> Holds(answers[a].results, {a}, Finals(s, id)))
    ensures Told(n, id) && Tracked(n, id)
  {
    SameFinals(s, n, id);
    assert Participants(n, id) == {a};
  }

  lemma SingleHolds(finals: map<Address, seq<GetResponse>>, a: Address)
    requires a in finals && Tagged(finals[a], a)
    ensures Holds(finals[a], {a}, finals)
  {
    forall b ensures HoldsAt(finals[a], {a}, finals, b) {
      TaggedResults(finals[a], a, b);
    }
  }

  /** Collecting from the participants of a carried transaction. */
  lemma CollectShared(s: State, id: TxnId, reached: set<Address>, got: Collected)
    requires Safe(s) && Serialized(s) && id in s.prepares && |s.prepares[id]| > 1 && Following(s, id)
    requires var meta := s.coord.metadata[id];
             got == Collect(meta.namespaces, meta.responded, StoredOf(s.coord, id).response,
                            Answers(s, id, reached), |meta.namespaces|)
    ensures Gathered(got.response, got.responded, Finals(s, id))
    ensures got.responded <= Participants(s, id)
    ensures got.count == |s.prepares[id]| ==> got.responded == Participants(s, id) && got.responded != {}
  {
    var meta := s.coord.metadata[id];
    assert SentOk(s, id) && DistinctAddresses(meta.namespaces);
    AnswersAreConsistent(s, id, reached);
    CollectIsExact(meta.namespaces, meta.responded, StoredOf(s.coord, id).response, Answers(s, id, reached),
                   Finals(s, id), |meta.namespaces|);
    AnsweringTakePart(s, id, meta.namespaces, Answers(s, id, reached), got.responded);
  }

  /** Those who answer take part, and when all namespaces have, all who do. */
  lemma AnsweringTakePart(s: State, id: TxnId, namespaces: seq<Namespace>, answers: map<Address, Reply>,
                          responded: set<Address>)
    requires id in s.prepares && |s.prepares[id]| > 1 && SameAddresses(namespaces, s.prepares[id])
    ensures Answering(namespaces, answers, |namespaces|) <= Participants(s, id)
    ensures responded <= Participants(s, id) && (forall i | 0 <= i < |namespaces| :: namespaces[i].address in responded)
            ==> responded == Participants(s, id) && responded != {}
  {
    assert namespaces[0].address in Participants(s, id);
  }

  lemma SharedKeepsOpen(s: State, n: State, id: TxnId, d: Decision)
    requires id in s.prepares && |s.prepares[id]| > 1 && Following(s, id) && !Complete(s.coord, id)
    requires n == s.(coord := n.coord) && id in n.coord.metadata && d != AbortDecision
    requires n.coord.metadata[id] == s.coord.metadata[id].(decision := d)
    requires StoredOf(n.coord, id) == StoredOf(s.coord, id)
    requires d == CommitDecision ==> Carried(s.rounds, id)
    ensures Told(n, id) && Tracked(n, id)
  {
    SameFinals(s, n, id);
  }

  lemma SharedCollects(s: State, n: State, id: TxnId, got: Collected)
    requires id in s.prepares && |s.prepares[id]| > 1 && Following(s, id) && Carried(s.rounds, id)
    requires Gathered(got.response, got.responded, Finals(s, id)) && got.responded <= Participants(s, id)
    requires n == s.(coord := n.coord) && id in n.coord.metadata
    requires n.coord.metadata[id] == s.coord.metadata[id].(decision := CommitDecision, responded := got.responded)
    requires StoredOf(n.coord, id) == Stored(false, got.response)
    ensures Told(n, id) && Tracked(n, id)
  {
    SameFinals(s, n, id);
  }

  lemma AskShared(s: State, id: TxnId, read: bool, reached: set<Address>)
    requires Safe(s) && Serialized(s) && id in s.prepares && |s.prepares[id]| > 1
    requires Following(s, id) && !Complete(s.coord, id)
    ensures var n := Next(s, Ask(id, read, reached));
            Told(n, id) && Tracked(n, id)
  {
    var n := Next(s, Ask(id, read, reached));
    var meta, answers, decision := s.coord.metadata[id], Answers(s, id, reached), ReadDecision(s, id, read);
    PollShared(s.coord, id, decision, answers);
    var got := Collect(meta.namespaces, meta.responded, StoredOf(s.coord, id).response, answers, |meta.namespaces|);
    var d := KnownDecision(meta, decision);
    assert RoundOk(s, id);
    CommitIsAllCommit(s.rounds[id], s.now);
    SameFinals(s, n, id);
    if d == Some(CommitDecision) {
      CollectShared(s, id, reached, got);
      if got.count != |meta.namespaces| {
        SharedCollects(s, n, id, got);
      }
    } else if d != Some(AbortDecision) {
      SharedKeepsOpen(s, n, id, if d.None? then meta.decision else d.value);
    }
  }

  lemma AskHonest(s: State, id: TxnId, read: bool, reached: set<Address>, t: TxnId)
    requires Safe(s) && Serialized(s) && Honest(s)
    ensures var n := Next(s, Ask(id, read, reached));
            Told(n, t) && Tracked(n, t)
  {
    var n := Next(s, Ask(id, read, reached));
    assert Told(s, t) && Tracked(s, t);
    if t != id {
      AskOther(s, id, read, reached, t);
      Untouched(s, n, t);
      FirmerHonest(s, n, t);
    } else if Complete(s.coord, t) {
      AskComplete(s, id, read, reached);
      Untouched(s, n, t);
      FirmerHonest(s, n, t);
    } else if t !in s.prepares {
      AskUnsent(s, id, read, reached);
    } else {
      assert SentOk(s, t);
      if |s.prepares[t]| == 1 {
        AskSingle(s, id, read, reached);
      } else {
        AskShared(s, id, read, reached);
      }
    }
  }

  // ----- runs -----

  lemma HonestStep(s: State, step: SysStep)
    requires Safe(s) && Serialized(s) && Honest(s) && Enabled(s, step) && Disciplined(s, step)
    ensures Honest(Next(s, step))
  {
    var n := Next(s, step);
    forall t ensures Told(n, t) && Tracked(n, t) {
      assert Told(s, t) && Tracked(s, t);
      match step
      case Ask(id, read, reached) => AskHonest(s, id, read, reached, t);
      case Submit(_, _, _, _, _, _, _, _) => SubmitHonest(s, step, t);
      case Local(a, local) =>
        LocalFirmer(s, a, local, t);
        FirmerHonest(s, n, t);
      case Tick(now) =>
        TickFirmer(s, now, t);
        FirmerHonest(s, n, t);
      case Deliver(msg) =>
        DeliverFirmer(s, msg, t);
        FirmerHonest(s, n, t);
    }
  }

  lemma HonestTaken(run: seq<State>, steps: seq<SysStep>, i: nat)
    requires IsRun(run, steps) && i < |steps| && Honest(run[i])
    ensures Honest(run[i + 1])
  {
    SafeRun(run, steps, i);
    SerializedRun(run, steps, i);
    assert Taken(run, steps, i);
    HonestStep(run[i], steps[i]);
  }

  lemma HonestRun(run: seq<State>, steps: seq<SysStep>, i: nat)
    requires IsRun(run, steps) && i < |run|
    ensures Honest(run[i])
  {
    var p := (s: State) => Honest(s);
    forall k | 0 <= k < i ensures p(run[k]) ==> p(run[k + 1]) {
      if p(run[k]) {
        HonestTaken(run, steps, k);
      }
    }
    Along(run, 0, i, p);
  }

  lemma CompleteStaysInStep(s: State, step: SysStep, t: TxnId)
    requires Enabled(s, step) && Complete(s.coord, t)
    ensures StoredOf(Next(s, step).coord, t) == StoredOf(s.coord, t)
  {
    match step
    case Submit(id, _, subs, asked, clock, dflt, _, votingOk) =>
      CompleteStays(s.coord, CommitCall(id, subs, asked, clock, dflt, votingOk), t);
      assert Next(s, step).coord == Submission(s, step).coord;
    case Ask(id, read, reached) =>
      CompleteStays(s.coord, PollCall(id, ReadDecision(s, id, read), Answers(s, id, reached)), t);
    case _ =>
  }

  lemma CompleteStaysTaken(run: seq<State>, steps: seq<SysStep>, i: nat, t: TxnId)
    requires IsRun(run, steps) && i < |steps| && Complete(run[i].coord, t)
    ensures StoredOf(run[i + 1].coord, t) == StoredOf(run[i].coord, t)
  {
    assert Taken(run, steps, i);
    CompleteStaysInStep(run[i], steps[i], t);
  }

  lemma CompleteStaysInRun(run: seq<State>, steps: seq<SysStep>, i: nat, j: nat, t: TxnId)
    requires IsRun(run, steps) && i <= j < |run| && Complete(run[i].coord, t)
    ensures StoredOf(run[j].coord, t) == StoredOf(run[i].coord, t)
  {
    var p := (s: State) => StoredOf(s.coord, t) == StoredOf(run[i].coord, t);
    forall k | i <= k < j ensures p(run[k]) ==> p(run[k + 1]) {
      if p(run[k]) {
        CompleteStaysTaken(run, steps, k, t);
      }
    }
    Along(run, i, j, p);
  }

  lemma DoomedNeverApplied(s: State, t: TxnId, a: Address)
    requires Safe(s) && a in s.cohorts && (t in s.prepares ==> Doomed(s, t))
    ensures t !in s.cohorts[a].applied
  {
    OnlyDecidedApplied(s, a, t);
    assert t in s.order <==> InOrder(s, t);
    assert RoundOk(s, t);
    if t in s.prepares && |s.prepares[t]| > 1 {
      CommitIsAllCommit(s.rounds[t], s.now);
    } else if t in s.prepares {
      At(s, s.prepares[t][0].address, t);
    }
  }

  /** An aborted reply is true for ever: after the client is told so, in no later
      state of the run has any cohort's database committed the transaction. */
  lemma AbortedReplyIsTrue(run: seq<State>, steps: seq<SysStep>, i: nat, j: nat, t: TxnId, a: Address)
    requires IsRun(run, steps) && i <= j < |run| && a in run[j].cohorts
    requires Complete(run[i].coord, t) && StoredOf(run[i].coord, t).response.AbortedResponse?
    ensures t !in run[j].cohorts[a].applied
  {
    CompleteStaysInRun(run, steps, i, j, t);
    HonestRun(run, steps, j);
    SafeRun(run, steps, j);
    assert Told(run[j], t);
    DoomedNeverApplied(run[j], t, a);
  }

  /** `results` holds, from each cohort, what running the client's transaction at
      position n of the serial order returns. */
  ghost predicate SerialReply(s: State, t: TxnId, results: seq<GetResponse>, n: nat) {
    && n < |s.order| && s.order[n] == t && SerialOf(s, n).Some?
    && var serial := GRun(KindsOf(s), SerialOf(s, n).value, OpsOf(s.txns, t));
       && serial.GDone?
       && forall a | a in s.cohorts :: ResultsFor(results, a) == ResultsFor(serial.results, a)
  }

  lemma CommittedApplied(s: State, t: TxnId, x: int, a: Address)
    requires Safe(s) && Told(s, t) && Participant(s, t, x, a)
    requires Complete(s.coord, t) && StoredOf(s.coord, t).response.CommittedResponse?
    ensures a in Finals(s, t) && t in s.cohorts[a].applied
  {
    assert HoldsAt(StoredOf(s.coord, t).response.results, Participants(s, t), Finals(s, t), a);
    At(s, a, t);
  }

  lemma CommittedResults(s: State, t: TxnId, a: Address)
    requires Safe(s) && Serialized(s) && Told(s, t) && a in s.cohorts
    requires Complete(s.coord, t) && StoredOf(s.coord, t).response.CommittedResponse?
    ensures ResultsFor(StoredOf(s.coord, t).response.results, a) == ResultsAt(s.cohorts[a], t)
  {
    assert HoldsAt(StoredOf(s.coord, t).response.results, Participants(s, t), Finals(s, t), a);
    if a in Participants(s, t) {
      FinalsAreTagged(s, t, a);
    } else {
      assert forall x :: !Participant(s, t, x, a);
      UnknownHasNothing(s, t, a);
    }
  }

  lemma CommittedPosition(s: State, t: TxnId) returns (n: nat)
    requires Safe(s) && Serialized(s) && Told(s, t)
    requires Complete(s.coord, t) && StoredOf(s.coord, t).response.CommittedResponse?
    ensures n < |s.order| && s.order[n] == t
  {
    assert SentOk(s, t);
    var first := s.prepares[t][0].address;
    assert Participant(s, t, 0, first);
    CommittedApplied(s, t, 0, first);
    FinalsAreTagged(s, t, first);
    n :| 0 <= n < |s.order| && s.order[n] == t;
  }

  /** A complete commit reply is true and serial: every participant's database has
      committed, and from each cohort the reply holds exactly the Get results
      that the client's transaction gets at its place in the serial order. */
  lemma CommittedReplyIsSerial(run: seq<State>, steps: seq<SysStep>, i: nat, t: TxnId)
    requires IsRun(run, steps) && i < |run|
    requires Complete(run[i].coord, t) && StoredOf(run[i].coord, t).response.CommittedResponse?
    ensures forall x, a | Participant(run[i], t, x, a) :: a in run[i].cohorts && t in run[i].cohorts[a].applied
    ensures exists n :: SerialReply(run[i], t, StoredOf(run[i].coord, t).response.results, n)
  {
    var s := run[i];
    SafeRun(run, steps, i);
    SerializedRun(run, steps, i);
    HonestRun(run, steps, i);
    assert Told(s, t);
    forall x, a | Participant(s, t, x, a) ensures a in s.cohorts && t in s.cohorts[a].applied {
      CommittedApplied(s, t, x, a);
    }
    var n := CommittedPosition(s, t);
    assert EntryOk(s, n);
    forall a | a in s.cohorts
      ensures ResultsFor(StoredOf(s.coord, t).response.results, a) == ResultsAt(s.cohorts[a], t)
    {
      CommittedResults(s, t, a);
    }
    assert SerialReply(s, t, StoredOf(s.coord, t).response.results, n);
  }

  // ----- replies that the client wrongly takes for final -----

  /** Nobody among the reached participants has published a commit. */
  ghost predicate NothingPublished(s: State, id: TxnId, reached: set<Address>) {
    forall x, a | Participant(s, id, x, a) && a in reached && a in s.cohorts ::
      !C.Published(s.cohorts[a], id).Committed?
  }

  /** In every run, a client that asks about a shared transaction stops on a reply
      without a status exactly when the commit is carried and known to the
      coordinator, by this read or an earlier one, while no participant has
      answered so far and none that is reached has published. */
  lemma AskStopsEarlyExactly(run: seq<State>, steps: seq<SysStep>, i: nat, id: TxnId, read: bool, reached: set<Address>)
    requires IsRun(run, steps) && i < |run|
    requires id in run[i].prepares && |run[i].prepares[id]| > 1 && !Complete(run[i].coord, id)
    ensures var s, meta := run[i], MetaOf(run[i].coord, id);
            StopsEarly(Poll(s.coord, id, ReadDecision(s, id, read), Answers(s, id, reached)), id) <==>
              && Carried(s.rounds, id) && (read || meta.decision == CommitDecision)
              && meta.responded == {} && NothingPublished(s, id, reached)
  {
    SafeRun(run, steps, i);
    SerializedRun(run, steps, i);
    HonestRun(run, steps, i);
    assert Tracked(run[i], id);
    FollowingStopsEarly(run[i], id, read, reached);
  }

  lemma FollowingStopsEarly(s: State, id: TxnId, read: bool, reached: set<Address>)
    requires Safe(s) && Serialized(s) && id in s.prepares && |s.prepares[id]| > 1
    requires !Complete(s.coord, id) && Following(s, id)
    ensures var meta := MetaOf(s.coord, id);
            StopsEarly(Poll(s.coord, id, ReadDecision(s, id, read), Answers(s, id, reached)), id) <==>
              && Carried(s.rounds, id) && (read || meta.decision == CommitDecision)
              && meta.responded == {} && NothingPublished(s, id, reached)
  {
    var meta, answers := s.coord.metadata[id], Answers(s, id, reached);
    assert SentOk(s, id) && DistinctAddresses(meta.namespaces);
    AnswersAreConsistent(s, id, reached);
    ClientStopsEarlyExactly(s.coord, id, meta.namespaces, Finals(s, id), ReadDecision(s, id, read), answers);
    KnownIsCarried(s, id, read);
    NobodyPublished(s, id, meta.namespaces, reached);
  }

  lemma KnownIsCarried(s: State, id: TxnId, read: bool)
    requires Safe(s) && id in s.prepares && |s.prepares[id]| > 1 && Following(s, id)
    ensures var meta := s.coord.metadata[id];
            KnownDecision(meta, ReadDecision(s, id, read)) == Some(CommitDecision) <==>
              Carried(s.rounds, id) && (read || meta.decision == CommitDecision)
  {
    assert RoundOk(s, id);
    CommitIsAllCommit(s.rounds[id], s.now);
  }

  lemma NobodyPublished(s: State, id: TxnId, namespaces: seq<Namespace>, reached: set<Address>)
    requires id in s.prepares && SameAddresses(namespaces, s.prepares[id])
    ensures NobodyAnswers(namespaces, Answers(s, id, reached)) <==> NothingPublished(s, id, reached)
  {
    var answers := Answers(s, id, reached);
    if NothingPublished(s, id, reached) {
      forall i | 0 <= i < |namespaces|
        ensures !(namespaces[i].address in answers && answers[namespaces[i].address].Committed?)
      {
        assert Participant(s, id, i, namespaces[i].address);
      }
    }
    if NobodyAnswers(namespaces, answers) {
      forall x, a | Participant(s, id, x, a) && a in reached && a in s.cohorts
        ensures !C.Published(s.cohorts[a], id).Committed?
      {
        assert namespaces[x].address == a && a in answers;
      }
    }
  }

  // ----- what the client is told -----

  /** What an `Ask` tells the client. */
  function ReplyTo(s: State, ask: SysStep): Option<Response>
    requires ask.Ask?
  {
    Poll(s.coord, ask.id, ReadDecision(s, ask.id, ask.decisionRead), Answers(s, ask.id, ask.reached)).reply
  }

  /** A told abort or complete commit is stored as complete. */
  lemma ToldIsStored(run: seq<State>, steps: seq<SysStep>, i: nat)
    requires IsRun(run, steps) && i < |steps| && steps[i].Ask? && ReplyTo(run[i], steps[i]).Some?
    requires ReplyTo(run[i], steps[i]).value.AbortedResponse? || ReplyTo(run[i], steps[i]).value.CommittedResponse?
    ensures StoredOf(run[i + 1].coord, steps[i].id).response == ReplyTo(run[i], steps[i]).value
    ensures Complete(run[i + 1].coord, steps[i].id) <==>
              ReplyTo(run[i], steps[i]).value.AbortedResponse? || ReplyTo(run[i], steps[i]).value.complete
  {
    var ask := steps[i];
    assert Taken(run, steps, i);
    PollTellsWhatIsStored(run[i].coord, ask.id, ReadDecision(run[i], ask.id, ask.decisionRead),
                          Answers(run[i], ask.id, ask.reached));
    HonestRun(run, steps, i + 1);
    CompleteByItsFace(run[i + 1], ask.id);
  }

  lemma CompleteByItsFace(s: State, t: TxnId)
    requires Honest(s)
    ensures var response := StoredOf(s.coord, t).response;
            response.AbortedResponse? || response.CommittedResponse? ==>
              (Complete(s.coord, t) <==> response.AbortedResponse? || response.complete)
  {
    assert Told(s, t) && Tracked(s, t);
  }

  /** When a client that asks is told of an abort, no database commits the
      transaction in any later state. */
  lemma ToldAbortIsTrue(run: seq<State>, steps: seq<SysStep>, i: nat, j: nat, a: Address)
    requires IsRun(run, steps) && i < |steps| && i < j < |run| && a in run[j].cohorts
    requires steps[i].Ask? && ReplyTo(run[i], steps[i]).Some? && ReplyTo(run[i], steps[i]).value.AbortedResponse?
    ensures steps[i].id !in run[j].cohorts[a].applied
  {
    ToldIsStored(run, steps, i);
    AbortedReplyIsTrue(run, steps, i + 1, j, steps[i].id, a);
  }

  /** When a client that asks is told of a complete commit, every participant's
      database has committed, and from each cohort the client got exactly the
      results of its transaction at its place in the serial order. */
  lemma ToldCommitIsSerial(run: seq<State>, steps: seq<SysStep>, i: nat)
    requires IsRun(run, steps) && i < |steps| && steps[i].Ask? && ReplyTo(run[i], steps[i]).Some?
    requires ReplyTo(run[i], steps[i]).value.CommittedResponse? && ReplyTo(run[i], steps[i]).value.complete
    ensures var s, t := run[i + 1], steps[i].id;
            && (forall x, a | Participant(s, t, x, a) :: a in s.cohorts && t in s.cohorts[a].applied)
            && exists n :: SerialReply(s, t, ReplyTo(run[i], steps[i]).value.results, n)
  {
    ToldIsStored(run, steps, i);
    CommittedReplyIsSerial(run, steps, i + 1, steps[i].id);
  }

  /** Even an incomplete commit that a client is told is never taken back: in no
      later state has any database aborted the transaction. */
  lemma ToldCommitIsTrue(run: seq<State>, steps: seq<SysStep>, i: nat, j: nat, a: Address)
    requires IsRun(run, steps) && i < |steps| && i < j < |run| && a in run[j].cohorts
    requires steps[i].Ask? && ReplyTo(run[i], steps[i]).Some? && ReplyTo(run[i], steps[i]).value.CommittedResponse?
    ensures steps[i].id !in run[j].cohorts[a].dropped
  {
    ToldIsStored(run, steps, i);
    SafeRun(run, steps, i + 1);
    SerializedRun(run, steps, i + 1);
    HonestRun(run, steps, i + 1);
    CommittedIsDecided(run[i + 1], steps[i].id);
    OrderGrows(run, steps, i + 1, j);
    SafeRun(run, steps, j);
    DecidedNotDropped(run[i + 1], run[j], steps[i].id, a);
  }

  lemma DecidedNotDropped(s: State, n: State, t: TxnId, a: Address)
    requires Safe(n) && a in n.cohorts && t in s.order && s.order <= n.order
    ensures t !in n.cohorts[a].dropped
  {
    var x :| 0 <= x < |s.order| && s.order[x] == t;
    assert n.order[x] == t;
    OnlyDecidedApplied(n, a, t);
  }

  lemma CommittedIsDecided(s: State, t: TxnId)
    requires Safe(s) && Serialized(s) && Honest(s) && StoredOf(s.coord, t).response.CommittedResponse?
    ensures t in s.order
  {
    assert Told(s, t) && Tracked(s, t);
    if Complete(s.coord, t) {
      var n := CommittedPosition(s, t);
    } else {
      var meta := s.coord.metadata[t];
      var a :| a in meta.responded;
      assert HoldsAt(StoredOf(s.coord, t).response.results, meta.responded, Finals(s, t), a);
      FinalsAreTagged(s, t, a);
    }
  }

  /** What a client is told as final it is told again: every later question gets the
      same reply. */
  lemma ToldIsToldAgain(run: seq<State>, steps: seq<SysStep>, i: nat, j: nat)
    requires IsRun(run, steps) && i < j < |steps| && steps[i].Ask? && steps[j].Ask? && steps[j].id == steps[i].id
    requires ReplyTo(run[i], steps[i]).Some?
    requires var reply := ReplyTo(run[i], steps[i]).value;
             reply.AbortedResponse? || (reply.CommittedResponse? && reply.complete)
    ensures ReplyTo(run[j], steps[j]) == ReplyTo(run[i], steps[i])
  {
    ToldIsStored(run, steps, i);
    CompleteStaysInRun(run, steps, i + 1, j, steps[j].id);
    CompleteIsTold(run[j], steps[j]);
  }

  lemma CompleteIsTold(s: State, ask: SysStep)
    requires ask.Ask? && Complete(s.coord, ask.id)
    ensures ReplyTo(s, ask) == Some(StoredOf(s.coord, ask.id).response)
  {
    PollTellsWhatIsStored(s.coord, ask.id, ReadDecision(s, ask.id, ask.decisionRead), Answers(s, ask.id, ask.reached));
  }

  /** A client is told pending only while nothing final can have been told: neither
      before nor by this question. */
  lemma ToldPendingIsOpen(run: seq<State>, steps: seq<SysStep>, i: nat)
    requires IsRun(run, steps) && i < |steps| && steps[i].Ask? && ReplyTo(run[i], steps[i]) == Some(PendingResponse)
    ensures !Complete(run[i].coord, steps[i].id) && !Complete(run[i + 1].coord, steps[i].id)
  {
    var ask := steps[i];
    assert Taken(run, steps, i);
    HonestRun(run, steps, i);
    assert Told(run[i], ask.id);
    PollTellsWhatIsStored(run[i].coord, ask.id, ReadDecision(run[i], ask.id, ask.decisionRead),
                          Answers(run[i], ask.id, ask.reached));
  }

  // ----- real-time order -----

  lemma OrderStep(s: State, step: SysStep)
    requires Enabled(s, step)
    ensures s.order <= Next(s, step).order
  {
    if step.Submit? {
      SubmitEffect(s, step);
      EffectsKeepOrder(s, Next(s, step), step, Submission(s, step));
    } else {
      OtherOrderStep(s, step);
    }
  }

  lemma EffectsKeepOrder(s: State, n: State, step: SysStep, out: CommitOutcome)
    requires Effects(s, n, step, out)
    ensures n.order == s.order
  {
  }

  lemma OtherOrderStep(s: State, step: SysStep)
    requires Enabled(s, step) && !step.Submit?
    ensures s.order <= Next(s, step).order
  {
  }

  /** The decision order only grows. */
  lemma OrderGrows(run: seq<State>, steps: seq<SysStep>, i: nat, j: nat)
    requires IsRun(run, steps) && i <= j < |run|
    ensures run[i].order <= run[j].order
  {
    var p := (s: State) => run[i].order <= s.order;
    forall k | i <= k < j ensures p(run[k]) ==> p(run[k + 1]) {
      OrderTaken(run, steps, k);
    }
    Along(run, i, j, p);
  }

  lemma OrderTaken(run: seq<State>, steps: seq<SysStep>, i: nat)
    requires IsRun(run, steps) && i < |steps|
    ensures run[i].order <= run[i + 1].order
  {
    assert Taken(run, steps, i);
    OrderStep(run[i], steps[i]);
  }

  /** Strict serializability: a transaction that was first sent after the client
      held a complete commit reply for another one comes after it in the serial
      order, in every later state. */
  lemma StrictSerializability(run: seq<State>, steps: seq<SysStep>, i: nat, j: nat, t: TxnId, u: TxnId, x: nat, y: nat)
    requires IsRun(run, steps) && i <= j < |run|
    requires Complete(run[i].coord, t) && StoredOf(run[i].coord, t).response.CommittedResponse?
    requires u !in run[i].prepares
    requires x < |run[j].order| && run[j].order[x] == t && y < |run[j].order| && run[j].order[y] == u
    ensures x < y
  {
    SafeRun(run, steps, i);
    SerializedRun(run, steps, i);
    HonestRun(run, steps, i);
    SafeRun(run, steps, j);
    OrderGrows(run, steps, i, j);
    PositionsApart(run[i], run[j], t, u, x, y);
  }

  lemma PositionsApart(s: State, n: State, t: TxnId, u: TxnId, x: nat, y: nat)
    requires Safe(s) && Serialized(s) && Told(s, t) && OrderOk(n) && s.order <= n.order
    requires Complete(s.coord, t) && StoredOf(s.coord, t).response.CommittedResponse?
    requires u !in s.prepares
    requires x < |n.order| && n.order[x] == t && y < |n.order| && n.order[y] == u
    ensures x < y
  {
    var first := CommittedPosition(s, t);
    assert n.order[first] == s.order[first] == t;
    assert first == x;
    assert u in s.order <==> InOrder(s, u);
    assert forall z | 0 <= z < |s.order| :: n.order[z] == s.order[z] && s.order[z] in s.order;
  }

  // ----- where the discipline is needed -----

  /** The submission makes the contract open a new round. */
  ghost predicate Restarts(s: State, step: SysStep, out: CommitOutcome)
    requires step.Submit?
  {
    out.voting.Some? && step.executed && StartAccepted(s.now, out.voting.value)
  }

  /** What makes an abort certain is lost by submitting the id again exactly when:
      for several cohorts, the contract opens a new round and that was reported, so
      that the requests go out again, or the first round was what the abort rested
      on; for one cohort, the request goes out to a cohort that has not aborted. */
  lemma CertaintyLostExactly(s: State, step: SysStep)
    requires Safe(s) && Honest(s) && step.Submit? && Enabled(s, step)
    requires Complete(s.coord, step.id) && StoredOf(s.coord, step.id).response.AbortedResponse?
    ensures var n, t, out := Next(s, step), step.id, Submission(s, step);
            (t in n.prepares && !Doomed(n, t)) <==>
              if |step.subs| > 1 then
                Restarts(s, step, out) && (step.votingOk || (t in s.prepares && |s.prepares[t]| > 1))
              else
                out.prepares != [] && var a := step.subs[0].ns.address; !(a in s.cohorts && t in s.cohorts[a].dropped)
  {
    assert Told(s, step.id);
    SubmitEffect(s, step);
    SendsExactlyWhen(s.coord, step.id, step.subs, step.asked, step.clock, step.dflt, step.votingOk);
    CertaintyLost(s, Next(s, step), step, Submission(s, step));
  }

  lemma CertaintyLost(s: State, n: State, step: SysStep, out: CommitOutcome)
    requires Submitted(s, n, step, out) && (step.id in s.prepares ==> Doomed(s, step.id))
    requires out.prepares != [] && |step.subs| > 1 ==> out.voting.Some?
    requires out.prepares == [] && out.voting.Some? ==> !step.votingOk
    ensures var t := step.id;
            (t in n.prepares && !Doomed(n, t)) <==>
              if |step.subs| > 1 then
                Restarts(s, step, out) && (step.votingOk || (t in s.prepares && |s.prepares[t]| > 1))
              else
                out.prepares != [] && var a := step.subs[0].ns.address; !(a in s.cohorts && t in s.cohorts[a].dropped)
  {
    if Restarts(s, step, out) {
      var round := NewRound(out.voting.value.cohorts, out.voting.value.timeout);
      assert n.rounds[step.id] == round && round.ballots[0] == NoBallot;
      assert Decide(round, s.now) == PendingDecision;
    } else {
      assert n.rounds == s.rounds;
    }
  }
}
