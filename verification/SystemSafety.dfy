/** What every step of the composed system keeps about votes and outcomes, and
    what follows: agreement and the common lock point. */
module SystemSafety {
  import opened Common
  import opened Semantics
  import opened Voting
  import opened CoordinatorProtocol
  import opened System
  import C = CohortProtocol
  import P = CohortProofs

  // ----- invariants -----

  ghost predicate CohortOk(s: State, a: Address) {
    a in s.cohorts ==> C.Inv(s.cohorts[a])
  }

  ghost predicate CohortsOk(s: State) {
    forall a :: CohortOk(s, a)
  }

  /** The requests sent for an id are a split of the client's operations, indexed
      from zero. */
  ghost predicate SentOk(s: State, t: TxnId) {
    t in s.prepares ==>
      var ps := s.prepares[t];
      && t in s.txns && ps != []
      && (forall i | 0 <= i < |ps| ::
            && ps[i].req == Request(t, OpsFor(s.txns[t], ps[i].address), i, |ps| == 1)
            && ps[i].address in Addresses(s.txns[t]))
      && (forall a | a in Addresses(s.txns[t]) :: exists i :: Participant(s, t, i, a))
      && (forall i, j | 0 <= i < j < |ps| :: ps[i].address != ps[j].address)
  }

  /** A cohort only knows transactions that were sent to it. */
  ghost predicate KnownOk(s: State, a: Address, t: TxnId) {
    a in s.cohorts && (t in s.cohorts[a].live || t in s.cohorts[a].final) ==>
      exists i :: Participant(s, t, i, a)
                  && (t in s.cohorts[a].live ==> s.cohorts[a].live[t].req == s.prepares[t][i].req)
                  && (t in s.cohorts[a].savedRequests ==> s.cohorts[a].savedRequests[t] == s.prepares[t][i].req)
  }

  /** A ballot was cast by the participant with its index, who promised or
      refused accordingly. */
  ghost predicate BallotOk(s: State, m: BallotMsg) {
    m in s.ballots ==>
      && m.id in s.prepares && m.index < |s.prepares[m.id]|
      && s.prepares[m.id][m.index].address in s.cohorts
      && var c := s.cohorts[s.prepares[m.id][m.index].address];
         match m.ballot
         case NoBallot => false
         case CommitBallot => m.id in c.promised && |s.prepares[m.id]| > 1
         case AbortBallot => m.id in c.dropped && m.id !in c.promised
  }

  /** Recorded ballots were cast; a sent transaction has its round. */
  ghost predicate RoundOk(s: State, t: TxnId) {
    && (t in s.rounds ==>
          && 0 < |s.rounds[t].ballots| <= MAX_COHORTS
          && forall i | 0 <= i < |s.rounds[t].ballots| ::
               s.rounds[t].ballots[i] != NoBallot ==> BallotMsg(t, i, s.rounds[t].ballots[i]) in s.ballots)
    && (t in s.prepares && |s.prepares[t]| > 1 ==>
          && t in s.rounds && |s.rounds[t].ballots| == |s.prepares[t]|
          && forall i | 0 <= i < |s.prepares[t]| :: InTime(s.rounds[t], s.prepares[t][i]))
  }

  /** The round times out in the whole second of a participant's abort time. */
  predicate InTime(round: Round, p: Prepare) {
    0 <= p.config.nanos < SECOND && round.timeout == p.config.seconds
  }

  /** A cohort that promised follows the contract, and so does every commit of a
      shared transaction. */
  ghost predicate FollowsOk(s: State, a: Address, t: TxnId) {
    a in s.cohorts ==>
    var c := s.cohorts[a];
    && (t in c.promised && t in c.dropped ==> t in s.rounds && Decide(s.rounds[t], s.now) == AbortDecision)
    && (t in s.prepares && |s.prepares[t]| > 1 ==>
          t in c.applied || (t in c.live && c.live[t].phase == C.Committing) ==> Carried(s.rounds, t))
  }

  /** A transaction is in the order exactly when its commit is decided. */
  ghost predicate InOrder(s: State, t: TxnId) {
    && t in s.prepares && s.prepares[t] != []
    && if |s.prepares[t]| > 1 then Carried(s.rounds, t)
       else s.prepares[t][0].address in s.cohorts && t in s.cohorts[s.prepares[t][0].address].applied
  }

  ghost predicate OrderOk(s: State) {
    && (forall t :: t in s.order <==> InOrder(s, t))
    && (forall i, j | 0 <= i < j < |s.order| :: s.order[i] != s.order[j])
  }

  /** The coordinator's flag covers what was sent. */
  ghost predicate FlagOk(s: State, t: TxnId) {
    t in s.prepares ==> MetaOf(s.coord, t).sent || Complete(s.coord, t)
  }

  ghost predicate Safe(s: State) {
    && CohortsOk(s)
    && (forall t :: SentOk(s, t))
    && (forall a, t :: KnownOk(s, a, t))
    && (forall m :: BallotOk(s, m))
    && (forall t :: RoundOk(s, t))
    && (forall a, t :: FollowsOk(s, a, t))
    && (forall t :: FlagOk(s, t))
    && OrderOk(s)
  }

  // ----- facts that follow -----

  /** What a cohort's own invariant says of one transaction. */
  lemma At(s: State, a: Address, t: TxnId)
    requires Safe(s) && a in s.cohorts
    ensures C.SeenOk(s.cohorts[a], t) && C.PartAt(s.cohorts[a], t) && C.SavedAt(s.cohorts[a], t)
  {
    assert CohortOk(s, a);
  }

  /** Both kinds of ballot never come from one index. */
  lemma OneKindPerIndex(s: State, t: TxnId, i: nat)
    requires Safe(s)
    ensures !(BallotMsg(t, i, CommitBallot) in s.ballots && BallotMsg(t, i, AbortBallot) in s.ballots)
  {
    var yes, no := BallotMsg(t, i, CommitBallot), BallotMsg(t, i, AbortBallot);
    assert BallotOk(s, yes);
    assert BallotOk(s, no);
  }

  /** When a commit is carried, every participant has promised and none has
      dropped: it waits with everything in hand or has applied. */
  lemma CarriedParticipant(s: State, t: TxnId, i: int, a: Address)
    requires Safe(s) && Participant(s, t, i, a) && |s.prepares[t]| > 1 && Carried(s.rounds, t)
    ensures a in s.cohorts && t in s.cohorts[a].promised && t !in s.cohorts[a].dropped
    ensures t in s.cohorts[a].live || t in s.cohorts[a].final
    ensures t !in s.cohorts[a].applied ==>
              t in s.cohorts[a].live && s.cohorts[a].live[t].phase in {C.Voted, C.Committing}
  {
    assert RoundOk(s, t);
    assert s.rounds[t].ballots[i] == CommitBallot;
    assert BallotOk(s, BallotMsg(t, i, CommitBallot));
    CommitIsAllCommit(s.rounds[t], s.now);
    assert FollowsOk(s, a, t);
    At(s, a, t);
  }

  // ----- steps of one cohort -----

  /** Which outcomes a cohort step adds. */
  ghost predicate Marks(c: Cohort, n: Cohort, step: C.Step) {
    var t := C.IdOf(step);
    && (t in n.promised <==> t in c.promised || step.Promise?)
    && (t in n.dropped <==> t in c.dropped || step.Refuse? || step.LearnAbort?)
    && (t in n.applied <==> t in c.applied || step.Apply?)
  }

  lemma OwnMarks(c: Cohort, step: C.Step)
    requires C.Enabled(c, step)
    ensures Marks(c, C.Next(c, step), step)
  {
  }

  /** What a cohort step does to its own transaction, as far as others see. */
  ghost predicate Moves(c: Cohort, n: Cohort, step: C.Step) {
    var t := C.IdOf(step);
    && (!step.Receive? ==> t in c.live)
    && (t in n.live || t in n.final)
    && (t in n.live ==> n.live[t].req == if step.Receive? then step.req else c.live[t].req)
    && (t in n.savedRequests ==>
          if step.Persist? then n.savedRequests[t] == c.live[t].req
          else t in c.savedRequests && n.savedRequests[t] == c.savedRequests[t] && !step.Receive?)
    && Marks(c, n, step)
    && (step.Promise? ==> t !in c.dropped && t !in c.applied && !c.live[t].req.onlyCohort)
    && (step.Refuse? ==> t !in c.promised && t !in c.dropped)
    && (step.LearnAbort? || step.LearnCommit? ==> t in c.promised)
    && (t in n.live && n.live[t].phase == C.Committing ==> step.CommitAlone? || step.LearnCommit?)
    && (step.CommitAlone? ==> t !in c.promised && c.live[t].req.onlyCohort)
    && (step.Apply? ==> t !in c.applied && c.live[t].phase == C.Committing
                        && (t in c.promised <==> !c.live[t].req.onlyCohort))
  }

  lemma OwnMoves(c: Cohort, step: C.Step)
    requires C.Inv(c) && C.Enabled(c, step)
    ensures Moves(c, C.Next(c, step), step)
  {
    OwnMarks(c, step);
    assert C.SeenOk(c, C.IdOf(step)) && C.SavedAt(c, C.IdOf(step));
    if !step.Receive? {
      assert C.PartAt(c, step.id);
    }
  }

  /** State `n` is `s` after `step` at cohort `a`, which becomes `d`. */
  ghost predicate After(s: State, n: State, a: Address, step: C.Step, d: Cohort) {
    && a in s.cohorts
    && n == s.(cohorts := s.cohorts[a := d], ballots := s.ballots + Emits(s.cohorts[a], step),
               order := if DecidesAlone(s.cohorts[a], step) then s.order + [step.id] else s.order)
    && Moves(s.cohorts[a], d, step)
    && forall u | u != C.IdOf(step) :: P.SameFor(s.cohorts[a], d, u)
  }

  lemma CohortStep(c: Cohort, step: C.Step)
    requires C.Inv(c) && C.Enabled(c, step)
    ensures C.Inv(C.Next(c, step)) && Moves(c, C.Next(c, step), step)
    ensures forall u | u != C.IdOf(step) :: P.SameFor(c, C.Next(c, step), u)
  {
    OwnMoves(c, step);
    P.InvStep(c, step);
    forall u | u != C.IdOf(step) ensures P.SameFor(c, C.Next(c, step), u) {
      P.OthersSame(c, step, u);
    }
  }

  lemma CohortsStay(s: State, n: State, a: Address, d: Cohort)
    requires CohortsOk(s) && C.Inv(d) && n.cohorts == s.cohorts[a := d]
    ensures CohortsOk(n)
  {
    forall b ensures CohortOk(n, b) {
      assert CohortOk(s, b);
    }
  }

  lemma LocalEffect(s: State, a: Address, step: C.Step)
    requires CohortsOk(s) && Enabled(s, Local(a, step))
    ensures After(s, Next(s, Local(a, step)), a, step, C.Next(s.cohorts[a], step))
    ensures CohortsOk(Next(s, Local(a, step)))
  {
    assert CohortOk(s, a);
    CohortStep(s.cohorts[a], step);
    CohortsStay(s, Next(s, Local(a, step)), a, C.Next(s.cohorts[a], step));
  }

  /** The request that a running transaction stems from. */
  lemma LiveRequest(s: State, a: Address, t: TxnId) returns (i: nat)
    requires Safe(s) && a in s.cohorts && t in s.cohorts[a].live
    ensures Participant(s, t, i, a) && s.cohorts[a].live[t].req == s.prepares[t][i].req && t in s.txns
    ensures s.cohorts[a].live[t].req == Request(t, OpsFor(s.txns[t], a), i, |s.prepares[t]| == 1)
  {
    assert KnownOk(s, a, t);
    i :| Participant(s, t, i, a) && s.cohorts[a].live[t].req == s.prepares[t][i].req;
    assert SentOk(s, t);
  }

  lemma KnownRequest(s: State, a: Address, t: TxnId) returns (i: nat)
    requires Safe(s) && a in s.cohorts && (t in s.cohorts[a].live || t in s.cohorts[a].final)
    ensures Participant(s, t, i, a)
    ensures t in s.cohorts[a].live ==> s.cohorts[a].live[t].req == s.prepares[t][i].req
    ensures t in s.cohorts[a].savedRequests ==> s.cohorts[a].savedRequests[t] == s.prepares[t][i].req
  {
    assert KnownOk(s, a, t);
    i :| Participant(s, t, i, a)
         && (t in s.cohorts[a].live ==> s.cohorts[a].live[t].req == s.prepares[t][i].req)
         && (t in s.cohorts[a].savedRequests ==> s.cohorts[a].savedRequests[t] == s.prepares[t][i].req);
  }

  lemma LocalKnown(s: State, n: State, a: Address, step: C.Step, d: Cohort, b: Address, t: TxnId)
    requires Safe(s) && After(s, n, a, step, d) && LocalAllowed(s, a, step) && b in s.cohorts
    ensures KnownOk(n, b, t)
  {
    assert KnownOk(s, b, t);
    if b == a {
      if t == C.IdOf(step) {
        if step.Receive? {
          var i :| Participant(s, t, i, a) && s.prepares[t][i].req == step.req;
          assert Participant(n, t, i, a);
        } else {
          var i := KnownRequest(s, a, t);
          assert Participant(n, t, i, a);
        }
      } else {
        assert P.SameFor(s.cohorts[a], d, t);
        if t in d.live || t in d.final {
          var i := KnownRequest(s, a, t);
          assert Participant(n, t, i, a);
        }
      }
    } else if t in n.cohorts[b].live || t in n.cohorts[b].final {
      var i := KnownRequest(s, b, t);
      assert Participant(n, t, i, b);
    }
  }

  lemma LocalBallot(s: State, n: State, a: Address, step: C.Step, d: Cohort, m: BallotMsg)
    requires Safe(s) && After(s, n, a, step, d) && m in n.ballots
    ensures BallotOk(n, m)
  {
    var c := s.cohorts[a];
    if m in s.ballots {
      assert BallotOk(s, m);
      assert m.id != C.IdOf(step) ==> P.SameFor(c, d, m.id);
    } else {
      var i := LiveRequest(s, a, step.id);
    }
  }

  lemma LocalFollows(s: State, n: State, a: Address, step: C.Step, d: Cohort, b: Address, t: TxnId)
    requires After(s, n, a, step, d) && LocalAllowed(s, a, step) && b in s.cohorts
    requires FollowsOk(s, b, t) && RoundOk(s, t)
    requires step.CommitAlone? ==> step.id in s.prepares && |s.prepares[step.id]| == 1
    ensures FollowsOk(n, b, t)
  {
    if b == a {
      if t == C.IdOf(step) {
        if step.LearnCommit? {
          CommitIsAllCommit(s.rounds[t], s.now);
        }
      } else {
        assert P.SameFor(s.cohorts[a], d, t);
      }
    }
  }

  /** Only the database commit of a transaction alone extends the order. */
  lemma LocalInOrder(s: State, n: State, a: Address, step: C.Step, d: Cohort, t: TxnId, i: nat)
    requires After(s, n, a, step, d)
    requires step.Apply? ==> Participant(s, step.id, i, a) && s.cohorts[a].live[step.id].req.index == i
    requires step.Apply? ==> (s.cohorts[a].live[step.id].req.onlyCohort <==> |s.prepares[step.id]| == 1)
    ensures InOrder(n, t) <==> InOrder(s, t) || (DecidesAlone(s.cohorts[a], step) && t == step.id)
    ensures DecidesAlone(s.cohorts[a], step) ==> !InOrder(s, step.id)
  {
    if t != C.IdOf(step) {
      assert P.SameFor(s.cohorts[a], d, t);
    }
  }

  lemma LocalOrder(s: State, n: State, a: Address, step: C.Step, d: Cohort)
    requires Safe(s) && After(s, n, a, step, d)
    ensures OrderOk(n)
  {
    var i := 0;
    if step.Apply? {
      i := LiveRequest(s, a, step.id);
    }
    forall t ensures t in n.order <==> InOrder(n, t) {
      LocalInOrder(s, n, a, step, d, t, i);
      assert t in s.order <==> InOrder(s, t);
    }
    if DecidesAlone(s.cohorts[a], step) {
      LocalInOrder(s, n, a, step, d, step.id, i);
      assert step.id !in s.order;
    }
  }

  lemma LocalSafe(s: State, a: Address, step: C.Step)
    requires Safe(s) && Enabled(s, Local(a, step))
    ensures Safe(Next(s, Local(a, step)))
  {
    var n, d := Next(s, Local(a, step)), C.Next(s.cohorts[a], step);
    LocalEffect(s, a, step);
    forall t ensures SentOk(n, t) {
      assert SentOk(s, t);
      assert forall i, b :: Participant(s, t, i, b) ==> Participant(n, t, i, b);
    }
    forall b, t ensures KnownOk(n, b, t) {
      if b in s.cohorts {
        LocalKnown(s, n, a, step, d, b, t);
      }
    }
    forall m ensures BallotOk(n, m) {
      if m in n.ballots {
        LocalBallot(s, n, a, step, d, m);
      }
    }
    forall t ensures RoundOk(n, t) { assert RoundOk(s, t); }
    forall b, t ensures FollowsOk(n, b, t) {
      assert FollowsOk(s, b, t) && RoundOk(s, t);
      if step.CommitAlone? {
        var i := LiveRequest(s, a, step.id);
      }
      if b in s.cohorts {
        LocalFollows(s, n, a, step, d, b, t);
      }
    }
    forall t ensures FlagOk(n, t) { assert FlagOk(s, t); }
    LocalOrder(s, n, a, step, d);
  }

  // ----- the other steps -----

  /** A ballot that was cast keeps a decision it did not make. */
  lemma DeliverKeepsDecision(s: State, msg: BallotMsg, t: TxnId)
    requires Safe(s) && msg in s.ballots && t in s.rounds && Final(Decide(s.rounds[t], s.now))
    ensures var rounds := Vote(s.rounds, s.now, msg.id, msg.index, msg.ballot);
            t in rounds && Decide(rounds[t], s.now) == Decide(s.rounds[t], s.now)
  {
    if t == msg.id && AcceptsVote(s.rounds, s.now, msg.id, msg.index, msg.ballot) {
      assert RoundOk(s, t) && BallotOk(s, msg);
      OneKindPerIndex(s, t, msg.index);
      SameKindKeepsDecision(s.rounds[t], s.now, msg.index, msg.ballot);
    }
  }

  lemma DeliverRound(s: State, msg: BallotMsg, t: TxnId)
    requires RoundOk(s, t) && msg in s.ballots
    ensures RoundOk(Next(s, Deliver(msg)), t)
  {
  }

  lemma DeliverFollows(s: State, msg: BallotMsg, a: Address, t: TxnId)
    requires Safe(s) && msg in s.ballots && a in s.cohorts
    ensures FollowsOk(Next(s, Deliver(msg)), a, t)
  {
    var n := Next(s, Deliver(msg));
    assert FollowsOk(s, a, t) && RoundOk(s, t);
    DeliverRound(s, msg, t);
    if t in s.rounds {
      CommitIsAllCommit(s.rounds[t], s.now);
      if Final(Decide(s.rounds[t], s.now)) {
        DeliverKeepsDecision(s, msg, t);
        CommitIsAllCommit(n.rounds[t], s.now);
      }
    }
  }

  /** A carried round belongs to a transaction with several participants. */
  lemma CarriedIsShared(s: State, t: TxnId)
    requires RoundOk(s, t) && Carried(s.rounds, t)
    requires BallotMsg(t, 0, CommitBallot) in s.ballots ==> BallotOk(s, BallotMsg(t, 0, CommitBallot))
    ensures t in s.prepares && |s.prepares[t]| > 1
  {
    assert s.rounds[t].ballots[0] == CommitBallot;
  }

  lemma DeliverOrder(s: State, msg: BallotMsg)
    requires Safe(s) && msg in s.ballots
    ensures OrderOk(Next(s, Deliver(msg)))
  {
    var n := Next(s, Deliver(msg));
    var t := msg.id;
    assert RoundOk(s, t) && BallotOk(s, msg);
    DeliverRound(s, msg, t);
    if Carried(s.rounds, t) {
      CommitIsAllCommit(s.rounds[t], s.now);
      DeliverKeepsDecision(s, msg, t);
      CommitIsAllCommit(n.rounds[t], s.now);
    } else if Carried(n.rounds, t) {
      var first := BallotMsg(t, 0, CommitBallot);
      assert first in s.ballots ==> BallotOk(s, first) && BallotOk(n, first);
      CarriedIsShared(n, t);
    }
    assert t in s.order <==> InOrder(s, t);
    forall u ensures u in n.order <==> InOrder(n, u) {
      assert u in s.order <==> InOrder(s, u);
    }
  }

  lemma DeliverSafe(s: State, msg: BallotMsg)
    requires Safe(s) && Enabled(s, Deliver(msg))
    ensures Safe(Next(s, Deliver(msg)))
  {
    var n := Next(s, Deliver(msg));
    SentHaveTxns(s);
    KeepsNetwork(s, n);
    forall t ensures RoundOk(n, t) { assert RoundOk(s, t); DeliverRound(s, msg, t); }
    forall a, t ensures FollowsOk(n, a, t) {
      if a in s.cohorts {
        DeliverFollows(s, msg, a, t);
      }
    }
    forall t ensures FlagOk(n, t) { assert FlagOk(s, t); }
    DeliverOrder(s, msg);
  }

  /** Steps that leave cohorts, ballots and the requests already sent alone keep
      what speaks of these only. */
  lemma KeepsNetwork(s: State, n: State)
    requires Safe(s) && n.cohorts == s.cohorts && n.ballots == s.ballots
    requires forall t | t in s.prepares ::
               t in n.prepares && n.prepares[t] == s.prepares[t] && t in s.txns && t in n.txns && n.txns[t] == s.txns[t]
    requires forall t | t in n.prepares && t !in s.prepares :: SentOk(n, t)
    ensures CohortsOk(n)
    ensures forall t :: SentOk(n, t)
    ensures forall a, t :: KnownOk(n, a, t)
    ensures forall m :: BallotOk(n, m)
  {
    forall a ensures CohortOk(n, a) { assert CohortOk(s, a); }
    assert forall t, i, a :: Participant(s, t, i, a) ==> Participant(n, t, i, a);
    forall t ensures SentOk(n, t) {
      assert SentOk(s, t);
    }
    forall a, t ensures KnownOk(n, a, t) { assert KnownOk(s, a, t); }
    forall m ensures BallotOk(n, m) { assert BallotOk(s, m); }
  }

  lemma SentHaveTxns(s: State)
    requires Safe(s)
    ensures forall t | t in s.prepares :: t in s.txns
  {
    forall t | t in s.prepares ensures t in s.txns { assert SentOk(s, t); }
  }

  lemma TickSafe(s: State, now: nat)
    requires Safe(s) && Enabled(s, Tick(now))
    ensures Safe(Next(s, Tick(now)))
  {
    var n := Next(s, Tick(now));
    SentHaveTxns(s);
    KeepsNetwork(s, n);
    forall t ensures RoundOk(n, t) { assert RoundOk(s, t); }
    forall a, t ensures FollowsOk(n, a, t) {
      assert FollowsOk(s, a, t);
      if t in s.rounds && Decide(s.rounds[t], s.now) == AbortDecision {
        TimeKeepsDecision(s.rounds[t], s.now, now);
      }
    }
    forall t ensures FlagOk(n, t) { assert FlagOk(s, t); }
    forall t ensures t in n.order <==> InOrder(n, t) { assert t in s.order <==> InOrder(s, t); }
  }

  lemma AskSafe(s: State, id: TxnId, read: bool, reached: set<Address>)
    requires Safe(s)
    ensures Safe(Next(s, Ask(id, read, reached)))
  {
    var n := Next(s, Ask(id, read, reached));
    var call := PollCall(id, ReadDecision(s, id, read), Answers(s, id, reached));
    SentHaveTxns(s);
    KeepsNetwork(s, n);
    forall t ensures RoundOk(n, t) { assert RoundOk(s, t); }
    forall a, t ensures FollowsOk(n, a, t) { assert FollowsOk(s, a, t); }
    forall t ensures FlagOk(n, t) {
      assert FlagOk(s, t);
      if t in s.prepares && !Complete(AfterCall(s.coord, call), t) {
        if Complete(s.coord, t) {
          CompleteStays(s.coord, call, t);
        } else {
          FlagStays(s.coord, call, t);
        }
      }
    }
    forall t ensures t in n.order <==> InOrder(n, t) { assert t in s.order <==> InOrder(s, t); }
  }

  // ----- submission -----

  /** Nobody knows a transaction that was not sent. */
  lemma UnsentIsUnknown(s: State, t: TxnId)
    requires Safe(s) && t !in s.prepares
    ensures forall a | a in s.cohorts ::
              && t !in s.cohorts[a].live && t !in s.cohorts[a].final
              && t !in s.cohorts[a].applied && t !in s.cohorts[a].dropped && t !in s.cohorts[a].promised
    ensures forall m | m in s.ballots :: m.id != t
  {
    forall a | a in s.cohorts
      ensures && t !in s.cohorts[a].live && t !in s.cohorts[a].final
              && t !in s.cohorts[a].applied && t !in s.cohorts[a].dropped && t !in s.cohorts[a].promised
    {
      assert KnownOk(s, a, t);
      At(s, a, t);
    }
    forall m | m in s.ballots ensures m.id != t {
      assert BallotOk(s, m);
    }
  }

  /** What a submission with outcome `out` changes, field by field. */
  ghost predicate Effects(s: State, n: State, step: SysStep, out: CommitOutcome) {
    && step.Submit?
    && n.cohorts == s.cohorts && n.now == s.now && n.ballots == s.ballots
    && n.order == s.order && n.genesis == s.genesis && n.coord == out.coord
    && n.prepares == (if out.prepares == [] then s.prepares else s.prepares[step.id := out.prepares])
    && n.txns == (if out.prepares == [] then s.txns else s.txns[step.id := step.ops])
    && n.rounds == if out.voting.Some? && step.executed && StartAccepted(s.now, out.voting.value)
                   then s.rounds[step.id := NewRound(out.voting.value.cohorts, out.voting.value.timeout)]
                   else s.rounds
  }

  /** State `n` is `s` after a submission with outcome `out`. */
  ghost predicate Submitted(s: State, n: State, step: SysStep, out: CommitOutcome) {
    && step.Submit? && IsSplit(step.ops, step.subs)
    && Sound(s.coord, step.id, step.subs, step.votingOk, out)
    && (step.votingOk && out.voting.Some? ==> step.executed && StartAccepted(s.now, out.voting.value))
    && Effects(s, n, step, out)
  }

  lemma AfterSubmitEffects(s: State, step: SysStep, out: CommitOutcome)
    requires step.Submit?
    ensures Effects(s, AfterSubmit(s, step.id, step.ops, step.executed, out), step, out)
  {
  }

  lemma SubmitEffect(s: State, step: SysStep)
    requires step.Submit? && Enabled(s, step)
    ensures Submitted(s, Next(s, step), step, Submission(s, step))
  {
    AfterSubmitEffects(s, step, Submission(s, step));
    CommitIsSound(s.coord, step.id, step.subs, step.asked, step.clock, step.dflt, step.votingOk);
  }

  predicate Reaches(out: CommitOutcome) {
    out.voting.Some? || out.prepares != []
  }

  /** A submission that starts voting or sends anything is the first to send. */
  lemma FirstToSend(s: State, n: State, step: SysStep, out: CommitOutcome)
    requires Submitted(s, n, step, out) && Disciplined(s, step) && FlagOk(s, step.id) && Reaches(out)
    ensures step.id !in s.prepares
  {
  }

  lemma SubmitSent(s: State, n: State, step: SysStep, out: CommitOutcome)
    requires Submitted(s, n, step, out) && out.prepares != []
    ensures step.id in n.prepares && SentOk(n, step.id)
  {
    var ps := out.prepares;
    forall i | 0 <= i < |ps|
      ensures ps[i].req == Request(step.id, OpsFor(step.ops, ps[i].address), i, |ps| == 1)
      ensures ps[i].address == step.subs[i].ns.address
    {
    }
    forall a | a in Addresses(step.ops) ensures exists i :: Participant(n, step.id, i, a) {
      var i :| 0 <= i < |step.subs| && step.subs[i].ns.address == a;
      assert Participant(n, step.id, i, a);
    }
  }

  lemma SubmitOtherNetwork(s: State, n: State, step: SysStep, out: CommitOutcome, t: TxnId)
    requires Effects(s, n, step, out) && t != step.id
    ensures && (t in n.prepares <==> t in s.prepares) && (t in s.prepares ==> n.prepares[t] == s.prepares[t])
            && (t in n.rounds <==> t in s.rounds) && (t in s.rounds ==> n.rounds[t] == s.rounds[t])
  {
  }

  /** The round of the submitted transaction, if the submission touches it. */
  lemma SubmitOwnRound(s: State, n: State, step: SysStep, out: CommitOutcome)
    requires Submitted(s, n, step, out) && RoundOk(s, step.id)
    requires Reaches(out) ==> step.id !in s.prepares
    ensures RoundOk(n, step.id)
  {
    if out.voting.Some? && step.executed && StartAccepted(s.now, out.voting.value) {
      assert n.rounds[step.id] == NewRound(out.voting.value.cohorts, out.voting.value.timeout);
    } else {
      assert n.rounds == s.rounds;
    }
  }

  lemma SubmitRound(s: State, n: State, step: SysStep, out: CommitOutcome, t: TxnId)
    requires Submitted(s, n, step, out) && RoundOk(s, t)
    requires Reaches(out) ==> step.id !in s.prepares
    ensures RoundOk(n, t)
  {
    if t == step.id {
      SubmitOwnRound(s, n, step, out);
    } else {
      SubmitOtherNetwork(s, n, step, out, t);
    }
  }

  lemma SubmitFlag(s: State, n: State, step: SysStep, out: CommitOutcome, t: TxnId)
    requires Submitted(s, n, step, out) && FlagOk(s, t)
    ensures FlagOk(n, t)
  {
    assert t != step.id ==> SameRecord(s.coord, out.coord, t);
  }

  /** Without ballots nothing is carried. */
  lemma NobodyVoted(s: State, t: TxnId)
    requires RoundOk(s, t) && forall m | m in s.ballots :: m.id != t
    ensures !Carried(s.rounds, t)
  {
    if t in s.rounds {
      assert BallotMsg(t, 0, s.rounds[t].ballots[0]) !in s.ballots;
    }
  }

  /** A submission decides nothing. */
  lemma SubmitInOrder(s: State, n: State, step: SysStep, out: CommitOutcome, t: TxnId)
    requires Safe(s) && Submitted(s, n, step, out)
    requires Reaches(out) ==> step.id !in s.prepares
    ensures InOrder(n, t) <==> InOrder(s, t)
  {
    if t != step.id {
      SubmitOtherNetwork(s, n, step, out, t);
    } else if t !in s.prepares {
      UnsentIsUnknown(s, t);
      assert RoundOk(s, t);
      SubmitRound(s, n, step, out, t);
      NobodyVoted(n, t);
    }
  }

  lemma SubmitNetwork(s: State, n: State, step: SysStep, out: CommitOutcome)
    requires Safe(s) && Submitted(s, n, step, out)
    requires Reaches(out) ==> step.id !in s.prepares
    ensures && CohortsOk(n)
            && (forall t :: SentOk(n, t))
            && (forall a, t :: KnownOk(n, a, t))
            && (forall m :: BallotOk(n, m))
  {
    if out.prepares != [] {
      SubmitSent(s, n, step, out);
    }
    SentHaveTxns(s);
    KeepsNetwork(s, n);
  }

  lemma SubmitFollows(s: State, n: State, step: SysStep, out: CommitOutcome, a: Address, t: TxnId)
    requires Effects(s, n, step, out) && a in s.cohorts && FollowsOk(s, a, t)
    requires Reaches(out) ==>
               var c := s.cohorts[a];
               step.id !in c.live && step.id !in c.applied && step.id !in c.promised
    ensures FollowsOk(n, a, t)
  {
    if t != step.id {
      SubmitOtherNetwork(s, n, step, out, t);
    }
  }

  lemma SubmittedSafe(s: State, n: State, step: SysStep, out: CommitOutcome)
    requires Safe(s) && Submitted(s, n, step, out) && Disciplined(s, step)
    ensures Safe(n)
  {
    if Reaches(out) {
      assert FlagOk(s, step.id);
      FirstToSend(s, n, step, out);
      UnsentIsUnknown(s, step.id);
    }
    SubmitNetwork(s, n, step, out);
    forall t ensures RoundOk(n, t) { assert RoundOk(s, t); SubmitRound(s, n, step, out, t); }
    forall a, t ensures FollowsOk(n, a, t) {
      assert FollowsOk(s, a, t);
      if a in s.cohorts {
        SubmitFollows(s, n, step, out, a, t);
      }
    }
    forall t ensures FlagOk(n, t) { assert FlagOk(s, t); SubmitFlag(s, n, step, out, t); }
    forall t ensures t in n.order <==> InOrder(n, t) {
      assert t in s.order <==> InOrder(s, t);
      SubmitInOrder(s, n, step, out, t);
    }
  }

  lemma SubmitSafe(s: State, step: SysStep)
    requires Safe(s) && step.Submit? && Enabled(s, step) && Disciplined(s, step)
    ensures Safe(Next(s, step))
  {
    SubmitEffect(s, step);
    SubmittedSafe(s, Next(s, step), step, Submission(s, step));
  }

  // ----- runs -----

  lemma SafeStep(s: State, step: SysStep)
    requires Safe(s) && Enabled(s, step) && Disciplined(s, step)
    ensures Safe(Next(s, step))
  {
    match step
    case Tick(now) => TickSafe(s, now);
    case Submit(_, _, _, _, _, _, _, _) => SubmitSafe(s, step);
    case Local(a, local) => LocalSafe(s, a, local);
    case Deliver(msg) => DeliverSafe(s, msg);
    case Ask(id, read, reached) => AskSafe(s, id, read, reached);
  }

  lemma InitialSafe(s: State)
    requires Initial(s)
    ensures Safe(s)
  {
    forall a ensures CohortOk(s, a) {
      if a in s.cohorts {
        P.FreshInv(s.cohorts[a].kind, Slice(s.genesis, a));
      }
    }
  }

  lemma SafeTaken(run: seq<State>, steps: seq<SysStep>, i: nat)
    requires IsRun(run, steps) && i < |steps| && Safe(run[i])
    ensures Safe(run[i + 1])
  {
    assert Taken(run, steps, i);
    SafeStep(run[i], steps[i]);
  }

  lemma SafeRun(run: seq<State>, steps: seq<SysStep>, i: nat)
    requires IsRun(run, steps) && i < |run|
    ensures Safe(run[i])
  {
    var p := (s: State) => Safe(s);
    InitialSafe(run[0]);
    forall k | 0 <= k < i ensures p(run[k]) ==> p(run[k + 1]) {
      if p(run[k]) {
        SafeTaken(run, steps, k);
      }
    }
    Along(run, 0, i, p);
  }

  /** Agreement: in every run, over any interleaving, with late, repeated or lost
      ballots, cohorts that stop, and up to 120 participants, no cohort's database
      commits a transaction that another cohort's database aborts. */
  lemma Agreement(run: seq<State>, steps: seq<SysStep>, i: nat, a: Address, b: Address, t: TxnId)
    requires IsRun(run, steps) && i < |run|
    requires a in run[i].cohorts && b in run[i].cohorts
    requires t in run[i].cohorts[a].applied
    ensures t !in run[i].cohorts[b].dropped
  {
    SafeRun(run, steps, i);
    SafeAgrees(run[i], a, b, t);
  }

  lemma SafeAgrees(s: State, a: Address, b: Address, t: TxnId)
    requires Safe(s) && a in s.cohorts && b in s.cohorts && t in s.cohorts[a].applied
    ensures t !in s.cohorts[b].dropped
  {
    if t in s.cohorts[b].dropped {
      var x := KnownIndex(s, a, t);
      var y := KnownIndex(s, b, t);
      At(s, b, t);
      if |s.prepares[t]| > 1 {
        AppliedIsCarried(s, a, t);
        CarriedParticipant(s, t, y, b);
      }
      assert false;
    }
  }

  lemma KnownIndex(s: State, a: Address, t: TxnId) returns (x: int)
    requires Safe(s) && a in s.cohorts && (t in s.cohorts[a].applied || t in s.cohorts[a].dropped)
    ensures Participant(s, t, x, a)
  {
    assert KnownOk(s, a, t);
    At(s, a, t);
    x :| Participant(s, t, x, a);
  }

  /** A database commit of a shared transaction rests on a carried round. */
  lemma AppliedIsCarried(s: State, a: Address, t: TxnId)
    requires Safe(s) && a in s.cohorts && t in s.cohorts[a].applied
    requires t in s.prepares && |s.prepares[t]| > 1
    ensures Carried(s.rounds, t)
  {
    assert FollowsOk(s, a, t);
  }

  /** On disk at a participant: the request as it was sent, and the results that
      it has or publishes. */
  ghost predicate Persisted(s: State, t: TxnId, x: int, a: Address) {
    && Participant(s, t, x, a) && a in s.cohorts
    && var c := s.cohorts[a];
       && t in c.savedRequests && c.savedRequests[t] == s.prepares[t][x].req
       && t in c.savedResponses
       && (t in c.live ==> c.savedResponses[t] == C.Gets(c.live[t].response))
       && (t in c.final ==> c.final[t] == Committed(c.savedResponses[t]))
  }

  /** Common lock point: in every reachable state with a commit decision, each
      participant has persisted its request and its results, and it has applied
      the decision, or still holds all its locks and has its database transaction
      open with every operation executed. */
  lemma CommonLockPoint(run: seq<State>, steps: seq<SysStep>, i: nat, t: TxnId, x: int, a: Address)
    requires IsRun(run, steps) && i < |run|
    requires Participant(run[i], t, x, a) && |run[i].prepares[t]| > 1
    requires t in run[i].rounds && Decide(run[i].rounds[t], run[i].now) == CommitDecision
    ensures a in run[i].cohorts && Persisted(run[i], t, x, a)
    ensures var c := run[i].cohorts[a];
            t in c.applied || (t in c.live && c.live[t].phase in {C.Voted, C.Committing}
                               && C.AllLocked(c.kind, c.live[t]) && C.ExecutedTo(c, c.live[t], |c.live[t].req.ops|))
  {
    SafeRun(run, steps, i);
    SafeLockPoint(run[i], t, x, a);
  }

  lemma SafeLockPoint(s: State, t: TxnId, x: int, a: Address)
    requires Safe(s) && Participant(s, t, x, a) && |s.prepares[t]| > 1
    requires t in s.rounds && Decide(s.rounds[t], s.now) == CommitDecision
    ensures a in s.cohorts && Persisted(s, t, x, a)
    ensures var c := s.cohorts[a];
            t in c.applied || (t in c.live && c.live[t].phase in {C.Voted, C.Committing}
                               && C.AllLocked(c.kind, c.live[t]) && C.ExecutedTo(c, c.live[t], |c.live[t].req.ops|))
  {
    assert RoundOk(s, t);
    CommitIsAllCommit(s.rounds[t], s.now);
    CarriedParticipant(s, t, x, a);
    At(s, a, t);
    var i := KnownRequest(s, a, t);
    assert SentOk(s, t) && i == x;
  }

  /** The contract has decided about a transaction that was sent to several. */
  ghost predicate Decided(s: State, t: TxnId, ps: seq<Prepare>, d: Decision) {
    && t in s.prepares && s.prepares[t] == ps && |ps| > 1
    && t in s.rounds && Final(d) && Decide(s.rounds[t], s.now) == d
  }

  /** Decision stability in the composed system: once the contract decides about
      a sent transaction, no later step of any run changes it. */
  lemma DecisionsHold(run: seq<State>, steps: seq<SysStep>, i: nat, j: nat, t: TxnId, ps: seq<Prepare>, d: Decision)
    requires IsRun(run, steps) && i <= j < |run| && Decided(run[i], t, ps, d)
    ensures Decided(run[j], t, ps, d)
  {
    var p := (s: State) => Decided(s, t, ps, d);
    forall k | i <= k < j ensures p(run[k]) ==> p(run[k + 1]) {
      if p(run[k]) {
        DecisionHoldsTaken(run, steps, k, t, ps, d);
      }
    }
    Along(run, i, j, p);
  }

  lemma DecisionHoldsTaken(run: seq<State>, steps: seq<SysStep>, i: nat, t: TxnId, ps: seq<Prepare>, d: Decision)
    requires IsRun(run, steps) && i < |steps| && Decided(run[i], t, ps, d)
    ensures Decided(run[i + 1], t, ps, d)
  {
    SafeRun(run, steps, i);
    assert Taken(run, steps, i);
    DecisionHoldsStep(run[i], steps[i], t, ps, d);
  }

  lemma SubmitKeepsDecision(s: State, n: State, step: SysStep, out: CommitOutcome, t: TxnId,
                            ps: seq<Prepare>, d: Decision)
    requires Submitted(s, n, step, out) && FlagOk(s, step.id) && Disciplined(s, step) && Decided(s, t, ps, d)
    ensures Decided(n, t, ps, d)
  {
    if Reaches(out) {
      FirstToSend(s, n, step, out);
      SubmitOtherNetwork(s, n, step, out, t);
    }
  }

  lemma DecisionHoldsStep(s: State, step: SysStep, t: TxnId, ps: seq<Prepare>, d: Decision)
    requires Safe(s) && Enabled(s, step) && Disciplined(s, step) && Decided(s, t, ps, d)
    ensures Decided(Next(s, step), t, ps, d)
  {
    match step
    case Tick(now) => TimeKeepsDecision(s.rounds[t], s.now, now);
    case Deliver(msg) => DeliverKeepsDecision(s, msg, t);
    case Submit(id, _, _, _, _, _, _, _) =>
      assert FlagOk(s, id);
      SubmitEffect(s, step);
      SubmitKeepsDecision(s, Next(s, step), step, Submission(s, step), t, ps, d);
    case _ =>
  }

  // ----- how many -----

  /** No run ever sends a transaction to more than 120 cohorts. */
  lemma AtMostOneHundredTwenty(run: seq<State>, steps: seq<SysStep>, i: nat, t: TxnId)
    requires IsRun(run, steps) && i < |run| && t in run[i].prepares
    ensures 1 <= |run[i].prepares[t]| <= 120
  {
    SafeRun(run, steps, i);
    assert SentOk(run[i], t) && RoundOk(run[i], t);
  }

  // ----- recorded ballots -----

  /** The contract has recorded ballot b of index x. */
  predicate Recorded(s: State, t: TxnId, x: nat, b: Ballot) {
    b != NoBallot && t in s.rounds && x < |s.rounds[t].ballots| && s.rounds[t].ballots[x] == b
  }

  /** No reset erases a ballot and no ballot overwrites another: what the contract
      recorded in one state of a run is recorded in every later one. */
  lemma BallotsStay(run: seq<State>, steps: seq<SysStep>, i: nat, j: nat, t: TxnId, x: nat, b: Ballot)
    requires IsRun(run, steps) && i <= j < |run| && Recorded(run[i], t, x, b)
    ensures Recorded(run[j], t, x, b)
  {
    var p := (s: State) => Recorded(s, t, x, b);
    forall k | i <= k < j ensures p(run[k]) ==> p(run[k + 1]) {
      if p(run[k]) {
        BallotTaken(run, steps, k, t, x, b);
      }
    }
    Along(run, i, j, p);
  }

  lemma BallotTaken(run: seq<State>, steps: seq<SysStep>, i: nat, t: TxnId, x: nat, b: Ballot)
    requires IsRun(run, steps) && i < |steps| && Recorded(run[i], t, x, b)
    ensures Recorded(run[i + 1], t, x, b)
  {
    SafeRun(run, steps, i);
    assert Taken(run, steps, i);
    BallotStays(run[i], steps[i], t, x, b);
  }

  lemma BallotStays(s: State, step: SysStep, t: TxnId, x: nat, b: Ballot)
    requires Safe(s) && Enabled(s, step) && Disciplined(s, step) && Recorded(s, t, x, b)
    ensures Recorded(Next(s, step), t, x, b)
  {
    assert RoundOk(s, t) && BallotMsg(t, x, b) in s.ballots;
    match step
    case Deliver(msg) =>
      OneKindPerIndex(s, t, x);
      assert BallotOk(s, msg);
    case Submit(id, _, _, _, _, _, _, _) =>
      assert FlagOk(s, id) && BallotOk(s, BallotMsg(t, x, b));
      SubmitEffect(s, step);
      SubmitKeepsBallot(s, Next(s, step), step, Submission(s, step), t, x, b);
    case _ =>
  }

  lemma SubmitKeepsBallot(s: State, n: State, step: SysStep, out: CommitOutcome, t: TxnId, x: nat, b: Ballot)
    requires Submitted(s, n, step, out) && FlagOk(s, step.id) && Disciplined(s, step)
    requires Recorded(s, t, x, b) && t in s.prepares
    ensures Recorded(n, t, x, b)
  {
    if Reaches(out) {
      FirstToSend(s, n, step, out);
      SubmitOtherNetwork(s, n, step, out, t);
    }
  }
}
