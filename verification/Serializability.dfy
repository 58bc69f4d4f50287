/** Global serializability: the cohorts' stores and all Get results are those of
    running the client transactions one after the other, in the order in which
    their commits were decided. */
module Serializability {
  import opened Common
  import opened Semantics
  import opened Voting
  import opened CoordinatorProtocol
  import opened System
  import opened SystemSafety
  import C = CohortProtocol
  import P = CohortProofs

  // ----- the serial run -----

  function KindsOf(s: State): Kinds {
    map a | a in s.cohorts :: s.cohorts[a].kind
  }

  function OpsOf(txns: map<TxnId, seq<Op>>, t: TxnId): seq<Op> {
    if t in txns then txns[t] else []
  }

  /** The combined store after running whole client transactions in order; None
      if one of them fails. */
  function Serial(kinds: Kinds, g: GStore, txns: map<TxnId, seq<Op>>, order: seq<TxnId>): Option<GStore> {
    if order == [] then Some(g) else
    match Serial(kinds, g, txns, order[..|order| - 1])
    case None => None
    case Some(mid) =>
      match GRun(kinds, mid, OpsOf(txns, order[|order| - 1]))
      case GFailed(_) => None
      case GDone(g', _) => Some(g')
  }

  function SerialOf(s: State, n: nat): Option<GStore>
    requires n <= |s.order|
  {
    Serial(KindsOf(s), s.genesis, s.txns, s.order[..n])
  }

  // ----- the invariant -----

  /** The Get results that a cohort has for a transaction. */
  function ResultsAt(c: Cohort, t: TxnId): seq<GetResponse> {
    if t in c.live then C.Gets(c.live[t].response)
    else if t in c.final then C.Gets(c.final[t])
    else []
  }

  function BufferAt(c: Cohort, t: TxnId): Store {
    if t in c.live && c.live[t].db.Open? then c.live[t].db.buffer else map[]
  }

  /** Decided, not applied yet. */
  predicate Unapplied(s: State, a: Address, t: TxnId) {
    a in s.cohorts && t in s.order && t in s.cohorts[a].live && t !in s.cohorts[a].applied
  }

  /** A key's serial value is in the buffer of the decided transaction that will
      write it, if there is one, and in the store otherwise. */
  ghost predicate MatchesAt(s: State, g: GStore, a: Address, k: Key)
    requires a in s.cohorts
  {
    && (forall t | Unapplied(s, a, t) ::
          k in BufferAt(s.cohorts[a], t) ==> (a, k) in g && g[(a, k)] == BufferAt(s.cohorts[a], t)[k])
    && ((forall t | Unapplied(s, a, t) :: k !in BufferAt(s.cohorts[a], t)) ==>
          && ((a, k) in g <==> k in s.cohorts[a].store)
          && ((a, k) in g ==> g[(a, k)] == s.cohorts[a].store[k]))
  }

  ghost predicate StoresMatch(s: State, g: GStore) {
    && (forall p | p in g :: p.0 in s.cohorts)
    && (forall a, k | a in s.cohorts :: MatchesAt(s, g, a, k))
  }

  /** The n-th transaction succeeds at its serial position with, at each of its
      participants, the Get results that the cohort has. */
  ghost predicate EntryOk(s: State, n: nat)
    requires n < |s.order|
  {
    && SerialOf(s, n).Some?
    && var outcome := GRun(KindsOf(s), SerialOf(s, n).value, OpsOf(s.txns, s.order[n]));
       && outcome.GDone?
       && forall a | a in s.cohorts :: ResultsFor(outcome.results, a) == ResultsAt(s.cohorts[a], s.order[n])
  }

  ghost predicate Serialized(s: State) {
    && SerialOf(s, |s.order|).Some?
    && StoresMatch(s, SerialOf(s, |s.order|).value)
    && forall n | 0 <= n < |s.order| :: EntryOk(s, n)
  }

  // ----- steps that decide and apply nothing -----

  lemma {:induction false} SerialFrame(kinds: Kinds, g: GStore, txns: map<TxnId, seq<Op>>, txns': map<TxnId, seq<Op>>,
                                       order: seq<TxnId>)
    requires forall i | 0 <= i < |order| :: OpsOf(txns, order[i]) == OpsOf(txns', order[i])
    ensures Serial(kinds, g, txns, order) == Serial(kinds, g, txns', order)
  {
    if order != [] {
      SerialFrame(kinds, g, txns, txns', order[..|order| - 1]);
    }
  }

  /** What the serial picture of one cohort depends on. */
  ghost predicate SameView(c: Cohort, d: Cohort, t: TxnId) {
    && ResultsAt(d, t) == ResultsAt(c, t)
    && BufferAt(d, t) == BufferAt(c, t)
    && (t in d.live && t !in d.applied <==> t in c.live && t !in c.applied)
  }

  ghost predicate SamePicture(s: State, n: State) {
    && n.order == s.order && n.genesis == s.genesis && KindsOf(n) == KindsOf(s)
    && (forall t | t in s.order :: OpsOf(n.txns, t) == OpsOf(s.txns, t))
    && n.cohorts.Keys == s.cohorts.Keys
    && forall a | a in s.cohorts ::
         && n.cohorts[a].store == s.cohorts[a].store
         && forall t | t in s.order :: SameView(s.cohorts[a], n.cohorts[a], t)
  }

  lemma SamePictureMatches(s: State, n: State, g: GStore, a: Address, k: Key)
    requires SamePicture(s, n) && a in s.cohorts && MatchesAt(s, g, a, k)
    ensures MatchesAt(n, g, a, k)
  {
    forall t ensures Unapplied(n, a, t) <==> Unapplied(s, a, t) {
      assert t in s.order ==> SameView(s.cohorts[a], n.cohorts[a], t);
    }
    forall t | Unapplied(s, a, t) ensures BufferAt(n.cohorts[a], t) == BufferAt(s.cohorts[a], t) {
      assert SameView(s.cohorts[a], n.cohorts[a], t);
    }
  }

  lemma SamePictureSerialized(s: State, n: State)
    requires Serialized(s) && SamePicture(s, n)
    ensures Serialized(n)
  {
    forall i | 0 <= i <= |s.order| ensures SerialOf(n, i) == SerialOf(s, i) {
      SerialFrame(KindsOf(s), s.genesis, s.txns, n.txns, s.order[..i]);
    }
    var g := SerialOf(s, |s.order|).value;
    forall a, k | a in n.cohorts ensures MatchesAt(n, g, a, k) {
      assert MatchesAt(s, g, a, k);
      SamePictureMatches(s, n, g, a, k);
    }
    forall i | 0 <= i < |n.order| ensures EntryOk(n, i) {
      assert EntryOk(s, i);
      forall a | a in n.cohorts ensures ResultsAt(n.cohorts[a], n.order[i]) == ResultsAt(s.cohorts[a], s.order[i]) {
        assert SameView(s.cohorts[a], n.cohorts[a], s.order[i]);
      }
    }
  }

  /** A decided transaction is past the point where it could be refused. */
  lemma DecidedPhase(s: State, a: Address, t: TxnId)
    requires Safe(s) && a in s.cohorts && t in s.order && t in s.cohorts[a].live
    ensures s.cohorts[a].live[t].phase in {C.Voted, C.Committing, C.Applied}
    ensures s.cohorts[a].live[t].phase != C.Applied ==> |s.prepares[t]| > 1 && Carried(s.rounds, t)
  {
    assert InOrder(s, t);
    var i := LiveRequest(s, a, t);
    At(s, a, t);
    if |s.prepares[t]| > 1 {
      CarriedParticipant(s, t, i, a);
    }
  }

  lemma QuietMove(c: Cohort, step: C.Step)
    requires C.Enabled(c, step) && !step.Receive? && !step.Apply? && !step.LearnAbort?
    requires c.live[step.id].phase in {C.Voted, C.Committing, C.Applied}
    requires C.PartAt(c, step.id) && C.SeenOk(c, step.id)
    ensures SameView(c, C.Next(c, step), step.id)
  {
    assert step.LearnCommit? || step.Release?;
  }

  lemma NoAbortAfterCommit(s: State, t: TxnId)
    requires Safe(s) && Carried(s.rounds, t)
    ensures Decide(s.rounds[t], s.now) == CommitDecision
  {
    assert RoundOk(s, t);
    CommitIsAllCommit(s.rounds[t], s.now);
  }

  lemma SameForView(c: Cohort, d: Cohort, t: TxnId)
    requires P.SameFor(c, d, t)
    ensures SameView(c, d, t)
  {
  }

  lemma QuietStep(s: State, a: Address, step: C.Step, t: TxnId)
    requires Safe(s) && Enabled(s, Local(a, step)) && !step.Apply? && t in s.order
    ensures SameView(s.cohorts[a], C.Next(s.cohorts[a], step), t)
  {
    if t != C.IdOf(step) {
      P.OthersSame(s.cohorts[a], step, t);
      SameForView(s.cohorts[a], C.Next(s.cohorts[a], step), t);
    } else if step.Receive? {
      ReceivedIsNew(s, a, step);
    } else {
      QuietOwnStep(s, a, step);
    }
  }

  lemma QuietOwnStep(s: State, a: Address, step: C.Step)
    requires Safe(s) && Enabled(s, Local(a, step)) && !step.Apply? && !step.Receive? && step.id in s.order
    ensures SameView(s.cohorts[a], C.Next(s.cohorts[a], step), step.id)
  {
    var t := step.id;
    DecidedPhase(s, a, t);
    if Carried(s.rounds, t) {
      NoAbortAfterCommit(s, t);
    }
    At(s, a, t);
    QuietMove(s.cohorts[a], step);
  }

  lemma ReceivedIsNew(s: State, a: Address, step: C.Step)
    requires Safe(s) && Enabled(s, Local(a, step)) && step.Receive?
    ensures step.req.id !in s.order
  {
    var t := step.req.id;
    At(s, a, t);
    var i :| Participant(s, t, i, a) && s.prepares[t][i].req == step.req;
    if t in s.order {
      assert InOrder(s, t);
      if |s.prepares[t]| > 1 {
        CarriedParticipant(s, t, i, a);
      }
      assert false;
    }
  }

  lemma QuietStore(c: Cohort, step: C.Step)
    requires C.Enabled(c, step)
    ensures C.Next(c, step).kind == c.kind
    ensures !step.Apply? ==> C.Next(c, step).store == c.store
  {
  }

  lemma OneCohortKinds(s: State, n: State, a: Address, d: Cohort)
    requires a in s.cohorts && n.cohorts == s.cohorts[a := d] && d.kind == s.cohorts[a].kind
    ensures KindsOf(n) == KindsOf(s)
  {
  }

  lemma OneCohortPicture(s: State, n: State, a: Address, d: Cohort)
    requires a in s.cohorts && n.cohorts == s.cohorts[a := d]
    requires n.order == s.order && n.genesis == s.genesis && n.txns == s.txns
    requires d.kind == s.cohorts[a].kind && d.store == s.cohorts[a].store
    requires forall t | t in s.order :: SameView(s.cohorts[a], d, t)
    ensures SamePicture(s, n)
  {
    OneCohortKinds(s, n, a, d);
  }

  lemma QuietLocal(s: State, a: Address, step: C.Step)
    requires Safe(s) && Serialized(s) && Enabled(s, Local(a, step)) && !step.Apply?
    ensures Serialized(Next(s, Local(a, step)))
  {
    var n, d := Next(s, Local(a, step)), C.Next(s.cohorts[a], step);
    forall t | t in s.order ensures SameView(s.cohorts[a], d, t) {
      QuietStep(s, a, step, t);
    }
    QuietStore(s.cohorts[a], step);
    OneCohortPicture(s, n, a, d);
    SamePictureSerialized(s, n);
  }

  // ----- applying a decided transaction -----

  /** Decided transactions that share a cohort do not share a written key. */
  lemma BuffersAreApart(s: State, a: Address, t: TxnId, u: TxnId, k: Key)
    requires Safe(s) && a in s.cohorts && t != u
    requires t in s.cohorts[a].live && C.AllLocked(s.cohorts[a].kind, s.cohorts[a].live[t])
    requires k in PutKeys(s.cohorts[a].live[t].req.ops) + GetKeys(s.cohorts[a].live[t].req.ops)
    requires Unapplied(s, a, u)
    ensures k !in BufferAt(s.cohorts[a], u)
  {
    var c := s.cohorts[a];
    DecidedPhase(s, a, u);
    At(s, a, u);
    if k in BufferAt(c, u) {
      BufferKeys(c, u, |c.live[u].req.ops|);
      assert CohortOk(s, a);
      P.WritesAreAlone(c, u, t, k);
    }
  }

  lemma BufferKeys(c: Cohort, t: TxnId, n: nat)
    requires t in c.live && C.ExecutedTo(c, c.live[t], n)
    ensures BufferAt(c, t).Keys <= PutKeys(c.live[t].req.ops)
  {
    BufferWithinPuts(c.kind, c.store, c.live[t].req.ops[..n]);
    P.PrefixKeys(c.live[t].req.ops, n);
  }

  /** Cohort `d` is `c` after the database committed `t`. */
  ghost predicate AppliedTo(c: Cohort, d: Cohort, t: TxnId) {
    && t in c.live && t !in c.applied && t in d.applied
    && d.kind == c.kind && d.store == c.store + BufferAt(c, t)
    && ResultsAt(d, t) == ResultsAt(c, t)
    && forall u | u != t :: P.SameFor(c, d, u)
  }

  lemma ApplyEffect(c: Cohort, t: TxnId)
    requires C.Enabled(c, C.Apply(t)) && C.SeenOk(c, t)
    ensures AppliedTo(c, C.Next(c, C.Apply(t)), t)
  {
    forall u | u != t ensures P.SameFor(c, C.Next(c, C.Apply(t)), u) {
      P.OthersSame(c, C.Apply(t), u);
    }
  }

  lemma ApplyMatchesHere(s: State, n: State, a: Address, d: Cohort, t: TxnId, g: GStore, k: Key)
    requires a in s.cohorts && n.cohorts == s.cohorts[a := d] && n.order == s.order
    requires AppliedTo(s.cohorts[a], d, t) && t in s.order && MatchesAt(s, g, a, k)
    requires k in BufferAt(s.cohorts[a], t) ==>
               forall u | u != t && Unapplied(s, a, u) :: k !in BufferAt(s.cohorts[a], u)
    ensures MatchesAt(n, g, a, k)
  {
    var c := s.cohorts[a];
    assert Unapplied(s, a, t) && !Unapplied(n, a, t);
    forall u | u != t ensures Unapplied(n, a, u) <==> Unapplied(s, a, u)
                      ensures BufferAt(d, u) == BufferAt(c, u)
    {
      assert P.SameFor(c, d, u);
    }
  }

  lemma ElsewhereMatches(s: State, n: State, a: Address, d: Cohort, g: GStore, b: Address, k: Key)
    requires a in s.cohorts && b in s.cohorts && b != a && n.cohorts == s.cohorts[a := d] && n.order == s.order
    requires MatchesAt(s, g, b, k)
    ensures MatchesAt(n, g, b, k)
  {
    assert forall u :: Unapplied(n, b, u) <==> Unapplied(s, b, u);
  }

  /** No other decided transaction will write what `t` has written or read. */
  lemma NobodyElseWrites(s: State, a: Address, t: TxnId, k: Key)
    requires Safe(s) && a in s.cohorts && t in s.cohorts[a].live
    requires s.cohorts[a].live[t].phase in {C.Executing(|s.cohorts[a].live[t].req.ops|), C.Voted, C.Committing}
    requires k in PutKeys(s.cohorts[a].live[t].req.ops) + GetKeys(s.cohorts[a].live[t].req.ops)
    ensures forall u | u != t && Unapplied(s, a, u) :: k !in BufferAt(s.cohorts[a], u)
  {
    At(s, a, t);
    forall u | u != t && Unapplied(s, a, u) ensures k !in BufferAt(s.cohorts[a], u) {
      BuffersAreApart(s, a, t, u, k);
    }
  }

  lemma AppliedEntry(s: State, n: State, a: Address, d: Cohort, t: TxnId, i: nat)
    requires a in s.cohorts && n.cohorts == s.cohorts[a := d] && n.order == s.order
    requires n.genesis == s.genesis && n.txns == s.txns && KindsOf(n) == KindsOf(s)
    requires AppliedTo(s.cohorts[a], d, t) && i < |s.order| && EntryOk(s, i)
    ensures EntryOk(n, i)
  {
    var u := s.order[i];
    assert u != t ==> P.SameFor(s.cohorts[a], d, u);
    assert ResultsAt(d, u) == ResultsAt(s.cohorts[a], u);
  }

  /** Applying a decided transaction moves its writes from buffer to store. */
  lemma ApplySerialized(s: State, n: State, a: Address, d: Cohort, t: TxnId)
    requires Serialized(s) && a in s.cohorts && n.cohorts == s.cohorts[a := d] && n.order == s.order
    requires n.genesis == s.genesis && n.txns == s.txns
    requires AppliedTo(s.cohorts[a], d, t) && t in s.order
    requires forall k, u | k in BufferAt(s.cohorts[a], t) && u != t && Unapplied(s, a, u) ::
              k !in BufferAt(s.cohorts[a], u)
    ensures Serialized(n)
  {
    OneCohortKinds(s, n, a, d);
    var g := SerialOf(s, |s.order|).value;
    forall b, k | b in n.cohorts ensures MatchesAt(n, g, b, k) {
      assert MatchesAt(s, g, b, k);
      if b == a {
        ApplyMatchesHere(s, n, a, d, t, g, k);
      } else {
        ElsewhereMatches(s, n, a, d, g, b, k);
      }
    }
    forall i | 0 <= i < |n.order| ensures EntryOk(n, i) {
      assert EntryOk(s, i);
      AppliedEntry(s, n, a, d, t, i);
    }
  }

  lemma SharedIsDecided(s: State, a: Address, t: TxnId)
    requires Safe(s) && Enabled(s, Local(a, C.Apply(t))) && !s.cohorts[a].live[t].req.onlyCohort
    ensures t in s.order
  {
    var i := LiveRequest(s, a, t);
    assert FollowsOk(s, a, t);
    assert InOrder(s, t);
  }

  // ----- deciding a transaction -----

  /** Every participant has executed its part and holds its locks. */
  ghost predicate Ready(s: State, t: TxnId) {
    && t in s.prepares
    && forall i, a | Participant(s, t, i, a) :: ReadyAt(s, a, t)
  }

  ghost predicate ReadyAt(s: State, a: Address, t: TxnId) {
    && a in s.cohorts && t in s.cohorts[a].live
    && s.cohorts[a].live[t].phase in {C.Voted, C.Committing}
  }

  /** On the keys that `t` touches, the store of a participant is the serial
      store: whoever would write them next is `t` itself. */
  lemma SerialAgrees(s: State, g: GStore, a: Address, t: TxnId, keys: set<Key>)
    requires Safe(s) && StoresMatch(s, g) && ReadyAt(s, a, t) && t !in s.order
    requires keys == PutKeys(s.cohorts[a].live[t].req.ops) + GetKeys(s.cohorts[a].live[t].req.ops)
    ensures AgreeOn(s.cohorts[a].store, Slice(g, a), keys)
  {
    forall k | k in keys
      ensures (k in s.cohorts[a].store <==> k in Slice(g, a))
           && (k in s.cohorts[a].store ==> s.cohorts[a].store[k] == Slice(g, a)[k])
    {
      NobodyElseWrites(s, a, t, k);
      assert MatchesAt(s, g, a, k);
      assert forall u | Unapplied(s, a, u) :: u != t;
      assert k in Slice(g, a) <==> (a, k) in g;
    }
  }

  /** What was executed on the cohort's store is a run on any store that agrees
      on the keys touched. */
  lemma PartRunsOn(c: Cohort, t: TxnId, store: Store)
    requires t in c.live && C.ExecutedTo(c, c.live[t], |c.live[t].req.ops|)
    requires AgreeOn(c.store, store, PutKeys(c.live[t].req.ops) + GetKeys(c.live[t].req.ops))
    ensures Run(c.kind, store, c.live[t].req.ops) == Done(store + BufferAt(c, t), ResultsAt(c, t))
  {
    var ops := c.live[t].req.ops;
    assert ops[..|ops|] == ops;
    ExecFrame(c.kind, c.store, store, ops);
    BufferingIsInvisible(c.kind, store, ops);
  }

  /** So running `t`'s part on the serial store gives its buffer and results. */
  lemma PartRunsSerially(s: State, g: GStore, a: Address, t: TxnId)
    requires Safe(s) && StoresMatch(s, g) && ReadyAt(s, a, t) && t !in s.order && t in s.txns
    requires s.cohorts[a].live[t].req.ops == OpsFor(s.txns[t], a)
    ensures Run(s.cohorts[a].kind, Slice(g, a), OpsFor(s.txns[t], a))
         == Done(Slice(g, a) + BufferAt(s.cohorts[a], t), ResultsAt(s.cohorts[a], t))
  {
    var c := s.cohorts[a];
    var ops := c.live[t].req.ops;
    SerialAgrees(s, g, a, t, PutKeys(ops) + GetKeys(ops));
    At(s, a, t);
    PartRunsOn(c, t, Slice(g, a));
  }

  /** The effect at address `a` of running `t` on the serial store `g`. */
  ghost predicate RunsAt(s: State, g: GStore, t: TxnId, outcome: GOutcome, a: Address)
    requires outcome.GDone?
  {
    if exists i :: Participant(s, t, i, a) then
      && a in s.cohorts
      && Slice(outcome.store, a) == Slice(g, a) + BufferAt(s.cohorts[a], t)
      && ResultsFor(outcome.results, a) == ResultsAt(s.cohorts[a], t)
    else
      Slice(outcome.store, a) == Slice(g, a) && ResultsFor(outcome.results, a) == []
  }

  /** At the lock point the whole client transaction runs on the serial store, and
      does at every cohort what the cohort has done. */
  lemma RunsSerially(s: State, g: GStore, t: TxnId)
    requires Safe(s) && StoresMatch(s, g) && Ready(s, t) && t !in s.order
    ensures GRun(KindsOf(s), g, OpsOf(s.txns, t)).GDone?
    ensures forall a :: RunsAt(s, g, t, GRun(KindsOf(s), g, OpsOf(s.txns, t)), a)
  {
    assert SentOk(s, t);
    var ops, kinds := s.txns[t], KindsOf(s);
    forall i, a | Participant(s, t, i, a)
      ensures a in s.cohorts
           && Run(KindOf(kinds, a), Slice(g, a), OpsFor(ops, a))
              == Done(Slice(g, a) + BufferAt(s.cohorts[a], t), ResultsAt(s.cohorts[a], t))
    {
      assert ReadyAt(s, a, t);
      var j := LiveRequest(s, a, t);
      PartRunsSerially(s, g, a, t);
    }
    forall a | a in Addresses(ops) ensures Run(KindOf(kinds, a), Slice(g, a), OpsFor(ops, a)).Done? {
      var i :| Participant(s, t, i, a);
    }
    SplitSuccessIff(kinds, g, ops);
    var outcome := GRun(kinds, g, ops);
    forall a ensures RunsAt(s, g, t, outcome, a) {
      SplitSuccess(kinds, g, ops, a);
      if i :| Participant(s, t, i, a) {
      } else {
        assert a !in Addresses(ops);
        OpsForNobody(ops, a);
      }
    }
  }

  lemma SliceAt(g: GStore, a: Address, k: Key)
    ensures k in Slice(g, a) <==> (a, k) in g
    ensures k in Slice(g, a) ==> Slice(g, a)[k] == g[(a, k)]
  {
  }

  lemma SerialSnoc(kinds: Kinds, g: GStore, txns: map<TxnId, seq<Op>>, order: seq<TxnId>, t: TxnId)
    requires Serial(kinds, g, txns, order).Some?
    requires GRun(kinds, Serial(kinds, g, txns, order).value, OpsOf(txns, t)).GDone?
    ensures Serial(kinds, g, txns, order + [t])
         == Some(GRun(kinds, Serial(kinds, g, txns, order).value, OpsOf(txns, t)).store)
  {
    assert (order + [t])[..|order|] == order;
  }

  /** Appending `t`: entries keep their meaning and the new one has its own. */
  lemma AppendEntries(s: State, n: State, t: TxnId, outcome: GOutcome)
    requires Serialized(s) && n.order == s.order + [t]
    requires n.genesis == s.genesis && n.txns == s.txns && KindsOf(n) == KindsOf(s) && n.cohorts.Keys == s.cohorts.Keys
    requires outcome == GRun(KindsOf(s), SerialOf(s, |s.order|).value, OpsOf(s.txns, t)) && outcome.GDone?
    requires forall a, u | a in s.cohorts :: ResultsAt(n.cohorts[a], u) == ResultsAt(s.cohorts[a], u)
    requires forall a | a in s.cohorts :: ResultsFor(outcome.results, a) == ResultsAt(s.cohorts[a], t)
    ensures SerialOf(n, |n.order|) == Some(outcome.store)
    ensures forall i | 0 <= i < |n.order| :: EntryOk(n, i)
  {
    assert s.order[..|s.order|] == s.order && n.order[..|n.order|] == n.order;
    SerialSnoc(KindsOf(s), s.genesis, s.txns, s.order, t);
    forall i | 0 <= i < |n.order| ensures EntryOk(n, i) {
      assert n.order[..i] == s.order[..i];
      if i < |s.order| {
        assert EntryOk(s, i);
      }
    }
  }

  lemma UnknownHasNothing(s: State, t: TxnId, a: Address)
    requires Safe(s) && a in s.cohorts && !(exists i :: Participant(s, t, i, a))
    ensures ResultsAt(s.cohorts[a], t) == []
    ensures t !in s.cohorts[a].live
  {
    assert KnownOk(s, a, t);
  }

  lemma ResultsEverywhere(s: State, g: GStore, t: TxnId, outcome: GOutcome)
    requires Safe(s) && outcome.GDone? && forall a :: RunsAt(s, g, t, outcome, a)
    ensures forall a | a in s.cohorts :: ResultsFor(outcome.results, a) == ResultsAt(s.cohorts[a], t)
  {
    forall a | a in s.cohorts ensures ResultsFor(outcome.results, a) == ResultsAt(s.cohorts[a], t) {
      assert RunsAt(s, g, t, outcome, a);
      if !(exists i :: Participant(s, t, i, a)) {
        UnknownHasNothing(s, t, a);
      }
    }
  }

  /** The combined store only grows at participants. */
  lemma StaysInCohorts(s: State, g: GStore, t: TxnId, outcome: GOutcome)
    requires StoresMatch(s, g) && outcome.GDone? && forall a :: RunsAt(s, g, t, outcome, a)
    ensures forall p | p in outcome.store :: p.0 in s.cohorts
  {
    forall p | p in outcome.store ensures p.0 in s.cohorts {
      assert RunsAt(s, g, t, outcome, p.0);
      SliceAt(outcome.store, p.0, p.1);
      SliceAt(g, p.0, p.1);
      assert p == (p.0, p.1);
    }
  }

  /** `t` joins the decided, unapplied transactions at a participant. */
  lemma JoinMatches(s: State, n: State, g: GStore, g': GStore, t: TxnId, a: Address, k: Key)
    requires a in s.cohorts && n.cohorts == s.cohorts && n.order == s.order + [t] && t !in s.order
    requires MatchesAt(s, g, a, k) && Unapplied(n, a, t)
    requires Slice(g', a) == Slice(g, a) + BufferAt(s.cohorts[a], t)
    requires k in BufferAt(s.cohorts[a], t) ==>
               forall u | u != t && Unapplied(s, a, u) :: k !in BufferAt(s.cohorts[a], u)
    ensures MatchesAt(n, g', a, k)
  {
    SliceAt(g', a, k);
    SliceAt(g, a, k);
    assert forall u | u != t :: Unapplied(n, a, u) <==> Unapplied(s, a, u);
  }

  /** Where `t` does not take part nothing changes. */
  lemma AsideMatches(s: State, n: State, g: GStore, g': GStore, t: TxnId, a: Address, k: Key)
    requires a in s.cohorts && n.cohorts == s.cohorts && n.order == s.order + [t] && t !in s.order
    requires MatchesAt(s, g, a, k) && t !in s.cohorts[a].live && Slice(g', a) == Slice(g, a)
    ensures MatchesAt(n, g', a, k)
  {
    SliceAt(g', a, k);
    SliceAt(g, a, k);
    assert forall u :: Unapplied(n, a, u) <==> Unapplied(s, a, u);
  }

  lemma DecideMatches(s: State, n: State, g: GStore, t: TxnId, outcome: GOutcome, a: Address, k: Key)
    requires Safe(s) && n.cohorts == s.cohorts && n.order == s.order + [t] && t !in s.order
    requires a in s.cohorts && MatchesAt(s, g, a, k)
    requires outcome.GDone? && RunsAt(s, g, t, outcome, a)
    requires (exists i :: Participant(s, t, i, a)) ==> ReadyAt(s, a, t)
    ensures MatchesAt(n, outcome.store, a, k)
  {
    if exists i :: Participant(s, t, i, a) {
      ReadyBuffer(s, a, t, k);
      JoinMatches(s, n, g, outcome.store, t, a, k);
    } else {
      UnknownHasNothing(s, t, a);
      AsideMatches(s, n, g, outcome.store, t, a, k);
    }
  }

  lemma ReadyBuffer(s: State, a: Address, t: TxnId, k: Key)
    requires Safe(s) && ReadyAt(s, a, t)
    ensures t !in s.cohorts[a].applied
    ensures k in BufferAt(s.cohorts[a], t) ==>
              forall u | u != t && Unapplied(s, a, u) :: k !in BufferAt(s.cohorts[a], u)
  {
    var c := s.cohorts[a];
    At(s, a, t);
    if k in BufferAt(c, t) {
      BufferKeys(c, t, |c.live[t].req.ops|);
      NobodyElseWrites(s, a, t, k);
    }
  }

  lemma DecideSerialized(s: State, n: State, t: TxnId)
    requires Safe(s) && Serialized(s) && Ready(s, t) && t !in s.order
    requires n.cohorts == s.cohorts && n.order == s.order + [t] && n.genesis == s.genesis && n.txns == s.txns
    ensures Serialized(n)
  {
    var g := SerialOf(s, |s.order|).value;
    RunsSerially(s, g, t);
    var outcome := GRun(KindsOf(s), g, OpsOf(s.txns, t));
    ResultsEverywhere(s, g, t, outcome);
    AppendEntries(s, n, t, outcome);
    StaysInCohorts(s, g, t, outcome);
    forall a, k | a in n.cohorts ensures MatchesAt(n, outcome.store, a, k) {
      assert MatchesAt(s, g, a, k) && RunsAt(s, g, t, outcome, a);
      if i :| Participant(s, t, i, a) {
        assert ReadyAt(s, a, t);
      }
      DecideMatches(s, n, g, t, outcome, a, k);
    }
  }

  // ----- all steps -----

  lemma BuffersApart(s: State, a: Address, t: TxnId)
    requires Safe(s) && Enabled(s, Local(a, C.Apply(t)))
    ensures forall k, u | k in BufferAt(s.cohorts[a], t) && u != t && Unapplied(s, a, u) ::
              k !in BufferAt(s.cohorts[a], u)
  {
    At(s, a, t);
    forall k, u | k in BufferAt(s.cohorts[a], t) && u != t && Unapplied(s, a, u)
      ensures k !in BufferAt(s.cohorts[a], u)
    {
      ReadyBuffer(s, a, t, k);
    }
  }

  /** A commit that decides: first decided, then applied. */
  lemma ApplyAlone(s: State, n: State, a: Address, d: Cohort, t: TxnId)
    requires Safe(s) && Serialized(s) && Ready(s, t) && t !in s.order && a in s.cohorts
    requires n.cohorts == s.cohorts[a := d] && n.order == s.order + [t] && n.genesis == s.genesis && n.txns == s.txns
    requires AppliedTo(s.cohorts[a], d, t)
    requires forall k, u | k in BufferAt(s.cohorts[a], t) && u != t && Unapplied(s, a, u) ::
              k !in BufferAt(s.cohorts[a], u)
    ensures Serialized(n)
  {
    var decided := s.(order := s.order + [t]);
    DecideSerialized(s, decided, t);
    assert forall u | u != t :: Unapplied(decided, a, u) <==> Unapplied(s, a, u);
    ApplySerialized(decided, n, a, d, t);
  }

  lemma ApplyStep(s: State, a: Address, t: TxnId)
    requires Safe(s) && Serialized(s) && Enabled(s, Local(a, C.Apply(t)))
    ensures Serialized(Next(s, Local(a, C.Apply(t))))
  {
    var n, c, d := Next(s, Local(a, C.Apply(t))), s.cohorts[a], C.Next(s.cohorts[a], C.Apply(t));
    At(s, a, t);
    ApplyEffect(c, t);
    BuffersApart(s, a, t);
    if c.live[t].req.onlyCohort {
      AloneIsReady(s, a, t);
      ApplyAlone(s, n, a, d, t);
    } else {
      SharedIsDecided(s, a, t);
      ApplySerialized(s, n, a, d, t);
    }
  }

  lemma AloneIsReady(s: State, a: Address, t: TxnId)
    requires Safe(s) && Enabled(s, Local(a, C.Apply(t))) && s.cohorts[a].live[t].req.onlyCohort
    ensures Ready(s, t) && t !in s.order
  {
    var i := LiveRequest(s, a, t);
    At(s, a, t);
    forall j, b | Participant(s, t, j, b) ensures ReadyAt(s, b, t) {
      assert j == i == 0;
    }
    assert !InOrder(s, t);
  }

  lemma CarriedIsReady(s: State, msg: BallotMsg)
    requires Safe(s) && Enabled(s, Deliver(msg))
    requires Carried(Next(s, Deliver(msg)).rounds, msg.id) && !Carried(s.rounds, msg.id)
    ensures Ready(s, msg.id) && msg.id !in s.order
  {
    var n, t := Next(s, Deliver(msg)), msg.id;
    DeliverSafe(s, msg);
    assert RoundOk(n, t);
    var first := BallotMsg(t, 0, CommitBallot);
    assert first in n.ballots ==> BallotOk(n, first);
    CarriedIsShared(n, t);
    assert !InOrder(s, t);
    forall i, a | Participant(s, t, i, a) ensures ReadyAt(s, a, t) {
      assert Participant(n, t, i, a);
      CarriedParticipant(n, t, i, a);
      assert FollowsOk(s, a, t);
    }
  }

  lemma DeliverSerialized(s: State, msg: BallotMsg)
    requires Safe(s) && Serialized(s) && Enabled(s, Deliver(msg))
    ensures Serialized(Next(s, Deliver(msg)))
  {
    var n := Next(s, Deliver(msg));
    if Carried(n.rounds, msg.id) && !Carried(s.rounds, msg.id) {
      CarriedIsReady(s, msg);
      DecideSerialized(s, n, msg.id);
    } else {
      SamePictureSerialized(s, n);
    }
  }

  lemma SubmitPicture(s: State, n: State, step: SysStep, out: CommitOutcome)
    requires Effects(s, n, step, out)
    requires out.prepares != [] ==> step.id !in s.order
    ensures SamePicture(s, n)
  {
    assert n.cohorts == s.cohorts && n.order == s.order && n.genesis == s.genesis;
    assert n.txns == s.txns || (step.id !in s.order && n.txns == s.txns[step.id := step.ops]);
  }

  lemma SubmittedSerialized(s: State, n: State, step: SysStep, out: CommitOutcome)
    requires Safe(s) && Serialized(s) && Submitted(s, n, step, out) && Disciplined(s, step)
    ensures Serialized(n)
  {
    if out.prepares != [] {
      assert FlagOk(s, step.id);
      FirstToSend(s, n, step, out);
      assert !InOrder(s, step.id);
    }
    SubmitPicture(s, n, step, out);
    SamePictureSerialized(s, n);
  }

  lemma SubmitSerialized(s: State, step: SysStep)
    requires Safe(s) && Serialized(s) && step.Submit? && Enabled(s, step) && Disciplined(s, step)
    ensures Serialized(Next(s, step))
  {
    SubmitEffect(s, step);
    SubmittedSerialized(s, Next(s, step), step, Submission(s, step));
  }

  lemma SerializedStep(s: State, step: SysStep)
    requires Safe(s) && Serialized(s) && Enabled(s, step) && Disciplined(s, step)
    ensures Serialized(Next(s, step))
  {
    match step
    case Local(a, local) =>
      if local.Apply? {
        ApplyStep(s, a, local.id);
      } else {
        QuietLocal(s, a, local);
      }
    case Deliver(msg) => DeliverSerialized(s, msg);
    case Submit(_, _, _, _, _, _, _, _) => SubmitSerialized(s, step);
    case Tick(_) => AsideSerialized(s, Next(s, step));
    case Ask(_, _, _) => AsideSerialized(s, Next(s, step));
  }

  /** The clock and the coordinator's record are not part of the picture. */
  lemma AsideSerialized(s: State, n: State)
    requires Serialized(s)
    requires n.cohorts == s.cohorts && n.order == s.order && n.genesis == s.genesis && n.txns == s.txns
    ensures Serialized(n)
  {
    SamePictureSerialized(s, n);
  }

  lemma InitialSerialized(s: State)
    requires Initial(s)
    ensures Serialized(s)
  {
    forall a, k | a in s.cohorts ensures MatchesAt(s, s.genesis, a, k) {
      SliceAt(s.genesis, a, k);
    }
  }

  lemma SerializedTaken(run: seq<State>, steps: seq<SysStep>, i: nat)
    requires IsRun(run, steps) && i < |steps| && Serialized(run[i])
    ensures Serialized(run[i + 1])
  {
    SafeRun(run, steps, i);
    assert Taken(run, steps, i);
    SerializedStep(run[i], steps[i]);
  }

  lemma SerializedRun(run: seq<State>, steps: seq<SysStep>, i: nat)
    requires IsRun(run, steps) && i < |run|
    ensures Serialized(run[i])
  {
    var p := (s: State) => Serialized(s);
    InitialSerialized(run[0]);
    forall k | 0 <= k < i ensures p(run[k]) ==> p(run[k + 1]) {
      if p(run[k]) {
        SerializedTaken(run, steps, k);
      }
    }
    Along(run, 0, i, p);
  }

  // ----- the theorem -----

  /** Every decided transaction is applied wherever it takes part. */
  ghost predicate Settled(s: State) {
    forall t, i, a | t in s.order && Participant(s, t, i, a) :: a in s.cohorts && t in s.cohorts[a].applied
  }

  /** Exactly the decided transactions reach a database: one that some database
      committed is decided, one that some database aborted is not. */
  lemma OnlyDecidedApplied(s: State, a: Address, t: TxnId)
    requires Safe(s) && a in s.cohorts
    ensures t in s.cohorts[a].applied ==> t in s.order
    ensures t in s.cohorts[a].dropped ==> t !in s.order
  {
    assert KnownOk(s, a, t) && FollowsOk(s, a, t);
    At(s, a, t);
    if t in s.cohorts[a].applied || t in s.cohorts[a].dropped {
      var i :| Participant(s, t, i, a);
      assert SentOk(s, t);
      assert t in s.order <==> InOrder(s, t);
      if t in s.order && |s.prepares[t]| > 1 {
        CarriedParticipant(s, t, i, a);
      }
    }
  }

  lemma SettledStore(s: State, a: Address, g: GStore)
    requires Safe(s) && StoresMatch(s, g) && Settled(s) && a in s.cohorts
    ensures s.cohorts[a].store == Slice(g, a)
  {
    forall t ensures !Unapplied(s, a, t) {
      assert KnownOk(s, a, t);
    }
    forall k ensures k in s.cohorts[a].store <==> k in Slice(g, a)
             ensures k in s.cohorts[a].store ==> s.cohorts[a].store[k] == Slice(g, a)[k]
    {
      assert MatchesAt(s, g, a, k);
      SliceAt(g, a, k);
    }
  }

  /** Global serializability. In every state of every run the decided
      transactions all succeed when run one after the other on the first combined
      store, in decision order; each occurs once. The Get results that the
      cohorts have for them are those of that serial run. And once the decided
      transactions are applied, every cohort's store is its part of the serial
      store: transactions that were refused or aborted left no trace. */
  lemma GlobalSerializability(run: seq<State>, steps: seq<SysStep>, i: nat)
    requires IsRun(run, steps) && i < |run|
    ensures var s := run[i];
            var serial := Serial(KindsOf(s), s.genesis, s.txns, s.order);
            && serial.Some?
            && (forall x, y | 0 <= x < y < |s.order| :: s.order[x] != s.order[y])
            && (forall x | 0 <= x < |s.order| :: EntryOk(s, x))
            && (Settled(s) ==> forall a | a in s.cohorts :: s.cohorts[a].store == Slice(serial.value, a))
  {
    var s := run[i];
    SafeRun(run, steps, i);
    SerializedRun(run, steps, i);
    assert s.order[..|s.order|] == s.order;
    if Settled(s) {
      forall a | a in s.cohorts ensures s.cohorts[a].store == Slice(SerialOf(s, |s.order|).value, a) {
        SettledStore(s, a, SerialOf(s, |s.order|).value);
      }
    }
  }
}
