/** The cohort server as the program it is: methods that update the metadata, the
    lock table, the files and the database in place. Each call, however other
    threads interrupt it, is shown to be a run of the step machine. */
module CohortServer {
  import opened Common
  import opened Semantics
  import opened Database
  import opened CohortProtocol
  import opened CohortProofs
  import Waiting

  /** A ballot handed to the contract adapter. */
  datatype Vote = Vote(id: TxnId, index: nat, ballot: Ballot)

  /** A trace of steps leads from c to d. The quantifier only keeps the verifier
      from unrolling traces inside method bodies. */
  ghost predicate Leads(c: Cohort, trace: seq<Step>, d: Cohort) {
    forall b: bool :: LeadsIf(b, c, trace, d)
  }

  ghost predicate LeadsIf(b: bool, c: Cohort, trace: seq<Step>, d: Cohort) {
    CanRun(c, trace) && RunSteps(c, trace) == d
  }

  lemma LeadsNowhere(c: Cohort)
    ensures Leads(c, [], c)
  {
  }

  lemma LeadsOn(c: Cohort, trace: seq<Step>, d: Cohort, more: seq<Step>, e: Cohort)
    requires Leads(c, trace, d) && Leads(d, more, e)
    ensures Leads(c, trace + more, e)
  {
    assert LeadsIf(true, c, trace, d) && LeadsIf(true, d, more, e);
    RunOn(c, trace, more);
  }

  lemma LeadsOne(c: Cohort, trace: seq<Step>, d: Cohort, step: Step)
    requires Leads(c, trace, d) && Enabled(d, step)
    ensures Leads(c, trace + [step], Next(d, step))
  {
    assert [step][1..] == [];
    assert CanRun(Next(d, step), []) && RunSteps(Next(d, step), []) == Next(d, step);
    assert RunSteps(d, [step]) == RunSteps(Next(d, [step][0]), [step][1..]);
    LeadsOn(c, trace, d, [step], Next(d, step));
  }

  lemma UpdateSame(m: map<TxnId, Part>, id: TxnId)
    requires id in m
    ensures m[id := m[id]] == m
  {
  }

  lemma LeadsInv(c: Cohort, trace: seq<Step>, d: Cohort)
    requires Inv(c) && Leads(c, trace, d)
    ensures Inv(d)
  {
    assert LeadsIf(true, c, trace, d);
    InvRun(c, trace);
  }

  /** The lock table is determined by the running transactions. */
  lemma SameTransactionsSameLocks(c: Cohort, d: Cohort)
    requires LockTable(c) && LockTable(d) && c.live == d.live
    ensures c.readers == d.readers && c.writers == d.writers
  {
    forall r ensures r in c.readers <==> r in d.readers {
      assert r == (r.0, r.1);
      assert Listed(c, r.0, r.1) && Listed(d, r.0, r.1);
    }
    forall l | l in c.writers ensures l in d.writers && d.writers[l] == c.writers[l] {
      assert Listed(c, l, c.writers[l]) && Listed(d, l, c.writers[l]);
    }
    forall l | l in d.writers ensures l in c.writers {
      assert Listed(c, l, d.writers[l]) && Listed(d, l, d.writers[l]);
    }
  }

  /** The two key sets of per-key locking, computed in one pass. */
  method LockKeys(ops: seq<Op>) returns (readOnly: set<Key>, writes: set<Key>)
    ensures writes == PutKeys(ops)
    ensures readOnly == GetKeys(ops) - PutKeys(ops)
  {
    readOnly, writes := {}, {};
    for i := 0 to |ops|
      invariant writes == PutKeys(ops[..i])
      invariant readOnly == GetKeys(ops[..i]) - PutKeys(ops[..i])
    {
      var action := ops[i].action;
      KeysSnoc(ops, i);
      if action.Put? {
        readOnly := readOnly - {action.key};
        writes := writes + {action.key};
      }
      if action.Get? && action.key !in writes {
        readOnly := readOnly + {action.key};
      }
    }
    assert ops[..|ops|] == ops;
  }

  lemma KeysSnoc(ops: seq<Op>, i: nat)
    requires i < |ops|
    ensures PutKeys(ops[..i + 1]) == PutKeys(ops[..i]) + (if ops[i].action.Put? then {ops[i].action.key} else {})
    ensures GetKeys(ops[..i + 1]) == GetKeys(ops[..i]) + (if ops[i].action.Get? then {ops[i].action.key} else {})
  {
    var more, less := ops[..i + 1], ops[..i];
    assert forall j | 0 <= j < i :: more[j] == less[j];
    assert more[i] == ops[i];
  }

  /** Whether there is a put and whether there is a get; stops when both are. */
  method LockKinds(ops: seq<Op>) returns (hasPut: bool, hasGet: bool)
    ensures hasPut <==> PutKeys(ops) != {}
    ensures hasGet <==> GetKeys(ops) != {}
  {
    hasPut, hasGet := false, false;
    for i := 0 to |ops|
      invariant hasPut <==> PutKeys(ops[..i]) != {}
      invariant hasGet <==> GetKeys(ops[..i]) != {}
    {
      KeysSnoc(ops, i);
      if ops[i].action.Put? {
        hasPut := true;
      }
      if ops[i].action.Get? {
        hasGet := true;
      }
      if hasPut && hasGet {
        PrefixKeys(ops, i + 1);
        break;
      }
    }
    if !(hasPut && hasGet) {
      assert ops[..|ops|] == ops;
    }
  }

  // ----- what stops a transaction before its vote -----

  /** Every lock that the operations need can be had before the deadline. */
  ghost predicate Lockable(c: Cohort, ops: seq<Op>, granted: Lock -> bool) {
    && (forall l | l in ReadLocks(c.kind, ops) :: granted(l) && Readable(c.writers, l))
    && (forall l | l in WriteLocks(c.kind, ops) :: granted(l) && Writable(c.readers, c.writers, l))
  }

  predicate Readable(writers: map<Lock, TxnId>, l: Lock) {
    l !in writers
  }

  predicate Writable(readers: set<(Lock, TxnId)>, writers: map<Lock, TxnId>, l: Lock) {
    l !in writers && forall r | r in readers :: r.0 != l
  }

  /** The failure of operation n after the ones before it: the database's own, or
      the operation's. */
  ghost function ErrorAt(kind: DbKind, store: Store, ops: seq<Op>, broken: nat -> Option<Status>,
                         n: nat): Option<Status>
    requires n < |ops|
  {
    if broken(n).Some? then broken(n)
    else match Exec(kind, store, ops[..n + 1])
         case Refused(status) => Some(status)
         case Buffered(_, _) => None
  }

  /** The first failure among the first n operations, run in order. */
  ghost function FirstError(kind: DbKind, store: Store, ops: seq<Op>, broken: nat -> Option<Status>,
                            n: nat): Option<Status>
    requires n <= |ops|
  {
    if n == 0 then None else
    var earlier := FirstError(kind, store, ops, broken, n - 1);
    if earlier.Some? then earlier else ErrorAt(kind, store, ops, broken, n - 1)
  }

  ghost function Blocker(c: Cohort, ops: seq<Op>, granted: Lock -> bool, broken: nat -> Option<Status>): Option<Status> {
    if !Lockable(c, ops, granted) then Some(DeadlineExceeded)
    else FirstError(c.kind, c.store, ops, broken, |ops|)
  }

  /** What the writes to disk report. */
  datatype Disk = Disk(responseWritten: bool, requestWritten: bool)

  /** What makes a cohort refuse: a blocker, or a failed write to disk when others
      take part. */
  ghost function Stopper(c: Cohort, req: Request, granted: Lock -> bool, broken: nat -> Option<Status>,
                         disk: Disk): Option<Status> {
    var blocker := Blocker(c, req.ops, granted, broken);
    if blocker.None? && !req.onlyCohort && !(disk.responseWritten && disk.requestWritten) then Some(Internal)
    else blocker
  }

  /** A failed operation is the first error of the whole list. */
  lemma {:induction false} ErrorStays(kind: DbKind, store: Store, ops: seq<Op>, broken: nat -> Option<Status>,
                                      n: nat, m: nat)
    requires n <= m <= |ops| && FirstError(kind, store, ops, broken, n).Some?
    ensures FirstError(kind, store, ops, broken, m) == FirstError(kind, store, ops, broken, n)
  {
    if n < m {
      ErrorStays(kind, store, ops, broken, n, m - 1);
    }
  }

  /** The first n operations do not fail. As with `Leads`, the quantifier keeps the
      verifier from unrolling them in method bodies. */
  ghost predicate Clean(c: Cohort, ops: seq<Op>, broken: nat -> Option<Status>, n: nat)
    requires n <= |ops|
  {
    forall b: bool :: FirstIs(b, c, ops, broken, n, None)
  }

  ghost predicate FirstIs(b: bool, c: Cohort, ops: seq<Op>, broken: nat -> Option<Status>, n: nat,
                          error: Option<Status>)
    requires n <= |ops|
  {
    FirstError(c.kind, c.store, ops, broken, n) == error
  }

  /** This is how the whole list fails, or that it does not. */
  ghost predicate Verdict(c: Cohort, ops: seq<Op>, broken: nat -> Option<Status>, error: Option<Status>) {
    forall b: bool :: FirstIs(b, c, ops, broken, |ops|, error)
  }

  lemma ErrorFound(c: Cohort, p: Part, broken: nat -> Option<Status>)
    requires p.phase.Executing? && p.phase.done < |p.req.ops| && Clean(c, p.req.ops, broken, p.phase.done)
    ensures var error := ErrorAt(c.kind, c.store, p.req.ops, broken, p.phase.done);
            if error.None? then Clean(c, p.req.ops, broken, p.phase.done + 1)
            else Verdict(c, p.req.ops, broken, error)
  {
    var n, ops := p.phase.done, p.req.ops;
    assert FirstIs(true, c, ops, broken, n, None);
    if FirstError(c.kind, c.store, ops, broken, n + 1).Some? {
      ErrorStays(c.kind, c.store, ops, broken, n + 1, |ops|);
    }
  }

  lemma CleanFromTheStart(c: Cohort, ops: seq<Op>, broken: nat -> Option<Status>)
    ensures Clean(c, ops, broken, 0)
  {
  }

  lemma ExecSnoc(kind: DbKind, store: Store, ops: seq<Op>, n: nat)
    requires n < |ops| && Exec(kind, store, ops[..n]).Buffered?
    ensures var so := Exec(kind, store, ops[..n]);
            Exec(kind, store, ops[..n + 1]) == ExecOp(kind, store, so.buffer, so.results, ops[n])
  {
    assert ops[..n + 1][..n] == ops[..n];
  }

  /** Without a failure of the database's own, the first error is that of running
      the operations directly. */
  lemma {:induction false} FirstErrorIsRun(kind: DbKind, store: Store, ops: seq<Op>, broken: nat -> Option<Status>, n: nat)
    requires n <= |ops|
    ensures FirstError(kind, store, ops, broken, n).None? <==>
              (forall m: nat | m < n :: broken(m).None?) && Run(kind, store, ops[..n]).Done?
    ensures (forall m: nat | m < n :: broken(m).None?) && Run(kind, store, ops[..n]).Failed? ==>
              FirstError(kind, store, ops, broken, n) == Some(Run(kind, store, ops[..n]).status)
  {
    if n > 0 {
      FirstErrorIsRun(kind, store, ops, broken, n - 1);
      ErrorAtIsRun(kind, store, ops, broken, n - 1);
    }
  }

  lemma ErrorAtIsRun(kind: DbKind, store: Store, ops: seq<Op>, broken: nat -> Option<Status>, n: nat)
    requires n < |ops|
    ensures Run(kind, store, ops[..n]).Failed? ==> Run(kind, store, ops[..n + 1]) == Run(kind, store, ops[..n])
    ensures broken(n).None? ==>
              ErrorAt(kind, store, ops, broken, n) ==
                match Run(kind, store, ops[..n + 1]) case Done(_, _) => None case Failed(status) => Some(status)
  {
    assert ops[..n + 1] == ops[..n] + [ops[n]];
    BufferingIsInvisible(kind, store, ops[..n + 1]);
    if Run(kind, store, ops[..n]).Failed? {
      RunFailureLaw(kind, store, ops[..n], [ops[n]]);
    }
  }

  /** What a call that nobody interrupts answers, spelled out. It commits if and only
      if every lock is granted in time and free of others, the database does not
      fail of its own, the operations succeed on the store, and, unless the cohort
      is alone, both files are written and the decision is commit. Otherwise the
      reply names the first thing that stood in the way. */
  lemma AloneCommitsExactlyWhen(c: Cohort, store: Store, reply: Reply, cast: seq<Vote>, votes: seq<Vote>, req: Request,
                                granted: Lock -> bool, broken: nat -> Option<Status>, disk: Disk,
                                decision: Decision, unset: AbortReason)
    requires Determined(c, store, reply, cast, votes, req, granted, broken, disk, decision, unset)
    ensures var locked :=
              && (forall l | l in ReadLocks(c.kind, req.ops) :: granted(l) && l !in c.writers)
              && (forall l | l in WriteLocks(c.kind, req.ops) ::
                    granted(l) && l !in c.writers && forall r | r in c.readers :: r.0 != l);
            var sound := forall n: nat | n < |req.ops| :: broken(n).None?;
            var outcome := Run(c.kind, c.store, req.ops);
            var saved := req.onlyCohort || (disk.responseWritten && disk.requestWritten);
            && (reply.Committed? <==> locked && sound && outcome.Done? && saved
                                      && (req.onlyCohort || decision == CommitDecision))
            && (reply.Committed? ==> outcome == Done(store, reply.results))
            && (!reply.Committed? ==> reply.Aborted? && store == c.store)
            && (!locked ==> reply == Aborted(TimestampReached))
            && (locked && sound && outcome.Failed? ==>
                  reply == Aborted(match outcome.status
                                   case DeadlineExceeded => TimestampReached
                                   case NotFound => NonExistentValue
                                   case _ => Unspecified))
            && (locked && sound && outcome.Done? && !saved ==> reply == Aborted(Unspecified))
            && (locked && sound && outcome.Done? && saved && !reply.Committed? ==> reply == Aborted(unset))
  {
    FirstErrorIsRun(c.kind, c.store, req.ops, broken, |req.ops|);
    assert req.ops[..|req.ops|] == req.ops;
  }

  /** And relative puts add up in the store of the cohort. */
  lemma AloneAddsUp(c: Cohort, store: Store, reply: Reply, cast: seq<Vote>, votes: seq<Vote>, req: Request,
                    granted: Lock -> bool, broken: nat -> Option<Status>, disk: Disk,
                    decision: Decision, unset: AbortReason, key: Key)
    requires Determined(c, store, reply, cast, votes, req, granted, broken, disk, decision, unset)
    requires reply.Committed? && key in c.store && PutsOnlyRelatively(req.ops, key)
    ensures key in store && store[key] == c.store[key] + SumOfDeltas(req.ops, key)
  {
    RelativePutsAddUp(c.kind, c.store, req.ops, key);
  }

  // ----- one transaction among others -----

  function Lookup<T>(m: map<TxnId, T>, id: TxnId): Option<T> {
    if id in m then Some(m[id]) else None
  }

  /** The ballots cast for one transaction. */
  function VotesOf(outbox: seq<Vote>, id: TxnId): seq<Vote> {
    if outbox == [] then [] else
    var last := outbox[|outbox| - 1];
    VotesOf(outbox[..|outbox| - 1], id) + (if last.id == id then [last] else [])
  }

  lemma VotesOfMore(outbox: seq<Vote>, vote: Vote)
    ensures VotesOf(outbox + [vote], vote.id) == VotesOf(outbox, vote.id) + [vote]
  {
    assert (outbox + [vote])[..|outbox|] == outbox;
  }

  /** All that the server holds of one transaction besides its locks. */
  datatype Own = Own(
    part: Option<Part>, reply: Option<Reply>, savedResponse: Option<seq<GetResponse>>, savedRequest: Option<Request>,
    votes: seq<Vote>)

  /** Before the vote, and before the last operation when no vote is due. */
  predicate Refusable(p: Part) {
    p.phase == Locking || (p.phase.Executing? && (p.phase.done < |p.req.ops| || !p.req.onlyCohort))
  }

  /** How a call about a request may end, told by what the server then holds. */
  ghost predicate Ended(was: Own, own: Own, req: Request, decision: Decision, unset: AbortReason) {
    && own.part == None && own.reply.Some?
    && (|| (&& own.votes == was.votes + [Vote(req.id, req.index, AbortBallot)]
            && own.savedRequest == was.savedRequest && own.reply.value.Aborted?)
        || (&& req.onlyCohort && own.votes == was.votes
            && own.savedRequest == was.savedRequest && own.savedResponse == was.savedResponse
            && own.reply.value.Committed?)
        || (&& !req.onlyCohort && own.votes == was.votes + [Vote(req.id, req.index, CommitBallot)]
            && own.savedRequest == Some(req) && own.savedResponse.Some?
            && own.reply.value == if decision == CommitDecision then Committed(own.savedResponse.value)
                                  else Aborted(unset)))
  }

  /** What a call that nobody interrupts does, given the state it starts in. */
  ghost predicate Determined(c: Cohort, store: Store, reply: Reply, cast: seq<Vote>, votes: seq<Vote>, req: Request,
                             granted: Lock -> bool, broken: nat -> Option<Status>, disk: Disk,
                             decision: Decision, unset: AbortReason) {
    match Stopper(c, req, granted, broken, disk)
    case Some(status) =>
      && reply == Aborted(ReasonOf(status)) && store == c.store
      && votes == cast + [Vote(req.id, req.index, AbortBallot)]
    case None =>
      && votes == cast + (if req.onlyCohort then [] else [Vote(req.id, req.index, CommitBallot)])
      && if req.onlyCohort || decision == CommitDecision
         then reply.Committed? && Run(c.kind, c.store, req.ops) == Done(store, reply.results)
         else reply == Aborted(unset) && store == c.store
  }

  // ----- runs of one transaction alone -----

  predicate OwnOnly(trace: seq<Step>, id: TxnId) {
    forall i | 0 <= i < |trace| :: IdOf(trace[i]) == id
  }

  lemma OwnOnlyMore(trace: seq<Step>, step: Step, id: TxnId)
    requires IdOf(step) == id
    ensures OwnOnly(trace, id) ==> OwnOnly(trace + [step], id)
  {
  }

  ghost predicate Beside(c: Cohort, d: Cohort, id: TxnId) {
    && (forall u | u != id :: SameFor(c, d, u))
    && d.kind == c.kind && (id in c.applied ==> id in d.applied)
    && (id !in d.applied ==> d.store == c.store)
  }

  lemma BesideStep(c: Cohort, step: Step, id: TxnId)
    requires Enabled(c, step) && IdOf(step) == id
    ensures Beside(c, Next(c, step), id)
  {
    forall u | u != id ensures SameFor(c, Next(c, step), u) {
      OthersSame(c, step, u);
    }
  }

  lemma BesideTwice(c: Cohort, d: Cohort, e: Cohort, id: TxnId)
    requires Beside(c, d, id) && Beside(d, e, id)
    ensures Beside(c, e, id)
  {
    forall u | u != id ensures SameFor(c, e, u) {
      assert SameFor(c, d, u) && SameFor(d, e, u);
    }
  }

  lemma {:induction false} BesideRun(c: Cohort, trace: seq<Step>, id: TxnId)
    requires CanRun(c, trace) && OwnOnly(trace, id)
    ensures Beside(c, RunSteps(c, trace), id)
    decreases |trace|
  {
    if trace != [] {
      BesideStep(c, trace[0], id);
      assert OwnOnly(trace[1..], id);
      BesideRun(Next(c, trace[0]), trace[1..], id);
      BesideTwice(c, Next(c, trace[0]), RunSteps(c, trace), id);
    }
  }

  /** Steps of one transaction leave the others, and until its commit the store, as
      they were. */
  lemma OwnRun(c: Cohort, trace: seq<Step>, d: Cohort, id: TxnId)
    requires Leads(c, trace, d) && OwnOnly(trace, id)
    ensures Beside(c, d, id)
  {
    assert LeadsIf(true, c, trace, d);
    BesideRun(c, trace, id);
  }

  /** Whether a lock that the transaction does not hold can be had depends on the
      others alone. */
  lemma LocksAsBefore(c: Cohort, d: Cohort, id: TxnId, l: Lock)
    requires LockTable(c) && LockTable(d) && Beside(c, d, id) && id !in c.live && id in d.live
    requires l !in d.live[id].writeHeld
    ensures Readable(d.writers, l) <==> Readable(c.writers, l)
    ensures l !in d.live[id].readHeld ==>
              (Writable(d.readers, d.writers, l) <==> Writable(c.readers, c.writers, l))
  {
    assert Listed(c, l, id) && Listed(d, l, id);
    assert l in c.writers ==> Listed(c, l, c.writers[l]) && SameFor(c, d, c.writers[l]) && Listed(d, l, c.writers[l]);
    assert l in d.writers ==> Listed(d, l, d.writers[l]) && SameFor(c, d, d.writers[l]) && Listed(c, l, d.writers[l]);
    if l !in d.live[id].readHeld {
      ReadersAsBefore(c, d, id, l);
    }
  }

  lemma ReadersAsBefore(c: Cohort, d: Cohort, id: TxnId, l: Lock)
    requires LockTable(c) && LockTable(d) && Beside(c, d, id) && id !in c.live && id in d.live
    requires l !in d.live[id].readHeld
    ensures (forall r | r in d.readers :: r.0 != l) <==> (forall r | r in c.readers :: r.0 != l)
  {
    forall r | r in c.readers && r.0 == l ensures (l, r.1) in d.readers {
      assert r == (l, r.1) && Listed(c, l, r.1) && Listed(c, l, id) && Listed(d, l, r.1);
      assert r.1 != id && SameFor(c, d, r.1);
    }
    forall r | r in d.readers && r.0 == l ensures (l, r.1) in c.readers {
      assert r == (l, r.1) && Listed(d, l, r.1) && Listed(d, l, id) && Listed(c, l, r.1);
      assert r.1 != id && SameFor(c, d, r.1);
    }
  }

  /** The state at a point of a run that has only own steps so far. */
  lemma OwnSoFar(c: Cohort, trace: seq<Step>, d: Cohort, id: TxnId)
    requires Inv(c) && Leads(c, trace, d) && OwnOnly(trace, id) && id !in c.live && id in d.live
    ensures Beside(c, d, id) && LockTable(c) && LockTable(d)
    ensures !d.live[id].phase.Applied? ==> d.store == c.store
  {
    OwnRun(c, trace, d, id);
    LeadsInv(c, trace, d);
    assert SeenOk(d, id);
  }

  /** A transaction that came and went alone left the others and the locks alone. */
  lemma AloneEnds(c: Cohort, trace: seq<Step>, d: Cohort, id: TxnId)
    requires Inv(c) && Inv(d) && Leads(c, trace, d) && OwnOnly(trace, id) && id !in c.live && id !in d.live
    ensures d.live == c.live && d.readers == c.readers && d.writers == c.writers
    ensures forall u | u != id :: SameFor(c, d, u)
  {
    OwnRun(c, trace, d, id);
    forall u ensures u in d.live <==> u in c.live
             ensures u in c.live ==> d.live[u] == c.live[u]
    {
      assert u != id ==> SameFor(c, d, u);
    }
    assert d.live == c.live;
    SameTransactionsSameLocks(c, d);
  }

  class Server {
    const kind: DbKind
    var store: Store
    var metadata: map<TxnId, Part>
    var finalResponses: map<TxnId, Reply>
    var readers: set<(Lock, TxnId)>
    var writers: map<Lock, TxnId>
    var savedResponses: map<TxnId, seq<GetResponse>>
    var savedRequests: map<TxnId, Request>
    var outbox: seq<Vote>
    ghost const genesis: Store
    ghost var log: seq<Entry>
    ghost var applied: set<TxnId>
    ghost var dropped: set<TxnId>
    ghost var promised: set<TxnId>

    ghost function View(): Cohort
      reads this
    {
      Cohort(kind, store, metadata, finalResponses, readers, writers, savedResponses, savedRequests,
             genesis, log, applied, dropped, promised)
    }

    ghost function Mine(id: TxnId): Own
      reads this
    {
      Own(Lookup(metadata, id), Lookup(finalResponses, id), Lookup(savedResponses, id), Lookup(savedRequests, id),
          VotesOf(outbox, id))
    }

    constructor (kind: DbKind, store: Store)
      ensures View() == Fresh(kind, store) && Inv(View()) && outbox == []
    {
      this.kind, this.store, this.genesis := kind, store, store;
      metadata, finalResponses, readers, writers, outbox := map[], map[], {}, map[], [];
      savedResponses, savedRequests := map[], map[];
      log, applied, dropped, promised := [], {}, {}, {};
      new;
      FreshInv(kind, store);
    }

    /** Other threads take any number of steps of other transactions between two
        steps of this one, or none when the call is `alone`. Callers rely on this
        contract and on nothing else. */
    method Others(id: TxnId, ghost alone: bool, ghost from: Cohort, ghost trace: seq<Step>)
      returns (ghost trace': seq<Step>)
      requires Leads(from, trace, View())
      modifies this
      ensures Leads(from, trace', View()) && Mine(id) == old(Mine(id))
      ensures alone ==> trace' == trace && View() == old(View()) && outbox == old(outbox)
    {
      trace' := trace;
    }

    // ----- locks -----

    method ReaderLock(id: TxnId, p: Part, lock: Lock, ghost from: Cohort, ghost trace: seq<Step>)
      requires id in metadata && metadata[id] == p && p.phase == Locking
      requires lock in ReadLocks(kind, p.req.ops) - p.readHeld && Readable(writers, lock)
      requires Leads(from, trace, View())
      modifies this`readers, this`metadata
      ensures metadata == old(metadata)[id := p.(readHeld := p.readHeld + {lock})]
      ensures readers == old(readers) + {(lock, id)}
      ensures Leads(from, trace + [LockRead(id, lock)], View())
    {
      ghost var before := View();
      readers := readers + {(lock, id)};
      metadata := metadata[id := p.(readHeld := p.readHeld + {lock})];
      LeadsOne(from, trace, before, LockRead(id, lock));
    }

    method WriterLock(id: TxnId, p: Part, lock: Lock, ghost from: Cohort, ghost trace: seq<Step>)
      requires id in metadata && metadata[id] == p && p.phase == Locking
      requires p.readHeld == ReadLocks(kind, p.req.ops)
      requires lock in WriteLocks(kind, p.req.ops) - p.writeHeld && Writable(readers, writers, lock)
      requires Leads(from, trace, View())
      modifies this`writers, this`metadata
      ensures metadata == old(metadata)[id := p.(writeHeld := p.writeHeld + {lock})]
      ensures writers == old(writers)[lock := id]
      ensures Leads(from, trace + [LockWrite(id, lock)], View())
    {
      ghost var before := View();
      writers := writers[lock := id];
      metadata := metadata[id := p.(writeHeld := p.writeHeld + {lock})];
      LeadsOne(from, trace, before, LockWrite(id, lock));
    }

    /** What holds of a call about `id` at any point: it has led here from `from`,
        by its own steps only if it is alone. */
    ghost predicate Here(id: TxnId, alone: bool, from: Cohort, trace: seq<Step>)
      reads this
    {
      Inv(from) && id !in from.live && Leads(from, trace, View()) && (alone ==> OwnOnly(trace, id))
    }

    lemma FreeLocks(id: TxnId, p: Part, lock: Lock, from: Cohort, trace: seq<Step>)
      requires Here(id, true, from, trace) && Mine(id).part == Some(p) && lock !in p.writeHeld
      ensures Readable(writers, lock) <==> Readable(from.writers, lock)
      ensures lock !in p.readHeld ==> (Writable(readers, writers, lock) <==> Writable(from.readers, from.writers, lock))
    {
      OwnSoFar(from, trace, View(), id);
      LocksAsBefore(from, View(), id, lock);
    }

    /** Takes the read locks one by one; `granted` says which waits end before the
        deadline. Locks taken before a failure stay listed. */
    method AcquireReaderLocks(id: TxnId, p: Part, todo: set<Lock>, granted: Lock -> bool,
                              ghost alone: bool, ghost from: Cohort, ghost trace: seq<Step>)
      returns (got: set<Lock>, ghost trace': seq<Step>)
      requires Mine(id).part == Some(p) && p.phase == Locking && p.readHeld == {} && p.writeHeld == {}
      requires todo == ReadLocks(kind, p.req.ops) && Here(id, alone, from, trace)
      modifies this
      ensures Here(id, alone, from, trace') && got <= todo
      ensures Mine(id) == old(Mine(id)).(part := Some(p.(readHeld := got)))
      ensures alone ==> (got == todo <==> forall l | l in todo :: granted(l) && Readable(from.writers, l))
    {
      trace', got := trace, {};
      while todo - got != {}
        invariant got <= todo && Here(id, alone, from, trace')
        invariant Mine(id) == old(Mine(id)).(part := Some(p.(readHeld := got)))
        invariant alone ==> forall l | l in got :: granted(l) && Readable(from.writers, l)
        decreases todo - got
      {
        trace' := Others(id, alone, from, trace');
        var lock :| lock in todo - got;
        if alone {
          FreeLocks(id, p.(readHeld := got), lock, from, trace');
        }
        if !(granted(lock) && Readable(writers, lock)) {
          return;
        }
        ReaderLock(id, p.(readHeld := got), lock, from, trace');
        trace' := trace' + [LockRead(id, lock)];
        got := got + {lock};
      }
      assert got == todo by {
        assert forall l | l in todo :: l !in todo - got;
      }
    }

    method AcquireWriterLocks(id: TxnId, p: Part, todo: set<Lock>, granted: Lock -> bool,
                              ghost alone: bool, ghost from: Cohort, ghost trace: seq<Step>)
      returns (got: set<Lock>, ghost trace': seq<Step>)
      requires Mine(id).part == Some(p) && p.phase == Locking && p.writeHeld == {} && p.readHeld !! todo
      requires todo == WriteLocks(kind, p.req.ops) && p.readHeld == ReadLocks(kind, p.req.ops)
      requires Here(id, alone, from, trace)
      modifies this
      ensures Here(id, alone, from, trace') && got <= todo
      ensures Mine(id) == old(Mine(id)).(part := Some(p.(writeHeld := got)))
      ensures alone ==>
                (got == todo <==> forall l | l in todo :: granted(l) && Writable(from.readers, from.writers, l))
    {
      trace', got := trace, {};
      while todo - got != {}
        invariant got <= todo && Here(id, alone, from, trace')
        invariant Mine(id) == old(Mine(id)).(part := Some(p.(writeHeld := got)))
        invariant alone ==> forall l | l in got :: granted(l) && Writable(from.readers, from.writers, l)
        decreases todo - got
      {
        trace' := Others(id, alone, from, trace');
        var lock :| lock in todo - got;
        if alone {
          FreeLocks(id, p.(writeHeld := got), lock, from, trace');
        }
        if !(granted(lock) && Writable(readers, writers, lock)) {
          return;
        }
        WriterLock(id, p.(writeHeld := got), lock, from, trace');
        trace' := trace' + [LockWrite(id, lock)];
        got := got + {lock};
      }
      assert got == todo by {
        assert forall l | l in todo :: l !in todo - got;
      }
    }

    /** The locks that the operations call for. */
    method LocksFor(ops: seq<Op>) returns (shared: set<Lock>, exclusive: set<Lock>)
      ensures shared == ReadLocks(kind, ops) && exclusive == WriteLocks(kind, ops)
    {
      if kind.concurrentWrites {
        var readOnly, written := LockKeys(ops);
        shared := set k | k in readOnly :: KeyLock(k);
        exclusive := set k | k in written :: KeyLock(k);
      } else {
        var hasPut, hasGet := LockKinds(ops);
        shared := if !hasPut && hasGet then {WholeDb} else {};
        exclusive := if hasPut then {WholeDb} else {};
      }
    }

    /** Read locks first, then write locks; whole-database mode takes one lock. */
    method AcquireDbLocks(id: TxnId, p: Part, granted: Lock -> bool,
                          ghost alone: bool, ghost from: Cohort, ghost trace: seq<Step>)
      returns (error: Option<Status>, q: Part, ghost trace': seq<Step>)
      requires Mine(id).part == Some(p) && p.phase == Locking && p.readHeld == {} && p.writeHeld == {}
      requires Here(id, alone, from, trace) && from.kind == kind
      modifies this
      ensures Here(id, alone, from, trace') && Mine(id) == old(Mine(id)).(part := Some(q))
      ensures q == p.(readHeld := q.readHeld, writeHeld := q.writeHeld)
      ensures if AllLocked(kind, q) then error == None else error == Some(DeadlineExceeded)
      ensures alone ==> (AllLocked(kind, q) <==> Lockable(from, p.req.ops, granted))
    {
      var shared, exclusive := LocksFor(p.req.ops);
      var got;
      got, trace' := AcquireReaderLocks(id, p, shared, granted, alone, from, trace);
      q := p.(readHeld := got);
      if got != shared {
        return Some(DeadlineExceeded), q, trace';
      }
      got, trace' := AcquireWriterLocks(id, q, exclusive, granted, alone, from, trace');
      q := q.(writeHeld := got);
      return if got == exclusive then None else Some(DeadlineExceeded), q, trace';
    }

    // ----- operations -----

    /** One operation through the adapter; a failed one changes nothing here. */
    method ProcessOperationInDb(id: TxnId, p: Part, ghost from: Cohort, ghost trace: seq<Step>)
      returns (error: Option<Status>, q: Part, ghost trace': seq<Step>)
      requires id in metadata && metadata[id] == p && p.phase.Executing? && p.phase.done < |p.req.ops|
      requires p.db.Open? && (p.req.ops[p.phase.done].action.Put? ==> !p.db.readOnly)
      requires Leads(from, trace, View())
      modifies this`metadata
      ensures metadata == old(metadata)[id := q] && Leads(from, trace', View())
      ensures trace' == trace || trace' == trace + [Execute(id)]
      ensures match ExecOp(kind, store, p.db.buffer, Gets(p.response), p.req.ops[p.phase.done])
              case Refused(status) => error == Some(status) && q == p
              case Buffered(buffer, results) =>
                && error == None && Gets(q.response) == results
                && q == p.(phase := Executing(p.phase.done + 1), db := Open(p.db.readOnly, buffer),
                           response := q.response)
    {
      ghost var before := View();
      var op := p.req.ops[p.phase.done];
      ProcessOperationIsExec(kind, store, p.db, Gets(p.response), op);
      q, trace' := p, trace;
      UpdateSame(metadata, id);
      match op.action {
        case NoOp =>
        case Get(key) =>
          var value := Read(kind, store, p.db, key);
          if value.Missing? {
            return Some(value.status), p, trace;
          }
          q := q.(response := Committed(Gets(p.response) + [GetResponse(op.ns, key, value.value)]));
        case Put(key, put) =>
          var value := NewValue(Read(kind, store, p.db, key), put);
          if value.Missing? {
            return Some(value.status), p, trace;
          }
          var answer := Write(p.db, key, value.value);
          if answer.error.Some? {
            return answer.error, p, trace;
          }
          q := q.(db := answer.db);
      }
      q := q.(phase := Executing(p.phase.done + 1));
      metadata := metadata[id := q];
      assert q == Executed(before, p);
      LeadsOne(from, trace, before, Execute(id));
      return None, q, trace + [Execute(id)];
    }

    /** What the invariant says of a transaction that is executing, whatever others
        have done to the store. */
    lemma Progress(id: TxnId, p: Part, from: Cohort, trace: seq<Step>)
      requires Inv(from) && Leads(from, trace, View())
      requires id in metadata && metadata[id] == p && p.phase.Executing?
      ensures ExecutedTo(View(), p, p.phase.done)
      ensures p.phase.done < |p.req.ops| && p.req.ops[p.phase.done].action.Put? ==> !p.db.readOnly
    {
      LeadsInv(from, trace, View());
      assert PartAt(View(), id);
      if p.phase.done < |p.req.ops| {
        LocksCoverAccesses(kind, p.req.ops, p.phase.done);
      }
    }

    /** The next operation, unless the database fails of its own. */
    method ExecuteNext(id: TxnId, p: Part, broken: nat -> Option<Status>,
                       ghost alone: bool, ghost from: Cohort, ghost trace: seq<Step>)
      returns (error: Option<Status>, q: Part, ghost trace': seq<Step>)
      requires Mine(id).part == Some(p) && p.phase.Executing? && p.phase.done < |p.req.ops|
      requires Here(id, alone, from, trace)
      modifies this`metadata
      ensures Here(id, alone, from, trace') && Mine(id) == old(Mine(id)).(part := Some(q)) && q.req == p.req
      ensures error == ErrorAt(kind, store, p.req.ops, broken, p.phase.done)
      ensures alone && Clean(from, p.req.ops, broken, p.phase.done) ==>
                if error.None? then Clean(from, p.req.ops, broken, p.phase.done + 1)
                else Verdict(from, p.req.ops, broken, error)
      ensures q.phase == if error.Some? then p.phase else Executing(p.phase.done + 1)
    {
      Progress(id, p, from, trace);
      StoreSoFar(id, p, alone, from, trace);
      if Clean(from, p.req.ops, broken, p.phase.done) {
        ErrorFound(from, p, broken);
      }
      ExecSnoc(kind, store, p.req.ops, p.phase.done);
      UpdateSame(metadata, id);
      error := broken(p.phase.done);
      if error.Some? {
        return error, p, trace;
      }
      error, q, trace' := ProcessOperationInDb(id, p, from, trace);
    }

    method BeginInDb(id: TxnId, p: Part, ghost from: Cohort, ghost trace: seq<Step>)
      returns (q: Part, ghost trace': seq<Step>)
      requires id in metadata && metadata[id] == p && p.phase == Locking && p.db == Closed && AllLocked(kind, p)
      requires Leads(from, trace, View())
      modifies this`metadata
      ensures metadata == old(metadata)[id := q] && Leads(from, trace', View()) && trace' == trace + [Begin(id)]
      ensures q == p.(phase := Executing(0), db := Open(p.writeHeld == {}, map[]))
    {
      ghost var before := View();
      var answer := if p.writeHeld == {} then AfterBegin(p.db, true) else AfterBegin(p.db, false);
      q := p.(phase := Executing(0), db := answer.db);
      metadata := metadata[id := q];
      LeadsOne(from, trace, before, Begin(id));
      trace' := trace + [Begin(id)];
    }

    /** Others run, then the next operation. */
    method PauseAndExecute(id: TxnId, p: Part, broken: nat -> Option<Status>,
                           ghost alone: bool, ghost from: Cohort, ghost trace: seq<Step>)
      returns (error: Option<Status>, q: Part, ghost trace': seq<Step>)
      requires Mine(id).part == Some(p) && p.phase.Executing? && p.phase.done < |p.req.ops|
      requires Here(id, alone, from, trace)
      modifies this
      ensures Stands(old(Mine(id)), id, q, alone, from, trace') && q.req == p.req
      ensures alone && Clean(from, p.req.ops, broken, p.phase.done) ==>
                if error.None? then Clean(from, p.req.ops, broken, p.phase.done + 1)
                else Verdict(from, p.req.ops, broken, error)
      ensures q.phase == if error.Some? then p.phase else Executing(p.phase.done + 1)
    {
      trace' := Others(id, alone, from, trace);
      error, q, trace' := ExecuteNext(id, p, broken, alone, from, trace');
    }

    /** The transaction stands at `q`; all else that is held of it is as it was. */
    ghost predicate Stands(was: Own, id: TxnId, q: Part, alone: bool, from: Cohort, trace: seq<Step>)
      reads this
    {
      Here(id, alone, from, trace) && Mine(id) == was.(part := Some(q))
    }

    /** Runs the operations in order up to the first failure. */
    method ExecuteAll(id: TxnId, p: Part, broken: nat -> Option<Status>,
                      ghost alone: bool, ghost from: Cohort, ghost trace: seq<Step>)
      returns (error: Option<Status>, q: Part, ghost trace': seq<Step>)
      requires Mine(id).part == Some(p) && p.phase == Executing(0) && Here(id, alone, from, trace)
      modifies this
      ensures Stands(old(Mine(id)), id, q, alone, from, trace') && q.req == p.req
      ensures error.None? ==> q.phase == Executing(|q.req.ops|)
      ensures error.Some? ==> q.phase.Executing? && q.phase.done < |q.req.ops|
      ensures alone ==> Verdict(from, p.req.ops, broken, error)
    {
      q, trace', error := p, trace, None;
      CleanFromTheStart(from, p.req.ops, broken);
      ghost var was := Mine(id);
      while q.phase.done < |q.req.ops|
        invariant q.phase.Executing? && q.phase.done <= |q.req.ops| && q.req == p.req
        invariant Stands(was, id, q, alone, from, trace')
        invariant error == None && (alone ==> Clean(from, p.req.ops, broken, q.phase.done))
        decreases |p.req.ops| - q.phase.done
      {
        error, q, trace' := PauseAndExecute(id, q, broken, alone, from, trace');
        if error.Some? {
          return;
        }
      }
    }

    /** Locks, opens the database transaction and runs the operations in order.
        `broken(n)` is a database failure of its own at operation n. */
    method ProcessTransactionInDb(id: TxnId, p: Part, granted: Lock -> bool, broken: nat -> Option<Status>,
                                  ghost alone: bool, ghost from: Cohort, ghost trace: seq<Step>)
      returns (error: Option<Status>, q: Part, ghost trace': seq<Step>)
      requires Mine(id).part == Some(p) && p == Part(p.req, Locking, {}, {}, Closed, Pending)
      requires Here(id, alone, from, trace) && from.kind == kind
      modifies this
      ensures Here(id, alone, from, trace') && Mine(id) == old(Mine(id)).(part := Some(q)) && q.req == p.req
      ensures error.None? ==> q.phase == Executing(|q.req.ops|)
      ensures error.Some? ==> q.phase == Locking || (q.phase.Executing? && q.phase.done < |q.req.ops|)
      ensures alone ==> error == Blocker(from, p.req.ops, granted, broken)
    {
      error, q, trace' := AcquireDbLocks(id, p, granted, alone, from, trace);
      if error.Some? {
        return;
      }
      trace' := Others(id, alone, from, trace');
      q, trace' := BeginInDb(id, q, from, trace');
      error, q, trace' := ExecuteAll(id, q, broken, alone, from, trace');
      assert alone ==> FirstIs(true, from, p.req.ops, broken, |p.req.ops|, error);
    }

    // ----- ends -----

    /** Unlocks what the transaction lists, publishes its reply and forgets it. */
    method ReleaseLocksAndDeleteMetadata(id: TxnId, ghost from: Cohort, ghost trace: seq<Step>)
      requires id in metadata && metadata[id].phase in {Applied, Dropped}
      requires Leads(from, trace, View())
      modifies this`metadata, this`finalResponses, this`readers, this`writers
      ensures metadata == old(metadata) - {id}
      ensures finalResponses == old(finalResponses)[id := old(metadata[id]).response]
      ensures Leads(from, trace + [Release(id)], View())
    {
      ghost var before := View();
      var p := metadata[id];
      writers := writers - p.writeHeld;
      readers := readers - (set l | l in p.readHeld :: (l, id));
      finalResponses := finalResponses[id := p.response];
      metadata := metadata - {id};
      LeadsOne(from, trace, before, Release(id));
    }

    /** The end, after whatever others do before the locks are released. */
    method EndTransaction(id: TxnId, p: Part, ghost alone: bool, ghost from: Cohort, ghost trace: seq<Step>)
      returns (ghost trace': seq<Step>)
      requires Mine(id).part == Some(p) && (p.phase == Applied || p.phase == Dropped) && Here(id, alone, from, trace)
      modifies this
      ensures Here(id, alone, from, trace') && Mine(id) == old(Mine(id)).(part := None, reply := Some(p.response))
      ensures alone ==> store == old(store)
    {
      trace' := Others(id, alone, from, trace);
      ReleaseLocksAndDeleteMetadata(id, from, trace');
      trace' := trace' + [Release(id)];
    }

    /** The database commit itself. */
    method ApplyBuffer(id: TxnId, p: Part, closed: Adapter, ghost from: Cohort, ghost trace: seq<Step>)
      returns (q: Part)
      requires id in metadata && metadata[id] == p && p.phase == Committing && p.db.Open? && closed == Closed
      requires Leads(from, trace, View())
      modifies this`store, this`metadata, this`log, this`applied
      ensures q == p.(phase := Applied, db := Closed, response := Committed(Gets(p.response)))
      ensures metadata == old(metadata)[id := q] && store == old(store) + p.db.buffer
      ensures Leads(from, trace + [Apply(id)], View())
    {
      ghost var before := View();
      store := store + p.db.buffer;
      q := p.(phase := Applied, db := closed, response := Committed(Gets(p.response)));
      metadata := metadata[id := q];
      log, applied := log + [Entry(p.req, Gets(p.response))], applied + {id};
      LeadsOne(from, trace, before, Apply(id));
    }

    /** `retries` is how often the database fails for a moment before it commits.
        Without such failures the first pass succeeds, because the adapter's own
        state never stands in the way. */
    method CommitTransaction(id: TxnId, p: Part, retries: nat,
                             ghost alone: bool, ghost from: Cohort, ghost trace: seq<Step>)
      returns (passes: nat, ghost trace': seq<Step>)
      requires Mine(id).part == Some(p) && p.phase == Committing && Here(id, alone, from, trace)
      modifies this
      ensures Here(id, alone, from, trace') && passes == retries + 1
      ensures Mine(id) == old(Mine(id)).(part := None, reply := Some(Committed(Gets(p.response))))
      ensures alone ==> Run(kind, from.store, p.req.ops) == Done(store, Gets(p.response))
    {
      CommitRuns(id, p, from, trace);
      var closed := Answer(Some(Internal), p.db);
      passes, trace' := 0, trace;
      while closed.error.Some?
        invariant closed.error.Some? ==> passes <= retries
        invariant closed.error.None? ==> passes == retries + 1 && closed.db == Closed
        invariant Here(id, alone, from, trace') && Mine(id) == old(Mine(id))
        decreases retries + 1 - passes
      {
        trace' := Others(id, alone, from, trace');
        closed := if passes < retries then Answer(Some(DeadlineExceeded), p.db) else AfterClose(p.db);
        passes := passes + 1;
      }
      CommitRuns(id, p, from, trace');
      if alone {
        OwnSoFar(from, trace', View(), id);
      }
      var q := ApplyBuffer(id, p, closed.db, from, trace');
      trace' := EndTransaction(id, q, alone, from, trace' + [Apply(id)]);
    }

    lemma CommitRuns(id: TxnId, p: Part, from: Cohort, trace: seq<Step>)
      requires Inv(from) && Leads(from, trace, View())
      requires id in metadata && metadata[id] == p && p.phase == Committing
      ensures p.db.Open? && Run(kind, store, p.req.ops) == Done(store + p.db.buffer, Gets(p.response))
    {
      LeadsInv(from, trace, View());
      assert PartAt(View(), id);
      ApplyRuns(View(), id);
    }

    /** The abort of the database transaction, and of the whole one. */
    method DropBuffer(id: TxnId, p: Part, reason: AbortReason, ghost step: Step,
                      ghost from: Cohort, ghost trace: seq<Step>) returns (q: Part)
      requires id in metadata && metadata[id] == p && Leads(from, trace, View())
      requires Enabled(View(), step) && Next(View(), step) == Drop(View(), id, reason)
      modifies this`metadata, this`dropped
      ensures q == p.(phase := Dropped, db := Closed, response := Aborted(reason))
      ensures metadata == old(metadata)[id := q] && Leads(from, trace + [step], View())
    {
      ghost var before := View();
      q := p.(phase := Dropped, db := AfterClose(p.db).db, response := Aborted(reason));
      metadata := metadata[id := q];
      dropped := dropped + {id};
      LeadsOne(from, trace, before, step);
    }

    method CastAbort(id: TxnId, p: Part, status: Status, ghost from: Cohort, ghost trace: seq<Step>) returns (q: Part)
      requires id in metadata && metadata[id] == p && Leads(from, trace, View())
      requires Refusable(p)
      modifies this`metadata, this`dropped, this`outbox
      ensures q == p.(phase := Dropped, db := Closed, response := Aborted(ReasonOf(status)))
      ensures metadata == old(metadata)[id := q] && Leads(from, trace + [Refuse(id, status)], View())
      ensures outbox == old(outbox) + [Vote(id, p.req.index, AbortBallot)]
      ensures VotesOf(outbox, id) == VotesOf(old(outbox), id) + [Vote(id, p.req.index, AbortBallot)]
    {
      VotesOfMore(outbox, Vote(id, p.req.index, AbortBallot));
      outbox := outbox + [Vote(id, p.req.index, AbortBallot)];
      q := DropBuffer(id, p, ReasonOf(status), Refuse(id, status), from, trace);
    }

    /** With a status the cohort refuses: it casts an abort ballot and derives the
        reason. Without one it follows the contract, and the reason is not set. */
    method AbortTransaction(id: TxnId, p: Part, status: Option<Status>, unset: AbortReason,
                            ghost alone: bool, ghost from: Cohort, ghost trace: seq<Step>)
      returns (ghost trace': seq<Step>)
      requires Mine(id).part == Some(p) && Here(id, alone, from, trace)
      requires if status.Some? then Refusable(p) else p.phase == Voted
      modifies this
      ensures Here(id, alone, from, trace') && (alone ==> store == from.store)
      ensures id in finalResponses && finalResponses[id] ==
                Aborted(if status.None? then unset
                        else if status == Some(DeadlineExceeded) then TimestampReached
                        else if status == Some(NotFound) then NonExistentValue
                        else Unspecified)
      ensures Mine(id) == old(Mine(id)).(
                part := None,
                reply := Some(Aborted(if status.Some? then ReasonOf(status.value) else unset)),
                votes := old(Mine(id)).votes + if status.Some? then [Vote(id, p.req.index, AbortBallot)] else [])
    {
      assert old(Mine(id)).votes + [] == old(Mine(id)).votes;
      if status.Some? {
        trace' := RefuseTransaction(id, p, status.value, alone, from, trace);
      } else {
        trace' := FollowAbort(id, p, unset, alone, from, trace);
      }
    }

    method RefuseTransaction(id: TxnId, p: Part, status: Status,
                             ghost alone: bool, ghost from: Cohort, ghost trace: seq<Step>)
      returns (ghost trace': seq<Step>)
      requires Mine(id).part == Some(p) && Here(id, alone, from, trace) && Refusable(p)
      modifies this
      ensures Here(id, alone, from, trace') && (alone ==> store == from.store)
      ensures Mine(id) == old(Mine(id)).(part := None, reply := Some(Aborted(ReasonOf(status))),
                                         votes := old(Mine(id)).votes + [Vote(id, p.req.index, AbortBallot)])
    {
      StoreSoFar(id, p, alone, from, trace);
      var q := CastAbort(id, p, status, from, trace);
      OwnOnlyMore(trace, Refuse(id, status), id);
      trace' := EndTransaction(id, q, alone, from, trace + [Refuse(id, status)]);
    }

    method FollowAbort(id: TxnId, p: Part, unset: AbortReason,
                       ghost alone: bool, ghost from: Cohort, ghost trace: seq<Step>)
      returns (ghost trace': seq<Step>)
      requires Mine(id).part == Some(p) && Here(id, alone, from, trace) && p.phase == Voted
      modifies this
      ensures Here(id, alone, from, trace') && (alone ==> store == from.store)
      ensures Mine(id) == old(Mine(id)).(part := None, reply := Some(Aborted(unset)))
    {
      StoreSoFar(id, p, alone, from, trace);
      var q := DropBuffer(id, p, unset, LearnAbort(id, unset), from, trace);
      OwnOnlyMore(trace, LearnAbort(id, unset), id);
      trace' := EndTransaction(id, q, alone, from, trace + [LearnAbort(id, unset)]);
    }

    lemma StoreSoFar(id: TxnId, p: Part, alone: bool, from: Cohort, trace: seq<Step>)
      requires Mine(id).part == Some(p) && Here(id, alone, from, trace)
      ensures alone ==> kind == from.kind && (!p.phase.Applied? ==> store == from.store)
    {
      if alone {
        OwnSoFar(from, trace, View(), id);
      }
    }

    // ----- the whole call -----

    /** A step that only moves the transaction to another phase. */
    method Advance(id: TxnId, p: Part, phase: Phase, ghost step: Step, ghost from: Cohort, ghost trace: seq<Step>)
      returns (q: Part)
      requires id in metadata && metadata[id] == p && Leads(from, trace, View())
      requires Enabled(View(), step) && Next(View(), step) == Set(View(), id, p.(phase := phase))
      modifies this`metadata
      ensures q == p.(phase := phase) && metadata == old(metadata)[id := q]
      ensures Leads(from, trace + [step], View())
    {
      ghost var before := View();
      q := p.(phase := phase);
      metadata := metadata[id := q];
      LeadsOne(from, trace, before, step);
    }

    method SaveResponses(id: TxnId, p: Part, ghost from: Cohort, ghost trace: seq<Step>)
      requires id in metadata && metadata[id] == p && Leads(from, trace, View())
      requires p.phase == Executing(|p.req.ops|) && !p.req.onlyCohort
      modifies this`savedResponses
      ensures savedResponses == old(savedResponses)[id := Gets(p.response)]
      ensures Leads(from, trace + [SaveResponse(id)], View())
    {
      ghost var before := View();
      savedResponses := savedResponses[id := Gets(p.response)];
      LeadsOne(from, trace, before, SaveResponse(id));
    }

    method SaveRequests(id: TxnId, p: Part, ghost from: Cohort, ghost trace: seq<Step>) returns (q: Part)
      requires id in metadata && metadata[id] == p && Leads(from, trace, View())
      requires p.phase == Executing(|p.req.ops|) && !p.req.onlyCohort && id in savedResponses
      modifies this`savedRequests, this`metadata
      ensures savedRequests == old(savedRequests)[id := p.req]
      ensures q == p.(phase := Persisted) && metadata == old(metadata)[id := q]
      ensures Leads(from, trace + [Persist(id)], View())
    {
      ghost var before := View();
      savedRequests := savedRequests[id := p.req];
      q := p.(phase := Persisted);
      metadata := metadata[id := q];
      LeadsOne(from, trace, before, Persist(id));
    }

    /** First the results, then the request; either write may fail. */
    method PersistTransaction(id: TxnId, p: Part, disk: Disk,
                              ghost alone: bool, ghost from: Cohort, ghost trace: seq<Step>)
      returns (error: Option<Status>, q: Part, ghost trace': seq<Step>)
      requires Mine(id).part == Some(p) && p.phase == Executing(|p.req.ops|) && !p.req.onlyCohort
      requires Here(id, alone, from, trace)
      modifies this
      ensures Here(id, alone, from, trace')
      ensures if disk.responseWritten && disk.requestWritten
              then error == None && q == p.(phase := Persisted) else error == Some(Internal) && q == p
      ensures Mine(id) == old(Mine(id)).(
                part := Some(q),
                savedResponse := if disk.responseWritten then Some(Gets(p.response)) else old(Mine(id)).savedResponse,
                savedRequest := if error.None? then Some(p.req) else old(Mine(id)).savedRequest)
    {
      q, trace' := p, trace;
      if !disk.responseWritten {
        return Some(Internal), q, trace';
      }
      SaveResponses(id, p, from, trace);
      trace' := Others(id, alone, from, trace + [SaveResponse(id)]);
      if !disk.requestWritten {
        return Some(Internal), q, trace';
      }
      q := SaveRequests(id, p, from, trace');
      return None, q, trace' + [Persist(id)];
    }

    method CastCommit(id: TxnId, p: Part, ghost from: Cohort, ghost trace: seq<Step>) returns (q: Part)
      requires id in metadata && metadata[id] == p && p.phase == Persisted && Leads(from, trace, View())
      modifies this`metadata, this`outbox, this`promised
      ensures q == p.(phase := Voted) && metadata == old(metadata)[id := q]
      ensures outbox == old(outbox) + [Vote(id, p.req.index, CommitBallot)]
      ensures VotesOf(outbox, id) == VotesOf(old(outbox), id) + [Vote(id, p.req.index, CommitBallot)]
      ensures Leads(from, trace + [Promise(id)], View())
    {
      ghost var before := View();
      VotesOfMore(outbox, Vote(id, p.req.index, CommitBallot));
      outbox := outbox + [Vote(id, p.req.index, CommitBallot)];
      q := p.(phase := Voted);
      metadata := metadata[id := q];
      promised := promised + {id};
      LeadsOne(from, trace, before, Promise(id));
    }

    method ReceiveRequest(req: Request) returns (p: Part, ghost trace: seq<Step>)
      requires req.id !in metadata && req.id !in finalResponses
      modifies this`metadata
      ensures p == Part(req, Locking, {}, {}, Closed, Pending) && metadata == old(metadata)[req.id := p]
      ensures Leads(old(View()), trace, View()) && trace == [Receive(req)]
    {
      ghost var before := View();
      p := Part(req, Locking, {}, {}, Closed, Pending);
      metadata := metadata[req.id := p];
      LeadsNowhere(before);
      LeadsOne(before, [], before, Receive(req));
      assert [] + [Receive(req)] == [Receive(req)];
      trace := [Receive(req)];
    }

    /** Commits, having learned the decision or being alone. */
    method AdvanceAndCommit(id: TxnId, p: Part, ghost step: Step, retries: nat,
                            ghost alone: bool, ghost from: Cohort, ghost trace: seq<Step>)
      returns (ghost trace': seq<Step>)
      requires Mine(id).part == Some(p) && Here(id, alone, from, trace)
      requires (p.phase == Executing(|p.req.ops|) && p.req.onlyCohort && step == CommitAlone(id))
            || (p.phase == Voted && step == LearnCommit(id))
      modifies this
      ensures Here(id, alone, from, trace')
      ensures Mine(id) == old(Mine(id)).(part := None, reply := Some(Committed(Gets(p.response))))
      ensures alone ==> Run(kind, from.store, p.req.ops) == Done(store, Gets(p.response))
    {
      var q := Advance(id, p, Committing, step, from, trace);
      var _, done := CommitTransaction(id, q, retries, alone, from, trace + [step]);
      trace' := done;
    }

    method CastAndPause(id: TxnId, p: Part, ghost alone: bool, ghost from: Cohort, ghost trace: seq<Step>)
      returns (q: Part, ghost trace': seq<Step>)
      requires Mine(id).part == Some(p) && p.phase == Persisted && Here(id, alone, from, trace)
      modifies this
      ensures Here(id, alone, from, trace') && q == p.(phase := Voted)
      ensures Mine(id) == old(Mine(id)).(part := Some(q),
                                         votes := old(Mine(id)).votes + [Vote(id, p.req.index, CommitBallot)])
    {
      q := CastCommit(id, p, from, trace);
      OwnOnlyMore(trace, Promise(id), id);
      trace' := Others(id, alone, from, trace + [Promise(id)]);
    }

    /** Casts the commit ballot, waits for the decision and follows it. `attempts`
        are the reads of the decision. */
    method VoteAndFollow(id: TxnId, p: Part, attempts: seq<Waiting.Attempt>, unset: AbortReason, retries: nat,
                         ghost alone: bool, ghost from: Cohort, ghost trace: seq<Step>)
      returns (ghost trace': seq<Step>)
      requires Mine(id).part == Some(p) && p.phase == Persisted && Here(id, alone, from, trace)
      requires Waiting.FirstDecision(attempts).Some?
      modifies this
      ensures Here(id, alone, from, trace')
      ensures var commit := Waiting.FirstDecision(attempts) == Some(CommitDecision);
              && Mine(id) == old(Mine(id)).(
                   part := None, reply := Some(if commit then Committed(Gets(p.response)) else Aborted(unset)),
                   votes := old(Mine(id)).votes + [Vote(id, p.req.index, CommitBallot)])
              && (alone ==> if commit then Run(kind, from.store, p.req.ops) == Done(store, Gets(p.response))
                            else store == from.store)
    {
      var q;
      q, trace' := CastAndPause(id, p, alone, from, trace);
      var answer, _, _ := Waiting.WaitForBlockchainDecision(attempts);
      if answer == Some(CommitDecision) {
        trace' := AdvanceAndCommit(id, q, LearnCommit(id), retries, alone, from, trace');
      } else {
        trace' := AbortTransaction(id, q, None, unset, alone, from, trace');
      }
    }

    /** Up to the last operation. */
    method ExecuteRequest(req: Request, granted: Lock -> bool, broken: nat -> Option<Status>, ghost alone: bool)
      returns (error: Option<Status>, p: Part, ghost trace: seq<Step>)
      requires Inv(View()) && req.id !in metadata && req.id !in finalResponses
      modifies this
      ensures Here(req.id, alone, old(View()), trace) && p.req == req
      ensures Mine(req.id) == old(Mine(req.id)).(part := Some(p))
      ensures error.None? ==> p.phase == Executing(|req.ops|)
      ensures error.Some? ==> Refusable(p)
      ensures alone ==> error == Blocker(old(View()), req.ops, granted, broken)
    {
      p, trace := ReceiveRequest(req);
      trace := Others(req.id, alone, old(View()), trace);
      error, p, trace := ProcessTransactionInDb(req.id, p, granted, broken, alone, old(View()), trace);
    }

    /** What follows the last operation. */
    method FinishRequest(id: TxnId, p: Part, disk: Disk, attempts: seq<Waiting.Attempt>, unset: AbortReason,
                         retries: nat, ghost alone: bool, ghost from: Cohort, ghost trace: seq<Step>)
      returns (ghost trace': seq<Step>)
      requires Mine(id).part == Some(p) && p.phase == Executing(|p.req.ops|) && p.req.id == id
      requires Waiting.FirstDecision(attempts).Some? && Here(id, alone, from, trace)
      modifies this
      ensures Here(id, alone, from, trace')
      ensures Ended(old(Mine(id)), Mine(id), p.req, Waiting.FirstDecision(attempts).value, unset)
      ensures Mine(id).votes == old(Mine(id)).votes
                + (if p.req.onlyCohort then []
                   else if disk.responseWritten && disk.requestWritten then [Vote(id, p.req.index, CommitBallot)]
                   else [Vote(id, p.req.index, AbortBallot)])
      ensures alone ==>
                var reply := Mine(id).reply.value;
                if !p.req.onlyCohort && !(disk.responseWritten && disk.requestWritten) then
                  reply == Aborted(ReasonOf(Internal)) && store == from.store
                else if p.req.onlyCohort || Waiting.FirstDecision(attempts) == Some(CommitDecision) then
                  reply.Committed? && Run(kind, from.store, p.req.ops) == Done(store, reply.results)
                else reply == Aborted(unset) && store == from.store
    {
      if p.req.onlyCohort {
        trace' := AdvanceAndCommit(id, p, CommitAlone(id), retries, alone, from, trace);
        return;
      }
      var error, q;
      error, q, trace' := PersistTransaction(id, p, disk, alone, from, trace);
      if error.Some? {
        trace' := AbortTransaction(id, q, error, unset, alone, from, trace');
      } else {
        trace' := VoteAndFollow(id, q, attempts, unset, retries, alone, from, trace');
      }
    }

    method ServeRequest(req: Request, granted: Lock -> bool, broken: nat -> Option<Status>, disk: Disk,
                        attempts: seq<Waiting.Attempt>, unset: AbortReason, retries: nat, ghost alone: bool)
      returns (ghost trace: seq<Step>)
      requires Inv(View()) && req.id !in metadata && req.id !in finalResponses
      requires Waiting.FirstDecision(attempts).Some?
      modifies this
      ensures Here(req.id, alone, old(View()), trace)
      ensures Ended(old(Mine(req.id)), Mine(req.id), req, Waiting.FirstDecision(attempts).value, unset)
      ensures alone ==>
                Determined(old(View()), store, Mine(req.id).reply.value, old(Mine(req.id)).votes, Mine(req.id).votes,
                           req, granted, broken, disk, Waiting.FirstDecision(attempts).value, unset)
    {
      var error, p;
      error, p, trace := ExecuteRequest(req, granted, broken, alone);
      if error.Some? {
        trace := AbortTransaction(req.id, p, error, unset, alone, old(View()), trace);
      } else {
        trace := FinishRequest(req.id, p, disk, attempts, unset, retries, alone, old(View()), trace);
      }
    }

    /** One whole call. Other threads may run between any two of its steps; still
        the call is a run of the step machine, keeps the invariant, and ends in one
        of three ways: it refuses with one abort ballot, it commits alone without a
        ballot, or it persists, casts one commit ballot and follows the decision
        it waited for, publishing on a commit exactly the results on disk.
        If the call is alone, its outcome is determined: it refuses exactly when
        something stops it before its vote, with that reason; a commit changes the
        store as running the operations does, anything else leaves it; the lock
        table and the other transactions end as they were. */
    method ProcessTransaction(req: Request, granted: Lock -> bool, broken: nat -> Option<Status>, disk: Disk,
                              attempts: seq<Waiting.Attempt>, unset: AbortReason, retries: nat, ghost alone: bool)
      returns (ghost trace: seq<Step>)
      requires Inv(View()) && req.id !in metadata && req.id !in finalResponses
      requires Waiting.FirstDecision(attempts).Some?
      modifies this
      ensures Inv(View()) && Leads(old(View()), trace, View())
      ensures Ended(old(Mine(req.id)), Mine(req.id), req, Waiting.FirstDecision(attempts).value, unset)
      ensures (Mine(req.id).reply.value.Committed? <==> req.id in applied)
           && (Mine(req.id).reply.value.Aborted? <==> req.id in dropped)
      ensures alone && Mine(req.id).reply.value.Committed? ==>
                forall key | key in old(store) && PutsOnlyRelatively(req.ops, key) ::
                  key in store && store[key] == old(store)[key] + SumOfDeltas(req.ops, key)
      ensures alone ==>
                && Determined(old(View()), store, Mine(req.id).reply.value, old(Mine(req.id)).votes, Mine(req.id).votes,
                              req, granted, broken, disk, Waiting.FirstDecision(attempts).value, unset)
                && metadata == old(metadata) && readers == old(readers) && writers == old(writers)
                && forall u | u != req.id :: SameFor(old(View()), View(), u)
    {
      trace := ServeRequest(req, granted, broken, disk, attempts, unset, retries, alone);
      LeadsInv(old(View()), trace, View());
      assert SeenOk(View(), req.id);
      if alone {
        AloneEnds(old(View()), trace, View(), req.id);
        if Mine(req.id).reply.value.Committed? {
          forall key | key in old(store) && PutsOnlyRelatively(req.ops, key)
            ensures key in store && store[key] == old(store)[key] + SumOfDeltas(req.ops, key)
          {
            AloneAddsUp(old(View()), store, Mine(req.id).reply.value, old(Mine(req.id)).votes, Mine(req.id).votes,
                        req, granted, broken, disk, Waiting.FirstDecision(attempts).value, unset, key);
          }
        }
      }
    }

    /** The reply that is published, pending until then. */
    method GetTransactionResult(id: TxnId) returns (reply: Reply)
      ensures reply == Published(View(), id)
      ensures if id in finalResponses then reply == finalResponses[id] else reply == Pending
    {
      if id in finalResponses {
        return finalResponses[id];
      }
      return Pending;
    }
  }
}
