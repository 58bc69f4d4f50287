/** The coordinator's calls as functions of its two maps, and what holds over
    every sequence of calls. */
module CoordinatorProtocol {
  import opened Common
  import opened Semantics

  // ----- splitting -----

  datatype SubTransaction = SubTransaction(ns: Namespace, ops: seq<Op>)

  /** The namespace of the last operation at an address. */
  function LastNamespace(ops: seq<Op>, a: Address): Namespace {
    if ops == [] then Namespace("", "")
    else if ops[|ops| - 1].ns.address == a then ops[|ops| - 1].ns
    else LastNamespace(ops[..|ops| - 1], a)
  }

  /** One sub-transaction per address, in any order, each with the operations of
      its address in their original order. */
  ghost predicate IsSplit(ops: seq<Op>, subs: seq<SubTransaction>) {
    && (forall i | 0 <= i < |subs| ::
          && subs[i].ns.address in Addresses(ops)
          && subs[i].ops == OpsFor(ops, subs[i].ns.address)
          && subs[i].ns == LastNamespace(ops, subs[i].ns.address))
    && (forall a | a in Addresses(ops) :: exists i :: 0 <= i < |subs| && subs[i].ns.address == a)
    && (forall i, j | 0 <= i < j < |subs| :: subs[i].ns.address != subs[j].ns.address)
  }

  /** What a cohort makes of its sub-transaction on its own store. */
  function RunSub(kinds: Kinds, g: GStore, sub: SubTransaction): Outcome {
    Run(KindOf(kinds, sub.ns.address), Slice(g, sub.ns.address), sub.ops)
  }

  /** Splitting preserves meaning. The client's operations succeed in order on the
      combined store if and only if every sub-transaction succeeds on its own
      cohort's store; then each cohort ends with its part of the combined store
      and with its part of the Get results, and no other cohort is touched. */
  lemma SplittingPreservesMeaning(kinds: Kinds, g: GStore, ops: seq<Op>, subs: seq<SubTransaction>)
    requires IsSplit(ops, subs)
    ensures var whole := GRun(kinds, g, ops);
            && (whole.GDone? <==> forall i | 0 <= i < |subs| :: RunSub(kinds, g, subs[i]).Done?)
            && (whole.GDone? ==>
                  && (forall i | 0 <= i < |subs| :: RunSub(kinds, g, subs[i]) == GSlice(whole, subs[i].ns.address))
                  && (forall a | a !in Addresses(ops) :: GSlice(whole, a) == Done(Slice(g, a), [])))
  {
    SplitSuccessIff(kinds, g, ops);
    forall a | a in Addresses(ops)
      ensures exists i :: 0 <= i < |subs| && subs[i].ns.address == a
                          && RunSub(kinds, g, subs[i]) == Run(KindOf(kinds, a), Slice(g, a), OpsFor(ops, a))
    {
      var i :| 0 <= i < |subs| && subs[i].ns.address == a;
      assert RunSub(kinds, g, subs[i]) == Run(KindOf(kinds, a), Slice(g, a), OpsFor(ops, a));
    }
    if GRun(kinds, g, ops).GDone? {
      forall i | 0 <= i < |subs| ensures RunSub(kinds, g, subs[i]) == GSlice(GRun(kinds, g, ops), subs[i].ns.address) {
        SplitSuccess(kinds, g, ops, subs[i].ns.address);
      }
      forall a | a !in Addresses(ops) ensures GSlice(GRun(kinds, g, ops), a) == Done(Slice(g, a), []) {
        OpsForNobody(ops, a);
        SplitSuccess(kinds, g, ops, a);
      }
    }
  }

  // ----- time -----

  const SECOND: int := 1_000_000_000

  /** A time in whole seconds and nanoseconds. */
  datatype Timestamp = Timestamp(seconds: int, nanos: int)

  function Nanos(t: Timestamp): int {
    t.seconds * SECOND + t.nanos
  }

  function ToTimestamp(nanos: int): Timestamp {
    Timestamp(nanos / SECOND, nanos % SECOND)
  }

  /** None: the abort time asked for is in the past. */
  function ComputeFinalConfig(asked: Option<Timestamp>, now: int, defaultDuration: int): Option<Timestamp> {
    var abortTime := match asked case Some(t) => Nanos(t) case None => now + defaultDuration;
    if abortTime < now then None else Some(ToTimestamp(abortTime))
  }

  // ----- state -----

  datatype Meta = Meta(
    config: Timestamp, namespaces: seq<Namespace>, single: Option<Namespace>,
    sent: bool, decision: Decision, responded: set<Address>)

  const NO_META := Meta(Timestamp(0, 0), [], None, false, UnknownDecision, {})

  /** The reply kept for the client; `Unset` is a reply without a status. */
  datatype Response =
    | Unset
    | PendingResponse
    | CommittedResponse(complete: bool, results: seq<GetResponse>)
    | AbortedResponse(reason: AbortReason, namespaces: seq<Namespace>)

  datatype Stored = Stored(complete: bool, response: Response)

  datatype Coord = Coord(metadata: map<TxnId, Meta>, responses: map<TxnId, Stored>)

  function MetaOf(m: Coord, id: TxnId): Meta {
    if id in m.metadata then m.metadata[id] else NO_META
  }

  function StoredOf(m: Coord, id: TxnId): Stored {
    if id in m.responses then m.responses[id] else Stored(false, Unset)
  }

  predicate Complete(m: Coord, id: TxnId) {
    StoredOf(m, id).complete
  }

  // ----- CommitAtomicTransaction -----

  datatype VotingCall = VotingCall(timeout: int, cohorts: nat)

  datatype Prepare = Prepare(address: Address, config: Timestamp, req: Request)

  datatype CommitReply = Accepted(config: Timestamp) | PastAbortTime | VotingNotStarted(config: Timestamp)

  datatype CommitOutcome = CommitOutcome(
    coord: Coord, reply: CommitReply, voting: Option<VotingCall>, prepares: seq<Prepare>)

  function PrepareFor(id: TxnId, config: Timestamp, subs: seq<SubTransaction>, i: nat): Prepare
    requires i < |subs|
  {
    Prepare(subs[i].ns.address, config,
            Request(id, subs[i].ops, if |subs| == 1 then 0 else i, |subs| == 1))
  }

  function Prepares(id: TxnId, config: Timestamp, subs: seq<SubTransaction>): seq<Prepare> {
    seq(|subs|, i requires 0 <= i < |subs| => PrepareFor(id, config, subs, i))
  }

  function NamespacesOf(subs: seq<SubTransaction>): seq<Namespace> {
    seq(|subs|, i requires 0 <= i < |subs| => subs[i].ns)
  }

  /** The record while requests go out: j of them have been dealt with, and the
      flag goes up with the last. */
  function SendingMeta(meta: Meta, config: Timestamp, subs: seq<SubTransaction>, j: nat): Meta
    requires j <= |subs|
  {
    meta.(config := config, namespaces := meta.namespaces + NamespacesOf(subs)[..j],
          sent := meta.sent || j == |subs|,
          single := if |subs| == 1 then Some(subs[0].ns) else meta.single)
  }

  function SentMeta(meta: Meta, config: Timestamp, subs: seq<SubTransaction>): Meta {
    meta.(config := config, namespaces := meta.namespaces + NamespacesOf(subs), sent := true,
          single := if |subs| == 1 then Some(subs[0].ns) else meta.single)
  }

  /** `votingOk` is what the call that starts voting reports. */
  function Commit(m: Coord, id: TxnId, subs: seq<SubTransaction>, asked: Option<Timestamp>, now: int,
                  defaultDuration: int, votingOk: bool): CommitOutcome {
    var meta := MetaOf(m, id);
    var seen := m.(metadata := m.metadata[id := meta]);
    if meta.sent then CommitOutcome(seen, Accepted(meta.config), None, []) else
    match ComputeFinalConfig(asked, now, defaultDuration)
    case None => CommitOutcome(seen, PastAbortTime, None, [])
    case Some(config) =>
      var dated := m.(metadata := m.metadata[id := meta.(config := config)]);
      if subs == [] then CommitOutcome(dated, Accepted(config), None, []) else
      var voting := if |subs| > 1 then Some(VotingCall(config.seconds, |subs|)) else None;
      if voting.Some? && !votingOk then CommitOutcome(dated, VotingNotStarted(config), voting, []) else
      CommitOutcome(m.(metadata := m.metadata[id := SentMeta(meta, config, subs)]),
                    Accepted(config), voting, Prepares(id, config, subs))
  }

  /** What the client is told of a submission, and which abort time it gets. With the
      flag up it gets the abort time kept. Otherwise the time it asked for, or the
      default duration from now: refused as past exactly when it is before now; not
      started exactly when voting was asked for and failed; accepted exactly when the
      requests went out or there was nothing to do. Told, stored, sent to every
      cohort and, in whole seconds, given to the contract, it is one and the same. */
  lemma CommitReplyIs(m: Coord, id: TxnId, subs: seq<SubTransaction>, asked: Option<Timestamp>, now: int,
                      defaultDuration: int, votingOk: bool)
    ensures var out, kept := Commit(m, id, subs, asked, now, defaultDuration, votingOk), MetaOf(m, id);
            var abort := match asked
                         case Some(t) => t.seconds * 1_000_000_000 + t.nanos
                         case None => now + defaultDuration;
            && (kept.sent ==> out.reply == Accepted(kept.config) && out.voting == None && out.prepares == [])
            && (out.reply == PastAbortTime <==> !kept.sent && abort < now)
            && (out.reply.VotingNotStarted? <==> out.voting.Some? && !votingOk)
            && (out.voting.Some? <==> !kept.sent && abort >= now && |subs| > 1)
            && (out.reply.Accepted? <==> kept.sent || out.prepares != [] || (abort >= now && subs == []))
            && (!kept.sent && out.reply != PastAbortTime ==>
                  var config := out.reply.config;
                  && config.seconds * 1_000_000_000 + config.nanos == abort && 0 <= config.nanos < 1_000_000_000
                  && MetaOf(out.coord, id).config == config
                  && (out.voting.Some? ==> out.voting.value == VotingCall(config.seconds, |subs|))
                  && forall i | 0 <= i < |out.prepares| :: out.prepares[i].config == config)
  {
  }

  /** The exact guard: prepares go out if and only if the id was not sent before
      (or its record was erased), the abort time is not past, there is something
      to do, and voting has started unless one cohort is alone. */
  lemma SendsExactlyWhen(m: Coord, id: TxnId, subs: seq<SubTransaction>, asked: Option<Timestamp>, now: int,
                         defaultDuration: int, votingOk: bool)
    ensures var out := Commit(m, id, subs, asked, now, defaultDuration, votingOk);
            && (out.prepares != [] <==>
                  && !MetaOf(m, id).sent && ComputeFinalConfig(asked, now, defaultDuration).Some?
                  && subs != [] && (|subs| == 1 || votingOk))
            && (out.prepares != [] ==>
                  && |out.prepares| == |subs| && MetaOf(out.coord, id).sent
                  && (|subs| > 1 ==> out.voting.Some? && out.voting.value.cohorts == |out.prepares|)
                  && (forall i | 0 <= i < |subs| ::
                        && out.prepares[i].req.index == i
                        && (out.prepares[i].req.onlyCohort <==> |subs| == 1)
                        && out.prepares[i].address == subs[i].ns.address))
            && (out.voting.Some? ==> !MetaOf(m, id).sent)
  {
  }

  // ----- GetTransactionResult -----

  datatype PollOutcome = PollOutcome(coord: Coord, reply: Option<Response>)

  function Finish(m: Coord, id: TxnId, response: Response): Coord {
    m.(responses := m.responses[id := Stored(true, response)], metadata := m.metadata - {id})
  }

  function Keep(m: Coord, id: TxnId, response: Response): Coord {
    m.(responses := m.responses[id := Stored(StoredOf(m, id).complete, response)])
  }

  function AddResults(response: Response, results: seq<GetResponse>): Response {
    if response.CommittedResponse? then response.(results := response.results + results)
    else CommittedResponse(false, results)
  }

  function MarkComplete(response: Response): Response {
    if response.CommittedResponse? then response.(complete := true) else CommittedResponse(true, [])
  }

  datatype Collected = Collected(responded: set<Address>, response: Response, count: nat)

  /** Asks the first n cohorts that have not answered yet. A cohort that is not
      in `answers` could not be reached. */
  function Collect(namespaces: seq<Namespace>, responded: set<Address>, response: Response,
                   answers: map<Address, Reply>, n: nat): Collected
    requires n <= |namespaces|
  {
    if n == 0 then Collected(responded, response, 0) else
    var before := Collect(namespaces, responded, response, answers, n - 1);
    var a := namespaces[n - 1].address;
    if a in before.responded then before.(count := before.count + 1)
    else if a in answers && answers[a].Committed? then
      Collected(before.responded + {a}, AddResults(before.response, answers[a].results), before.count + 1)
    else before
  }

  function PollSingle(m: Coord, id: TxnId, ns: Namespace, answers: map<Address, Reply>): PollOutcome {
    if ns.address !in answers then PollOutcome(m, None) else
    match answers[ns.address]
    case Aborted(reason) =>
      var kept := StoredOf(m, id).response;
      var response := AbortedResponse(reason, (if kept.AbortedResponse? then kept.namespaces else []) + [ns]);
      PollOutcome(Finish(m, id, response), Some(response))
    case Committed(results) =>
      var response := MarkComplete(AddResults(StoredOf(m, id).response, results));
      PollOutcome(Finish(m, id, response), Some(response))
    case Pending => PollOutcome(Keep(m, id, PendingResponse), Some(PendingResponse))
  }

  function PollCommitted(m: Coord, id: TxnId, meta: Meta, answers: map<Address, Reply>): PollOutcome {
    var got := Collect(meta.namespaces, meta.responded, StoredOf(m, id).response, answers, |meta.namespaces|);
    if got.count == |meta.namespaces| then
      PollOutcome(Finish(m, id, MarkComplete(got.response)), Some(MarkComplete(got.response)))
    else
      PollOutcome(Keep(m, id, got.response).(metadata := m.metadata[id := meta.(responded := got.responded)]),
                  Some(got.response))
  }

  /** A poll of a transaction at several cohorts. */
  function PollMany(m: Coord, id: TxnId, meta: Meta, decision: Option<Decision>,
                    answers: map<Address, Reply>): PollOutcome {
    var open := meta.decision == PendingDecision || meta.decision == UnknownDecision;
    if open && decision.None? then PollOutcome(m, None) else
    var known := meta.(decision := if open then decision.value else meta.decision);
    var m := m.(metadata := m.metadata[id := known]);
    match known.decision
    case CommitDecision => PollCommitted(m, id, known, answers)
    case AbortDecision =>
      var kept := StoredOf(m, id).response;
      var response := if kept.AbortedResponse? then kept else AbortedResponse(Unspecified, []);
      PollOutcome(Finish(m, id, response), Some(response))
    case _ => PollOutcome(m, Some(PendingResponse))
  }

  /** `decision` is what reading the contract reports, None for an error. */
  function Poll(m: Coord, id: TxnId, decision: Option<Decision>, answers: map<Address, Reply>): PollOutcome {
    var m := m.(responses := m.responses[id := StoredOf(m, id)]);
    if Complete(m, id) then PollOutcome(m, Some(StoredOf(m, id).response))
    else if id !in m.metadata then PollOutcome(m, None)
    else
      var meta := m.metadata[id];
      if meta.single.Some? then PollSingle(m, id, meta.single.value, answers)
      else PollMany(m, id, meta, decision, answers)
  }

  /** Nothing that is kept about `t` differs. */
  predicate SameRecord(m: Coord, m': Coord, t: TxnId) {
    (t in m'.metadata <==> t in m.metadata) && MetaOf(m', t) == MetaOf(m, t) && StoredOf(m', t) == StoredOf(m, t)
  }

  /** What others may rely on after a submission: it concerns its own id only;
      it starts voting or sends only while the flag is down; it sends every
      sub-transaction under its index, with voting started for that many cohorts
      until the whole second of their abort time unless one is alone, and raises
      the flag. */
  ghost predicate Sound(m: Coord, id: TxnId, subs: seq<SubTransaction>, votingOk: bool, out: CommitOutcome) {
    var meta, meta' := MetaOf(m, id), MetaOf(out.coord, id);
    && (forall t | t != id :: SameRecord(m, out.coord, t))
    && StoredOf(out.coord, id) == StoredOf(m, id) && id in out.coord.metadata
    && (out.voting.Some? ==> !meta.sent && out.voting.value.cohorts == |subs| > 1)
    && (out.prepares == [] ==> meta' == meta.(config := meta'.config) && (meta.sent ==> meta' == meta))
    && (out.prepares != [] ==>
          && !meta.sent && meta' == SentMeta(meta, meta'.config, subs)
          && |out.prepares| == |subs| && (|subs| > 1 ==> votingOk && out.voting.Some?)
          && forall i | 0 <= i < |subs| ::
               && out.prepares[i].address == subs[i].ns.address
               && out.prepares[i].req == Request(id, subs[i].ops, i, |subs| == 1)
               && 0 <= out.prepares[i].config.nanos < SECOND
               && (|subs| > 1 ==> out.voting.value.timeout == out.prepares[i].config.seconds))
  }

  lemma CommitIsSound(m: Coord, id: TxnId, subs: seq<SubTransaction>, asked: Option<Timestamp>, now: int,
                      defaultDuration: int, votingOk: bool)
    ensures Sound(m, id, subs, votingOk, Commit(m, id, subs, asked, now, defaultDuration, votingOk))
  {
    SendsExactlyWhen(m, id, subs, asked, now, defaultDuration, votingOk);
  }

  /** The decision that a poll of a shared transaction acts on. */
  function KnownDecision(meta: Meta, decision: Option<Decision>): Option<Decision> {
    if meta.decision == PendingDecision || meta.decision == UnknownDecision then decision else Some(meta.decision)
  }

  /** What a poll does to the record of a shared transaction, case by case. */
  lemma PollShared(m: Coord, id: TxnId, decision: Option<Decision>, answers: map<Address, Reply>)
    requires id in m.metadata && m.metadata[id].single.None? && !Complete(m, id)
    requires !StoredOf(m, id).response.AbortedResponse?
    ensures var meta, stored := m.metadata[id], StoredOf(m, id);
            var m', d := Poll(m, id, decision, answers).coord, KnownDecision(meta, decision);
            var got := Collect(meta.namespaces, meta.responded, stored.response, answers, |meta.namespaces|);
            && (id in m'.metadata <==>
                  d != Some(AbortDecision) && (d != Some(CommitDecision) || got.count != |meta.namespaces|))
            && (d == None ==> m'.metadata[id] == meta && StoredOf(m', id) == stored)
            && (d.Some? && !(d.value in {AbortDecision, CommitDecision}) ==>
                  m'.metadata[id] == meta.(decision := d.value) && StoredOf(m', id) == stored)
            && (d == Some(AbortDecision) ==> StoredOf(m', id) == Stored(true, AbortedResponse(Unspecified, [])))
            && (d == Some(CommitDecision) ==>
                  if got.count == |meta.namespaces| then StoredOf(m', id) == Stored(true, MarkComplete(got.response))
                  else && StoredOf(m', id) == Stored(false, got.response)
                       && m'.metadata[id] == meta.(decision := CommitDecision, responded := got.responded))
  {
  }

  /** What a poll of a transaction alone at one cohort does to its record. */
  predicate AloneOutcome(m: Coord, m': Coord, id: TxnId, ns: Namespace, answers: map<Address, Reply>) {
    var known := ns.address in answers;
    && (id in m'.metadata <==> !known || answers[ns.address].Pending?)
    && (id in m'.metadata ==> id in m.metadata && m'.metadata[id] == m.metadata[id] && !Complete(m', id)
                              && StoredOf(m', id).response in {Unset, PendingResponse})
    && (known && answers[ns.address].Aborted? ==>
          StoredOf(m', id) == Stored(true, AbortedResponse(answers[ns.address].reason, [ns])))
    && (known && answers[ns.address].Committed? ==>
          StoredOf(m', id) == Stored(true, CommittedResponse(true, answers[ns.address].results)))
  }

  lemma PollAlone(m: Coord, id: TxnId, decision: Option<Decision>, answers: map<Address, Reply>)
    requires id in m.metadata && m.metadata[id].single.Some? && !Complete(m, id)
    requires StoredOf(m, id).response in {Unset, PendingResponse}
    ensures AloneOutcome(m, Poll(m, id, decision, answers).coord, id, m.metadata[id].single.value, answers)
  {
    assert [] + [m.metadata[id].single.value] == [m.metadata[id].single.value];
  }

  /** What the client is told by a poll. A complete reply is told as it is, whether it
      was complete before or is now; a commit or abort that is told is the stored one;
      nothing is told as pending once complete. */
  lemma PollTellsWhatIsStored(m: Coord, id: TxnId, decision: Option<Decision>, answers: map<Address, Reply>)
    ensures var out := Poll(m, id, decision, answers);
            && (Complete(m, id) ==> out.reply == Some(StoredOf(m, id).response))
            && (Complete(out.coord, id) ==> out.reply == Some(StoredOf(out.coord, id).response))
            && (out.reply.Some? && (out.reply.value.CommittedResponse? || out.reply.value.AbortedResponse?) ==>
                  out.reply.value == StoredOf(out.coord, id).response)
            && (out.reply == Some(PendingResponse) && !Complete(m, id) ==> !Complete(out.coord, id))
  {
  }

  /** Case by case, while the reply is not complete. */
  lemma PollReplyIs(m: Coord, id: TxnId, decision: Option<Decision>, answers: map<Address, Reply>)
    requires !Complete(m, id)
    ensures var reply, stored := Poll(m, id, decision, answers).reply, StoredOf(m, id).response;
            && (id !in m.metadata ==> reply == None)
            && (id in m.metadata && m.metadata[id].single.Some? ==>
                  var ns := m.metadata[id].single.value;
                  reply == if ns.address !in answers then None else
                           match answers[ns.address]
                           case Pending => Some(PendingResponse)
                           case Aborted(reason) =>
                             Some(AbortedResponse(reason,
                                    (if stored.AbortedResponse? then stored.namespaces else []) + [ns]))
                           case Committed(results) =>
                             Some(CommittedResponse(true,
                                    (if stored.CommittedResponse? then stored.results else []) + results)))
            && (id in m.metadata && m.metadata[id].single.None? ==>
                  var d := if m.metadata[id].decision in {UnknownDecision, PendingDecision} then decision
                           else Some(m.metadata[id].decision);
                  && (d == None ==> reply == None)
                  && (d in {Some(UnknownDecision), Some(PendingDecision)} ==> reply == Some(PendingResponse))
                  && (d == Some(AbortDecision) ==>
                        reply == Some(if stored.AbortedResponse? then stored else AbortedResponse(Unspecified, [])))
                  && (d == Some(CommitDecision) ==>
                        var all := m.metadata[id].namespaces;
                        var got := Collect(all, m.metadata[id].responded, stored, answers, |all|);
                        reply == Some(if got.count != |all| then got.response
                                      else CommittedResponse(true, if got.response.CommittedResponse?
                                                                   then got.response.results else []))))
  {
    if id in m.metadata && m.metadata[id].single.Some? && m.metadata[id].single.value.address in answers
       && answers[m.metadata[id].single.value.address].Committed? {
      var results := answers[m.metadata[id].single.value.address].results;
      assert [] + results == results;
    }
  }

  // ----- sequences of calls -----

  datatype CallStep =
    | CommitCall(id: TxnId, subs: seq<SubTransaction>, asked: Option<Timestamp>, now: int, dflt: int, votingOk: bool)
    | PollCall(id: TxnId, decision: Option<Decision>, answers: map<Address, Reply>)

  function AfterCall(m: Coord, call: CallStep): Coord {
    match call
    case CommitCall(id, subs, asked, now, dflt, votingOk) => Commit(m, id, subs, asked, now, dflt, votingOk).coord
    case PollCall(id, decision, answers) => Poll(m, id, decision, answers).coord
  }

  function AfterAll(m: Coord, calls: seq<CallStep>): Coord {
    if calls == [] then m else AfterCall(AfterAll(m, calls[..|calls| - 1]), calls[|calls| - 1])
  }

  /** A complete reply is never changed, by any call about any transaction. */
  lemma CompleteStays(m: Coord, call: CallStep, id: TxnId)
    requires Complete(m, id)
    ensures StoredOf(AfterCall(m, call), id) == StoredOf(m, id)
  {
  }

  lemma {:induction false} CompleteIsForever(m: Coord, calls: seq<CallStep>, id: TxnId)
    requires Complete(m, id)
    ensures StoredOf(AfterAll(m, calls), id) == StoredOf(m, id)
  {
    if calls != [] {
      CompleteIsForever(m, calls[..|calls| - 1], id);
      CompleteStays(AfterAll(m, calls[..|calls| - 1]), calls[|calls| - 1], id);
    }
  }

  /** Whatever is called in between, a poll about a complete transaction tells the
      client the complete reply. */
  lemma CompleteIsToldForever(m: Coord, calls: seq<CallStep>, id: TxnId, decision: Option<Decision>,
                              answers: map<Address, Reply>)
    requires Complete(m, id)
    ensures Poll(AfterAll(m, calls), id, decision, answers).reply == Some(StoredOf(m, id).response)
  {
    CompleteIsForever(m, calls, id);
    PollTellsWhatIsStored(AfterAll(m, calls), id, decision, answers);
  }

  /** The flag that blocks resends survives every call that does not complete
      the transaction. */
  lemma FlagStays(m: Coord, call: CallStep, id: TxnId)
    requires MetaOf(m, id).sent && !Complete(AfterCall(m, call), id)
    ensures MetaOf(AfterCall(m, call), id).sent
  {
  }

  /** Rounds and resends: once an id was sent, no call in any later sequence
      starts voting or prepares it again, as long as no reply completed. */
  lemma {:induction false} NoResendUntilComplete(m: Coord, calls: seq<CallStep>, id: TxnId, again: CallStep)
    requires MetaOf(m, id).sent && !Complete(AfterAll(m, calls), id)
    requires again.CommitCall? && again.id == id
    ensures MetaOf(AfterAll(m, calls), id).sent
    ensures var out := Commit(AfterAll(m, calls), id, again.subs, again.asked, again.now, again.dflt, again.votingOk);
            out.prepares == [] && out.voting == None
  {
    if calls != [] {
      var init := calls[..|calls| - 1];
      if Complete(AfterAll(m, init), id) {
        CompleteStays(AfterAll(m, init), calls[|calls| - 1], id);
      }
      NoResendUntilComplete(m, init, id, again);
      FlagStays(AfterAll(m, init), calls[|calls| - 1], id);
    }
  }

  lemma ConfigStays(m: Coord, call: CallStep, id: TxnId)
    requires MetaOf(m, id).sent && !Complete(AfterCall(m, call), id)
    ensures MetaOf(AfterCall(m, call), id).config == MetaOf(m, id).config
  {
  }

  /** A client that submits again after any sequence of calls, while no reply has
      completed, is told the abort time of the submission that sent. */
  lemma {:induction false} AbortTimeIsKept(m: Coord, calls: seq<CallStep>, id: TxnId, again: CallStep)
    requires MetaOf(m, id).sent && !Complete(AfterAll(m, calls), id)
    requires again.CommitCall? && again.id == id
    ensures MetaOf(AfterAll(m, calls), id).config == MetaOf(m, id).config
    ensures Submitting(AfterAll(m, calls), again).reply == Accepted(MetaOf(m, id).config)
  {
    NoResendUntilComplete(m, calls, id, again);
    if calls != [] {
      var init := calls[..|calls| - 1];
      if Complete(AfterAll(m, init), id) {
        CompleteStays(AfterAll(m, init), calls[|calls| - 1], id);
      }
      NoResendUntilComplete(m, init, id, again);
      AbortTimeIsKept(m, init, id, again);
      ConfigStays(AfterAll(m, init), calls[|calls| - 1], id);
    }
    CommitReplyIs(AfterAll(m, calls), id, again.subs, again.asked, again.now, again.dflt, again.votingOk);
  }

  /** The flag does not outlive the reply: completing erases it, so the same
      submission goes out a second time. */
  lemma ResubmissionAfterCompletion(id: TxnId, ns: Namespace, op: Op)
    requires op.ns == ns
    ensures var subs := [SubTransaction(ns, [op])];
            var first := Commit(Coord(map[], map[]), id, subs, None, 0, 60, true);
            var polled := Poll(first.coord, id, None, map[ns.address := Committed([])]);
            var second := Commit(polled.coord, id, subs, None, 1, 60, true);
            && first.prepares != [] && Complete(polled.coord, id)
            && |second.prepares| == |first.prepares|
            && second.prepares[0].req == first.prepares[0].req
  {
  }

  /** The record between a submission's guard and its sending: the flag is down. */
  function PastGuard(m: Coord, id: TxnId, config: Timestamp): Coord {
    m.(metadata := m.metadata[id := MetaOf(m, id).(config := config)])
  }

  function Submitting(m: Coord, call: CallStep): CommitOutcome
    requires call.CommitCall?
  {
    Commit(m, call.id, call.subs, call.asked, call.now, call.dflt, call.votingOk)
  }

  /** The record while the first j requests of a submission have been dealt with:
      the flag goes up with the last one. */
  function Sending(m: Coord, first: CallStep, config: Timestamp, j: nat): Coord
    requires first.CommitCall? && j <= |first.subs|
  {
    m.(metadata := m.metadata[first.id := SendingMeta(MetaOf(m, first.id), config, first.subs, j)])
  }

  /** The flag is NOT a lock. A second submission of an id that would send if it
      were alone sends during the first one if and only if the first one has not
      come to its last request yet: right behind the guard, or with only j of its
      requests dealt with. Then it sends, and starts, what it would alone. */
  lemma OverlapSendsTwice(m: Coord, first: CallStep, second: CallStep, j: nat)
    requires first.CommitCall? && second.CommitCall? && first.id == second.id && j <= |first.subs|
    requires Submitting(m, first).prepares != [] && Submitting(m, second).prepares != []
    ensures var config := ComputeFinalConfig(first.asked, first.now, first.dflt).value;
            var guarded := Submitting(PastGuard(m, first.id, config), second);
            var during := Submitting(Sending(m, first, config, j), second);
            && guarded.prepares == Submitting(m, second).prepares && guarded.voting == Submitting(m, second).voting
            && (during.prepares != [] <==> j < |first.subs|)
            && (during.prepares != [] ==>
                  during.prepares == Submitting(m, second).prepares && during.voting == Submitting(m, second).voting)
            && (during.prepares == [] ==> during.voting == None)
            && Sending(m, first, config, |first.subs|) == Submitting(m, first).coord
  {
    assert NamespacesOf(first.subs)[..|first.subs|] == NamespacesOf(first.subs);
  }

  // ----- exactly-once accumulation -----

  /** Every response carries the address of the cohort that gave it. */
  predicate Tagged(results: seq<GetResponse>, a: Address) {
    forall i | 0 <= i < |results| :: results[i].ns.address == a
  }

  lemma {:induction false} TaggedResults(results: seq<GetResponse>, a: Address, b: Address)
    requires Tagged(results, a)
    ensures ResultsFor(results, b) == if a == b then results else []
  {
    if results != [] {
      TaggedResults(results[..|results| - 1], a, b);
    }
  }

  /** The reply holds, for each address, that cohort's results once if it has
      answered and nothing otherwise. `finals` is what each cohort answers. */
  ghost predicate Holds(results: seq<GetResponse>, responded: set<Address>, finals: map<Address, seq<GetResponse>>) {
    forall a :: HoldsAt(results, responded, finals, a)
  }

  predicate HoldsAt(results: seq<GetResponse>, responded: set<Address>, finals: map<Address, seq<GetResponse>>,
                    a: Address) {
    if a in responded then a in finals && ResultsFor(results, a) == finals[a] else ResultsFor(results, a) == []
  }

  ghost predicate Gathered(response: Response, responded: set<Address>, finals: map<Address, seq<GetResponse>>) {
    if responded == {} then response == Unset
    else response.CommittedResponse? && !response.complete && Holds(response.results, responded, finals)
  }

  ghost predicate Consistent(answers: map<Address, Reply>, finals: map<Address, seq<GetResponse>>) {
    forall a | a in answers && answers[a].Committed? ::
      a in finals && finals[a] == answers[a].results && Tagged(finals[a], a)
  }

  predicate DistinctAddresses(namespaces: seq<Namespace>) {
    forall i, j | 0 <= i < j < |namespaces| :: namespaces[i].address != namespaces[j].address
  }

  lemma GatherOne(response: Response, responded: set<Address>, finals: map<Address, seq<GetResponse>>, a: Address)
    requires Gathered(response, responded, finals) && a !in responded && a in finals && Tagged(finals[a], a)
    ensures Gathered(AddResults(response, finals[a]), responded + {a}, finals)
  {
    var after := AddResults(response, finals[a]);
    forall b ensures HoldsAt(after.results, responded + {a}, finals, b) {
      TaggedResults(finals[a], a, b);
      if responded != {} {
        assert HoldsAt(response.results, responded, finals, b);
        ResultsForConcat(response.results, finals[a], b);
      }
    }
  }

  /** The cohorts among the first n that answer with a commit. */
  function Answering(namespaces: seq<Namespace>, answers: map<Address, Reply>, n: nat): set<Address>
    requires n <= |namespaces|
  {
    set i | 0 <= i < n && namespaces[i].address in answers && answers[namespaces[i].address].Committed? ::
      namespaces[i].address
  }

  lemma {:induction false} CollectResponded(namespaces: seq<Namespace>, responded: set<Address>, response: Response,
      answers: map<Address, Reply>, n: nat)
    requires n <= |namespaces|
    ensures Collect(namespaces, responded, response, answers, n).responded
         == responded + Answering(namespaces, answers, n)
  {
    if n > 0 {
      CollectResponded(namespaces, responded, response, answers, n - 1);
      var a := namespaces[n - 1].address;
      assert Answering(namespaces, answers, n) == Answering(namespaces, answers, n - 1)
             + (if a in answers && answers[a].Committed? then {a} else {});
    }
  }

  lemma {:induction false} CollectCounts(namespaces: seq<Namespace>, responded: set<Address>, response: Response,
      answers: map<Address, Reply>, n: nat)
    requires n <= |namespaces| && DistinctAddresses(namespaces)
    ensures var got := Collect(namespaces, responded, response, answers, n);
            got.count <= n && (got.count == n <==> forall i | 0 <= i < n :: namespaces[i].address in got.responded)
  {
    if n > 0 {
      CollectCounts(namespaces, responded, response, answers, n - 1);
      var before := Collect(namespaces, responded, response, answers, n - 1);
      var got := Collect(namespaces, responded, response, answers, n);
      forall i | 0 <= i < n - 1
        ensures namespaces[i].address in got.responded <==> namespaces[i].address in before.responded
      {
        assert namespaces[i].address != namespaces[n - 1].address;
      }
    }
  }

  lemma {:induction false} CollectGathers(namespaces: seq<Namespace>, responded: set<Address>, response: Response,
      answers: map<Address, Reply>, finals: map<Address, seq<GetResponse>>, n: nat)
    requires n <= |namespaces|
    requires Gathered(response, responded, finals) && Consistent(answers, finals)
    ensures var got := Collect(namespaces, responded, response, answers, n);
            Gathered(got.response, got.responded, finals)
  {
    if n > 0 {
      CollectGathers(namespaces, responded, response, answers, finals, n - 1);
      var before := Collect(namespaces, responded, response, answers, n - 1);
      var a := namespaces[n - 1].address;
      if a !in before.responded && a in answers && answers[a].Committed? {
        GatherOne(before.response, before.responded, finals, a);
      }
    }
  }

  /** The results of those who answer now and had not before, in the order of the
      cohorts. */
  function NewResults(namespaces: seq<Namespace>, responded: set<Address>, answers: map<Address, Reply>,
                      n: nat): seq<GetResponse>
    requires n <= |namespaces|
  {
    if n == 0 then [] else
    var a := namespaces[n - 1].address;
    NewResults(namespaces, responded, answers, n - 1)
      + (if a !in responded && a in answers && answers[a].Committed? then answers[a].results else [])
  }

  /** What the results `added` make of a reply, if anybody answered. */
  predicate Appended(response: Response, responded: set<Address>, got: Collected, added: seq<GetResponse>) {
    if response.CommittedResponse?
    then got.response == CommittedResponse(response.complete, response.results + added)
    else if got.responded == responded then got.response == response && added == []
    else got.response == CommittedResponse(false, added)
  }

  lemma AppendedOne(response: Response, responded: set<Address>, before: Collected, added: seq<GetResponse>,
                    a: Address, results: seq<GetResponse>, count: nat)
    requires Appended(response, responded, before, added) && a !in before.responded && responded <= before.responded
    ensures Appended(response, responded, Collected(before.responded + {a}, AddResults(before.response, results), count),
                     added + results)
  {
    assert a !in responded;
    assert [] + results == results;
    if response.CommittedResponse? {
      assert (response.results + added) + results == response.results + (added + results);
    }
  }

  lemma AnsweringEarlier(namespaces: seq<Namespace>, answers: map<Address, Reply>, n: nat)
    requires n < |namespaces| && DistinctAddresses(namespaces)
    ensures namespaces[n].address !in Answering(namespaces, answers, n)
  {
  }

  /** One pass appends the new results to those told before, in the order of the
      cohorts. */
  lemma {:induction false} CollectAppends(namespaces: seq<Namespace>, responded: set<Address>, response: Response,
      answers: map<Address, Reply>, n: nat)
    requires n <= |namespaces| && DistinctAddresses(namespaces)
    ensures Appended(response, responded, Collect(namespaces, responded, response, answers, n),
                     NewResults(namespaces, responded, answers, n))
    ensures var got := Collect(namespaces, responded, response, answers, n);
            got.response.CommittedResponse? ==>
              got.response.results == (if response.CommittedResponse? then response.results else [])
                                      + NewResults(namespaces, responded, answers, n)
  {
    if n == 0 {
      assert response.CommittedResponse? ==> response.results + [] == response.results;
    } else {
      var a, added := namespaces[n - 1].address, NewResults(namespaces, responded, answers, n - 1);
      var before := Collect(namespaces, responded, response, answers, n - 1);
      CollectAppends(namespaces, responded, response, answers, n - 1);
      CollectResponded(namespaces, responded, response, answers, n - 1);
      AnsweringEarlier(namespaces, answers, n - 1);
      assert added + [] == added;
      if a !in responded && a in answers && answers[a].Committed? {
        AppendedOne(response, responded, before, added, a, answers[a].results, before.count + 1);
      }
    }
  }

  /** One pass over the cohorts keeps the reply exact, and counts to n exactly
      when the first n cohorts have all answered. */
  lemma CollectIsExact(namespaces: seq<Namespace>, responded: set<Address>, response: Response,
      answers: map<Address, Reply>, finals: map<Address, seq<GetResponse>>, n: nat)
    requires n <= |namespaces| && DistinctAddresses(namespaces)
    requires Gathered(response, responded, finals) && Consistent(answers, finals)
    ensures var got := Collect(namespaces, responded, response, answers, n);
            && Gathered(got.response, got.responded, finals)
            && got.responded == responded + Answering(namespaces, answers, n)
            && (got.count == n <==> forall i | 0 <= i < n :: namespaces[i].address in got.responded)
  {
    CollectResponded(namespaces, responded, response, answers, n);
    CollectCounts(namespaces, responded, response, answers, n);
    CollectGathers(namespaces, responded, response, answers, finals, n);
  }

  /** The state of a transaction that was sent to the cohorts in `namespaces`. */
  ghost predicate Accumulating(m: Coord, id: TxnId, namespaces: seq<Namespace>, finals: map<Address, seq<GetResponse>>) {
    if Complete(m, id) then
      var response := StoredOf(m, id).response;
      || response.AbortedResponse?
      || (&& response.CommittedResponse? && response.complete
          && exists responded ::
               && Holds(response.results, responded, finals)
               && forall i | 0 <= i < |namespaces| :: namespaces[i].address in responded)
    else
      && id in m.metadata
      && m.metadata[id].namespaces == namespaces && m.metadata[id].single.None? && m.metadata[id].sent
      && Gathered(StoredOf(m, id).response, m.metadata[id].responded, finals)
      && m.metadata[id].decision != AbortDecision
      && (m.metadata[id].decision != CommitDecision ==> m.metadata[id].responded == {})
      && exists i :: 0 <= i < |namespaces| && namespaces[i].address !in m.metadata[id].responded
  }

  /** Each poll keeps it: an unfinished reply is exact and some cohort is still
      missing; a finished commit reply has all of them. */
  lemma AccumulationStep(m: Coord, id: TxnId, namespaces: seq<Namespace>, finals: map<Address, seq<GetResponse>>,
                         decision: Option<Decision>, answers: map<Address, Reply>)
    requires |namespaces| > 1 && DistinctAddresses(namespaces)
    requires Accumulating(m, id, namespaces, finals) && Consistent(answers, finals)
    ensures Accumulating(Poll(m, id, decision, answers).coord, id, namespaces, finals)
  {
    if Complete(m, id) {
      CompleteStays(m, PollCall(id, decision, answers), id);
    } else {
      var meta, response := m.metadata[id], StoredOf(m, id).response;
      var m', d := Poll(m, id, decision, answers).coord, KnownDecision(meta, decision);
      PollShared(m, id, decision, answers);
      CollectIsExact(namespaces, meta.responded, response, answers, finals, |namespaces|);
      var got := Collect(namespaces, meta.responded, response, answers, |namespaces|);
      if d == Some(CommitDecision) {
        AccumulationCollects(m', id, namespaces, finals, got);
      }
    }
  }

  lemma AccumulationCollects(m: Coord, id: TxnId, namespaces: seq<Namespace>, finals: map<Address, seq<GetResponse>>,
                             got: Collected)
    requires |namespaces| > 1 && Gathered(got.response, got.responded, finals)
    requires got.count == |namespaces| <==> forall i | 0 <= i < |namespaces| :: namespaces[i].address in got.responded
    requires got.count == |namespaces| ==> StoredOf(m, id) == Stored(true, MarkComplete(got.response))
    requires got.count != |namespaces| ==>
               && StoredOf(m, id) == Stored(false, got.response) && id in m.metadata
               && m.metadata[id].namespaces == namespaces && m.metadata[id].single.None? && m.metadata[id].sent
               && m.metadata[id].decision == CommitDecision && m.metadata[id].responded == got.responded
    ensures Accumulating(m, id, namespaces, finals)
  {
    if got.count == |namespaces| {
      assert namespaces[0].address in got.responded;
      assert Holds(MarkComplete(got.response).results, got.responded, finals);
    }
  }

  /** No trace of the id, or only what polls before any decision and submissions
      that sent nothing leave behind. */
  predicate EmptyRecord(m: Coord, id: TxnId) {
    var meta := MetaOf(m, id);
    && StoredOf(m, id) == Stored(false, Unset)
    && meta.namespaces == [] && meta.single.None? && meta.responded == {} && !meta.sent
    && meta.decision in {UnknownDecision, PendingDecision}
  }

  lemma EmptyRecordStays(m: Coord, call: CallStep, id: TxnId)
    requires EmptyRecord(m, id)
    requires call.id == id ==>
               if call.CommitCall? then Submitting(m, call).prepares == []
               else call.decision.Some? ==> call.decision.value in {UnknownDecision, PendingDecision}
    ensures EmptyRecord(AfterCall(m, call), id)
  {
    if call.id != id {
      CallConcerns(m, call, id);
    } else if call.CommitCall? {
      CommitIsSound(m, id, call.subs, call.asked, call.now, call.dflt, call.votingOk);
    }
  }

  /** Once sent, a transaction accumulates: nothing is held yet. */
  lemma AccumulationStarts(m: Coord, id: TxnId, subs: seq<SubTransaction>, asked: Option<Timestamp>, now: int,
                           dflt: int, votingOk: bool, finals: map<Address, seq<GetResponse>>)
    requires |subs| > 1 && EmptyRecord(m, id)
    requires Commit(m, id, subs, asked, now, dflt, votingOk).prepares != []
    ensures Accumulating(Commit(m, id, subs, asked, now, dflt, votingOk).coord, id, NamespacesOf(subs), finals)
  {
    CommitIsSound(m, id, subs, asked, now, dflt, votingOk);
    SoundStarts(m, id, subs, votingOk, Commit(m, id, subs, asked, now, dflt, votingOk), finals);
  }

  lemma SoundStarts(m: Coord, id: TxnId, subs: seq<SubTransaction>, votingOk: bool, out: CommitOutcome,
                    finals: map<Address, seq<GetResponse>>)
    requires |subs| > 1 && EmptyRecord(m, id) && out.prepares != []
    requires Sound(m, id, subs, votingOk, out)
    ensures Accumulating(out.coord, id, NamespacesOf(subs), finals)
  {
    var meta := out.coord.metadata[id];
    assert meta.namespaces == NamespacesOf(subs);
    assert NamespacesOf(subs)[0].address !in meta.responded;
  }

  lemma CallConcerns(m: Coord, call: CallStep, t: TxnId)
    requires t != call.id
    ensures SameRecord(m, AfterCall(m, call), t)
  {
  }

  /** Submitting again while the reply is not complete changes nothing. */
  lemma RepeatedCommit(m: Coord, call: CallStep)
    requires call.CommitCall? && call.id in m.metadata && m.metadata[call.id].sent
    ensures SameRecord(m, AfterCall(m, call), call.id)
  {
  }

  lemma AccumulationFrame(m: Coord, m': Coord, id: TxnId, namespaces: seq<Namespace>,
                          finals: map<Address, seq<GetResponse>>)
    requires Accumulating(m, id, namespaces, finals) && SameRecord(m, m', id)
    ensures Accumulating(m', id, namespaces, finals)
  {
  }

  lemma AccumulationCall(m: Coord, call: CallStep, id: TxnId, namespaces: seq<Namespace>,
                         finals: map<Address, seq<GetResponse>>)
    requires |namespaces| > 1 && DistinctAddresses(namespaces) && Accumulating(m, id, namespaces, finals)
    requires call.PollCall? && call.id == id ==> Consistent(call.answers, finals)
    ensures Accumulating(AfterCall(m, call), id, namespaces, finals)
  {
    if call.id != id {
      CallConcerns(m, call, id);
      AccumulationFrame(m, AfterCall(m, call), id, namespaces, finals);
    } else if Complete(m, id) {
      CompleteStays(m, call, id);
    } else if call.CommitCall? {
      RepeatedCommit(m, call);
      AccumulationFrame(m, AfterCall(m, call), id, namespaces, finals);
    } else {
      AccumulationStep(m, id, namespaces, finals, call.decision, call.answers);
    }
  }

  /** Exactly-once accumulation over any sequence of calls: polls that find any mix
      of unreachable, pending and answering cohorts, submissions again, and calls
      about other transactions. */
  lemma {:induction false} ExactlyOnce(m: Coord, calls: seq<CallStep>, id: TxnId, namespaces: seq<Namespace>,
                                       finals: map<Address, seq<GetResponse>>)
    requires |namespaces| > 1 && DistinctAddresses(namespaces)
    requires Accumulating(m, id, namespaces, finals)
    requires forall i | 0 <= i < |calls| ::
               calls[i].PollCall? && calls[i].id == id ==> Consistent(calls[i].answers, finals)
    ensures Accumulating(AfterAll(m, calls), id, namespaces, finals)
  {
    if calls != [] {
      ExactlyOnce(m, calls[..|calls| - 1], id, namespaces, finals);
      AccumulationCall(AfterAll(m, calls[..|calls| - 1]), calls[|calls| - 1], id, namespaces, finals);
    }
  }

  // ----- what the client takes for final -----

  /** The client stops polling on anything that is neither pending nor an
      incomplete commit. */
  predicate ClientStops(response: Response) {
    !(response.PendingResponse? || (response.CommittedResponse? && !response.complete))
  }

  /** A reply that was given, that the client stops on, and that is not complete. */
  predicate StopsEarly(out: PollOutcome, id: TxnId) {
    out.reply.Some? && ClientStops(out.reply.value) && !Complete(out.coord, id)
  }

  predicate NobodyAnswers(namespaces: seq<Namespace>, answers: map<Address, Reply>) {
    forall i | 0 <= i < |namespaces| ::
      !(namespaces[i].address in answers && answers[namespaces[i].address].Committed?)
  }

  /** A transaction that was sent to several cohorts and is not complete. */
  ghost predicate Gathering(m: Coord, id: TxnId, namespaces: seq<Namespace>, finals: map<Address, seq<GetResponse>>) {
    && !Complete(m, id) && id in m.metadata && m.metadata[id].namespaces == namespaces && m.metadata[id].single.None?
    && |namespaces| > 1 && DistinctAddresses(namespaces)
    && Gathered(StoredOf(m, id).response, m.metadata[id].responded, finals)
  }

  /** A reply the client stops on is NOT always a complete one: it stops too early
      exactly when the decision is commit and no cohort has answered so far. */
  lemma ClientStopsEarlyExactly(m: Coord, id: TxnId, namespaces: seq<Namespace>, finals: map<Address, seq<GetResponse>>,
                                decision: Option<Decision>, answers: map<Address, Reply>)
    requires Gathering(m, id, namespaces, finals) && Consistent(answers, finals)
    ensures var out := Poll(m, id, decision, answers);
            && (out.reply.None? <==> KnownDecision(m.metadata[id], decision).None?)
            && (StopsEarly(out, id) <==>
                  && KnownDecision(m.metadata[id], decision) == Some(CommitDecision)
                  && m.metadata[id].responded == {} && NobodyAnswers(namespaces, answers))
            && (StopsEarly(out, id) ==> out.reply == Some(Unset))
  {
    var meta := m.metadata[id];
    var got := Collect(namespaces, meta.responded, StoredOf(m, id).response, answers, |namespaces|);
    CollectIsExact(namespaces, meta.responded, StoredOf(m, id).response, answers, finals, |namespaces|);
    assert forall i | 0 <= i < |namespaces| ::
        namespaces[i].address in answers && answers[namespaces[i].address].Committed? ==>
        namespaces[i].address in got.responded;
    assert namespaces[0].address in got.responded ==> got.responded != {};
  }

  /** An instance: two cohorts, a commit decision, and nobody can be reached. */
  lemma ClientStopsWithNothing(id: TxnId, left: Op, right: Op)
    requires left.ns.address != right.ns.address
    ensures var subs := [SubTransaction(left.ns, [left]), SubTransaction(right.ns, [right])];
            var sent := Commit(Coord(map[], map[]), id, subs, None, 0, 60, true);
            var out := Poll(sent.coord, id, Some(CommitDecision), map[]);
            |sent.prepares| == 2 && StopsEarly(out, id) && out.reply == Some(Unset)
  {
    var m, subs := Coord(map[], map[]), [SubTransaction(left.ns, [left]), SubTransaction(right.ns, [right])];
    SendsExactlyWhen(m, id, subs, None, 0, 60, true);
    CommitIsSound(m, id, subs, None, 0, 60, true);
    SentButUnanswered(m, id, subs, Commit(m, id, subs, None, 0, 60, true), Some(CommitDecision), map[]);
  }

  lemma TwoAreDistinct(subs: seq<SubTransaction>)
    requires |subs| == 2 && subs[0].ns.address != subs[1].ns.address
    ensures DistinctAddresses(NamespacesOf(subs))
  {
    assert NamespacesOf(subs) == [subs[0].ns, subs[1].ns];
  }

  /** As long as nobody can be reached, every poll of a fresh commit does so. */
  lemma SentButUnanswered(m: Coord, id: TxnId, subs: seq<SubTransaction>, sent: CommitOutcome,
                          decision: Option<Decision>, answers: map<Address, Reply>)
    requires EmptyRecord(m, id) && Sound(m, id, subs, true, sent) && sent.prepares != [] && |subs| == 2
    requires subs[0].ns.address != subs[1].ns.address && decision == Some(CommitDecision) && answers == map[]
    ensures var out := Poll(sent.coord, id, decision, answers);
            StopsEarly(out, id) && out.reply == Some(Unset)
  {
    var namespaces := NamespacesOf(subs);
    SoundStarts(m, id, subs, true, sent, map[]);
    TwoAreDistinct(subs);
    assert Gathering(sent.coord, id, namespaces, map[]);
    ClientStopsEarlyExactly(sent.coord, id, namespaces, map[], decision, answers);
  }
}
