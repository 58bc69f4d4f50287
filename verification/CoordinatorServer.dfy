/** The coordinator server as the program it is: loops that split a transaction,
    send its parts and gather the answers, and two maps updated in place. */
module CoordinatorServer {
  import opened Common
  import opened Semantics
  import opened CoordinatorProtocol

  lemma SnocOpsFor(ops: seq<Op>, i: nat, a: Address)
    requires i < |ops|
    ensures OpsFor(ops[..i + 1], a) == OpsFor(ops[..i], a) + (if ops[i].ns.address == a then [ops[i]] else [])
    ensures LastNamespace(ops[..i + 1], a) == if ops[i].ns.address == a then ops[i].ns else LastNamespace(ops[..i], a)
  {
    assert ops[..i + 1][..i] == ops[..i];
  }

  /** Groups the operations by address. */
  method GroupByAddress(ops: seq<Op>) returns (groups: map<Address, SubTransaction>)
    ensures groups.Keys == Addresses(ops)
    ensures forall a | a in groups :: groups[a] == SubTransaction(LastNamespace(ops, a), OpsFor(ops, a))
  {
    groups := map[];
    for i := 0 to |ops|
      invariant groups.Keys == Addresses(ops[..i])
      invariant forall a | a in groups :: groups[a] == SubTransaction(LastNamespace(ops[..i], a), OpsFor(ops[..i], a))
    {
      var a := ops[i].ns.address;
      var before := if a in groups then groups[a].ops else [];
      forall b ensures OpsFor(ops[..i + 1], b) == OpsFor(ops[..i], b) + (if a == b then [ops[i]] else [])
               ensures LastNamespace(ops[..i + 1], b) == if a == b then ops[i].ns else LastNamespace(ops[..i], b)
      {
        SnocOpsFor(ops, i, b);
      }
      if a !in groups {
        OpsForNobody(ops[..i], a);
      }
      assert ops[..i + 1][..i] == ops[..i];
      SnocAddress(ops[..i + 1]);
      groups := groups[a := SubTransaction(ops[i].ns, before + [ops[i]])];
    }
    assert ops[..|ops|] == ops;
  }

  lemma {:induction false} LastNamespaceAddress(ops: seq<Op>, a: Address)
    requires a in Addresses(ops)
    ensures LastNamespace(ops, a).address == a
  {
    SnocAddress(ops);
    if ops[|ops| - 1].ns.address != a {
      LastNamespaceAddress(ops[..|ops| - 1], a);
    }
  }

  /** One sub-transaction per address, in whatever order the map gives them. */
  method SplitClientTransaction(ops: seq<Op>) returns (subs: seq<SubTransaction>)
    ensures IsSplit(ops, subs)
  {
    var groups := GroupByAddress(ops);
    forall a | a in groups ensures groups[a].ns.address == a {
      LastNamespaceAddress(ops, a);
    }
    subs := [];
    var rest := groups.Keys;
    while rest != {}
      invariant rest <= groups.Keys
      invariant forall i | 0 <= i < |subs| ::
                  var a := subs[i].ns.address; a in groups && a !in rest && subs[i] == groups[a]
      invariant forall a | a in groups && a !in rest :: exists i :: 0 <= i < |subs| && subs[i].ns.address == a
      invariant forall i, j | 0 <= i < j < |subs| :: subs[i].ns.address != subs[j].ns.address
      decreases rest
    {
      var a :| a in rest;
      ghost var before := subs;
      subs := subs + [groups[a]];
      rest := rest - {a};
      forall b | b in groups && b !in rest ensures exists i :: 0 <= i < |subs| && subs[i].ns.address == b {
        if b == a {
          assert subs[|before|].ns.address == b;
        } else {
          var i :| 0 <= i < |before| && before[i].ns.address == b;
          assert subs[i].ns.address == b;
        }
      }
    }
  }

  lemma LastUpdateCounts(m: map<TxnId, Meta>, id: TxnId, p: Meta, q: Meta)
    ensures m[id := p][id := q] == m[id := q]
  {
  }

  class Server {
    const defaultDuration: int
    var metadata: map<TxnId, Meta>
    var responses: map<TxnId, Stored>

    ghost function View(): Coord
      reads this
    {
      Coord(metadata, responses)
    }

    constructor (defaultDuration: int)
      ensures View() == Coord(map[], map[]) && this.defaultDuration == defaultDuration
    {
      this.defaultDuration := defaultDuration;
      metadata, responses := map[], map[];
    }

    /** Sends the requests one by one and sets the flag with the last one. */
    method SendCohortPrepareRequests(id: TxnId, subs: seq<SubTransaction>) returns (prepares: seq<Prepare>)
      requires id in metadata && subs != []
      modifies this`metadata
      ensures metadata == old(metadata)[id := SentMeta(old(metadata[id]), old(metadata[id]).config, subs)]
      ensures prepares == Prepares(id, old(metadata[id]).config, subs)
    {
      var meta := metadata[id];
      var only := false;
      if |subs| == 1 {
        only := true;
        meta := meta.(single := Some(subs[0].ns));
      }
      prepares := [];
      var index := 0;
      while index < |subs|
        invariant 0 <= index <= |subs| && only == (|subs| == 1) && meta.config == old(metadata[id]).config
        invariant |prepares| == index
        invariant forall i | 0 <= i < index :: prepares[i] == PrepareFor(id, meta.config, subs, i)
        invariant meta == SendingMeta(old(metadata[id]), old(metadata[id]).config, subs, index)
      {
        var sub := subs[index];
        var req := Request(id, sub.ops, if |subs| != 1 then index else 0, only);
        meta := meta.(namespaces := meta.namespaces + [sub.ns]);
        assert NamespacesOf(subs)[..index + 1] == NamespacesOf(subs)[..index] + [sub.ns];
        if index == |subs| - 1 {
          meta := meta.(sent := true);
        }
        prepares := prepares + [Prepare(sub.ns.address, meta.config, req)];
        index := index + 1;
      }
      assert NamespacesOf(subs)[..|subs|] == NamespacesOf(subs);
      metadata := metadata[id := meta];
    }

    /** `votingOk` is the answer to the call that starts voting, when it is made. */
    method CommitAtomicTransaction(id: TxnId, ops: seq<Op>, asked: Option<Timestamp>, now: int, votingOk: bool)
      returns (reply: CommitReply, voting: Option<VotingCall>, prepares: seq<Prepare>, subs: seq<SubTransaction>)
      modifies this`metadata
      ensures CommitOutcome(View(), reply, voting, prepares)
           == Commit(old(View()), id, subs, asked, now, defaultDuration, votingOk)
      ensures MetaOf(old(View()), id).sent || reply == PastAbortTime || IsSplit(ops, subs)
    {
      var meta := if id in metadata then metadata[id] else NO_META;
      metadata := metadata[id := meta];
      subs := [];
      if meta.sent {
        return Accepted(meta.config), None, [], subs;
      }
      var config := ComputeFinalConfig(asked, now, defaultDuration);
      if config.None? {
        return PastAbortTime, None, [], subs;
      }
      var dated := meta.(config := config.value);
      LastUpdateCounts(old(metadata), id, meta, dated);
      metadata := metadata[id := dated];
      subs := SplitClientTransaction(ops);
      if subs == [] {
        return Accepted(config.value), None, [], subs;
      }
      voting := None;
      if |subs| > 1 {
        voting := Some(VotingCall(config.value.seconds, |subs|));
        if !votingOk {
          return VotingNotStarted(config.value), voting, [], subs;
        }
      }
      assert SentMeta(dated, config.value, subs) == SentMeta(meta, config.value, subs);
      LastUpdateCounts(old(metadata), id, dated, SentMeta(meta, config.value, subs));
      prepares := SendCohortPrepareRequests(id, subs);
      reply := Accepted(config.value);
    }

    method CleanUpTransactionMetadata(id: TxnId)
      modifies this
      ensures View() == Finish(old(View()), id, StoredOf(old(View()), id).response)
    {
      responses := responses[id := Stored(true, if id in responses then responses[id].response else Unset)];
      metadata := metadata - {id};
    }

    method UpdateResponseForSingleCohortTransaction(id: TxnId, ns: Namespace, answers: map<Address, Reply>)
      returns (ok: bool)
      requires id in responses && !responses[id].complete
      modifies this
      ensures PollOutcome(View(), if ok then Some(StoredOf(View(), id).response) else None)
           == PollSingle(old(View()), id, ns, answers)
    {
      if ns.address !in answers {
        return false;
      }
      var response := responses[id].response;
      match answers[ns.address] {
        case Aborted(reason) =>
          var namespaces := if response.AbortedResponse? then response.namespaces else [];
          response := AbortedResponse(reason, namespaces + [ns]);
        case Committed(results) =>
          response := MarkComplete(AddResults(response, results));
        case Pending =>
          responses := responses[id := Stored(false, PendingResponse)];
          return true;
      }
      responses := responses[id := Stored(false, response)];
      CleanUpTransactionMetadata(id);
      return true;
    }

    /** Asks every cohort that has not answered yet, keeps what it answers once,
        and finishes when all have answered. */
    method UpdateCommittedResponseFromCohorts(id: TxnId, answers: map<Address, Reply>)
      requires id in metadata && id in responses && !responses[id].complete
      modifies this
      ensures PollOutcome(View(), Some(StoredOf(View(), id).response))
           == PollCommitted(old(View()), id, old(metadata[id]), answers)
    {
      var meta := metadata[id];
      var response, responded, count := responses[id].response, meta.responded, 0;
      for i := 0 to |meta.namespaces|
        invariant Collected(responded, response, count)
               == Collect(meta.namespaces, meta.responded, responses[id].response, answers, i)
      {
        var a := meta.namespaces[i].address;
        if a in responded {
          count := count + 1;
        } else if a in answers && answers[a].Committed? {
          count := count + 1;
          response := AddResults(response, answers[a].results);
          responded := responded + {a};
        }
      }
      if count == |meta.namespaces| {
        responses := responses[id := Stored(false, MarkComplete(response))];
        CleanUpTransactionMetadata(id);
      } else {
        responses := responses[id := Stored(false, response)];
        metadata := metadata[id := meta.(responded := responded)];
      }
    }

    method UpdateAbortedResponseFromCohorts(id: TxnId)
      requires id in responses && !responses[id].complete
      modifies this
      ensures View() == Finish(old(View()), id,
                               if old(responses[id]).response.AbortedResponse? then old(responses[id]).response
                               else AbortedResponse(Unspecified, []))
    {
      if !responses[id].response.AbortedResponse? {
        responses := responses[id := Stored(false, AbortedResponse(Unspecified, []))];
      }
      CleanUpTransactionMetadata(id);
    }

    /** `decision` is what reading the contract would report, and `answers` what
        the cohorts that can be reached would say. */
    method GetTransactionResult(id: TxnId, decision: Option<Decision>, answers: map<Address, Reply>)
      returns (reply: Option<Response>)
      modifies this
      ensures PollOutcome(View(), reply) == Poll(old(View()), id, decision, answers)
    {
      responses := responses[id := if id in responses then responses[id] else Stored(false, Unset)];
      if responses[id].complete {
        return Some(responses[id].response);
      }
      if id !in metadata {
        return None;
      }
      var meta := metadata[id];
      if meta.single.Some? {
        var ok := UpdateResponseForSingleCohortTransaction(id, meta.single.value, answers);
        return if ok then Some(responses[id].response) else None;
      }
      reply := FollowDecision(id, meta, decision, answers);
    }

    /** The part that concerns transactions at several cohorts. */
    method FollowDecision(id: TxnId, known: Meta, decision: Option<Decision>, answers: map<Address, Reply>)
      returns (reply: Option<Response>)
      requires id in metadata && metadata[id] == known && id in responses && !responses[id].complete
      modifies this
      ensures PollOutcome(View(), reply) == PollMany(old(View()), id, known, decision, answers)
    {
      var meta := known;
      if meta.decision == PendingDecision || meta.decision == UnknownDecision {
        if decision.None? {
          return None;
        }
        meta := meta.(decision := decision.value);
      }
      metadata := metadata[id := meta];
      match meta.decision {
        case UnknownDecision => return Some(PendingResponse);
        case PendingDecision => return Some(PendingResponse);
        case AbortDecision => UpdateAbortedResponseFromCohorts(id);
        case CommitDecision => UpdateCommittedResponseFromCohorts(id, answers);
      }
      return Some(responses[id].response);
    }
  }
}
