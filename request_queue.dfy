/**
 * The pending request queue: requests that failed with 401 while a token
 * refresh was in flight wait here, in arrival order, until the queue is
 * drained (each replayed through the transport) or cancelled.
 */
module RequestQueueService {
  import opened Wrappers
  import opened Http

  /**
   * A queued request. `id` names both the cancel token source created for
   * it and the promise `enqueue` returned for it.
   */
  datatype Entry = Entry(id: nat, config: Config)

  /** The state of the promise `enqueue` returned. */
  datatype Settlement = Pending | Fulfilled(response: Response) | Rejected(reason: Thrown)

  /** Resolving with the response, or rejecting with what the transport threw. */
  function SettlementOf(o: Outcome): (s: Settlement)
    ensures !s.Pending?
    ensures s.Fulfilled? <==> o.Success?
    ensures s.Fulfilled? ==> s.response == o.response
    ensures s.Rejected? ==> s.reason == o.thrown
  {
    match o
    case Success(r) => Fulfilled(r)
    case Failure(t) => Rejected(t)
  }

  /** The message of the `axios.Cancel` a cancelled entry is rejected with. */
  function CancelMessage(reason: string): (m: string)
    ensures |m| == |"Request canceled: "| + |reason|
    ensures m[..|"Request canceled: "|] == "Request canceled: "
    ensures m[|"Request canceled: "|..] == reason
  {
    "Request canceled: " + reason
  }

  /** How replay settles an entry: by sending its config through the transport. */
  function Replay(transport: Config -> Outcome): Entry -> Settlement {
    (e: Entry) => SettlementOf(transport(e.config))
  }

  /** How cancellation settles an entry: rejected with a cancel carrying the reason. */
  function Cancellation(reason: string): Entry -> Settlement {
    (e: Entry) => Rejected(Canceled(CancelMessage(reason)))
  }

  /** The reason every cancelled entry's token is cancelled with. */
  function CancelledWith(reason: string): Entry -> string {
    (e: Entry) => reason
  }

  function Ids(q: seq<Entry>): (ids: seq<nat>)
    ensures |ids| == |q|
  {
    seq(|q|, i requires 0 <= i < |q| => q[i].id)
  }

  function Configs(q: seq<Entry>): (cs: seq<Config>)
    ensures |cs| == |q|
  {
    seq(|q|, i requires 0 <= i < |q| => q[i].config)
  }

  /** Entries are ordered by id, so no id occurs twice. */
  predicate IncreasingIds(q: seq<Entry>) {
    forall i, j :: 0 <= i < j < |q| ==> q[i].id < q[j].id
  }

  /** `m` after visiting the entries of `q` head to tail, setting `m[e.id] := f(e)` for each. */
  function UpdateEach<V>(m: map<nat, V>, q: seq<Entry>, f: Entry -> V): map<nat, V>
    decreases |q|
  {
    if q == [] then m else UpdateEach(m, q[..|q| - 1], f)[q[|q| - 1].id := f(q[|q| - 1])]
  }

  /** Visiting a queue is visiting its head, then the rest. */
  lemma {:induction false} UpdateEachHead<V>(m: map<nat, V>, q: seq<Entry>, f: Entry -> V)
    requires q != []
    ensures UpdateEach(m, q, f) == UpdateEach(m[q[0].id := f(q[0])], q[1..], f)
    decreases |q|
  {
    var n := |q| - 1;
    if n == 0 {
      assert q[..0] == [] && q[1..] == [];
    } else {
      UpdateEachHead(m, q[..n], f);
      assert q[..n][0] == q[0] && q[..n][1..] == q[1..][..n - 1];
      assert q[1..][n - 1] == q[n];
    }
  }

  /** The configs and ids of a queue are its head's, then the rest's. */
  lemma ConfigsAndIdsHead(q: seq<Entry>)
    requires q != []
    ensures Configs(q) == [q[0].config] + Configs(q[1..])
    ensures Ids(q) == [q[0].id] + Ids(q[1..])
  {
  }

  /** Every visited entry ends up with its own value. */
  lemma {:induction false} UpdateEachAt<V>(m: map<nat, V>, q: seq<Entry>, f: Entry -> V, i: nat)
    requires IncreasingIds(q) && i < |q|
    ensures q[i].id in UpdateEach(m, q, f) && UpdateEach(m, q, f)[q[i].id] == f(q[i])
  {
    var n := |q| - 1;
    if i < n {
      UpdateEachAt(m, q[..n], f, i);
      assert q[..n][i] == q[i];
    }
  }

  /** A key that no visited entry carries keeps its value (or its absence). */
  lemma {:induction false} UpdateEachElsewhere<V>(m: map<nat, V>, q: seq<Entry>, f: Entry -> V, id: nat)
    requires id !in Ids(q)
    ensures id in UpdateEach(m, q, f) <==> id in m
    ensures id in m ==> UpdateEach(m, q, f)[id] == m[id]
  {
    if q != [] {
      var n := |q| - 1;
      assert Ids(q[..n]) == Ids(q)[..n];
      assert q[n].id == Ids(q)[n];
      UpdateEachElsewhere(m, q[..n], f, id);
    }
  }

  /** The keys after the visit are the old keys plus the visited ids. */
  lemma {:induction false} UpdateEachKeys<V>(m: map<nat, V>, q: seq<Entry>, f: Entry -> V)
    ensures forall id :: id in UpdateEach(m, q, f) <==> id in m || id in Ids(q)
  {
    if q != [] {
      var n := |q| - 1;
      UpdateEachKeys(m, q[..n], f);
      assert Ids(q) == Ids(q[..n]) + [q[n].id];
    }
  }

  /** Replay settles every replayed promise with the outcome of sending that entry's config. */
  lemma ReplaySettlesEach(s: map<nat, Settlement>, q: seq<Entry>, transport: Config -> Outcome, i: nat)
    requires IncreasingIds(q) && i < |q|
    ensures q[i].id in UpdateEach(s, q, Replay(transport))
    ensures UpdateEach(s, q, Replay(transport))[q[i].id] == SettlementOf(transport(q[i].config))
  {
    UpdateEachAt(s, q, Replay(transport), i);
  }

  /** Cancellation rejects every cancelled promise with "Request canceled: " and the reason. */
  lemma CancellationRejectsEach(s: map<nat, Settlement>, q: seq<Entry>, reason: string, i: nat)
    requires IncreasingIds(q) && i < |q|
    ensures q[i].id in UpdateEach(s, q, Cancellation(reason))
    ensures UpdateEach(s, q, Cancellation(reason))[q[i].id] == Rejected(Canceled("Request canceled: " + reason))
  {
    UpdateEachAt(s, q, Cancellation(reason), i);
  }

  /** Some entry of `q` carries `id`. */
  predicate Queued(q: seq<Entry>, id: nat)
    decreases |q|
  {
    q != [] && (q[0].id == id || Queued(q[1..], id))
  }

  /** The position of a queued id. */
  lemma {:induction false} QueuedAt(q: seq<Entry>, id: nat) returns (i: nat)
    requires Queued(q, id)
    ensures i < |q| && q[i].id == id
    decreases |q|
  {
    if q[0].id == id {
      i := 0;
    } else {
      var j := QueuedAt(q[1..], id);
      i := j + 1;
    }
  }

  /** The id of every entry is queued. */
  lemma {:induction false} QueuedFromIndex(q: seq<Entry>, i: nat)
    requires i < |q|
    ensures Queued(q, q[i].id)
    decreases i
  {
    if i > 0 {
      QueuedFromIndex(q[1..], i - 1);
    }
  }

  /** Appending an entry keeps every queued id queued. */
  lemma {:induction false} QueuedSnoc(q: seq<Entry>, e: Entry, id: nat)
    requires Queued(q, id)
    ensures Queued(q + [e], id)
    decreases |q|
  {
    assert (q + [e])[0] == q[0] && (q + [e])[1..] == q[1..] + [e];
    if q[0].id != id {
      QueuedSnoc(q[1..], e, id);
    }
  }

  /** The queue invariant over plain values: see `RequestQueue.Valid`. */
  ghost predicate ValidQueue(queue: seq<Entry>, nextId: nat, settlements: map<nat, Settlement>,
                             cancelReasons: map<CancelToken, string>)
  {
    && IncreasingIds(queue)
    && (forall i :: 0 <= i < |queue| ==>
          && queue[i].id < nextId
          && queue[i].config.cancelToken == Some(queue[i].id)
          && queue[i].id !in cancelReasons
          && queue[i].id in settlements
          && settlements[queue[i].id] == Pending)
    && (forall id :: id in settlements ==> id < nextId)
    && (forall id :: id in cancelReasons ==> id < nextId)
    && (forall id :: id in settlements && settlements[id] == Pending ==> Queued(queue, id))
  }

  /** Appending an entry with the next id and a fresh token keeps the invariant. */
  lemma EnqueueKeepsValid(queue: seq<Entry>, nextId: nat, settlements: map<nat, Settlement>,
                          cancelReasons: map<CancelToken, string>, config: Config)
    requires ValidQueue(queue, nextId, settlements, cancelReasons)
    ensures nextId !in settlements && nextId !in cancelReasons
    ensures ValidQueue(queue + [Entry(nextId, config.(cancelToken := Some(nextId)))], nextId + 1,
                       settlements[nextId := Pending], cancelReasons)
  {
    var e := Entry(nextId, config.(cancelToken := Some(nextId)));
    var s' := settlements[nextId := Pending];
    forall id | id in s' && s'[id] == Pending
      ensures Queued(queue + [e], id)
    {
      if id == nextId {
        QueuedFromIndex(queue + [e], |queue|);
      } else {
        QueuedSnoc(queue, e, id);
      }
    }
  }

  /** Settling the head and removing it keeps the invariant. */
  lemma SettleHeadKeepsValid(queue: seq<Entry>, nextId: nat, settlements: map<nat, Settlement>,
                             cancelReasons: map<CancelToken, string>, v: Settlement, reason: Option<string>)
    requires ValidQueue(queue, nextId, settlements, cancelReasons)
    requires queue != [] && !v.Pending?
    ensures ValidQueue(queue[1..], nextId, settlements[queue[0].id := v],
                       if reason.Some? then cancelReasons[queue[0].id := reason.value] else cancelReasons)
  {
    var s' := settlements[queue[0].id := v];
    forall id | id in s' && s'[id] == Pending
      ensures Queued(queue[1..], id)
    {
      assert id != queue[0].id && Queued(queue, id);
    }
  }

  /** One turn of `processQueue` on values: what is left to do is unchanged, and the invariant holds. */
  lemma ReplayTurn(queue: seq<Entry>, nextId: nat, settlements: map<nat, Settlement>,
                   cancelReasons: map<CancelToken, string>, sent: seq<Config>, settleLog: seq<nat>,
                   transport: Config -> Outcome, outcome: Outcome)
    requires ValidQueue(queue, nextId, settlements, cancelReasons) && queue != []
    requires outcome == transport(queue[0].config)
    ensures var s' := settlements[queue[0].id := SettlementOf(outcome)];
      && ValidQueue(queue[1..], nextId, s', cancelReasons)
      && UpdateEach(s', queue[1..], Replay(transport)) == UpdateEach(settlements, queue, Replay(transport))
    ensures sent + [queue[0].config] + Configs(queue[1..]) == sent + Configs(queue)
    ensures settleLog + [queue[0].id] + Ids(queue[1..]) == settleLog + Ids(queue)
  {
    assert Replay(transport)(queue[0]) == SettlementOf(outcome);
    SettleHeadKeepsValid(queue, nextId, settlements, cancelReasons, SettlementOf(outcome), None);
    UpdateEachHead(settlements, queue, Replay(transport));
    ConfigsAndIdsHead(queue);
    assert sent + [queue[0].config] + Configs(queue[1..]) == sent + ([queue[0].config] + Configs(queue[1..]));
    assert settleLog + [queue[0].id] + Ids(queue[1..]) == settleLog + ([queue[0].id] + Ids(queue[1..]));
  }

  /** One turn of `cancelAll` on values: what is left to do is unchanged, and the invariant holds. */
  lemma CancelTurn(queue: seq<Entry>, nextId: nat, settlements: map<nat, Settlement>,
                   cancelReasons: map<CancelToken, string>, settleLog: seq<nat>, reason: string)
    requires ValidQueue(queue, nextId, settlements, cancelReasons) && queue != []
    ensures var s', c' := settlements[queue[0].id := Rejected(Canceled(CancelMessage(reason)))],
                          cancelReasons[queue[0].id := reason];
      && ValidQueue(queue[1..], nextId, s', c')
      && UpdateEach(s', queue[1..], Cancellation(reason)) == UpdateEach(settlements, queue, Cancellation(reason))
      && UpdateEach(c', queue[1..], CancelledWith(reason)) == UpdateEach(cancelReasons, queue, CancelledWith(reason))
    ensures settleLog + [queue[0].id] + Ids(queue[1..]) == settleLog + Ids(queue)
  {
    var v := Rejected(Canceled(CancelMessage(reason)));
    assert Cancellation(reason)(queue[0]) == v && CancelledWith(reason)(queue[0]) == reason;
    SettleHeadKeepsValid(queue, nextId, settlements, cancelReasons, v, Some(reason));
    UpdateEachHead(settlements, queue, Cancellation(reason));
    UpdateEachHead(cancelReasons, queue, CancelledWith(reason));
    ConfigsAndIdsHead(queue);
    assert settleLog + [queue[0].id] + Ids(queue[1..]) == settleLog + ([queue[0].id] + Ids(queue[1..]));
  }

  /**
   * A promise is settled at most once: draining or cancelling a valid queue
   * leaves every promise that was already settled as it was.
   */
  lemma SettledStaysSettled(queue: seq<Entry>, nextId: nat, settlements: map<nat, Settlement>,
                            cancelReasons: map<CancelToken, string>, f: Entry -> Settlement, id: nat)
    requires ValidQueue(queue, nextId, settlements, cancelReasons)
    requires id in settlements && settlements[id] != Pending
    ensures id in UpdateEach(settlements, queue, f) && UpdateEach(settlements, queue, f)[id] == settlements[id]
  {
    UpdateEachElsewhere(settlements, queue, f, id);
  }

  /** Every promise pending in a valid queue is settled by draining or cancelling it. */
  lemma PendingGetsSettled(queue: seq<Entry>, nextId: nat, settlements: map<nat, Settlement>,
                           cancelReasons: map<CancelToken, string>, f: Entry -> Settlement, id: nat)
    requires ValidQueue(queue, nextId, settlements, cancelReasons)
    requires forall e :: f(e) != Pending
    requires id in settlements && settlements[id] == Pending
    ensures id in UpdateEach(settlements, queue, f) && UpdateEach(settlements, queue, f)[id] != Pending
  {
    var i := QueuedAt(queue, id);
    UpdateEachAt(settlements, queue, f, i);
  }

  class RequestQueue {
    /** The queued requests, head first. */
    var queue: seq<Entry>
    /** The id the next token source and promise get: every id below it has been handed out. */
    var nextId: nat
    /** The state of every promise `enqueue` has returned. */
    ghost var settlements: map<nat, Settlement>
    /** The reason each cancelled token was cancelled with. */
    ghost var cancelReasons: map<CancelToken, string>
    /** Every config sent to the transport by replay, in order. */
    ghost var sent: seq<Config>
    /** Every entry settled, in the order it was settled. */
    ghost var settleLog: seq<nat>

    /**
     * The queue's invariant: ids increase head to tail, each entry's config
     * carries its own uncancelled token, and a promise is pending exactly
     * while its entry is queued.
     */
    ghost predicate Valid()
      reads this
    {
      ValidQueue(queue, nextId, settlements, cancelReasons)
    }

    constructor()
      ensures Valid()
      ensures queue == [] && settlements == map[] && cancelReasons == map[]
      ensures sent == [] && settleLog == []
    {
      queue := [];
      nextId := 0;
      settlements := map[];
      cancelReasons := map[];
      sent := [];
      settleLog := [];
    }

    /**
     * `enqueue(config)`: append one entry whose config is the caller's with
     * only the cancel token replaced by a fresh one; its promise is pending.
     */
    method Enqueue(config: Config) returns (id: nat)
      requires Valid()
      modifies this
      ensures Valid()
      ensures id !in old(settlements) && id !in old(cancelReasons)
      ensures queue == old(queue) + [Entry(id, config.(cancelToken := Some(id)))]
      ensures settlements == old(settlements)[id := Pending]
      ensures cancelReasons == old(cancelReasons)
      ensures sent == old(sent) && settleLog == old(settleLog)
    {
      id := nextId;  // axios.CancelToken.source(): a fresh token source
      EnqueueKeepsValid(queue, nextId, settlements, cancelReasons, config);
      ghost var s' := settlements[id := Pending];
      var q' := queue + [Entry(id, config.(cancelToken := Some(id)))];
      assert ValidQueue(q', nextId + 1, s', cancelReasons);
      nextId := nextId + 1;
      queue := q';
      settlements := s';
    }

    /**
     * `processQueue()`: remove the head and replay it through the
     * transport, one at a time, until the queue is empty; each promise is
     * resolved with the response or rejected with the failure.
     */
    method ProcessQueue(transport: Config -> Outcome)
      requires Valid()
      modifies this
      ensures Valid()
      ensures queue == []
      ensures sent == old(sent) + Configs(old(queue))
      ensures settleLog == old(settleLog) + Ids(old(queue))
      ensures settlements == UpdateEach(old(settlements), old(queue), Replay(transport))
      ensures cancelReasons == old(cancelReasons) && nextId == old(nextId)
    {
      ghost var f := Replay(transport);
      ghost var done := UpdateEach(settlements, queue, f);
      ghost var sentAll := sent + Configs(queue);
      ghost var logAll := settleLog + Ids(queue);
      while |queue| > 0
        invariant UpdateEach(settlements, queue, f) == done
        invariant sent + Configs(queue) == sentAll
        invariant settleLog + Ids(queue) == logAll
        invariant cancelReasons == old(cancelReasons) && nextId == old(nextId)
        invariant Valid()
        decreases |queue|
      {
        ReplayHead(transport);
      }
      assert Configs(queue) == [] && Ids(queue) == [];
    }

    /** One turn of `processQueue`: shift the head, send it, settle its promise. */
    method ReplayHead(transport: Config -> Outcome)
      requires Valid() && queue != []
      modifies this
      ensures Valid()
      ensures queue == old(queue)[1..]
      ensures sent == old(sent) + [old(queue)[0].config]
      ensures settleLog == old(settleLog) + [old(queue)[0].id]
      ensures settlements == old(settlements)[old(queue)[0].id := SettlementOf(transport(old(queue)[0].config))]
      ensures cancelReasons == old(cancelReasons) && nextId == old(nextId)
      // what is left to do is unchanged by one turn
      ensures UpdateEach(settlements, queue, Replay(transport))
              == old(UpdateEach(settlements, queue, Replay(transport)))
      ensures sent + Configs(queue) == old(sent + Configs(queue))
      ensures settleLog + Ids(queue) == old(settleLog + Ids(queue))
    {
      var request := queue[0];
      var outcome := transport(request.config);
      ReplayTurn(queue, nextId, settlements, cancelReasons, sent, settleLog, transport, outcome);
      ghost var s' := settlements[request.id := SettlementOf(outcome)];
      queue, sent, settleLog, settlements := queue[1..], sent + [request.config], settleLog + [request.id], s';
    }

    /**
     * `cancelAll(reason)`: remove every entry head to tail, cancel its
     * token with the reason and reject its promise with a cancel whose
     * message is "Request canceled: " followed by the reason.
     */
    method CancelAll(reason: string)
      requires Valid()
      modifies this
      ensures Valid()
      ensures queue == []
      ensures settleLog == old(settleLog) + Ids(old(queue))
      ensures settlements == UpdateEach(old(settlements), old(queue), Cancellation(reason))
      ensures cancelReasons == UpdateEach(old(cancelReasons), old(queue), CancelledWith(reason))
      ensures sent == old(sent) && nextId == old(nextId)
    {
      ghost var f, g := Cancellation(reason), CancelledWith(reason);
      ghost var done, cancelled := UpdateEach(settlements, queue, f), UpdateEach(cancelReasons, queue, g);
      ghost var logAll := settleLog + Ids(queue);
      while |queue| > 0
        invariant UpdateEach(settlements, queue, f) == done
        invariant UpdateEach(cancelReasons, queue, g) == cancelled
        invariant settleLog + Ids(queue) == logAll
        invariant sent == old(sent) && nextId == old(nextId)
        invariant Valid()
        decreases |queue|
      {
        CancelHead(reason);
      }
      assert Ids(queue) == [];
    }

    /** One turn of `cancelAll`: shift the head, cancel its token, reject its promise. */
    method CancelHead(reason: string)
      requires Valid() && queue != []
      modifies this
      ensures Valid()
      ensures queue == old(queue)[1..]
      ensures cancelReasons == old(cancelReasons)[old(queue)[0].id := reason]
      ensures settleLog == old(settleLog) + [old(queue)[0].id]
      ensures settlements == old(settlements)[old(queue)[0].id := Rejected(Canceled(CancelMessage(reason)))]
      ensures sent == old(sent) && nextId == old(nextId)
      // what is left to do is unchanged by one turn
      ensures UpdateEach(settlements, queue, Cancellation(reason))
              == old(UpdateEach(settlements, queue, Cancellation(reason)))
      ensures UpdateEach(cancelReasons, queue, CancelledWith(reason))
              == old(UpdateEach(cancelReasons, queue, CancelledWith(reason)))
      ensures settleLog + Ids(queue) == old(settleLog + Ids(queue))
    {
      CancelTurn(queue, nextId, settlements, cancelReasons, settleLog, reason);
      var request := queue[0];
      ghost var s', c' := settlements[request.id := Rejected(Canceled(CancelMessage(reason)))],
                          cancelReasons[request.id := reason];
      // shift the head, cancel its token with the reason, reject its promise
      queue, cancelReasons, settleLog, settlements := queue[1..], c', settleLog + [request.id], s';
    }
  }
}
