/**
 * The offline queue: writes that could not reach the backend, kept as a
 * JSON array under one key of the browser's key/value storage.
 */
module OfflineQueue {
  import opened Wrappers
  import opened Seqs
  import opened Domain

  datatype ActionType = Insert | Update | Delete

  /** A queued write. The only writer queues expenses, so `data` is an Expense. */
  datatype QueuedAction = QueuedAction(
    id: string,
    table: string,
    actionType: ActionType,
    data: Expense,
    timestamp: int)

  const QueueKey := "gastos_offline_queue"

  /**
   * `JSON.parse` and `JSON.stringify` for the queue. `parse` yields `None`
   * where the source's `JSON.parse` throws.
   */
  datatype JsonCodec = JsonCodec(
    parse: string -> Option<seq<QueuedAction>>,
    stringify: seq<QueuedAction> -> string)

  /**
   * The codec reads back the queue it writes, and does not write it as the
   * empty string (an array prints at least `[]`).
   */
  predicate RoundTrips(codec: JsonCodec, queue: seq<QueuedAction>) {
    codec.stringify(queue) != "" && codec.parse(codec.stringify(queue)) == Some(queue)
  }

  /**
   * `getQueue` on a stored value: nothing stored, an empty string, or
   * text that does not parse all read as the empty queue; text that
   * parses reads as what it denotes.
   */
  function Decode(raw: Option<string>, codec: JsonCodec): (r: seq<QueuedAction>)
    ensures raw.None? || raw == Some("") ==> r == []
    ensures raw.Some? && raw.value != "" && codec.parse(raw.value).None? ==> r == []
    ensures raw.Some? && raw.value != "" && codec.parse(raw.value).Some? ==> r == codec.parse(raw.value).value
  {
    if raw.None? || raw.value == "" then []
    else codec.parse(raw.value).GetOr([])
  }

  /** addToQueue's change to the queue. */
  function Enqueued(queue: seq<QueuedAction>, action: QueuedAction): seq<QueuedAction> {
    queue + [action]
  }

  /** removeFromQueue's change to the queue. */
  function Dequeued(queue: seq<QueuedAction>, id: string): (r: seq<QueuedAction>)
    ensures forall i :: 0 <= i < |r| ==> r[i].id != id && r[i] in queue
    ensures forall i :: 0 <= i < |queue| && queue[i].id != id ==> queue[i] in r
  {
    Filter(queue, (a: QueuedAction) => a.id != id)
  }

  /** Removing an action just queued under a fresh id gives back the old queue. */
  lemma DequeueAfterEnqueue(queue: seq<QueuedAction>, action: QueuedAction)
    requires forall i :: 0 <= i < |queue| ==> queue[i].id != action.id
    ensures Dequeued(Enqueued(queue, action), action.id) == queue
  {
    var p := (a: QueuedAction) => a.id != action.id;
    FilterAppend(queue, [action], p);
    FilterAllPass(queue, p);
    assert [action][..0] == [];
  }

  /** Removal keeps the other actions in their order, and removing twice is removing once. */
  lemma DequeueSpec(queue: seq<QueuedAction>, id: string)
    ensures IsSubsequence(Dequeued(queue, id), queue)
    ensures Dequeued(Dequeued(queue, id), id) == Dequeued(queue, id)
  {
    FilterIsSubsequence(queue, (a: QueuedAction) => a.id != id);
    FilterIdempotent(queue, (a: QueuedAction) => a.id != id);
  }

  /** The browser storage the queue lives in. */
  class QueueStore {
    var storage: map<string, string>
    const codec: JsonCodec

    constructor(initial: map<string, string>, c: JsonCodec)
      ensures storage == initial && codec == c
    {
      storage := initial;
      codec := c;
    }

    /** The queue as getQueue reads it right now. */
    function Queue(): seq<QueuedAction>
      reads this
    {
      Decode(if QueueKey in storage then Some(storage[QueueKey]) else None, codec)
    }

    method GetQueue() returns (queue: seq<QueuedAction>)
      ensures queue == Queue()
      ensures QueueKey !in storage ==> queue == []
      ensures QueueKey in storage && codec.parse(storage[QueueKey]).None? ==> queue == []
    {
      if QueueKey in storage && storage[QueueKey] != "" {
        var parsed := codec.parse(storage[QueueKey]);
        queue := if parsed.Some? then parsed.value else [];
      } else {
        queue := [];
      }
    }

    /** `addToQueue`: the action goes last, stamped with a fresh id and the current time. */
    method AddToQueue(table: string, actionType: ActionType, data: Expense, freshId: string, now: int)
      requires RoundTrips(codec, Enqueued(Queue(), QueuedAction(freshId, table, actionType, data, now)))
      modifies this
      ensures Queue() == Enqueued(old(Queue()), QueuedAction(freshId, table, actionType, data, now))
      ensures QueueKey in storage && storage - {QueueKey} == old(storage) - {QueueKey}
    {
      var queue := GetQueue();
      queue := queue + [QueuedAction(freshId, table, actionType, data, now)];
      storage := storage[QueueKey := codec.stringify(queue)];
    }

    /** `removeFromQueue`: every action with this id goes. */
    method RemoveFromQueue(id: string)
      requires RoundTrips(codec, Dequeued(Queue(), id))
      modifies this
      ensures Queue() == Dequeued(old(Queue()), id)
      ensures QueueKey in storage && storage - {QueueKey} == old(storage) - {QueueKey}
    {
      var queue := GetQueue();
      queue := Dequeued(queue, id);
      storage := storage[QueueKey := codec.stringify(queue)];
    }

    /** `clearQueue`: the key is removed, so the queue reads as empty. */
    method ClearQueue()
      modifies this
      ensures storage == old(storage) - {QueueKey}
      ensures Queue() == []
    {
      storage := storage - {QueueKey};
    }
  }
}
