/**
 * The client side of the bidirectional exchange (src/queryboost/stream.py):
 * the writer worker, the reader worker and the tracker that drains the
 * progress queue. The workers run one after the other, then the tracker,
 * instead of on threads; the queues and the stop flag are fields of the
 * streamer, and the writer, the reader and the batch handler are given as
 * the values they produce and the step at which they fail.
 */
module Stream {
  import opened Common
  import opened Exceptions
  import opened Data

  // ---------------------------------------------------------------------
  // Queue items, calls and actions
  // ---------------------------------------------------------------------

  /** A progress-queue entry: the dict's "event", "message" and "num_rows" values, each possibly absent. */
  datatype Item = Item(event: Option<string>, message: Option<string>, numRows: Option<int>)

  const WriteEvent: string := "write"
  const ReadEvent: string := "read"
  const DoneWritingEvent: string := "done_writing"
  const DoneReadingEvent: string := "done_reading"
  const ProcessingStartedEvent: string := "processing_started"
  const ProcessingDoneEvent: string := "processing_done"

  /** `{"event": event, "num_rows": n}` */
  function CountItem(event: string, n: int): Item {
    Item(Some(event), None, Some(n))
  }

  /** `{"event": event}` */
  function EventItem(event: string): Item {
    Item(Some(event), None, None)
  }

  /** `pa.RecordBatch.from_pydict(batch).num_rows`: the length of the first column, 0 without columns. */
  function NumRows(batch: Columns): nat {
    if batch.names != [] && batch.names[0] in batch.lists then |batch.lists[batch.names[0]]| else 0
  }

  /** A call on the stream writer. */
  datatype WriterCall = Begin(schema: seq<string>) | WriteBatch(batch: Columns) | DoneWriting

  /** A call `batch_handler.handle(batch, batch_idx)`. */
  datatype HandlerCall = HandlerCall(batch: Columns, index: nat)

  /** One inbound chunk: its control record (already decoded) and its record batch, each optional. */
  datatype Chunk = Chunk(metadata: Option<Item>, data: Option<Columns>)

  /** How iteration over the reader ends after the given chunks. */
  datatype StreamEnd =
    | Exhausted
    | StopIterationRaised
    | ReadFailed(error: Exc)

  /** What the progress display is asked to do. */
  datatype Action =
    | CreateBar(total: Option<nat>, desc: Option<string>)
    | SetPostfix(sent: int)             // "Sent: <sent>"
    | UpdateBar(n: int)
    | CloseBar
    | WriteMessage(text: string)

  /** How the tracking loop ends: it returns, it raises, or it is still polling an empty queue. */
  datatype Outcome = Returned | Propagates(error: Exc) | StillPolling

  // ---------------------------------------------------------------------
  // _write
  // ---------------------------------------------------------------------

  /**
   * What the writer does: the batches it wrote and queued an event for,
   * the batch whose write raised (if any), the exception it recorded, and
   * whether it stopped at the stop flag.
   */
  datatype WriteRun = WriteRun(sent: seq<Columns>, failed: Option<Columns>, error: Option<Exc>, stopped: bool)

  /**
   * The write loop from the `k`-th batch of `g` on. Each batch is pulled
   * first, then the stop flag is checked (so a batch pulled when the flag
   * is set is dropped), then it is written; `failAt == Some(k + 1)` makes
   * the write of the `k`-th batch raise `writerError`. The pull after the
   * last batch ends the loop, raising the generator's exception if it has one.
   */
  function WriteLoop(g: Generated, k: nat, stopSet: bool, stopAt: Option<nat>, failAt: Option<nat>, writerError: Exc): WriteRun
    requires k <= |g.batches|
    decreases |g.batches| - k
  {
    if k == |g.batches| then WriteRun([], None, g.error, false)
    else if stopSet || stopAt == Some(k) then WriteRun([], None, None, true)
    else if failAt == Some(k + 1) then WriteRun([], Some(g.batches[k]), Some(writerError), false)
    else
      var r := WriteLoop(g, k + 1, false, stopAt, failAt, writerError);
      r.(sent := [g.batches[k]] + r.sent)
  }

  /** `_write`: `begin` raises when `failAt == Some(0)`; otherwise the write loop runs over the batcher. */
  function Writing(g: Generated, stopSet: bool, stopAt: Option<nat>, failAt: Option<nat>, writerError: Exc): WriteRun {
    if failAt == Some(0) then WriteRun([], None, Some(writerError), false)
    else WriteLoop(g, 0, stopSet, stopAt, failAt, writerError)
  }

  function SendCalls(sent: seq<Columns>): seq<WriterCall> {
    seq(|sent|, i requires 0 <= i < |sent| => WriteBatch(sent[i]))
  }

  function WriteItems(sent: seq<Columns>): seq<Item> {
    seq(|sent|, i requires 0 <= i < |sent| => CountItem(WriteEvent, NumRows(sent[i])))
  }

  /** The write call that raised, if any. */
  function FailedCall(r: WriteRun): seq<WriterCall> {
    if r.failed.Some? then [WriteBatch(r.failed.value)] else []
  }

  /** The writer calls of a run: `begin`, each write attempted, `done_writing`. */
  function WriterCalls(schema: seq<string>, r: WriteRun): seq<WriterCall> {
    [Begin(schema)] + (SendCalls(r.sent) + FailedCall(r)) + [DoneWriting]
  }

  /** Sending one more batch extends the calls and the events by one each. */
  lemma SentOneMore(batches: seq<Columns>, k: nat, later: seq<Columns>)
    requires k < |batches|
    ensures batches[..k + 1] == batches[..k] + [batches[k]]
    ensures SendCalls(batches[..k] + [batches[k]]) == SendCalls(batches[..k]) + [WriteBatch(batches[k])]
    ensures WriteItems(batches[..k] + [batches[k]]) == WriteItems(batches[..k]) + [CountItem(WriteEvent, NumRows(batches[k]))]
    ensures batches[..k] + ([batches[k]] + later) == batches[..k + 1] + later
  {
  }

  // ---------------------------------------------------------------------
  // _read
  // ---------------------------------------------------------------------

  /**
   * `if record_batch := chunk.data`: a chunk's record batch counts only when
   * it is present and truthy, and a record batch is truthy when it has rows.
   */
  predicate HasPayload(c: Chunk) {
    c.data.Some? && NumRows(c.data.value) > 0
  }

  /** What the reader does: the handler calls made, the items queued, the exception recorded, whether it stopped. */
  datatype ReadRun = ReadRun(calls: seq<HandlerCall>, items: seq<Item>, error: Option<Exc>, stopped: bool)

  /**
   * What `_read`'s handlers make of an exception raised inside its `try`:
   * `StopIteration` is caught first and passed over; any other exception
   * is the one to record.
   */
  function Recorded(e: Exc): (r: Option<Exc>)
    ensures r.None? <==> e.cls == StopIteration
    ensures r.Some? ==> r.value == e
  {
    if e.cls == StopIteration then None else Some(e)
  }

  /** The exception with which iteration over the reader ends, if it counts as one. */
  function EndError(end: StreamEnd): Option<Exc> {
    if end.ReadFailed? then Recorded(end.error) else None
  }

  /**
   * The read loop from chunk `i` on, with `index` payloads handled so far,
   * the handler calls `calls` made and the items `items` queued. The stop
   * flag is checked first; then the control record is queued; then a
   * payload is handed to the handler with the next index and its `read`
   * event is queued. `failAt == Some(index)` makes that handler call raise
   * `handlerError`, which ends the loop and is recorded unless it is a
   * `StopIteration`.
   */
  function ReadFrom(chunks: seq<Chunk>, i: nat, index: nat, stopSet: bool, stopAt: Option<nat>, failAt: Option<nat>,
                    handlerError: Exc, end: StreamEnd, calls: seq<HandlerCall>, items: seq<Item>): ReadRun
    requires i <= |chunks|
    decreases |chunks| - i
  {
    if i == |chunks| then ReadRun(calls, items, EndError(end), false)
    else if stopSet || stopAt == Some(i) then ReadRun(calls, items, None, true)
    else
      var c := chunks[i];
      var queued := if c.metadata.Some? then items + [c.metadata.value] else items;
      if !HasPayload(c) then
        ReadFrom(chunks, i + 1, index, false, stopAt, failAt, handlerError, end, calls, queued)
      else if failAt == Some(index) then
        ReadRun(calls + [HandlerCall(c.data.value, index)], queued, Recorded(handlerError), false)
      else
        ReadFrom(chunks, i + 1, index + 1, false, stopAt, failAt, handlerError, end,
                 calls + [HandlerCall(c.data.value, index)], queued + [CountItem(ReadEvent, NumRows(c.data.value))])
  }

  /** `_read` over `chunks`, ending as `end` says. */
  function Reading(chunks: seq<Chunk>, end: StreamEnd, stopSet: bool, stopAt: Option<nat>,
                   failAt: Option<nat>, handlerError: Exc): ReadRun {
    ReadFrom(chunks, 0, 0, stopSet, stopAt, failAt, handlerError, end, [], [])
  }

  /** The calls and items a run starts with stay in front of the ones it adds; the rest does not depend on them. */
  lemma {:induction false} ReadFromAccumulates(chunks: seq<Chunk>, i: nat, index: nat, stopSet: bool, stopAt: Option<nat>,
                                               failAt: Option<nat>, handlerError: Exc, end: StreamEnd,
                                               calls: seq<HandlerCall>, items: seq<Item>)
    requires i <= |chunks|
    ensures var r := ReadFrom(chunks, i, index, stopSet, stopAt, failAt, handlerError, end, calls, items);
      var e := ReadFrom(chunks, i, index, stopSet, stopAt, failAt, handlerError, end, [], []);
      r.calls == calls + e.calls && r.items == items + e.items && r.error == e.error && r.stopped == e.stopped
    decreases |chunks| - i
  {
    if i == |chunks| || stopSet || stopAt == Some(i) {
      assert calls + [] == calls && items + [] == items;
    } else {
      var c := chunks[i];
      var meta := if c.metadata.Some? then [c.metadata.value] else [];
      var q := if c.metadata.Some? then items + [c.metadata.value] else items;
      var q0 := if c.metadata.Some? then [] + [c.metadata.value] else [];
      assert q == items + meta && q0 == meta;
      if !HasPayload(c) {
        ReadFromAccumulates(chunks, i + 1, index, false, stopAt, failAt, handlerError, end, calls, q);
        ReadFromAccumulates(chunks, i + 1, index, false, stopAt, failAt, handlerError, end, [], q0);
        var e := ReadFrom(chunks, i + 1, index, false, stopAt, failAt, handlerError, end, [], []);
        Regroup(items, meta, e.items);
      } else if failAt == Some(index) {
      } else {
        var call := [HandlerCall(c.data.value, index)];
        var read := [CountItem(ReadEvent, NumRows(c.data.value))];
        ReadFromAccumulates(chunks, i + 1, index + 1, false, stopAt, failAt, handlerError, end, calls + call, q + read);
        ReadFromAccumulates(chunks, i + 1, index + 1, false, stopAt, failAt, handlerError, end, call, meta + read);
        var e := ReadFrom(chunks, i + 1, index + 1, false, stopAt, failAt, handlerError, end, [], []);
        assert [] + call == call && q0 + read == meta + read;
        Regroup(calls, call, e.calls);
        Regroup(items, meta, read);
        Regroup(items, meta + read, e.items);
      }
    }
  }

  // ---------------------------------------------------------------------
  // _track_progress_and_exceptions
  // ---------------------------------------------------------------------

  /** The tracker's state: the two done flags, the two counters, and whether the display exists. */
  datatype Tally = Tally(doneWriting: bool, doneReading: bool, sent: int, received: int, hasBar: bool)

  /** `item.get("num_rows", 0)` */
  function Count(item: Item): int {
    if item.numRows.Some? then item.numRows.value else 0
  }

  /** The state after one dequeued item. */
  function Advance(t: Tally, item: Item): Tally {
    var e := item.event;
    if e == Some(WriteEvent) then t.(sent := t.sent + Count(item))
    else if e == Some(ReadEvent) then t.(received := t.received + Count(item))
    else if e == Some(DoneWritingEvent) then t.(doneWriting := true)
    else if e == Some(DoneReadingEvent) then t.(doneReading := true)
    else if e == Some(ProcessingStartedEvent) then t.(hasBar := true)
    else t
  }

  /** The message of an item is echoed unless it is missing, empty, or the item starts processing. */
  predicate Echoed(item: Item) {
    Truthy(item.message) && item.event != Some(ProcessingStartedEvent)
  }

  /** The display actions for one dequeued item, in state `t`. */
  function Reaction(t: Tally, item: Item, numRows: Option<nat>): seq<Action> {
    var e := item.event;
    var bar :=
      if e == Some(WriteEvent) then (if t.hasBar then [SetPostfix(t.sent + Count(item))] else [])
      else if e == Some(ReadEvent) then (if t.hasBar then [UpdateBar(Count(item))] else [])
      else if e == Some(ProcessingStartedEvent) then [CreateBar(numRows, item.message), SetPostfix(t.sent)]
      else if e == Some(ProcessingDoneEvent) then (if t.hasBar then [CloseBar] else [])
      else [];
    bar + (if Echoed(item) then [WriteMessage(item.message.value)] else [])
  }

  /** The exception the tracker raises for a recorded one: transport errors become server errors with a clean message. */
  function Surface(e: Exc): Exc {
    if e.cls == FlightError then Exc(Queryboost(ServerError), CleanFlightErrorMessage(e.message)) else e
  }

  /** What tracking does: its display actions, how it ends, how many items it dequeued, and its last state. */
  datatype TrackRun = TrackRun(actions: seq<Action>, outcome: Outcome, consumed: nat, final: Tally)

  /**
   * The tracking loop over `queue`, with `slot` holding the recorded
   * exception. The loop ends once both done flags are set; each dequeued
   * item is acted on, then a recorded exception is raised.
   */
  function Tracking(t: Tally, queue: seq<Item>, slot: Option<Exc>, numRows: Option<nat>): (r: TrackRun)
    ensures r.consumed <= |queue|
    decreases |queue|
  {
    if t.doneWriting && t.doneReading then TrackRun([], Returned, 0, t)
    else if queue == [] then TrackRun([], StillPolling, 0, t)
    else
      var acts := Reaction(t, queue[0], numRows);
      var next := Advance(t, queue[0]);
      if slot.Some? then TrackRun(acts, Propagates(Surface(slot.value)), 1, next)
      else
        var r := Tracking(next, queue[1..], slot, numRows);
        r.(actions := acts + r.actions, consumed := r.consumed + 1)
  }

  /** The tracker's state when it starts. */
  function Start(hasBar: bool): Tally {
    Tally(false, false, 0, 0, hasBar)
  }

  /** What `stream()` does to the display once tracking is over: close it if it exists. */
  function Closing(t: Tally): seq<Action> {
    if t.hasBar then [CloseBar] else []
  }

  /**
   * What the writer queues once its `try` is over: `done_writing` is queued
   * after `writer.done_writing()` returns; when that call raises, the
   * exception leaves the writer's thread and nothing is queued or recorded.
   */
  function WriterEnd(doneWritingFails: bool): seq<Item> {
    if doneWritingFails then [] else [EventItem(DoneWritingEvent)]
  }

  /** What a whole exchange does: the writer's run, the reader's run and the tracker's run. */
  datatype SessionRun = SessionRun(write: WriteRun, read: ReadRun, track: TrackRun)

  /**
   * `stream()` on a freshly built streamer whose batcher knows `numRows`
   * rows, with the workers run one after the other: the writer, the
   * reader, then the tracker over everything they queued, with the first
   * exception either of them recorded. `doneWritingFails` makes the
   * writer's final `done_writing()` call raise.
   */
  function Session(numRows: Option<nat>, g: Generated, writeFailAt: Option<nat>, writerError: Exc, doneWritingFails: bool,
                   chunks: seq<Chunk>, end: StreamEnd, handlerFailAt: Option<nat>, handlerError: Exc): SessionRun {
    var w := Writing(g, false, None, writeFailAt, writerError);
    var rd := Reading(chunks, end, w.stopped, None, handlerFailAt, handlerError);
    var queue := WriteItems(w.sent) + WriterEnd(doneWritingFails) + rd.items + [EventItem(DoneReadingEvent)];
    SessionRun(w, rd, Tracking(Start(false), queue, w.error.OrElse(rd.error), numRows))
  }

  // ---------------------------------------------------------------------
  // The streamer
  // ---------------------------------------------------------------------

  class BatchStreamer {
    const schema: seq<string>
    const numRows: Option<nat>
    /** The progress queue, oldest item first. */
    var progressQueue: seq<Item>
    /** The exception queue, used as a slot that keeps the first exception put in it. */
    var exceptionQueue: Option<Exc>
    var stopEvent: bool
    /** `_pbar is not None` */
    var hasBar: bool

    constructor Init(batcher: DataBatcher)
      ensures schema == batcher.schema && numRows == batcher.numRows
      ensures progressQueue == [] && exceptionQueue == None && !stopEvent && !hasBar
    {
      schema := batcher.schema;
      numRows := batcher.numRows;
      progressQueue := [];
      exceptionQueue := None;
      stopEvent := false;
      hasBar := false;
    }

    /**
     * `_write(writer)`, iterating over a batcher that yields `g.batches` and
     * then raises `g.error`, if any. The stop flag is set by another thread
     * just before the check for batch `stopAt`; `failAt` is the writer step
     * that raises `writerError` (0 for `begin`, k + 1 for the write of batch k);
     * `doneWritingFails` makes the final `done_writing()` raise.
     */
    method Write(g: Generated, stopAt: Option<nat>, failAt: Option<nat>, writerError: Exc, doneWritingFails: bool)
      returns (calls: seq<WriterCall>)
      modifies this
      ensures var r := Writing(g, old(stopEvent), stopAt, failAt, writerError);
        calls == WriterCalls(schema, r) &&
        progressQueue == old(progressQueue) + WriteItems(r.sent) + WriterEnd(doneWritingFails) &&
        exceptionQueue == old(exceptionQueue).OrElse(r.error) &&
        stopEvent == (old(stopEvent) || r.stopped)
      ensures hasBar == old(hasBar)
    {
      if failAt == Some(0) {
        exceptionQueue := exceptionQueue.OrElse(Some(writerError));
        calls := [Begin(schema)];
        assert WriteItems([]) == [] && SendCalls([]) == [];
      } else {
        var sends := SendBatches(g, stopAt, failAt, writerError);
        calls := [Begin(schema)] + sends;
      }
      calls := calls + [DoneWriting];
      if !doneWritingFails {
        progressQueue := progressQueue + [EventItem(DoneWritingEvent)];
      }
    }

    /** The loop of `_write`: pull, check the stop flag, write, queue a `write` event. */
    method SendBatches(g: Generated, stopAt: Option<nat>, failAt: Option<nat>, writerError: Exc) returns (sends: seq<WriterCall>)
      requires failAt != Some(0)
      modifies this
      ensures var r := WriteLoop(g, 0, old(stopEvent), stopAt, failAt, writerError);
        sends == SendCalls(r.sent) + FailedCall(r) &&
        progressQueue == old(progressQueue) + WriteItems(r.sent) &&
        exceptionQueue == old(exceptionQueue).OrElse(r.error) &&
        stopEvent == (old(stopEvent) || r.stopped)
      ensures hasBar == old(hasBar)
    {
      ghost var total := WriteLoop(g, 0, stopEvent, stopAt, failAt, writerError);
      ghost var q0 := progressQueue;
      sends := [];
      var sent: seq<Columns> := [];
      var k := 0;
      while k < |g.batches|
        invariant k <= |g.batches| && sent == g.batches[..k]
        invariant stopEvent == (k == 0 && old(stopEvent))
        invariant sends == SendCalls(sent) && progressQueue == q0 + WriteItems(sent)
        invariant exceptionQueue == old(exceptionQueue) && hasBar == old(hasBar)
        invariant var r := WriteLoop(g, k, stopEvent, stopAt, failAt, writerError);
          total.sent == sent + r.sent && total.failed == r.failed && total.error == r.error && total.stopped == r.stopped
      {
        var batch := g.batches[k];
        if stopAt == Some(k) {
          stopEvent := true;
        }
        if stopEvent {
          assert sent + [] == sent;
          return;
        }
        sends := sends + [WriteBatch(batch)];
        if failAt == Some(k + 1) {
          assert sent + [] == sent;
          exceptionQueue := exceptionQueue.OrElse(Some(writerError));
          return;
        }
        progressQueue := progressQueue + [CountItem(WriteEvent, NumRows(batch))];
        SentOneMore(g.batches, k, WriteLoop(g, k + 1, false, stopAt, failAt, writerError).sent);
        sent := sent + [batch];
        k := k + 1;
      }
      assert sent + [] == sent;
      if g.error.Some? {
        exceptionQueue := exceptionQueue.OrElse(g.error);
      }
    }

    /**
     * `_read(reader)` over `chunks`, after which iteration ends as `end`
     * says. The stop flag is set by another thread just before the check
     * for chunk `stopAt`; the handler raises `handlerError` on the payload
     * with index `failAt`.
     */
    method Read(chunks: seq<Chunk>, end: StreamEnd, stopAt: Option<nat>, failAt: Option<nat>, handlerError: Exc)
      returns (calls: seq<HandlerCall>)
      modifies this
      ensures var r := Reading(chunks, end, old(stopEvent), stopAt, failAt, handlerError);
        calls == r.calls &&
        progressQueue == old(progressQueue) + r.items + [EventItem(DoneReadingEvent)] &&
        exceptionQueue == old(exceptionQueue).OrElse(r.error) &&
        stopEvent == (old(stopEvent) || r.stopped)
      ensures hasBar == old(hasBar)
    {
      ghost var q0 := progressQueue;
      ReadFromAccumulates(chunks, 0, 0, stopEvent, stopAt, failAt, handlerError, end, [], progressQueue);
      calls := ReceiveChunks(chunks, end, stopAt, failAt, handlerError);
      progressQueue := progressQueue + [EventItem(DoneReadingEvent)];
    }

    /**
     * The loop of `_read`: check the stop flag, queue the control record,
     * hand the payload on, queue a `read` event; after the last chunk,
     * record the error that ended iteration, if any. A `StopIteration`
     * from the handler or the reader ends the loop and is not recorded.
     */
    method ReceiveChunks(chunks: seq<Chunk>, end: StreamEnd, stopAt: Option<nat>, failAt: Option<nat>, handlerError: Exc)
      returns (calls: seq<HandlerCall>)
      modifies this
      ensures var r := ReadFrom(chunks, 0, 0, old(stopEvent), stopAt, failAt, handlerError, end, [], old(progressQueue));
        calls == r.calls && progressQueue == r.items &&
        exceptionQueue == old(exceptionQueue).OrElse(r.error) &&
        stopEvent == (old(stopEvent) || r.stopped)
      ensures hasBar == old(hasBar)
    {
      ghost var total := ReadFrom(chunks, 0, 0, stopEvent, stopAt, failAt, handlerError, end, [], progressQueue);
      ghost var stop0, slot0 := stopEvent, exceptionQueue;
      calls := [];
      var batchIdx: nat := 0;
      var i := 0;
      while i < |chunks|
        invariant i <= |chunks| && stopEvent == (i == 0 && stop0)
        invariant exceptionQueue == slot0 && hasBar == old(hasBar)
        invariant total == ReadFrom(chunks, i, batchIdx, stopEvent, stopAt, failAt, handlerError, end, calls, progressQueue)
      {
        var chunk := chunks[i];
        if stopAt == Some(i) {
          stopEvent := true;
        }
        if stopEvent {
          return;
        }
        if chunk.metadata.Some? {
          progressQueue := progressQueue + [chunk.metadata.value];
        }
        var recordBatch := chunk.data;
        if recordBatch.Some? && NumRows(recordBatch.value) > 0 {
          var batch := recordBatch.value;
          calls := calls + [HandlerCall(batch, batchIdx)];
          if failAt == Some(batchIdx) {
            if handlerError.cls != StopIteration {
              exceptionQueue := exceptionQueue.OrElse(Some(handlerError));
            }
            return;
          }
          progressQueue := progressQueue + [CountItem(ReadEvent, NumRows(batch))];
          batchIdx := batchIdx + 1;
        }
        i := i + 1;
      }
      if end.ReadFailed? && end.error.cls != StopIteration {
        exceptionQueue := exceptionQueue.OrElse(Some(end.error));
      }
    }

    /**
     * `_track_progress_and_exceptions()`, draining the progress queue while
     * the exception slot holds what the workers recorded. When the queue
     * runs dry before both done events, the loop would go on polling.
     */
    method Track() returns (actions: seq<Action>, outcome: Outcome)
      modifies this
      ensures var r := Tracking(Start(old(hasBar)), old(progressQueue), old(exceptionQueue), numRows);
        actions == r.actions && outcome == r.outcome &&
        progressQueue == old(progressQueue)[r.consumed..] &&
        hasBar == r.final.hasBar &&
        exceptionQueue == (if outcome.Propagates? then None else old(exceptionQueue))
      ensures stopEvent == old(stopEvent)
    {
      var tally := Start(hasBar);
      ghost var q0 := progressQueue;
      ghost var total := Tracking(tally, q0, exceptionQueue, numRows);
      ghost var k := 0;
      actions := [];
      while !(tally.doneWriting && tally.doneReading)
        invariant k <= |q0| && progressQueue == q0[k..]
        invariant exceptionQueue == old(exceptionQueue) && (k == 0 || exceptionQueue.None?)
        invariant stopEvent == old(stopEvent) && hasBar == tally.hasBar
        invariant var r := Tracking(tally, progressQueue, exceptionQueue, numRows);
          total.actions == actions + r.actions && total.outcome == r.outcome &&
          total.consumed == k + r.consumed && total.final == r.final
        decreases |progressQueue|
      {
        if progressQueue == [] {
          assert actions + [] == actions;
          return actions, StillPolling;
        }
        var item := progressQueue[0];
        assert q0[k..][1..] == q0[k + 1..];
        progressQueue := progressQueue[1..];
        k := k + 1;
        var next, acts := React(tally, item, numRows);
        hasBar := next.hasBar;
        ghost var r := Tracking(next, progressQueue, None, numRows);
        Regroup(actions, acts, r.actions);
        actions := actions + acts;
        tally := next;
        if exceptionQueue.Some? {
          var e := exceptionQueue.value;
          exceptionQueue := None;
          if e.cls == FlightError {
            outcome := Propagates(Exc(Queryboost(ServerError), CleanFlightErrorMessage(e.message)));
          } else {
            outcome := Propagates(e);
          }
          return;
        }
      }
      assert actions + [] == actions;
      return actions, Returned;
    }

    /**
     * `stream()`, with the workers run one after the other and then the
     * tracker: write, read, track; finally set the stop flag and close the
     * progress display if there is one.
     */
    method Stream(g: Generated, writeFailAt: Option<nat>, writerError: Exc, doneWritingFails: bool,
                  chunks: seq<Chunk>, end: StreamEnd, handlerFailAt: Option<nat>, handlerError: Exc)
      returns (writerCalls: seq<WriterCall>, handlerCalls: seq<HandlerCall>, actions: seq<Action>, outcome: Outcome)
      modifies this
      ensures var w := Writing(g, old(stopEvent), None, writeFailAt, writerError);
        var rd := Reading(chunks, end, old(stopEvent) || w.stopped, None, handlerFailAt, handlerError);
        var queue := old(progressQueue) + WriteItems(w.sent) + WriterEnd(doneWritingFails) + rd.items + [EventItem(DoneReadingEvent)];
        var t := Tracking(Start(old(hasBar)), queue, old(exceptionQueue).OrElse(w.error).OrElse(rd.error), numRows);
        writerCalls == WriterCalls(schema, w) && handlerCalls == rd.calls &&
        actions == t.actions + Closing(t.final) && outcome == t.outcome &&
        progressQueue == queue[t.consumed..] && stopEvent && hasBar == t.final.hasBar
    {
      ghost var w := Writing(g, stopEvent, None, writeFailAt, writerError);
      writerCalls := Write(g, None, writeFailAt, writerError, doneWritingFails);
      ghost var rd := Reading(chunks, end, stopEvent, None, handlerFailAt, handlerError);
      handlerCalls := Read(chunks, end, None, handlerFailAt, handlerError);
      ghost var t := Tracking(Start(hasBar), progressQueue, exceptionQueue, numRows);
      actions, outcome := Track();
      stopEvent := true;
      if hasBar {
        actions := actions + [CloseBar];
      }
    }
  }

  /**
   * The body of the tracking loop for one dequeued item: update the done
   * flags and counters, drive the progress display, echo the message.
   */
  method React(t: Tally, item: Item, numRows: Option<nat>) returns (next: Tally, acts: seq<Action>)
    ensures next == Advance(t, item) && acts == Reaction(t, item, numRows)
  {
    next := t;
    acts := [];
    var event, message, numRowsOfItem := item.event, item.message, Count(item);
    if event == Some(WriteEvent) {
      next := next.(sent := next.sent + numRowsOfItem);
      if next.hasBar {
        acts := [SetPostfix(next.sent)];
      }
    } else if event == Some(ReadEvent) {
      next := next.(received := next.received + numRowsOfItem);
      if next.hasBar {
        acts := [UpdateBar(numRowsOfItem)];
      }
    } else if event == Some(DoneWritingEvent) {
      next := next.(doneWriting := true);
    } else if event == Some(DoneReadingEvent) {
      next := next.(doneReading := true);
    } else if event == Some(ProcessingStartedEvent) {
      next := next.(hasBar := true);
      acts := [CreateBar(numRows, message), SetPostfix(next.sent)];
    } else if event == Some(ProcessingDoneEvent) {
      if next.hasBar {
        acts := [CloseBar];
      }
    }
    if Truthy(message) && event != Some(ProcessingStartedEvent) {
      acts := acts + [WriteMessage(message.value)];
    }
  }

  /** Concatenation regroups. */
  lemma Regroup<T>(a: seq<T>, b: seq<T>, c: seq<T>)
    ensures a + (b + c) == (a + b) + c
  {
  }
}
