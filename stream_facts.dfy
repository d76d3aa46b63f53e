/**
 * Properties of the streamer's model (src/queryboost/stream.py): what the
 * writer sends, what the reader hands to the batch handler and queues, how
 * the tracker ends and what it counts and shows, and what a whole exchange
 * does.
 */
module StreamFacts {
  import opened Common
  import opened Exceptions
  import opened Data
  import opened Stream

  /** A slice is its first element followed by the rest. */
  lemma Consed<T>(s: seq<T>, k: nat, j: nat)
    requires k < j <= |s|
    ensures [s[k]] + s[k + 1..j] == s[k..j]
  {
  }

  // ---------------------------------------------------------------------
  // The writer
  // ---------------------------------------------------------------------

  /**
   * From batch `k` on, the writer sends consecutive batches and ends in
   * exactly one of three ways: stopped (nothing recorded), a failed write
   * of the next batch (the writer's exception recorded), or the batches
   * exhausted (the generator's exception, if any, recorded).
   */
  lemma {:induction false} WriteLoopEnds(g: Generated, k: nat, stopSet: bool, stopAt: Option<nat>, failAt: Option<nat>, writerError: Exc)
    requires k <= |g.batches|
    ensures var r := WriteLoop(g, k, stopSet, stopAt, failAt, writerError);
      var n := k + |r.sent|;
      n <= |g.batches| && r.sent == g.batches[k..n] &&
      (r.stopped ==> r.failed.None? && r.error.None?) &&
      (r.failed.Some? ==> n < |g.batches| && r.failed.value == g.batches[n] && r.error == Some(writerError) && !r.stopped) &&
      (!r.stopped && r.failed.None? ==> n == |g.batches| && r.error == g.error)
    decreases |g.batches| - k
  {
    if k == |g.batches| || stopSet || stopAt == Some(k) || failAt == Some(k + 1) {
    } else {
      WriteLoopEnds(g, k + 1, false, stopAt, failAt, writerError);
      var r := WriteLoop(g, k + 1, false, stopAt, failAt, writerError);
      Consed(g.batches, k, k + 1 + |r.sent|);
    }
  }

  /**
   * `_write` sends a prefix of the batches; a failed write is the write of
   * the batch after that prefix; a run that neither stops nor fails, and
   * whose `begin` succeeds, sends every batch and records the generator's
   * exception, if any.
   */
  lemma WriteEnds(g: Generated, stopSet: bool, stopAt: Option<nat>, failAt: Option<nat>, writerError: Exc)
    ensures var r := Writing(g, stopSet, stopAt, failAt, writerError);
      |r.sent| <= |g.batches| && r.sent == g.batches[..|r.sent|] &&
      (r.stopped ==> r.failed.None? && r.error.None?) &&
      (r.failed.Some? ==> |r.sent| < |g.batches| && r.failed.value == g.batches[|r.sent|] && r.error == Some(writerError)) &&
      (!r.stopped && r.failed.None? && failAt != Some(0) ==> r.sent == g.batches && r.error == g.error)
  {
    if failAt != Some(0) {
      WriteLoopEnds(g, 0, stopSet, stopAt, failAt, writerError);
    }
  }

  lemma {:induction false} WriteLoopUndisturbed(g: Generated, k: nat, writerError: Exc)
    requires k <= |g.batches|
    ensures WriteLoop(g, k, false, None, None, writerError) == WriteRun(g.batches[k..], None, g.error, false)
    decreases |g.batches| - k
  {
    if k < |g.batches| {
      WriteLoopUndisturbed(g, k + 1, writerError);
      Consed(g.batches, k, |g.batches|);
      assert g.batches[k..|g.batches|] == g.batches[k..];
      assert g.batches[k + 1..|g.batches|] == g.batches[k + 1..];
    }
  }

  /** Undisturbed, the writer sends every batch, then records the generator's exception, if any. */
  lemma WriteUndisturbed(g: Generated, writerError: Exc)
    ensures Writing(g, false, None, None, writerError) == WriteRun(g.batches, None, g.error, false)
  {
    WriteLoopUndisturbed(g, 0, writerError);
    assert g.batches[0..] == g.batches;
  }

  lemma {:induction false} WriteLoopStopped(g: Generated, k: nat, j: nat, failAt: Option<nat>, writerError: Exc)
    requires k <= j < |g.batches| && (failAt.None? || failAt.value > j)
    ensures WriteLoop(g, k, false, Some(j), failAt, writerError) == WriteRun(g.batches[k..j], None, None, true)
    decreases j - k
  {
    if k < j {
      WriteLoopStopped(g, k + 1, j, failAt, writerError);
      Consed(g.batches, k, j);
    }
  }

  /**
   * With the stop flag set just before batch `j` is checked, and no earlier
   * write failing, the writer sends exactly the first `j` batches; batch
   * `j`, already pulled, is dropped.
   */
  lemma WriteStopped(g: Generated, j: nat, failAt: Option<nat>, writerError: Exc)
    requires j < |g.batches| && (failAt.None? || failAt.value > j)
    ensures Writing(g, false, Some(j), failAt, writerError) == WriteRun(g.batches[..j], None, None, true)
  {
    WriteLoopStopped(g, 0, j, failAt, writerError);
    assert g.batches[0..j] == g.batches[..j];
  }

  lemma {:induction false} WriteLoopFails(g: Generated, k: nat, j: nat, stopAt: Option<nat>, writerError: Exc)
    requires k <= j < |g.batches| && (stopAt.None? || stopAt.value > j)
    ensures WriteLoop(g, k, false, stopAt, Some(j + 1), writerError)
      == WriteRun(g.batches[k..j], Some(g.batches[j]), Some(writerError), false)
    decreases j - k
  {
    if k < j {
      WriteLoopFails(g, k + 1, j, stopAt, writerError);
      Consed(g.batches, k, j);
    }
  }

  /**
   * When the write of batch `j` raises (and no stop comes first), the
   * writer has sent the first `j` batches, attempted batch `j`, and
   * recorded the writer's exception.
   */
  lemma WriteFails(g: Generated, j: nat, stopAt: Option<nat>, writerError: Exc)
    requires j < |g.batches| && (stopAt.None? || stopAt.value > j)
    ensures Writing(g, false, stopAt, Some(j + 1), writerError)
      == WriteRun(g.batches[..j], Some(g.batches[j]), Some(writerError), false)
  {
    WriteLoopFails(g, 0, j, stopAt, writerError);
    assert g.batches[0..j] == g.batches[..j];
  }

  // ---------------------------------------------------------------------
  // The reader
  // ---------------------------------------------------------------------

  /** The payloads among the chunks, in order. */
  function Payloads(chunks: seq<Chunk>): seq<Columns> {
    if chunks == [] then []
    else (if HasPayload(chunks[0]) then [chunks[0].data.value] else []) + Payloads(chunks[1..])
  }

  /** The control record of a chunk, if it has one. */
  function Control(c: Chunk): seq<Item> {
    if c.metadata.Some? then [c.metadata.value] else []
  }

  /** The `read` event for a chunk's payload, if it has one. */
  function ReadEvents(c: Chunk): seq<Item> {
    if HasPayload(c) then [CountItem(ReadEvent, NumRows(c.data.value))] else []
  }

  /** What an undisturbed reader queues: for each chunk, its control record, then its payload's `read` event. */
  function Queued(chunks: seq<Chunk>): seq<Item> {
    if chunks == [] then [] else Control(chunks[0]) + ReadEvents(chunks[0]) + Queued(chunks[1..])
  }

  /** Handler calls for `batches`, numbered from `base`. */
  function Numbered(batches: seq<Columns>, base: nat): seq<HandlerCall> {
    seq(|batches|, j requires 0 <= j < |batches| => HandlerCall(batches[j], base + j))
  }

  lemma NumberedCons(x: Columns, rest: seq<Columns>, base: nat)
    ensures Numbered([x] + rest, base) == [HandlerCall(x, base)] + Numbered(rest, base + 1)
  {
  }

  lemma {:induction false} ReadFromUndisturbed(chunks: seq<Chunk>, i: nat, handlerError: Exc, end: StreamEnd,
                                              calls: seq<HandlerCall>, items: seq<Item>)
    requires i <= |chunks|
    ensures var r := ReadFrom(chunks, i, |calls|, false, None, None, handlerError, end, calls, items);
      r.calls == calls + Numbered(Payloads(chunks[i..]), |calls|) && r.items == items + Queued(chunks[i..]) &&
      r.error == EndError(end) && !r.stopped
    decreases |chunks| - i
  {
    var rest := chunks[i..];
    if i == |chunks| {
      assert rest == [];
      assert calls + [] == calls && items + [] == items;
    } else {
      var c := chunks[i];
      assert rest[0] == c && rest[1..] == chunks[i + 1..];
      var queued := if c.metadata.Some? then items + [c.metadata.value] else items;
      assert queued == items + Control(c);
      var later := Payloads(chunks[i + 1..]);
      var laterItems := Queued(chunks[i + 1..]);
      assert Queued(rest) == Control(c) + ReadEvents(c) + laterItems;
      if !HasPayload(c) {
        ReadFromUndisturbed(chunks, i + 1, handlerError, end, calls, queued);
        assert Payloads(rest) == later;
        assert Queued(rest) == Control(c) + laterItems;
        Regroup(items, Control(c), laterItems);
      } else {
        var call := HandlerCall(c.data.value, |calls|);
        var read := CountItem(ReadEvent, NumRows(c.data.value));
        var more := calls + [call];
        assert |more| == |calls| + 1;
        ReadFromUndisturbed(chunks, i + 1, handlerError, end, more, queued + [read]);
        var r := ReadFrom(chunks, i + 1, |more|, false, None, None, handlerError, end, more, queued + [read]);
        assert ReadFrom(chunks, i, |calls|, false, None, None, handlerError, end, calls, items) == r;
        assert Payloads(rest) == [c.data.value] + later;
        NumberedCons(c.data.value, later, |calls|);
        Regroup(calls, [call], Numbered(later, |calls| + 1));
        assert r.calls == calls + Numbered(Payloads(rest), |calls|);
        assert Queued(rest) == (Control(c) + [read]) + laterItems;
        Regroup(items, Control(c), [read]);
        Regroup(items, Control(c) + [read], laterItems);
        assert r.items == items + Queued(rest);
      }
    }
  }

  /**
   * Undisturbed, the reader hands every payload to the handler, in order,
   * with indices 0, 1, 2, ...; it queues each control record followed by
   * its payload's `read` event; and it records the error that ended
   * iteration, if any.
   */
  lemma ReadUndisturbed(chunks: seq<Chunk>, end: StreamEnd, handlerError: Exc)
    ensures Reading(chunks, end, false, None, None, handlerError)
      == ReadRun(Numbered(Payloads(chunks), 0), Queued(chunks), EndError(end), false)
  {
    ReadFromUndisturbed(chunks, 0, handlerError, end, [], []);
    assert chunks[0..] == chunks;
  }

  lemma {:induction false} ReadFromStopIteration(chunks: seq<Chunk>, i: nat, index: nat, stopSet: bool, stopAt: Option<nat>,
                                                failAt: Option<nat>, handlerError: Exc, end: StreamEnd,
                                                calls: seq<HandlerCall>, items: seq<Item>)
    requires i <= |chunks| && EndError(end).None?
    ensures ReadFrom(chunks, i, index, stopSet, stopAt, failAt, handlerError, end, calls, items)
      == ReadFrom(chunks, i, index, stopSet, stopAt, failAt, handlerError, Exhausted, calls, items)
    decreases |chunks| - i
  {
    if i < |chunks| && !stopSet && stopAt != Some(i) {
      var c := chunks[i];
      var queued := if c.metadata.Some? then items + [c.metadata.value] else items;
      if !HasPayload(c) {
        ReadFromStopIteration(chunks, i + 1, index, false, stopAt, failAt, handlerError, end, calls, queued);
      } else if failAt != Some(index) {
        ReadFromStopIteration(chunks, i + 1, index + 1, false, stopAt, failAt, handlerError, end,
                              calls + [HandlerCall(c.data.value, index)], queued + [CountItem(ReadEvent, NumRows(c.data.value))]);
      }
    }
  }

  /**
   * A `StopIteration` ending the chunks is swallowed: the reader behaves as
   * if the chunks simply ran out, whether the stream's end is reported as
   * such or as an exception of class `StopIteration`.
   */
  lemma ReadStopIterationIsEnd(chunks: seq<Chunk>, stopSet: bool, stopAt: Option<nat>, failAt: Option<nat>,
                               handlerError: Exc, message: string)
    ensures Reading(chunks, StopIterationRaised, stopSet, stopAt, failAt, handlerError)
      == Reading(chunks, Exhausted, stopSet, stopAt, failAt, handlerError)
    ensures Reading(chunks, ReadFailed(Exc(StopIteration, message)), stopSet, stopAt, failAt, handlerError)
      == Reading(chunks, Exhausted, stopSet, stopAt, failAt, handlerError)
  {
    ReadFromStopIteration(chunks, 0, 0, stopSet, stopAt, failAt, handlerError, StopIterationRaised, [], []);
    ReadFromStopIteration(chunks, 0, 0, stopSet, stopAt, failAt, handlerError, ReadFailed(Exc(StopIteration, message)), [], []);
  }

  lemma {:induction false} ReadFromStopped(chunks: seq<Chunk>, i: nat, j: nat, index: nat, failAt: Option<nat>,
                                          handlerError: Exc, end: StreamEnd, calls: seq<HandlerCall>, items: seq<Item>)
    requires i <= j < |chunks|
    ensures var s := ReadFrom(chunks[..j], i, index, false, None, failAt, handlerError, Exhausted, calls, items);
      ReadFrom(chunks, i, index, false, Some(j), failAt, handlerError, end, calls, items)
      == if failAt.Some? && index <= failAt.value < index + |Payloads(chunks[i..j])| then s else s.(stopped := true)
    decreases j - i
  {
    if i == j {
      assert chunks[i..j] == [];
    } else {
      var c := chunks[i];
      assert chunks[..j][i] == c;
      assert chunks[i..j][0] == c && chunks[i..j][1..] == chunks[i + 1..j];
      var queued := if c.metadata.Some? then items + [c.metadata.value] else items;
      if !HasPayload(c) {
        assert Payloads(chunks[i..j]) == Payloads(chunks[i + 1..j]);
        ReadFromStopped(chunks, i + 1, j, index, failAt, handlerError, end, calls, queued);
      } else {
        assert |Payloads(chunks[i..j])| == 1 + |Payloads(chunks[i + 1..j])|;
        if failAt != Some(index) {
          ReadFromStopped(chunks, i + 1, j, index + 1, failAt, handlerError, end,
                          calls + [HandlerCall(c.data.value, index)], queued + [CountItem(ReadEvent, NumRows(c.data.value))]);
        }
      }
    }
  }

  /**
   * With the stop flag set just before chunk `j` is checked, the reader
   * does what it does over the first `j` chunks alone, and ends stopped
   * unless the handler raised first, on one of the payloads before chunk `j`.
   */
  lemma ReadStopped(chunks: seq<Chunk>, j: nat, end: StreamEnd, failAt: Option<nat>, handlerError: Exc)
    requires j < |chunks|
    ensures var s := Reading(chunks[..j], Exhausted, false, None, failAt, handlerError);
      Reading(chunks, end, false, Some(j), failAt, handlerError)
      == if failAt.Some? && failAt.value < |Payloads(chunks[..j])| then s else s.(stopped := true)
  {
    ReadFromStopped(chunks, 0, j, 0, failAt, handlerError, end, [], []);
    assert chunks[0..j] == chunks[..j];
  }

  /** The handler calls so far carry the indices 0, 1, 2, ... */
  predicate InOrder(calls: seq<HandlerCall>) {
    forall j :: 0 <= j < |calls| ==> calls[j].index == j
  }

  lemma {:induction false} ReadFromInOrder(chunks: seq<Chunk>, i: nat, stopSet: bool, stopAt: Option<nat>, failAt: Option<nat>,
                                          handlerError: Exc, end: StreamEnd, calls: seq<HandlerCall>, items: seq<Item>)
    requires i <= |chunks| && InOrder(calls)
    ensures InOrder(ReadFrom(chunks, i, |calls|, stopSet, stopAt, failAt, handlerError, end, calls, items).calls)
    decreases |chunks| - i
  {
    if i < |chunks| && !stopSet && stopAt != Some(i) {
      var c := chunks[i];
      var queued := if c.metadata.Some? then items + [c.metadata.value] else items;
      if !HasPayload(c) {
        ReadFromInOrder(chunks, i + 1, false, stopAt, failAt, handlerError, end, calls, queued);
      } else {
        var more := calls + [HandlerCall(c.data.value, |calls|)];
        assert InOrder(more);
        if failAt != Some(|calls|) {
          ReadFromInOrder(chunks, i + 1, false, stopAt, failAt, handlerError, end, more,
                          queued + [CountItem(ReadEvent, NumRows(c.data.value))]);
        }
      }
    }
  }

  /** Whatever happens, the handler is called with the indices 0, 1, 2, ... in order. */
  lemma ReadInOrder(chunks: seq<Chunk>, end: StreamEnd, stopSet: bool, stopAt: Option<nat>, failAt: Option<nat>, handlerError: Exc)
    ensures InOrder(Reading(chunks, end, stopSet, stopAt, failAt, handlerError).calls)
  {
    ReadFromInOrder(chunks, 0, stopSet, stopAt, failAt, handlerError, end, [], []);
  }

  lemma {:induction false} ReadFromFails(chunks: seq<Chunk>, i: nat, n: nat, handlerError: Exc, end: StreamEnd,
                                        calls: seq<HandlerCall>, items: seq<Item>)
    requires i <= |chunks| && |calls| <= n < |calls| + |Payloads(chunks[i..])|
    ensures var r := ReadFrom(chunks, i, |calls|, false, None, Some(n), handlerError, end, calls, items);
      r.calls == calls + Numbered(Payloads(chunks[i..])[..n + 1 - |calls|], |calls|) &&
      r.error == Recorded(handlerError) && !r.stopped
    decreases |chunks| - i
  {
    var rest := chunks[i..];
    if i == |chunks| {
      assert false;
    } else {
      var c := chunks[i];
      assert rest[0] == c && rest[1..] == chunks[i + 1..];
      var queued := if c.metadata.Some? then items + [c.metadata.value] else items;
      var later := Payloads(chunks[i + 1..]);
      if !HasPayload(c) {
        assert Payloads(rest) == later;
        ReadFromFails(chunks, i + 1, n, handlerError, end, calls, queued);
      } else {
        var call := HandlerCall(c.data.value, |calls|);
        assert Payloads(rest) == [c.data.value] + later;
        if n == |calls| {
          assert Payloads(rest)[..1] == [c.data.value];
        } else {
          var more := calls + [call];
          assert |more| == |calls| + 1;
          ReadFromFails(chunks, i + 1, n, handlerError, end, more, queued + [CountItem(ReadEvent, NumRows(c.data.value))]);
          var taken := later[..n - |calls|];
          assert Payloads(rest)[..n + 1 - |calls|] == [c.data.value] + taken;
          NumberedCons(c.data.value, taken, |calls|);
          Regroup(calls, [call], Numbered(taken, |calls| + 1));
        }
      }
    }
  }

  /**
   * When the handler raises on payload `n`, it has been called on the
   * payloads 0 to `n` in order, and reading ends there. The reader records
   * the handler's exception unless it is a `StopIteration`, which the
   * reader's `except StopIteration` passes over.
   */
  lemma ReadFails(chunks: seq<Chunk>, n: nat, end: StreamEnd, handlerError: Exc)
    requires n < |Payloads(chunks)|
    ensures var r := Reading(chunks, end, false, None, Some(n), handlerError);
      r.calls == Numbered(Payloads(chunks)[..n + 1], 0) && !r.stopped &&
      (handlerError.cls != StopIteration ==> r.error == Some(handlerError)) &&
      (handlerError.cls == StopIteration ==> r.error == None)
  {
    assert chunks[0..] == chunks;
    ReadFromFails(chunks, 0, n, handlerError, end, [], []);
  }

  // ---------------------------------------------------------------------
  // The tracker
  // ---------------------------------------------------------------------

  /** Some item of `q` carries event `e`. */
  predicate Announces(q: seq<Item>, e: string) {
    exists i :: 0 <= i < |q| && q[i].event == Some(e)
  }

  lemma AnnouncesCons(q: seq<Item>, e: string)
    requires q != []
    ensures Announces(q, e) <==> q[0].event == Some(e) || Announces(q[1..], e)
  {
    if Announces(q, e) && q[0].event != Some(e) {
      var i :| 0 <= i < |q| && q[i].event == Some(e);
      assert q[1..][i - 1] == q[i];
    }
    if Announces(q[1..], e) {
      var i :| 0 <= i < |q[1..]| && q[1..][i].event == Some(e);
      assert q[i + 1] == q[1..][i];
    }
  }

  /**
   * With no exception recorded, the tracker never raises: it returns
   * exactly when both done events have been seen (counting the flags it
   * starts with), and otherwise is left polling an empty queue.
   */
  lemma {:induction false} TrackingEnds(t: Tally, q: seq<Item>, numRows: Option<nat>)
    ensures var r := Tracking(t, q, None, numRows);
      !r.outcome.Propagates? &&
      (r.outcome == Returned <==>
        (t.doneWriting || Announces(q, DoneWritingEvent)) && (t.doneReading || Announces(q, DoneReadingEvent)))
    decreases |q|
  {
    if !(t.doneWriting && t.doneReading) && q != [] {
      TrackingEnds(Advance(t, q[0]), q[1..], numRows);
      AnnouncesCons(q, DoneWritingEvent);
      AnnouncesCons(q, DoneReadingEvent);
    }
  }

  /** The rows counted by the items of `q` that carry event `e`. */
  function Rows(q: seq<Item>, e: string): int {
    if q == [] then 0 else (if q[0].event == Some(e) then Count(q[0]) else 0) + Rows(q[1..], e)
  }

  /** The rows of the first `n + 1` items: the first item's, then those of the next `n`. */
  lemma RowsTake(q: seq<Item>, n: nat, e: string)
    requires n < |q|
    ensures Rows(q[..n + 1], e) == (if q[0].event == Some(e) then Count(q[0]) else 0) + Rows(q[1..][..n], e)
  {
    assert q[..n + 1][1..] == q[1..][..n];
  }

  /** One dequeued item adds its rows to the counter its event names, and to no other. */
  lemma AdvanceCounts(t: Tally, item: Item)
    ensures Advance(t, item).sent == t.sent + (if item.event == Some(WriteEvent) then Count(item) else 0)
    ensures Advance(t, item).received == t.received + (if item.event == Some(ReadEvent) then Count(item) else 0)
  {
  }

  /**
   * The tracker's counters add up the rows of the `write` and `read` events
   * it dequeued, and it returns only with both done flags set.
   */
  lemma {:induction false} TrackingCounts(t: Tally, q: seq<Item>, slot: Option<Exc>, numRows: Option<nat>)
    ensures var r := Tracking(t, q, slot, numRows);
      r.final.sent == t.sent + Rows(q[..r.consumed], WriteEvent) &&
      r.final.received == t.received + Rows(q[..r.consumed], ReadEvent) &&
      (r.outcome == Returned ==> r.final.doneWriting && r.final.doneReading)
    decreases |q|
  {
    var r := Tracking(t, q, slot, numRows);
    if (t.doneWriting && t.doneReading) || q == [] {
      assert q[..r.consumed] == [];
    } else if slot.Some? {
      AdvanceCounts(t, q[0]);
      RowsTake(q, 0, WriteEvent);
      RowsTake(q, 0, ReadEvent);
    } else {
      var next := Advance(t, q[0]);
      AdvanceCounts(t, q[0]);
      TrackingCounts(next, q[1..], slot, numRows);
      var r' := Tracking(next, q[1..], slot, numRows);
      assert r.consumed == r'.consumed + 1 && r.final == r'.final;
      RowsTake(q, r'.consumed, WriteEvent);
      RowsTake(q, r'.consumed, ReadEvent);
    }
  }

  /** The messages written out among `actions`, in order. */
  function Messages(actions: seq<Action>): seq<string> {
    if actions == [] then [] else (if actions[0].WriteMessage? then [actions[0].text] else []) + Messages(actions[1..])
  }

  lemma {:induction false} MessagesAppend(a: seq<Action>, b: seq<Action>)
    ensures Messages(a + b) == Messages(a) + Messages(b)
  {
    if a != [] {
      assert (a + b)[0] == a[0] && (a + b)[1..] == a[1..] + b;
      MessagesAppend(a[1..], b);
    } else {
      assert a + b == b;
    }
  }

  /** The messages of the items of `q` that are echoed, in order. */
  function Echoes(q: seq<Item>): seq<string> {
    if q == [] then [] else (if Echoed(q[0]) then [q[0].message.value] else []) + Echoes(q[1..])
  }

  lemma ReactionMessages(t: Tally, item: Item, numRows: Option<nat>)
    ensures Messages(Reaction(t, item, numRows)) == Echoes([item])
  {
    var acts := Reaction(t, item, numRows);
    var echo := if Echoed(item) then [WriteMessage(item.message.value)] else [];
    var bar := acts[..|acts| - |echo|];
    assert acts == bar + echo;
    assert forall i :: 0 <= i < |bar| ==> !bar[i].WriteMessage?;
    NoMessages(bar);
    MessagesAppend(bar, echo);
    assert [item][1..] == [];
  }

  lemma {:induction false} NoMessages(a: seq<Action>)
    requires forall i :: 0 <= i < |a| ==> !a[i].WriteMessage?
    ensures Messages(a) == []
  {
    if a != [] {
      NoMessages(a[1..]);
    }
  }

  /**
   * The tracker writes out the message of every item it dequeues, in
   * order, except missing or empty ones and the one that starts processing.
   */
  lemma {:induction false} TrackingEchoes(t: Tally, q: seq<Item>, slot: Option<Exc>, numRows: Option<nat>)
    ensures var r := Tracking(t, q, slot, numRows);
      Messages(r.actions) == Echoes(q[..r.consumed])
    decreases |q|
  {
    var r := Tracking(t, q, slot, numRows);
    if (t.doneWriting && t.doneReading) || q == [] {
      assert q[..r.consumed] == [];
    } else {
      ReactionMessages(t, q[0], numRows);
      if slot.Some? {
        assert q[..r.consumed] == [q[0]];
      } else {
        TrackingEchoes(Advance(t, q[0]), q[1..], slot, numRows);
        var r' := Tracking(Advance(t, q[0]), q[1..], slot, numRows);
        MessagesAppend(Reaction(t, q[0], numRows), r'.actions);
        var head := q[..r.consumed];
        assert head == [q[0]] + q[1..][..r'.consumed];
        assert head[0] == q[0] && head[1..] == q[1..][..r'.consumed];
        assert Echoes([q[0]]) == (if Echoed(q[0]) then [q[0].message.value] else []);
      }
    }
  }

  /** An action that needs the progress display to exist. */
  predicate UsesBar(a: Action) {
    a.SetPostfix? || a.UpdateBar? || a.CloseBar?
  }

  /** Every use of the display comes after an action that creates it. */
  predicate BarCreatedFirst(actions: seq<Action>) {
    forall i :: 0 <= i < |actions| && UsesBar(actions[i]) ==> exists j :: 0 <= j < i && actions[j].CreateBar?
  }

  lemma BarCreatedFirstAfter(a: seq<Action>, b: seq<Action>)
    requires forall i :: 0 <= i < |a| ==> !UsesBar(a[i])
    requires BarCreatedFirst(b)
    ensures BarCreatedFirst(a + b)
  {
    var ab := a + b;
    forall i | 0 <= i < |ab| && UsesBar(ab[i]) ensures exists j :: 0 <= j < i && ab[j].CreateBar? {
      assert i >= |a|;
      assert b[i - |a|] == ab[i];
      var j :| 0 <= j < i - |a| && b[j].CreateBar?;
      assert ab[j + |a|] == b[j];
    }
  }

  lemma BarCreatedFirstFrom(a: seq<Action>)
    requires a != [] && a[0].CreateBar?
    ensures BarCreatedFirst(a)
  {
    forall i | 0 <= i < |a| && UsesBar(a[i]) ensures exists j :: 0 <= j < i && a[j].CreateBar? {
      assert 0 < i;
    }
  }

  /**
   * Starting without a display, the tracker updates, labels or closes the
   * display only after a `processing_started` item has created it.
   */
  lemma {:induction false} TrackingBarCreatedFirst(t: Tally, q: seq<Item>, slot: Option<Exc>, numRows: Option<nat>)
    requires !t.hasBar
    ensures BarCreatedFirst(Tracking(t, q, slot, numRows).actions)
    decreases |q|
  {
    if !(t.doneWriting && t.doneReading) && q != [] {
      var acts := Reaction(t, q[0], numRows);
      var r := Tracking(t, q, slot, numRows);
      if q[0].event == Some(ProcessingStartedEvent) {
        BarCreatedFirstFrom(r.actions);
      } else {
        assert forall i :: 0 <= i < |acts| ==> acts[i].WriteMessage?;
        if slot.Some? {
          assert acts + [] == acts;
          BarCreatedFirstAfter(acts, []);
        } else {
          TrackingBarCreatedFirst(Advance(t, q[0]), q[1..], slot, numRows);
          BarCreatedFirstAfter(acts, Tracking(Advance(t, q[0]), q[1..], slot, numRows).actions);
        }
      }
    }
  }

  /** Every display created among `actions` has `total` as its total and is labelled with `Sent` right away. */
  predicate CreatedWithTotal(actions: seq<Action>, total: Option<nat>) {
    forall i :: 0 <= i < |actions| && actions[i].CreateBar? ==>
      actions[i].total == total && i + 1 < |actions| && actions[i + 1].SetPostfix?
  }

  lemma CreatedWithTotalAppend(a: seq<Action>, b: seq<Action>, total: Option<nat>)
    requires CreatedWithTotal(a, total) && CreatedWithTotal(b, total)
    ensures CreatedWithTotal(a + b, total)
  {
    var ab := a + b;
    forall i | 0 <= i < |ab| && ab[i].CreateBar? ensures ab[i].total == total && i + 1 < |ab| && ab[i + 1].SetPostfix? {
      if i < |a| {
        assert ab[i] == a[i] && ab[i + 1] == a[i + 1];
      } else {
        assert ab[i] == b[i - |a|] && ab[i + 1] == b[i - |a| + 1];
      }
    }
  }

  lemma ReactionCreatesWithTotal(t: Tally, item: Item, numRows: Option<nat>)
    ensures CreatedWithTotal(Reaction(t, item, numRows), numRows)
  {
  }

  /**
   * The tracker creates the display only with the batcher's row count as
   * its total, and gives it its `Sent` label at once.
   */
  lemma {:induction false} TrackingCreatesWithTotal(t: Tally, q: seq<Item>, slot: Option<Exc>, numRows: Option<nat>)
    ensures CreatedWithTotal(Tracking(t, q, slot, numRows).actions, numRows)
    decreases |q|
  {
    if !(t.doneWriting && t.doneReading) && q != [] {
      ReactionCreatesWithTotal(t, q[0], numRows);
      if slot.None? {
        TrackingCreatesWithTotal(Advance(t, q[0]), q[1..], slot, numRows);
        CreatedWithTotalAppend(Reaction(t, q[0], numRows), Tracking(Advance(t, q[0]), q[1..], slot, numRows).actions, numRows);
      }
    }
  }

  /**
   * The display exists after the tracker's run exactly when it existed at
   * the start or a dequeued item started processing.
   */
  lemma {:induction false} TrackingBarExists(t: Tally, q: seq<Item>, slot: Option<Exc>, numRows: Option<nat>)
    ensures var r := Tracking(t, q, slot, numRows);
      r.final.hasBar <==> t.hasBar || Announces(q[..r.consumed], ProcessingStartedEvent)
    decreases |q|
  {
    var r := Tracking(t, q, slot, numRows);
    var head := q[..r.consumed];
    if (t.doneWriting && t.doneReading) || q == [] {
      assert head == [];
    } else {
      var next := Advance(t, q[0]);
      assert next.hasBar <==> t.hasBar || q[0].event == Some(ProcessingStartedEvent);
      if slot.Some? {
        assert head == [q[0]];
        AnnouncesCons(head, ProcessingStartedEvent);
        assert !Announces(head[1..], ProcessingStartedEvent);
      } else {
        TrackingBarExists(next, q[1..], slot, numRows);
        var r' := Tracking(next, q[1..], slot, numRows);
        assert head[0] == q[0] && head[1..] == q[1..][..r'.consumed];
        AnnouncesCons(head, ProcessingStartedEvent);
      }
    }
  }

  /**
   * Once the tracker has gone through `p` without finishing, it has
   * dequeued all of `p`, and its reaction to the next item, taken in the
   * state `p` left it in, follows the actions for `p`.
   */
  lemma {:induction false} TrackingContinues(t: Tally, p: seq<Item>, item: Item, q: seq<Item>, slot: Option<Exc>,
                                            numRows: Option<nat>)
    requires Tracking(t, p, slot, numRows).outcome == StillPolling
    ensures var a := Tracking(t, p, slot, numRows);
      var r := Tracking(t, p + [item] + q, slot, numRows);
      a.consumed == |p| && a.actions + Reaction(a.final, item, numRows) <= r.actions
    decreases |p|
  {
    var pq := p + [item] + q;
    if p == [] {
      assert pq[0] == item && pq[1..] == q;
    } else {
      assert pq[0] == p[0] && pq[1..] == p[1..] + [item] + q;
      var next := Advance(t, p[0]);
      var acts := Reaction(t, p[0], numRows);
      TrackingContinues(next, p[1..], item, q, slot, numRows);
      var a' := Tracking(next, p[1..], slot, numRows);
      var r' := Tracking(next, p[1..] + [item] + q, slot, numRows);
      var ext := a'.actions + Reaction(a'.final, item, numRows);
      assert r'.actions == ext + r'.actions[|ext|..];
      Regroup(acts, a'.actions, Reaction(a'.final, item, numRows));
      Regroup(acts, ext, r'.actions[|ext|..]);
    }
  }

  /** The message an item has echoed, as an action. */
  function EchoAction(item: Item): seq<Action> {
    if Echoed(item) then [WriteMessage(item.message.value)] else []
  }

  /**
   * A `processing_started` item creates the display with the batcher's row
   * count as its total and the item's message as its label, then shows
   * the rows sent so far: the `write` rows of the items before it.
   */
  lemma TrackingLabelsBar(t: Tally, p: seq<Item>, item: Item, q: seq<Item>, slot: Option<Exc>, numRows: Option<nat>)
    requires Tracking(t, p, slot, numRows).outcome == StillPolling
    requires item.event == Some(ProcessingStartedEvent)
    ensures Tracking(t, p, slot, numRows).actions + [CreateBar(numRows, item.message), SetPostfix(t.sent + Rows(p, WriteEvent))]
      <= Tracking(t, p + [item] + q, slot, numRows).actions
  {
    TrackingContinues(t, p, item, q, slot, numRows);
    TrackingCounts(t, p, slot, numRows);
    assert p[..|p|] == p;
  }

  /**
   * A `write` item shows the new total of rows sent, when the display exists;
   * without a display, only its message, if any, is written out.
   */
  lemma TrackingShowsSent(t: Tally, p: seq<Item>, item: Item, q: seq<Item>, slot: Option<Exc>, numRows: Option<nat>)
    requires Tracking(t, p, slot, numRows).outcome == StillPolling
    requires item.event == Some(WriteEvent)
    ensures var a := Tracking(t, p, slot, numRows);
      var r := Tracking(t, p + [item] + q, slot, numRows);
      (a.final.hasBar ==> a.actions + [SetPostfix(t.sent + Rows(p + [item], WriteEvent))] <= r.actions) &&
      (!a.final.hasBar ==> a.actions + EchoAction(item) <= r.actions)
  {
    TrackingContinues(t, p, item, q, slot, numRows);
    TrackingCounts(t, p, slot, numRows);
    assert p[..|p|] == p;
    RowsAppend(p, [item], WriteEvent);
    assert Rows([item], WriteEvent) == Count(item) + Rows([item][1..], WriteEvent);
  }

  /**
   * A `read` item advances an existing display by its row count; without
   * a display, only its message, if any, is written out.
   */
  lemma TrackingAdvancesBar(t: Tally, p: seq<Item>, item: Item, q: seq<Item>, slot: Option<Exc>, numRows: Option<nat>)
    requires Tracking(t, p, slot, numRows).outcome == StillPolling
    requires item.event == Some(ReadEvent)
    ensures var a := Tracking(t, p, slot, numRows);
      var r := Tracking(t, p + [item] + q, slot, numRows);
      (a.final.hasBar ==> a.actions + [UpdateBar(Count(item))] <= r.actions) &&
      (!a.final.hasBar ==> a.actions + EchoAction(item) <= r.actions)
  {
    TrackingContinues(t, p, item, q, slot, numRows);
  }

  /**
   * A `processing_done` item closes an existing display; without a
   * display, only its message, if any, is written out.
   */
  lemma TrackingClosesBar(t: Tally, p: seq<Item>, item: Item, q: seq<Item>, slot: Option<Exc>, numRows: Option<nat>)
    requires Tracking(t, p, slot, numRows).outcome == StillPolling
    requires item.event == Some(ProcessingDoneEvent)
    ensures var a := Tracking(t, p, slot, numRows);
      var r := Tracking(t, p + [item] + q, slot, numRows);
      (a.final.hasBar ==> a.actions + [CloseBar] <= r.actions) &&
      (!a.final.hasBar ==> a.actions + EchoAction(item) <= r.actions)
  {
    TrackingContinues(t, p, item, q, slot, numRows);
  }

  /**
   * A recorded transport error whose message has the server's usual shape
   * is raised, after one item, as a server error carrying only the useful
   * text.
   */
  lemma TrackingRaisesServerError(t: Tally, q: seq<Item>, x: string, tail: string, numRows: Option<nat>)
    requires q != [] && !(t.doneWriting && t.doneReading)
    requires !Contains(x, DebugContextMarker) && !Contains(x, FlightErrorPrefix)
    ensures var r := Tracking(t, q, Some(Exc(FlightError, FlightErrorPrefix + x + DebugContextMarker + tail)), numRows);
      r.outcome == Propagates(Exc(Queryboost(ServerError), x)) && r.consumed == 1
  {
    CleanPrefixedWithContext(x, tail);
  }

  // ---------------------------------------------------------------------
  // A whole exchange
  // ---------------------------------------------------------------------

  /** The first exception a worker records is what `stream()` raises, surfaced, after one dequeued item. */
  lemma SessionRaisesFirstError(numRows: Option<nat>, g: Generated, writeFailAt: Option<nat>, writerError: Exc,
                                doneWritingFails: bool, chunks: seq<Chunk>, end: StreamEnd, handlerFailAt: Option<nat>,
                                handlerError: Exc)
    ensures var s := Session(numRows, g, writeFailAt, writerError, doneWritingFails, chunks, end, handlerFailAt, handlerError);
      var first := s.write.error.OrElse(s.read.error);
      (first.Some? ==> s.track.outcome == Propagates(Surface(first.value)) && s.track.consumed == 1) &&
      (first.None? && !doneWritingFails ==> s.track.outcome == Returned)
  {
    var s := Session(numRows, g, writeFailAt, writerError, doneWritingFails, chunks, end, handlerFailAt, handlerError);
    var q := WriteItems(s.write.sent) + WriterEnd(doneWritingFails) + s.read.items + [EventItem(DoneReadingEvent)];
    assert q[|q| - 1] == EventItem(DoneReadingEvent);
    if s.write.error.OrElse(s.read.error).None? && !doneWritingFails {
      TrackingEnds(Start(false), q, numRows);
      assert q[|WriteItems(s.write.sent)|].event == Some(DoneWritingEvent);
      assert q[|q| - 1].event == Some(DoneReadingEvent);
    }
  }

  /** The rows of all `batches`. */
  function TotalRows(batches: seq<Columns>): int {
    if batches == [] then 0 else NumRows(batches[0]) + TotalRows(batches[1..])
  }

  lemma {:induction false} RowsAppend(a: seq<Item>, b: seq<Item>, e: string)
    ensures Rows(a + b, e) == Rows(a, e) + Rows(b, e)
    decreases |a|
  {
    if a == [] {
      assert a + b == b;
    } else {
      RowsAppend(a[1..], b, e);
      assert (a + b)[1..] == a[1..] + b;
    }
  }

  lemma {:induction false} WriteItemsRows(sent: seq<Columns>)
    ensures Rows(WriteItems(sent), WriteEvent) == TotalRows(sent)
    ensures Rows(WriteItems(sent), ReadEvent) == 0
    decreases |sent|
  {
    if sent != [] {
      WriteItemsRows(sent[1..]);
      assert WriteItems(sent)[1..] == WriteItems(sent[1..]);
    }
  }

  /** An item that the tracker counts or that ends a worker's part. */
  predicate Counted(item: Item) {
    item.event == Some(WriteEvent) || item.event == Some(ReadEvent) ||
    item.event == Some(DoneWritingEvent) || item.event == Some(DoneReadingEvent)
  }

  /** The server's control records carry no event that the tracker counts or that ends a worker's part. */
  predicate QuietControl(chunks: seq<Chunk>) {
    forall i :: 0 <= i < |chunks| && chunks[i].metadata.Some? ==> !Counted(chunks[i].metadata.value)
  }

  lemma QuietTail(chunks: seq<Chunk>)
    requires chunks != [] && QuietControl(chunks)
    ensures QuietControl(chunks[1..])
    ensures chunks[0].metadata.Some? ==> !Counted(chunks[0].metadata.value)
  {
    forall i | 0 <= i < |chunks[1..]| && chunks[1..][i].metadata.Some? ensures !Counted(chunks[1..][i].metadata.value) {
      assert chunks[1..][i] == chunks[i + 1];
    }
  }

  /** The rows of one chunk's queued items, by event. */
  lemma ChunkRows(c: Chunk)
    requires c.metadata.Some? ==> !Counted(c.metadata.value)
    ensures Rows(Control(c) + ReadEvents(c), ReadEvent) == if HasPayload(c) then NumRows(c.data.value) else 0
    ensures Rows(Control(c) + ReadEvents(c), WriteEvent) == 0
  {
    RowsAppend(Control(c), ReadEvents(c), ReadEvent);
    RowsAppend(Control(c), ReadEvents(c), WriteEvent);
  }

  lemma {:induction false} QueuedRows(chunks: seq<Chunk>)
    requires QuietControl(chunks)
    ensures Rows(Queued(chunks), ReadEvent) == TotalRows(Payloads(chunks))
    ensures Rows(Queued(chunks), WriteEvent) == 0
    decreases |chunks|
  {
    if chunks != [] {
      var c := chunks[0];
      QuietTail(chunks);
      QueuedRows(chunks[1..]);
      ChunkRows(c);
      RowsAppend(Control(c) + ReadEvents(c), Queued(chunks[1..]), ReadEvent);
      RowsAppend(Control(c) + ReadEvents(c), Queued(chunks[1..]), WriteEvent);
      if HasPayload(c) {
        assert Payloads(chunks) == [c.data.value] + Payloads(chunks[1..]);
        assert Payloads(chunks)[1..] == Payloads(chunks[1..]);
      } else {
        assert Payloads(chunks) == [] + Payloads(chunks[1..]);
        assert Payloads(chunks) == Payloads(chunks[1..]);
      }
    }
  }

  lemma {:induction false} QueuedNotDone(chunks: seq<Chunk>, e: string)
    requires QuietControl(chunks) && (e == DoneReadingEvent || e == DoneWritingEvent)
    ensures forall i :: 0 <= i < |Queued(chunks)| ==> Queued(chunks)[i].event != Some(e)
    decreases |chunks|
  {
    if chunks != [] {
      var c := chunks[0];
      QuietTail(chunks);
      QueuedNotDone(chunks[1..], e);
      var head := Control(c) + ReadEvents(c);
      var qs := Queued(chunks);
      forall i | 0 <= i < |qs| ensures qs[i].event != Some(e) {
        if i >= |head| {
          assert qs[i] == Queued(chunks[1..])[i - |head|];
        } else {
          assert qs[i] == head[i];
        }
      }
    }
  }

  /** With slot empty, the tracker drains a queue in which the `done_reading` event can only come last. */
  lemma {:induction false} TrackingDrains(t: Tally, q: seq<Item>, numRows: Option<nat>)
    requires !t.doneReading
    requires forall i :: 0 <= i < |q| - 1 ==> q[i].event != Some(DoneReadingEvent)
    ensures Tracking(t, q, None, numRows).consumed == |q|
    decreases |q|
  {
    if q != [] {
      if |q| == 1 {
        assert Tracking(Advance(t, q[0]), q[1..], None, numRows).consumed == 0;
      } else {
        assert q[0].event != Some(DoneReadingEvent);
        forall i | 0 <= i < |q[1..]| - 1 ensures q[1..][i].event != Some(DoneReadingEvent) {
          assert q[1..][i] == q[i + 1];
        }
        TrackingDrains(Advance(t, q[0]), q[1..], numRows);
      }
    }
  }

  /**
   * A run in which nothing fails and the server's control records are
   * plain messages returns normally, having counted every row written as
   * sent and every row of a non-empty reply batch as received, and having
   * handed every such batch to the handler in order.
   */
  lemma SessionCompletes(numRows: Option<nat>, g: Generated, writerError: Exc,
                         chunks: seq<Chunk>, end: StreamEnd, handlerError: Exc)
    requires g.error.None? && !end.ReadFailed? && QuietControl(chunks)
    ensures var s := Session(numRows, g, None, writerError, false, chunks, end, None, handlerError);
      s.write.sent == g.batches && s.read.calls == Numbered(Payloads(chunks), 0) &&
      s.track.outcome == Returned &&
      s.track.final.sent == TotalRows(g.batches) &&
      s.track.final.received == TotalRows(Payloads(chunks))
  {
    WriteUndisturbed(g, writerError);
    ReadUndisturbed(chunks, end, handlerError);
    var s := Session(numRows, g, None, writerError, false, chunks, end, None, handlerError);
    var wi := WriteItems(g.batches);
    var qd := Queued(chunks);
    var dw := [EventItem(DoneWritingEvent)];
    var dr := [EventItem(DoneReadingEvent)];
    var q := wi + dw + qd + dr;
    assert s.read.items == qd;
    QueuedRows(chunks);
    QueuedNotDone(chunks, DoneReadingEvent);
    WriteItemsRows(g.batches);
    forall i | 0 <= i < |q| - 1 ensures q[i].event != Some(DoneReadingEvent) {
      if i < |wi| {
        assert q[i] == wi[i];
      } else if i == |wi| {
        assert q[i] == EventItem(DoneWritingEvent);
      } else {
        assert q[i] == qd[i - |wi| - 1];
      }
    }
    TrackingDrains(Start(false), q, numRows);
    TrackingCounts(Start(false), q, None, numRows);
    SessionRaisesFirstError(numRows, g, None, writerError, false, chunks, end, None, handlerError);
    assert q[..|q|] == q;
    RowsAppend(wi + dw + qd, dr, WriteEvent);
    RowsAppend(wi + dw, qd, WriteEvent);
    RowsAppend(wi, dw, WriteEvent);
    RowsAppend(wi + dw + qd, dr, ReadEvent);
    RowsAppend(wi + dw, qd, ReadEvent);
    RowsAppend(wi, dw, ReadEvent);
  }

  /**
   * A `StopIteration` raised by the batch handler ends reading without an
   * error: the exchange returns normally after the handler has seen the
   * payloads up to the one on which it raised.
   */
  lemma SessionSwallowsHandlerStopIteration(numRows: Option<nat>, g: Generated, writerError: Exc,
                                            chunks: seq<Chunk>, end: StreamEnd, n: nat, message: string)
    requires g.error.None? && EndError(end).None? && n < |Payloads(chunks)|
    ensures var s := Session(numRows, g, None, writerError, false, chunks, end, Some(n), Exc(StopIteration, message));
      s.read.calls == Numbered(Payloads(chunks)[..n + 1], 0) && s.read.error == None && s.track.outcome == Returned
  {
    WriteUndisturbed(g, writerError);
    ReadFails(chunks, n, end, Exc(StopIteration, message));
    SessionRaisesFirstError(numRows, g, None, writerError, false, chunks, end, Some(n), Exc(StopIteration, message));
  }

  /**
   * When the writer's final `done_writing()` raises, nothing is recorded
   * and no `done_writing` event is queued: the tracker drains every item,
   * `done_reading` included, and is left polling, never returning.
   */
  lemma SessionHangsWhenDoneWritingFails(numRows: Option<nat>, g: Generated, writerError: Exc,
                                         chunks: seq<Chunk>, end: StreamEnd, handlerError: Exc)
    requires g.error.None? && EndError(end).None? && QuietControl(chunks)
    ensures var s := Session(numRows, g, None, writerError, true, chunks, end, None, handlerError);
      s.write.error.OrElse(s.read.error) == None &&
      s.track.outcome == StillPolling && s.track.consumed == |WriteItems(g.batches)| + |Queued(chunks)| + 1
  {
    WriteUndisturbed(g, writerError);
    ReadUndisturbed(chunks, end, handlerError);
    var wi := WriteItems(g.batches);
    var qd := Queued(chunks);
    var dr := [EventItem(DoneReadingEvent)];
    var q := wi + WriterEnd(true) + qd + dr;
    assert q == wi + qd + dr;
    QueuedNotDone(chunks, DoneWritingEvent);
    QueuedNotDone(chunks, DoneReadingEvent);
    forall i | 0 <= i < |q| ensures q[i].event != Some(DoneWritingEvent) && (i < |q| - 1 ==> q[i].event != Some(DoneReadingEvent)) {
      if i < |wi| {
        assert q[i] == wi[i];
      } else if i < |wi| + |qd| {
        assert q[i] == qd[i - |wi|];
      } else {
        assert q[i] == dr[0];
      }
    }
    assert !Announces(q, DoneWritingEvent);
    TrackingEnds(Start(false), q, numRows);
    TrackingDrains(Start(false), q, numRows);
  }
}
