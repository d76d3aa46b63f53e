# queryboost client pipeline, modelled in Dafny

This project models the client side of the queryboost SDK in Dafny and proves properties of the model. That client side has five parts:

- **The row batcher** (`DataBatcher`, `invert_list_of_dicts`). It checks its input and fixes a schema and a row count. It then cuts the rows into column-oriented batches through one single-pass generator.
- **The streamer** (`BatchStreamer`). Its writer worker sends the batches and queues `write` events. Its reader worker hands each reply batch to the batch handler and queues `read` events and the server's control records. Its tracker drains the progress queue: it drives the progress display, echoes messages and raises the first error a worker recorded.
- **`clean_flight_error_message`**: trims the transport's error text before it is shown as a server error.
- **`validate_prompt`**: extracts the field names of a `str.format` template and checks them against the data's columns.
- **`ConfigBuilder.build`**: resolves the API key, URL and port from parameter, then environment, then default.

Files, one module each:

- `common.dfy` (`Common`): `Option`, `Result`, Python truthiness of optional strings.
- `exceptions.dfy` (`Exceptions`): the exception classes as tags, and the error-message cleaning.
- `config.dfy` (`Config`): settings resolution.
- `prompt.dfy` (`Prompt`): the template field-name scanner and prompt validation. It also has a reference grammar of templates (pieces rendered to text) against which the scanner is proved.
- `data.dfy` (`Data`): rows, batches, the constructor's decisions (`Resolve`), chunking, inversion, and the `DataBatcher` class. The class has a cursor, so its single pass is visible.
- `stream.dfy` (`Stream`): the `BatchStreamer` class. Its fields are the progress queue, the exception slot, the stop flag and whether the display exists. Its methods `Write`, `Read`, `Track` and `Stream` are proved against the specification functions `Writing`, `Reading`, `Tracking` and `Session`. `Track` is a loop itself; `Write` and `Read` run their loops in `SendBatches` and `ReceiveChunks`.
- `stream_facts.dfy` (`StreamFacts`): what those specification functions promise.

The workers run one after the other, not on threads: first the writer, then the reader, then the tracker over everything they queued. Another thread setting the stop flag is modelled as the flag being set just before a chosen batch or chunk is checked (`stopAt`). A failing writer or handler is given as the step at which it raises, and a failing final `done_writing()` call as a flag.

## Model

| member | source | states |
|---|---|---|
| Exceptions.TextBefore | src/queryboost/exceptions/exceptions.py:57 | `split(sep)[0]`: the result is a prefix of the message, no separator starts inside it, and a separator starts right after it unless it is the whole message |
| Exceptions.RemoveAll | src/queryboost/exceptions/exceptions.py:60 | `replace(pat, "")` never lengthens the text, leaves a text without the pattern unchanged, and takes at least one whole occurrence out of a text that holds the pattern |
| Exceptions.RemoveAllAfter | src/queryboost/exceptions/exceptions.py:60 | when the first occurrence in `y + pat + x` is the one right after `y`, removal keeps `y` as it is, drops that occurrence and goes on in `x` |
| Exceptions.RemoveAllSplits | src/queryboost/exceptions/exceptions.py:57-60 | `s.replace(pat, "") == "".join(s.split(pat))`: removal keeps exactly the text that `split(pat)[0]` returns, drops the separator after it and repeats on the rest; a text `split` leaves whole comes back whole |
| Exceptions.RemoveAllMidText | src/queryboost/exceptions/exceptions.py:60 | a prefix in the middle of a message, as in `"Error: Flight error: x"`, is removed and the text on both sides kept |
| Exceptions.CleanRepeatedPrefix | src/queryboost/exceptions/exceptions.py:57-60 | a doubled `"Flight error: Flight error: " + x` cleans to exactly `x`: every occurrence goes, not only the first |
| Exceptions.CleanFlightErrorMessage | src/queryboost/exceptions/exceptions.py:36-62 | the cleaned message is never longer than the original, and a message with neither the debug-context marker nor the prefix comes back unchanged |
| Exceptions.TextBeforeMarker | src/queryboost/exceptions/exceptions.py:57 | when `x` holds no marker, cutting `x + marker + tail` at the first marker gives `x` |
| Exceptions.CleanPrefixedWithContext | src/queryboost/exceptions/exceptions.py:54-62 | `"Flight error: " + x + ". gRPC client debug context:" + tail` cleans to exactly `x` when `x` holds neither pattern |
| Exceptions.CleanPrefixed | src/queryboost/exceptions/exceptions.py:60 | `"Flight error: " + x` cleans to exactly `x` when `x` holds neither pattern |
| Exceptions.CleanGrpcExample | src/queryboost/exceptions/exceptions.py:48-51 | the documented gRPC message cleans to `"Invalid input"`; the marker's period goes too |
| Exceptions.RemoveAllIsSinglePass | src/queryboost/exceptions/exceptions.py:60 | replacement is leftmost and non-overlapping and does not rescan: removing `"ab"` from `"aabb"` leaves `"ab"` |
| Config.Build | src/queryboost/config/config.py:33-52 | succeeds exactly when the parameter or the environment gives a non-empty API key; otherwise the configuration error with its message; on success all three fields are truthy |
| Config.ParameterTakesPrecedence | src/queryboost/config/config.py:39-41 | truthy parameters win over environment and defaults, and the port keeps the form it was passed in |
| Config.EnvironmentWhenNoParameter | src/queryboost/config/config.py:39-41 | with falsy parameters, non-empty environment values are used, and the port stays text |
| Config.DefaultsWhenNeither | src/queryboost/config/config.py:40-41 | with neither source, the URL is `grpc+tls://api.queryboost.com` and the port 443 |
| Config.MissingApiKeyRejected | src/queryboost/config/config.py:43-46 | a missing or empty key from both sources raises the configuration error, whatever else is given |
| Config.FieldsResolvedSeparately | src/queryboost/config/config.py:39-41 | on success, each of the key, URL and port is its own parameter if truthy, else its own environment value if non-empty, else (URL and port) its default, independently of how the other two were resolved |
| Config.SettingsIndependent | src/queryboost/config/config.py:39-41 | a setting depends only on its own parameter and its own environment variable: two builds that agree on those agree on that setting |
| Config.MixedSources | src/queryboost/config/config.py:39-41 | the URL can come from the parameter while the port and key come from the environment (a falsy port 0 falls through) |
| Prompt.ErrorClass | src/queryboost/utils/prompt.py:22-34 | every refusal is the SDK's prompt error, except a malformed template, which the parser raises as its own `ValueError` |
| Prompt.References | src/queryboost/utils/prompt.py:26 | the comprehension keeps exactly the non-empty field names |
| Prompt.ValidatePrompt | src/queryboost/utils/prompt.py:6-36 | the checks in order: refused as empty exactly for the empty prompt, as malformed exactly when the scanner fails, for lack of a reference exactly when the scanned names are all empty, and accepted (True) exactly when some reference is non-empty and every one is a column; a "not found" refusal carries exactly the references that are not columns |
| Prompt.Message | src/queryboost/utils/prompt.py:22-34 | every refusal but a malformed template has a message; a "not found" message is `Column reference(s) not found in data: ` followed by the missing names, each exactly once, joined by `, `, and a period |
| Prompt.JoinContains | src/queryboost/utils/prompt.py:34 | every name given to `", ".join` occurs in the joined text |
| Prompt.MissingNamesListed | src/queryboost/utils/prompt.py:33-34 | a "not found" message names every missing column |
| Prompt.RenderedTemplateParsed | src/queryboost/utils/prompt.py:26 | for any well-formed template built from text and fields, the scanner returns exactly the fields' names, in order |
| Prompt.RenderedTemplateValidated | src/queryboost/utils/prompt.py:26-36 | a well-formed template is accepted exactly when some field name is non-empty and all of them are columns, and it is refused for lack of a reference exactly when none is non-empty |
| Prompt.LiteralTextHasNoReference | src/queryboost/utils/prompt.py:28-30 | plain text, with its braces doubled, has no reference and is refused as such |
| Prompt.EmptyPromptRejected | src/queryboost/utils/prompt.py:22-23 | an empty prompt is refused before any parsing, as the SDK's prompt error with the message "Prompt is required." |
| Prompt.NoReferenceMessage | src/queryboost/utils/prompt.py:29-30 | a prompt refused for lack of a reference carries the message "Prompt requires at least one column reference." |
| Prompt.OneMissingMessage | src/queryboost/utils/prompt.py:33-34 | one missing name `n` is reported as "Column reference(s) not found in data: n." |
| Prompt.SingleClosingBraceMalformed | src/queryboost/utils/prompt.py:26 | a lone `}` makes the template malformed |
| Prompt.EmptyFieldIsNoReference | src/queryboost/utils/prompt.py:26-30 | `{}` is a field with an empty name, so it is not a reference |
| Prompt.OneReferenceValidated | src/queryboost/utils/prompt.py:32-36 | a prompt with one reference is valid exactly when that name is a column, and is otherwise refused naming it |
| Prompt.CaseSensitiveMatch | src/queryboost/utils/prompt.py:33-34 | matching is exact: `{Content}` is not found among `content, data` |
| Prompt.DoubledBracesAreText | src/queryboost/utils/prompt.py:26 | `{{...}}` is literal text; only the real field is checked |
| Prompt.FormatSpecNotInName | src/queryboost/utils/prompt.py:26 | a field name ends at `:`, so the format spec is not part of it |
| Data.FirstMissing | src/queryboost/utils/data.py:164-166 | none exactly when the row has every key; otherwise a key the row lacks |
| Data.MissingKey | src/queryboost/utils/data.py:164-166 | none exactly when every row has every key; otherwise a key some row lacks |
| Data.AppendRow | src/queryboost/utils/data.py:165-166 | the inner loop stops at the row's first missing key; otherwise every key's list has the row's cell appended, and the key order is the first row's |
| Data.InvertListOfDicts | src/queryboost/utils/data.py:142-168 | the nested loops compute `Inversion`: `{}` for no rows, the `KeyError` of the first missing key, or the dict of lists |
| Data.EmptyInversion | src/queryboost/utils/data.py:157-158 | an empty list inverts to `{}` |
| Data.InversionShape | src/queryboost/utils/data.py:157-168 | succeeds exactly when every row has the first row's keys; then the keys are the first row's in order, every list has one value per row, `out[k][i] == data[i][k]`, and later extra keys are dropped; otherwise a `KeyError` for a key some row lacks |
| Data.ChunksCount | src/queryboost/utils/data.py:106-107 | there are ceil(n / b) batches |
| Data.ChunkSizes | src/queryboost/utils/data.py:106-107 | every batch has b rows except the last, which has between 1 and b |
| Data.ChunksFlatten | src/queryboost/utils/data.py:106-107 | the batches concatenated give back the rows in order |
| Data.ChunkIsSlice | src/queryboost/utils/data.py:106-107 | batch i is the slice `data[i*b : i*b + b]`, clamped to the end |
| Data.DatasetBatchesAreSlices | src/queryboost/utils/data.py:96-120 | a dataset generator never raises, and yields one batch per slice |
| Data.IteratorBatchesAreInvertedChunks | src/queryboost/utils/data.py:122-133 | the iterator's batches are the inversions of its consecutive chunks, up to the first chunk that fails, whose `KeyError` ends the generator |
| Data.UniformIteratorNeverRaises | src/queryboost/utils/data.py:132-133 | when all rows share the schema's keys, every chunk is yielded as its columns and nothing is raised |
| Data.ReservedCheck | src/queryboost/utils/data.py:86-89 | accepted exactly when no schema name is `_inference` or `_error` |
| Data.Resolve | src/queryboost/utils/data.py:43-89 | a batch size below 1 gives the batch-size error; any other kind of object gives the data-type error, whose message names the object's type and prints the `BatchableData` union; a success has a valid size, a supported input and no reserved name |
| Data.BatchSizeCheckedFirst | src/queryboost/utils/data.py:43-44 | with a bad batch size, every input gets the same batch-size error, so the input is never looked at |
| Data.RowCountKnownForMaterialized | src/queryboost/utils/data.py:46-59 | a list or dataset records its row count; a list's schema is its first row's keys |
| Data.IteratorSchemaFromPeek | src/queryboost/utils/data.py:72-79 | an iterator's schema is its first row's keys, the peeked row is not consumed, the row count is None, and an empty iterator raises `StopIteration` |
| Data.ReservedColumnRejected | src/queryboost/utils/data.py:86-89 | once the schema is known, any other refusal is the data-column error |
| Data.DataBatcher.Init | src/queryboost/utils/data.py:91-94 | the new generator has the whole `Generate` output still to produce |
| Data.DataBatcher.Open | src/queryboost/utils/data.py:20-94 | the constructor, with its checks and its loop over the schema names, is proved to agree with `Resolve`: it fails exactly when `Resolve` does, with the same exception; on success the batcher's schema, row count and pending batches are `Resolve`'s |
| Data.DataBatcher.Next | src/queryboost/utils/data.py:138-139 | `next` yields the first pending batch, raises the generator's pending exception, or raises `StopIteration` once nothing is left; after a raise or a stop, nothing is pending |
| Data.DataBatcher.IterAll | src/queryboost/utils/data.py:135-136 | iterating collects exactly the pending batches, or ends with the generator's exception, and leaves nothing pending |
| Data.IterateTwice | src/queryboost/utils/data.py:135-139 | single pass: the second iteration is empty and `next` then raises `StopIteration` |
| Stream.BatchStreamer.Init | src/queryboost/stream.py:27-44 | the streamer takes the batcher's schema and row count, with empty queues, the flag clear and no display |
| Stream.BatchStreamer.Write | src/queryboost/stream.py:46-75 | `begin`, then the writes `Writing` says, then exactly one `done_writing` call; one `write` event per batch sent, then the `done_writing` event unless that call raised; the first error kept in the slot, and nothing recorded for a failing `done_writing()`; the stop flag |
| Stream.BatchStreamer.SendBatches | src/queryboost/stream.py:59-71 | the loop's writes, queued events, recorded exception and stop flag are those of `WriteLoop` |
| Stream.Recorded | src/queryboost/stream.py:105-111 | an exception raised in the reader's `try` is recorded exactly when it is not a `StopIteration`, and then unchanged |
| Stream.BatchStreamer.Read | src/queryboost/stream.py:77-114 | the handler calls, queued items and recorded error are those of `Reading`, and `done_reading` is always queued last |
| Stream.BatchStreamer.ReceiveChunks | src/queryboost/stream.py:87-111 | the loop over chunks does what `ReadFrom` says; a `StopIteration` from the handler or the reader ends it without being recorded |
| Stream.ReadFromAccumulates | src/queryboost/stream.py:88-103 | a read continued after earlier calls and items gives those followed by a fresh read's |
| Stream.React | src/queryboost/stream.py:132-165 | one loop turn's new state and display actions are `Advance` and `Reaction` of the item |
| Stream.BatchStreamer.Track | src/queryboost/stream.py:116-179 | the display actions, outcome, items dequeued and display flag are those of `Tracking`; the slot is emptied exactly when an error is raised |
| Stream.BatchStreamer.Stream | src/queryboost/stream.py:181-217 | write, read, then track over the queued items with the first recorded exception; finally the stop flag is set and an existing display is closed |
| StreamFacts.WriteLoopEnds | src/queryboost/stream.py:56-71 | from batch k, the writer sends consecutive batches and ends in exactly one way: stopped with nothing recorded, a failed write of the next batch, or the batches exhausted with the generator's exception |
| StreamFacts.WriteEnds | src/queryboost/stream.py:56-75 | the writer sends a prefix of the batches; a failure is on the batch after it; an undisturbed run sends all of them |
| StreamFacts.WriteUndisturbed | src/queryboost/stream.py:57-67 | undisturbed, every batch is sent in order, then the generator's exception, if any, is recorded |
| StreamFacts.WriteStopped | src/queryboost/stream.py:59-61 | with the flag set before batch j, exactly the first j batches are sent and batch j is dropped |
| StreamFacts.WriteFails | src/queryboost/stream.py:63-71 | when the write of batch j raises, the first j batches were sent and the writer's exception is recorded |
| StreamFacts.ReadUndisturbed | src/queryboost/stream.py:87-103 | every non-empty payload goes to the handler in order with indices 0, 1, 2, ...; metadata-only chunks do not advance the index; each control record is queued before its chunk's `read` event |
| StreamFacts.ReadStopIterationIsEnd | src/queryboost/stream.py:105-107 | a `StopIteration` ending iteration over the reader is not an error: the reader behaves as if the chunks simply ran out |
| StreamFacts.ReadStopped | src/queryboost/stream.py:89-91 | with the flag set before chunk j, the reader does only what the first j chunks make it do, and ends stopped unless the handler raised on one of their payloads |
| StreamFacts.ReadInOrder | src/queryboost/stream.py:88-103 | whatever happens, the handler indices are 0, 1, 2, ... |
| StreamFacts.ReadFails | src/queryboost/stream.py:97-111 | when the handler raises on payload n, it was called on payloads 0..n in order and reading ends; its exception is recorded, unless it is a `StopIteration`, which is passed over |
| StreamFacts.TrackingEnds | src/queryboost/stream.py:128-151 | with no error recorded, the tracker never raises; it returns exactly when both done events were seen, and otherwise keeps polling |
| StreamFacts.TrackingCounts | src/queryboost/stream.py:123-151 | the sent and received counters are the sums of the `write` and `read` row counts dequeued; it returns only with both done flags set |
| StreamFacts.TrackingDrains | src/queryboost/stream.py:128-151 | when `done_reading` can only come last, the tracker dequeues every item |
| StreamFacts.TrackingEchoes | src/queryboost/stream.py:164-165 | the messages written are the dequeued items' non-empty messages, in order, except those of `processing_started` |
| StreamFacts.TrackingBarCreatedFirst | src/queryboost/stream.py:136-162 | starting without a display, it is labelled, updated or closed only after a `processing_started` item created it |
| StreamFacts.TrackingCreatesWithTotal | src/queryboost/stream.py:152-158 | a display is always created with the batcher's row count as total, and is given its `Sent` label at once |
| StreamFacts.TrackingBarExists | src/queryboost/stream.py:139-162 | the display exists after tracking exactly when it existed before or a dequeued item was `processing_started` |
| StreamFacts.TrackingContinues | src/queryboost/stream.py:128-165 | after items `p` that do not finish tracking, all of `p` is dequeued, and the next item's reaction, in the state `p` left, follows `p`'s actions |
| StreamFacts.TrackingLabelsBar | src/queryboost/stream.py:152-158 | a `processing_started` item creates the display with the row count as total and its own message as label, then shows `Sent:` with the rows of the `write` items before it |
| StreamFacts.TrackingShowsSent | src/queryboost/stream.py:136-140 | a `write` item shows the running total of rows sent when the display exists; otherwise only its message is written |
| StreamFacts.TrackingAdvancesBar | src/queryboost/stream.py:142-146 | a `read` item advances an existing display by its row count; otherwise only its message is written |
| StreamFacts.TrackingClosesBar | src/queryboost/stream.py:160-162 | a `processing_done` item closes an existing display; otherwise only its message is written |
| StreamFacts.TrackingRaisesServerError | src/queryboost/stream.py:167-173 | a recorded transport error in the server's usual shape is raised after one item, as a server error carrying just the useful text |
| StreamFacts.SessionRaisesFirstError | src/queryboost/stream.py:167-176 | whole exchange: the first exception a worker recorded is raised, surfaced, after one item, so it always comes before the loop can exit; with none recorded and `done_writing()` succeeding, tracking returns |
| StreamFacts.SessionCompletes | src/queryboost/stream.py:197-206 | whole exchange with no failure and plain control records: every batch is sent, every payload handled in order, and tracking returns with the sent and received totals equal to the rows written and received |
| StreamFacts.SessionSwallowsHandlerStopIteration | src/queryboost/stream.py:97-114 | whole exchange: a handler raising `StopIteration` on payload n stops reading after payloads 0..n, records nothing, and tracking returns normally |
| StreamFacts.SessionHangsWhenDoneWritingFails | src/queryboost/stream.py:73-75 | whole exchange: when `done_writing()` raises, nothing is recorded and no `done_writing` event is queued, so the tracker dequeues everything, `done_reading` included, and is left polling |

## Left out

- Threads: the workers and the tracker run one after the other. Another thread setting the stop flag is a chosen step (`stopAt`). Other interleavings are not modelled, nor is the tracker seeing items while the workers are still running.
- The 0.2 s timed poll: an empty queue before both done events ends tracking as `StillPolling`, since the real loop would wait for more.
- `do_exchange`, `reader.cancel()` and the thread joins in `stream()`: transport and thread plumbing.
- Stream.BatchStreamer.Stream: the workers run with the stop flag clear and no injected stop. The exception slot is fixed once tracking starts, because the workers have already finished.
- Stream.BatchStreamer.Write: takes the batcher's output as a `Generated` value (its batches, then the exception it raises), not the `DataBatcher` object. `DataBatcher.Next` and `IterAll` are proved to produce exactly that value. An exception from a failing `done_writing()` leaves the writer's thread; what the thread machinery then prints is not modelled.
- The batch handler's own behaviour is not modelled: buffering, local files, S3. The handler is given by the payload index at which it raises. `src/queryboost/handlers/` is not part of this model.
- `src/queryboost/auth.py` and `src/queryboost/queryboost.py` are not part of this model: handshake I/O and client wiring.
- Hugging Face `Dataset.from_list` is modelled as taking the first row's keys as columns, with missing cells as None. `IterableDataset.iter` is modelled as yielding the same consecutive slices. The split's row count is given, and None when the lookup fails.
- pyarrow schema inference keeps only the column names, not their types. `RecordBatch.from_pydict` keeps the columns as they are, and a batch's row count is its first column's length. A conversion that raises is folded into the writer failing at that step.
- JSON decoding of control records: a chunk carries its record already decoded, as optional event, message and row count. Decoding failures and records that are not dicts are not modelled.
- tqdm: the display is an abstract trace of create, postfix, update, close and write actions, without formatting.
- Values other than None, bools, ints and strings (floats, nested objects) are opaque, compared by their repr.
- Data.ReservedCheck: the message lists the reserved names in one fixed order; Python's frozenset iteration order is not modelled.
- Prompt.Message: the missing names are listed each exactly once, but in an order given as a parameter, since set iteration order is not modelled. A malformed template is one tag, without the parser's `ValueError` text.
- `str(KeyError(key))` is `'key'` in quotes; the repr escaping of quotes inside the key is not modelled.
- `type(data)` for an unsupported input is given as its printed form.
- Data.Resolve: the `BatchableData` union is printed as `typing.Union[...]`, the form of Python 3.10 to 3.13; Python 3.14 prints unions with `|`, which is not modelled.
- Data.DataBatcher.Open: the default `batch_size` of 16 is not a default here; callers pass the batch size.
