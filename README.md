# Persistent text streaming: the persist-while-streaming coordinator

This project models the client side of a Convex component that streams
generated text (for example an LLM completion) to an HTTP response while
persisting the same text in the database, so the text can be reloaded later
or watched from another session.

What is modelled:

- The flush policy `hasDelimeter`: a fragment triggers a database write when
  it contains `.`, `!` or `?` (`Client.HasDelimiter`).
- `PersistentTextStreaming.stream`. It reads the stream's status. If the
  status is not `"pending"`, it answers with an empty 205 response and does
  nothing else (`Client.Stream`). Otherwise it runs `doStream` (`Client.DoStream`).
- The closure state of `doStream` is a class, `Client.StreamRun`. It holds the
  database, the accumulator `pending`, the writer (alive while not `null`),
  what the writer delivered, and whether the writer was closed.
  - `chunkAppender` is `StreamRun.Append`.
  - The producer calling the appender once per fragment is `StreamRun.Produce`.
  - The success path is `StreamRun.Finish`: the leftover `pending` goes in as the `final` chunk.
  - The error path is `StreamRun.Fail`: the status becomes `"error"`, the writer is closed and the error is re-thrown.
- The database mutations `addChunk` and `setStreamStatus` (`Store.AddChunk`,
  `Store.SetStatus`) act on a value `Db`. It maps each stream id to a status
  (the five literals of the schema's status union) and an ordered list of chunks.

Environment inputs are parameters:

- The producer is `Producer(fragments, throws)`: the fragments it appends, in
  order, and whether it then throws instead of returning.
- The outbound writer's failure is `firstWriteFailure`: the index of the first
  fragment whose write throws. After it the writer is `null`, so later writes
  are never attempted.
- The database (reached through `ctx`) is a value passed in and returned.
- What the component's `addChunk` mutation does to the status when it gets
  the final chunk is the component's own code. It is the parameter
  `finalStatus`: the status a stream has after its final chunk.

The appender's effect on the database and on `pending` is also written as
a pure function. `Client.Step` handles one fragment, and `Client.Replay`
folds it over a sequence of fragments. `StreamRun.Append` is proved to keep
the class's state equal to the replay of the fragments appended so far.
Lemmas prove what the source promises about the replay:

- nothing is lost, duplicated or reordered (`Conservation`);
- every non-final chunk contains a sentence-ending character (`FlushedChunksDelimited`);
- `pending` holds exactly the fragments after the last delimiter-bearing one
  (`UnflushedTail`), and the flushed chunks hold the ones before it
  (`FlushedText`);
- a completed run stores the fragments exactly, with one final chunk last
  (`CompletedText`).

Behaviour of the code worth noting:

- `stream` never writes `"streaming"` when it admits a stream. The client
  itself writes no status other than `"error"`, on producer failure; what
  the component's `addChunk` does to the status is outside this model
  (`finalStatus` above, and "## Left out").
- When the producer throws, `pending` is not flushed before the status
  becomes `"error"`. That text is lost: a single fragment without a
  delimiter followed by a throw stores nothing (`NoDelimiterNoFlush`).
- An append leaves `pending` empty when the fragment has a delimiter, and
  otherwise grows it by the fragment. So an empty fragment appended to an
  empty `pending` also leaves it empty (`StreamRun.Append`).
- The delimiter test looks for `.`, `!` or `?` anywhere in the fragment, and
  the whole of `pending` is flushed. A flushed chunk therefore contains a
  sentence-ending character but need not end with one: the single fragment
  `"Hi. there"` is stored as the chunk `"Hi. there"`.

## Model

| member | source | states |
|---|---|---|
| `Client.HasDelimiter` | dist/esm/client/index.js:4-6 | true exactly when some character of the fragment is `.`, `!` or `?` |
| `Client.Step` | dist/esm/client/index.js:102-107 | one append only adds chunks at the end, one chunk when the fragment holds a delimiter and none otherwise |
| `Client.FlushedCount` | dist/esm/client/index.js:102-107 | the fragments already flushed end with the last fragment that holds a delimiter (0 fragments if none does); no later fragment holds one |
| `Client.Conservation` | dist/esm/client/index.js:102-106 | the flushed chunks followed by `pending` concatenate to exactly the fragments appended so far |
| `Client.UnflushedTail` | dist/esm/client/index.js:102-107 | `pending` is exactly the concatenation of the fragments after the last delimiter-bearing one |
| `Client.FlushedText` | dist/esm/client/index.js:102-106 | the flushed chunks concatenate to the fragments up to and including the last delimiter-bearing one |
| `Client.FlushedChunksDelimited` | dist/esm/client/index.js:102-105 | every chunk flushed during streaming is non-final and contains `.`, `!` or `?` |
| `Client.NoDelimiterNoFlush` | dist/esm/client/index.js:102-107 | fragments without any delimiter persist no chunk; all of their text stays in `pending` |
| `Client.CompletedText` | dist/esm/client/index.js:119-120 | after a completed run the last chunk is the only final one and holds the leftover (possibly empty); the chunks before it each contain a sentence-ending character; all chunks together are exactly the fragments |
| `Client.FlushedChunksGrow` | dist/esm/client/index.js:102-106 | chunks are only added at the end: what is persisted after a prefix of the fragments is a prefix of what is persisted after all of them |
| `Client.HelloWorld` | dist/esm/client/index.js:26-28 | "Hello " then "World!" persist the chunk "Hello World!" and leave "" for the final chunk |
| `Client.StreamRun.Admit` | dist/esm/client/index.js:85-88 | after admission the writer is alive, nothing is written, `pending` is empty and the database is unchanged |
| `Client.StreamRun.Forward` | dist/esm/client/index.js:92-101 | a live writer delivers the fragment; a write that throws drops the writer, and a dropped writer stays dropped and delivers nothing |
| `Client.StreamRun.Append` | dist/esm/client/index.js:90-108 | a fragment with a delimiter adds exactly one non-final chunk, equal to the old `pending` plus the fragment, and empties `pending`; a fragment without one adds no chunk and is appended to `pending`; the writer behaves as in `Forward`; other streams and the status are unchanged; the class invariant is kept |
| `Client.StreamRun.Produce` | dist/esm/client/index.js:110 | after the producer appends its fragments, the response has received exactly those before the first failing write; the writer is alive only if no write failed; the state is the replay of all fragments |
| `Client.StreamRun.Finish` | dist/esm/client/index.js:119-123 | the leftover `pending` is added as the final chunk and the status becomes `finalStatus`; the stream's chunks now concatenate to the old chunks plus all fragments; the writer is closed only if it is still alive |
| `Client.StreamRun.Fail` | dist/esm/client/index.js:112-117 | the status becomes error; no final chunk is added and `pending` is dropped, so the text grows only by the flushed fragments; the writer is closed only if it is still alive |
| `Client.DoStream` | dist/esm/client/index.js:89-124 | the response body is the fragments before the first failing write, closed only if none failed; on success the flushed chunks then the final leftover chunk are added, the status becomes `finalStatus`, and the text grows by all fragments; on a throw the status becomes error and the text grows by the flushed fragments only |
| `Client.Stream` | dist/esm/client/index.js:74-129 | an unknown stream fails the status query; a status other than pending gives an empty 205 response and changes nothing; a pending stream gets a 200 response and the run of `DoStream` |
| `Store.GetStatus` | dist/esm/client/index.js:75-77 | fails exactly for an unknown stream; otherwise answers with that stream's status |
| `Store.AddChunk` | dist/esm/client/index.js:131-137 | an unknown stream fails; otherwise one chunk with the given text and flag is appended to that stream alone, and the stream's text grows by exactly that text; a non-final chunk keeps the status, a final one sets it to `finalStatus` |
| `Store.SetStatus` | dist/esm/client/index.js:139-144 | an unknown stream fails; otherwise only that stream's status changes, to the given one |

## Left out

- `createStream` and `getStreamBody` only pass a call through to the component. The component's query and mutation bodies are not part of this model.
- `Store.AddChunk`: the status a final chunk leaves is the parameter `finalStatus`, not a fixed value, because the component code that sets it is not part of this model. No contract says which status a completed run ends in.
- `Store.AddChunk`: a non-final chunk is taken to leave the status unchanged, so a stream keeps its admission status until the final chunk or an error; the component's mutation that decides this is not part of this model.
- Stale-stream cleanup (`cleanupExpiredStreams`) is component code that is not shown.
- `TransformStream`, `TextEncoder`, `Response` and byte encoding are not modelled. The response body is the sequence of fragments the writer delivered. A failing write is taken to deliver nothing. Constructing the empty 205 response is taken to succeed; whether the runtime rejects a body with that status is not modelled.
- Asynchrony is not modelled. `void doStream()` detaches the run from the returned response; the model runs one stream's production to its end in sequence and returns the response with the body it received. The re-thrown error becomes the outcome `Rethrown`. The model also takes each append to finish before the producer starts the next, as the documented example does by awaiting each call. `chunkAppender` is not re-entrant: two overlapping calls could interleave at the awaited write and flush, and the reset of `pending` after a flush could erase text appended in between. That case is not modelled.
- The race between two `stream` calls that both read `"pending"` is not modelled, since one run is modelled sequentially.
- Failures of the database mutations themselves are not modelled, for example an `addChunk` that throws during a flush. The store functions fail only for an unknown stream, which admission has already excluded.
- Failures of `writer.close()` are not modelled.
- `console.log` and `console.error` are not modelled.
- Type declarations (`OpaqueIds`, `UseApi`) and the React hook signature have no behaviour to model. The schema contributes only the status union and the chunk shape. `Chunk` also records the `final` flag that `addChunk` receives, so the model can say which chunk was final.
