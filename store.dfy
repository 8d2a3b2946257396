/** The component's database as the client sees it through `runQuery` and
    `runMutation`: a status and an ordered list of chunks per stream. */
module Store {
  import opened Schema
  import opened Joining

  datatype StoreError = NotFound

  /** Outcome of a store call: a value, or the error the call raises. */
  datatype Result<T> = Ok(value: T) | Err(error: StoreError)

  datatype StreamRow = StreamRow(status: Status, chunks: seq<Chunk>)

  datatype Db = Db(rows: map<StreamId, StreamRow>)

  /** The texts of `chunks`, in creation order. */
  function ChunkTexts(chunks: seq<Chunk>): (r: seq<string>)
    ensures |r| == |chunks|
    ensures forall i :: 0 <= i < |chunks| ==> r[i] == chunks[i].text
  {
    seq(|chunks|, i requires 0 <= i < |chunks| => chunks[i].text)
  }

  /** The stream body a reader reconstructs: all chunk texts concatenated. */
  function Text(chunks: seq<Chunk>): string
  {
    Concat(ChunkTexts(chunks))
  }

  /** The body of two runs of chunks is the body of the first, then of the second. */
  lemma TextJoin(a: seq<Chunk>, b: seq<Chunk>)
    ensures Text(a + b) == Text(a) + Text(b)
  {
    assert ChunkTexts(a + b) == ChunkTexts(a) + ChunkTexts(b);
    ConcatJoin(ChunkTexts(a), ChunkTexts(b));
  }

  /** Appending one chunk appends its text to the body. */
  lemma TextAppend(chunks: seq<Chunk>, c: Chunk)
    ensures Text(chunks + [c]) == Text(chunks) + c.text
  {
    TextJoin(chunks, [c]);
    assert ChunkTexts([c]) == [c.text];
    assert Concat([c.text]) == c.text by { assert [c.text][1..] == []; }
  }

  /** Stream `id` exists before and after, and `after` differs from `before`
      at most in its row: no stream appears, disappears or changes besides it. */
  ghost predicate OnlyRowChanged(before: Db, after: Db, id: StreamId)
  {
    id in before.rows && id in after.rows &&
    after.rows == before.rows[id := after.rows[id]]
  }

  /** The `getStreamStatus` query: fails for an unknown stream, otherwise
      answers with that stream's status. */
  function GetStatus(db: Db, id: StreamId): (r: Result<Status>)
    ensures r.Err? <==> id !in db.rows
    ensures r.Ok? ==> r.value == db.rows[id].status
  {
    if id in db.rows then Ok(db.rows[id].status) else Err(NotFound)
  }

  /** The `addChunk` mutation: persists one more chunk at the end of stream
      `id`. What the mutation does to the status when the chunk is final is
      the component's own code, so it is a parameter: `finalStatus` is the
      status a stream has after its final chunk. A non-final chunk leaves the
      status alone. */
  function AddChunk(db: Db, id: StreamId, text: string, final: bool, finalStatus: Status): (r: Result<Db>)
    ensures r.Err? <==> id !in db.rows
    ensures r.Ok? ==> OnlyRowChanged(db, r.value, id)
    ensures r.Ok? ==> r.value.rows[id].status == if final then finalStatus else db.rows[id].status
    ensures r.Ok? ==> r.value.rows[id].chunks == db.rows[id].chunks + [Chunk(text, final)]
    ensures r.Ok? ==> Text(r.value.rows[id].chunks) == Text(db.rows[id].chunks) + text
  {
    if id in db.rows then
      var row := db.rows[id];
      var status := if final then finalStatus else row.status;
      TextAppend(row.chunks, Chunk(text, final));
      Ok(Db(db.rows[id := StreamRow(status, row.chunks + [Chunk(text, final)])]))
    else
      Err(NotFound)
  }

  /** The `setStreamStatus` mutation: overwrites the status of stream `id`. */
  function SetStatus(db: Db, id: StreamId, status: Status): (r: Result<Db>)
    ensures r.Err? <==> id !in db.rows
    ensures r.Ok? ==> OnlyRowChanged(db, r.value, id)
    ensures r.Ok? ==> r.value.rows[id] == StreamRow(status, db.rows[id].chunks)
  {
    if id in db.rows then
      Ok(Db(db.rows[id := StreamRow(status, db.rows[id].chunks)]))
    else
      Err(NotFound)
  }
}
