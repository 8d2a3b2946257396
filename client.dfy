/** The client half of persistent text streaming: the flush policy, the state
    a running `stream` call keeps, and `stream` itself run to its end. */
module Client {
  import opened Schema
  import opened Joining
  import opened Store

  datatype Option<T> = None | Some(value: T)

  // ---------------------------------------------------------------------------
  // Flush policy

  /** The sentence-ending characters that make the appender write to the database. */
  predicate IsDelimiter(c: char)
  {
    c == '.' || c == '!' || c == '?'
  }

  /** `hasDelimeter`: whether a fragment contains a sentence-ending character. */
  function HasDelimiter(text: string): (r: bool)
    ensures r <==> exists i :: 0 <= i < |text| && IsDelimiter(text[i])
  {
    '.' in text || '!' in text || '?' in text
  }

  // ---------------------------------------------------------------------------
  // What the appender has done after a sequence of fragments

  /** How many leading fragments have been flushed to the database: the end of
      the last fragment holding a delimiter, or 0 when none does. */
  function FlushedCount(fragments: seq<string>): (n: nat)
    ensures n <= |fragments|
    ensures n > 0 ==> HasDelimiter(fragments[n - 1])
    ensures forall j :: n <= j < |fragments| ==> !HasDelimiter(fragments[j])
  {
    if fragments == [] then 0
    else if HasDelimiter(fragments[|fragments| - 1]) then |fragments|
    else FlushedCount(fragments[..|fragments| - 1])
  }

  /** What the appender has accumulated: the chunks it flushed to the
      database, in order, and the text in `pending`. */
  datatype Accumulator = Accumulator(flushed: seq<Chunk>, pending: string)

  /** One call of `chunkAppender`, seen from the database and `pending`: the
      fragment joins `pending`, and when the fragment holds a delimiter all of
      `pending` becomes one more non-final chunk and `pending` is emptied. */
  function Step(acc: Accumulator, fragment: string): (r: Accumulator)
    ensures acc.flushed <= r.flushed
    ensures |r.flushed| == |acc.flushed| + (if HasDelimiter(fragment) then 1 else 0)
  {
    var pending := acc.pending + fragment;
    if HasDelimiter(fragment) then Accumulator(acc.flushed + [Chunk(pending, false)], "")
    else Accumulator(acc.flushed, pending)
  }

  /** The accumulator after `fragments` were appended in order, from an empty `pending`. */
  function Replay(fragments: seq<string>): (r: Accumulator)
  {
    if fragments == [] then Accumulator([], "")
    else Step(Replay(fragments[..|fragments| - 1]), fragments[|fragments| - 1])
  }

  /** Replaying one more fragment is one more step. */
  lemma ReplayAppend(fragments: seq<string>, f: string)
    ensures Replay(fragments + [f]) == Step(Replay(fragments), f)
  {
    assert (fragments + [f])[..|fragments|] == fragments;
  }

  /** No loss, duplication or reordering: the flushed chunks followed by
      `pending` are exactly the fragments appended so far. */
  lemma {:induction false} Conservation(fragments: seq<string>)
    ensures Text(Replay(fragments).flushed) + Replay(fragments).pending == Concat(fragments)
  {
    if fragments != [] {
      var prior := fragments[..|fragments| - 1];
      var last := fragments[|fragments| - 1];
      var acc := Replay(prior);
      Conservation(prior);
      assert fragments == prior + [last];
      ConcatAppend(prior, last);
      if HasDelimiter(last) {
        TextAppend(acc.flushed, Chunk(acc.pending + last, false));
      }
    }
  }

  /** `pending` holds exactly the fragments after the last delimiter-bearing one. */
  lemma {:induction false} UnflushedTail(fragments: seq<string>)
    ensures Replay(fragments).pending == Concat(fragments[FlushedCount(fragments)..])
  {
    if fragments != [] {
      var prior := fragments[..|fragments| - 1];
      var last := fragments[|fragments| - 1];
      UnflushedTail(prior);
      if HasDelimiter(last) {
        assert fragments[|fragments|..] == [];
      } else {
        var n := FlushedCount(prior);
        assert fragments[n..] == prior[n..] + [last];
        ConcatAppend(prior[n..], last);
      }
    }
  }

  /** The flushed chunks spell out exactly the fragments up to and including
      the last delimiter-bearing one. */
  lemma FlushedText(fragments: seq<string>)
    ensures Text(Replay(fragments).flushed) == Concat(fragments[..FlushedCount(fragments)])
  {
    var n := FlushedCount(fragments);
    var flushed, tail := Text(Replay(fragments).flushed), Concat(fragments[n..]);
    Conservation(fragments);
    UnflushedTail(fragments);
    ConcatSplit(fragments, n);
    assert flushed + tail == Concat(fragments[..n]) + tail;
    assert flushed == (flushed + tail)[..|flushed|];
  }

  /** Every chunk flushed while streaming is non-final and contains a sentence-ending
      character somewhere in its text, not necessarily at its end. */
  lemma {:induction false} FlushedChunksDelimited(fragments: seq<string>)
    ensures forall c :: c in Replay(fragments).flushed ==> !c.final && HasDelimiter(c.text)
  {
    if fragments != [] {
      var prior := fragments[..|fragments| - 1];
      var last := fragments[|fragments| - 1];
      FlushedChunksDelimited(prior);
      if HasDelimiter(last) {
        assert HasDelimiter(Replay(prior).pending + last);
      }
    }
  }

  /** A run without a delimiter-bearing fragment flushes nothing: all of it
      stays in `pending`. */
  lemma {:induction false} NoDelimiterNoFlush(fragments: seq<string>)
    requires forall j :: 0 <= j < |fragments| ==> !HasDelimiter(fragments[j])
    ensures Replay(fragments).flushed == []
    ensures Replay(fragments).pending == Concat(fragments)
  {
    if fragments != [] {
      var prior := fragments[..|fragments| - 1];
      NoDelimiterNoFlush(prior);
      assert fragments == prior + [fragments[|fragments| - 1]];
      ConcatAppend(prior, fragments[|fragments| - 1]);
    }
  }

  /** After a completed run, the chunks are the flushes, each non-final and
      containing a sentence-ending character, then exactly one final chunk holding the leftover
      (possibly ""), and together they spell out exactly the fragments. */
  lemma CompletedText(fragments: seq<string>)
    ensures var chunks := Replay(fragments).flushed + [Chunk(Replay(fragments).pending, true)];
      && chunks[|chunks| - 1] == Chunk(Replay(fragments).pending, true)
      && (forall j :: 0 <= j < |chunks| - 1 ==> !chunks[j].final && HasDelimiter(chunks[j].text))
      && Text(chunks) == Concat(fragments)
  {
    var chunks := Replay(fragments).flushed + [Chunk(Replay(fragments).pending, true)];
    FlushedChunksDelimited(fragments);
    forall j | 0 <= j < |chunks| - 1
      ensures !chunks[j].final && HasDelimiter(chunks[j].text)
    {
      assert chunks[j] in Replay(fragments).flushed;
    }
    TextAppend(Replay(fragments).flushed, Chunk(Replay(fragments).pending, true));
    Conservation(fragments);
  }

  /** The body of a stream whose run completed: what it held before, then all fragments. */
  lemma CompletedBody(before: seq<Chunk>, fragments: seq<string>)
    ensures Text(before + Replay(fragments).flushed + [Chunk(Replay(fragments).pending, true)])
         == Text(before) + Concat(fragments)
  {
    var added := Replay(fragments).flushed + [Chunk(Replay(fragments).pending, true)];
    assert before + Replay(fragments).flushed + [Chunk(Replay(fragments).pending, true)] == before + added;
    TextJoin(before, added);
    CompletedText(fragments);
  }

  /** The body of a stream whose producer threw: what it held before, then
      the fragments up to the last delimiter-bearing one. */
  lemma FailedBody(before: seq<Chunk>, fragments: seq<string>)
    ensures Text(before + Replay(fragments).flushed) == Text(before) + Concat(fragments[..FlushedCount(fragments)])
  {
    TextJoin(before, Replay(fragments).flushed);
    FlushedText(fragments);
  }

  /** Chunks are only ever added at the end: the chunks persisted after a
      prefix of the fragments are a prefix of those persisted after all of
      them, so a reader polling the body sees it grow. */
  lemma {:induction false} FlushedChunksGrow(fragments: seq<string>, k: nat)
    requires k <= |fragments|
    ensures Replay(fragments[..k]).flushed <= Replay(fragments).flushed
  {
    if k < |fragments| {
      var prior := fragments[..|fragments| - 1];
      assert prior[..k] == fragments[..k];
      FlushedChunksGrow(prior, k);
      var p, q := Replay(fragments[..k]).flushed, Replay(prior).flushed;
      assert q <= Replay(fragments).flushed;
      assert p == q[..|p|] && q == Replay(fragments).flushed[..|q|];
      assert Replay(fragments).flushed[..|q|][..|p|] == Replay(fragments).flushed[..|p|];
    } else {
      assert fragments[..k] == fragments;
    }
  }

  /** "Hello " then "World!" flush one chunk "Hello World!" and leave "" for the final one. */
  lemma HelloWorld()
    ensures Replay(["Hello ", "World!"]).flushed == [Chunk("Hello World!", false)]
    ensures Replay(["Hello ", "World!"]).pending == ""
  {
    var fs := ["Hello ", "World!"];
    assert !HasDelimiter("Hello ");
    assert HasDelimiter("World!") by { assert "World!"[5] == '!'; }
    assert fs[..1] == ["Hello "] && ["Hello "][..0] == [];
    assert Replay(["Hello "]) == Accumulator([], "Hello ");
    assert "Hello " + "World!" == "Hello World!";
  }

  /** The database and `pending` agree with the accumulator `acc`: stream
      `id` holds its chunks at admission followed by `acc`'s flushed chunks,
      nothing else in the database changed since `db0`, and `pending` is
      `acc`'s pending text. */
  ghost predicate Tracks(db0: Db, id: StreamId, db: Db, pending: string, acc: Accumulator)
  {
    OnlyRowChanged(db0, db, id) &&
    db.rows[id] == StreamRow(db0.rows[id].status, db0.rows[id].chunks + acc.flushed) &&
    pending == acc.pending
  }

  /** Flushing on a delimiter-bearing fragment keeps the database in step with the accumulator. */
  lemma FlushKeepsTracking(db0: Db, id: StreamId, db: Db, acc: Accumulator, fragment: string, finalStatus: Status)
    requires Tracks(db0, id, db, acc.pending, acc) && HasDelimiter(fragment)
    ensures AddChunk(db, id, acc.pending + fragment, false, finalStatus).Ok?
    ensures Tracks(db0, id, AddChunk(db, id, acc.pending + fragment, false, finalStatus).value, "", Step(acc, fragment))
  {
    var base := db0.rows[id].chunks;
    assert base + acc.flushed + [Chunk(acc.pending + fragment, false)] == base + Step(acc, fragment).flushed;
  }

  // ---------------------------------------------------------------------------
  // One call of `stream`

  /** The closure state of one admitted `stream` call: the database reached
      through `ctx`, the accumulator `pending`, the writer (alive while not
      null), what it has delivered to the response, and whether it was closed. */
  class StreamRun {
    const id: StreamId
    const finalStatus: Status
    ghost const db0: Db
    var db: Db
    var pending: string
    var writerAlive: bool
    var written: seq<string>
    var closed: bool
    ghost var emitted: seq<string>
    ghost var acc: Accumulator

    /** While the producer runs: `acc` is the replay of the fragments so far;
        only this stream's row changed, its chunks are the ones at admission
        followed by the flushed ones, `pending` holds the rest, and the
        response got a prefix of the fragments, all of them while the writer
        lives. */
    ghost predicate Valid()
      reads this
    {
      acc == Replay(emitted) &&
      Tracks(db0, id, db, pending, acc) &&
      |written| <= |emitted| && written == emitted[..|written|] &&
      (writerAlive ==> written == emitted) &&
      !closed
    }

    /** Admission passed: a fresh writer, an empty `pending`. */
    constructor Admit(db: Db, id: StreamId, finalStatus: Status)
      requires id in db.rows
      ensures Valid()
      ensures this.id == id && this.finalStatus == finalStatus && db0 == db && this.db == db
      ensures emitted == [] && pending == "" && writerAlive && written == []
    {
      this.id := id;
      this.finalStatus := finalStatus;
      db0 := db;
      this.db := db;
      pending := "";
      writerAlive := true;
      written := [];
      closed := false;
      emitted := [];
      acc := Accumulator([], "");
      assert db.rows[id].chunks + [] == db.rows[id].chunks;
    }

    /** `chunkAppender`: forward the fragment while the writer lives (a failing
        write drops the writer for good), accumulate it, and flush `pending`
        as a non-final chunk when the fragment holds a delimiter. `Valid()`
        holds it to `Step`: the new accumulator is `Step` of the old one. */
    method Append(fragment: string, writeFails: bool)
      requires Valid()
      modifies this
      ensures Valid()
      ensures emitted == old(emitted) + [fragment]
      ensures writerAlive == (old(writerAlive) && !writeFails)
      ensures written == if writerAlive then old(written) + [fragment] else old(written)
      ensures HasDelimiter(fragment) ==>
        pending == "" && OnlyRowChanged(old(db), db, id) &&
        db.rows[id] == old(db.rows[id]).(chunks := old(db.rows[id].chunks) + [Chunk(old(pending) + fragment, false)])
      ensures !HasDelimiter(fragment) ==> pending == old(pending) + fragment && db == old(db)
    {
      Forward(fragment, writeFails);
      ReplayAppend(emitted, fragment);
      assert (emitted + [fragment])[..|emitted|] == emitted;
      var next := pending + fragment;
      var newDb := db;
      if HasDelimiter(fragment) {
        FlushKeepsTracking(db0, id, db, acc, fragment, finalStatus);
        var r := AddChunk(db, id, next, false, finalStatus);
        newDb := r.value;
        next := "";
      }
      emitted, acc, pending, db := emitted + [fragment], Step(acc, fragment), next, newDb;
    }

    /** The write at the head of `chunkAppender`: a live writer delivers the
        fragment, or, when the write throws, is dropped for good. */
    method Forward(fragment: string, writeFails: bool)
      modifies this`writerAlive, this`written
      ensures writerAlive == (old(writerAlive) && !writeFails)
      ensures written == if writerAlive then old(written) + [fragment] else old(written)
    {
      if writerAlive {
        if writeFails {
          writerAlive := false;
        } else {
          written := written + [fragment];
        }
      }
    }

    /** The producer appends `fragments` in order; the write of fragment
        `firstWriteFailure`, if any, is the first to fail. */
    method Produce(fragments: seq<string>, firstWriteFailure: Option<nat>)
      requires Valid() && emitted == [] && writerAlive && written == []
      modifies this
      ensures Valid()
      ensures emitted == fragments
      ensures writerAlive == (Delivered(|fragments|, firstWriteFailure) == |fragments|)
      ensures written == fragments[..Delivered(|fragments|, firstWriteFailure)]
    {
      var i := 0;
      while i < |fragments|
        invariant 0 <= i <= |fragments|
        invariant Valid()
        invariant emitted == fragments[..i]
        invariant writerAlive == (Delivered(i, firstWriteFailure) == i)
        invariant written == fragments[..Delivered(i, firstWriteFailure)]
      {
        Append(fragments[i], firstWriteFailure == Some(i));
        assert fragments[..i + 1] == fragments[..i] + [fragments[i]];
        if writerAlive {
          assert written == fragments[..i + 1];
        } else {
          assert written == fragments[..Delivered(i + 1, firstWriteFailure)];
        }
        i := i + 1;
      }
      assert fragments[..|fragments|] == fragments;
    }

    /** The producer returned: persist the leftover `pending`, even if empty,
        as the final chunk (the stream then has `finalStatus`), and close the writer if it is still alive. */
    method Finish()
      requires Valid()
      modifies this
      ensures OnlyRowChanged(db0, db, id)
      ensures db.rows[id] == StreamRow(finalStatus,
                                       db0.rows[id].chunks + Replay(emitted).flushed + [Chunk(Replay(emitted).pending, true)])
      ensures Text(db.rows[id].chunks) == Text(db0.rows[id].chunks) + Concat(emitted)
      ensures closed == writerAlive
      ensures writerAlive == old(writerAlive) && written == old(written) && emitted == old(emitted)
    {
      var r := AddChunk(db, id, pending, true, finalStatus);
      db := r.value;
      CompletedBody(db0.rows[id].chunks, emitted);
      if writerAlive {
        closed := true;
      }
    }

    /** The producer threw: mark the stream "error", close the writer if it is
        still alive; `pending` is dropped, earlier flushes stay. */
    method Fail()
      requires Valid()
      modifies this
      ensures OnlyRowChanged(db0, db, id)
      ensures db.rows[id] == StreamRow(Error, db0.rows[id].chunks + Replay(emitted).flushed)
      ensures Text(db.rows[id].chunks) == Text(db0.rows[id].chunks) + Concat(emitted[..FlushedCount(emitted)])
      ensures closed == writerAlive
      ensures writerAlive == old(writerAlive) && written == old(written) && emitted == old(emitted)
    {
      var r := SetStatus(db, id, Error);
      db := r.value;
      FailedBody(db0.rows[id].chunks, emitted);
      if writerAlive {
        closed := true;
      }
    }
  }

  /** The producer handed to `stream`: the fragments it appends, in order,
      and whether it then throws instead of returning. */
  datatype Producer = Producer(fragments: seq<string>, throws: bool)

  /** The response `stream` returns: its HTTP status, the fragments its body
      receives, and whether the body was closed. */
  datatype Response = Response(code: nat, body: seq<string>, closed: bool)

  /** How the detached production run ended. */
  datatype RunOutcome = NotStarted | Completed | Rethrown

  /** How many of `n` fragments reach the response when the write of fragment
      `firstWriteFailure` is the first to fail. */
  function Delivered(n: nat, firstWriteFailure: Option<nat>): (d: nat)
    ensures d <= n
  {
    match firstWriteFailure
    case None => n
    case Some(k) => if k < n then k else n
  }

  /** `doStream` for an admitted stream, carried to its end: the response
      receives the fragments until the first failing write, and the database
      receives the flushes, then either the final leftover chunk or the
      "error" status. */
  method DoStream(db: Db, id: StreamId, producer: Producer, firstWriteFailure: Option<nat>, finalStatus: Status)
    returns (response: Response, outcome: RunOutcome, db': Db)
    requires id in db.rows
    ensures var n := Delivered(|producer.fragments|, firstWriteFailure);
      response == Response(200, producer.fragments[..n], n == |producer.fragments|)
    ensures OnlyRowChanged(db, db', id)
    ensures !producer.throws ==>
      && outcome == Completed
      && db'.rows[id] == StreamRow(finalStatus, db.rows[id].chunks + Replay(producer.fragments).flushed
                                                        + [Chunk(Replay(producer.fragments).pending, true)])
      && Text(db'.rows[id].chunks) == Text(db.rows[id].chunks) + Concat(producer.fragments)
    ensures producer.throws ==>
      && outcome == Rethrown
      && db'.rows[id] == StreamRow(Error, db.rows[id].chunks + Replay(producer.fragments).flushed)
      && Text(db'.rows[id].chunks)
         == Text(db.rows[id].chunks) + Concat(producer.fragments[..FlushedCount(producer.fragments)])
  {
    var fs := producer.fragments;
    var run := new StreamRun.Admit(db, id, finalStatus);
    run.Produce(fs, firstWriteFailure);
    if producer.throws {
      run.Fail();
      outcome := Rethrown;
    } else {
      run.Finish();
      outcome := Completed;
    }
    response := Response(200, run.written, run.closed);
    db' := run.db;
  }

  /** `stream`: an unknown stream makes the status query fail; a stream that
      is not "pending" gets an empty 205 response and nothing changes, no
      chunk, no status, no write; otherwise the run proceeds as `DoStream`. */
  method Stream(db: Db, id: StreamId, producer: Producer, firstWriteFailure: Option<nat>, finalStatus: Status)
    returns (r: Result<Response>, outcome: RunOutcome, db': Db)
    ensures id !in db.rows ==> r == Err(NotFound) && outcome == NotStarted && db' == db
    ensures id in db.rows && db.rows[id].status != Pending ==>
      r == Ok(Response(205, [], true)) && outcome == NotStarted && db' == db
    ensures id in db.rows && db.rows[id].status == Pending ==>
      var fs := producer.fragments;
      var n := Delivered(|fs|, firstWriteFailure);
      && r == Ok(Response(200, fs[..n], n == |fs|))
      && OnlyRowChanged(db, db', id)
      && (!producer.throws ==>
            outcome == Completed &&
            db'.rows[id] == StreamRow(finalStatus, db.rows[id].chunks + Replay(fs).flushed + [Chunk(Replay(fs).pending, true)]))
      && (producer.throws ==>
            outcome == Rethrown &&
            db'.rows[id] == StreamRow(Error, db.rows[id].chunks + Replay(fs).flushed))
  {
    var status := GetStatus(db, id);
    if status.Err? {
      return Err(status.error), NotStarted, db;
    }
    if status.value != Pending {
      return Ok(Response(205, [], true)), NotStarted, db;
    }
    var response;
    response, outcome, db' := DoStream(db, id, producer, firstWriteFailure, finalStatus);
    r := Ok(response);
  }
}
