/** The two tables of the component: stream rows carrying a status, and the
    text chunks persisted for a stream. */
module Schema {
  /** The five literals of the stream status union. */
  datatype Status = Pending | Streaming | Done | Error | Timeout

  /** Identifier of a stream row; its format is the database's business. */
  type StreamId = string

  /** One persisted chunk: its text, and whether `addChunk` was asked to mark
      it as the final one of the stream. */
  datatype Chunk = Chunk(text: string, final: bool)
}
