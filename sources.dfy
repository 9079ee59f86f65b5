/** The data files the reference tables read, as the program observes them.
    Reading and decoding happen outside the model. */
module Sources {
  import opened PyJson

  /** A file read once: missing, unreadable or not valid JSON, or decoded. */
  datatype SourceFile = Missing | Unreadable | Decoded(doc: Json)

  /** A watched file at one poll: absent, or present with its
      modification time and its content (None when reading or decoding it
      fails). */
  datatype Observed = Absent | Present(mtime: real, content: Option<Json>)
}
