/** The records the engine moves around (the EventIdAware contract): the
    engine reads only their two identities, and never changes a record. */
module Records {
  import opened Lang

  /** A record as the engine sees it: its numeric id (a nullable Long) and
      its event id (a nullable String). */
  datatype Record = Record(id: Option<int>, eventId: Option<string>)
}
