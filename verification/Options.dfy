/** What the other modules share. */
module Options {
  /** A column that may be NULL, or a lookup that may find nothing. */
  datatype Option<+T> = None | Some(value: T)

  /**
   How a transaction, or a statement that is one, ends.  A lost acknowledgement: the commit
   happened, the program saw an error.
   */
  datatype CommitOutcome = Committed | RolledBack | Unacknowledged

  /** To start a loop over a set. */
  lemma Member<T>(s: set<T>) returns (x: T)
    requires s != {}
    ensures x in s
  {
    x :| x in s;
  }
}
