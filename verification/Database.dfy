/** A database session: what it sees, what has been committed, and every state committed so far. */
module Database {

  class Session<S> {
    var working: S
    var committed: S
    ghost var trail: seq<S>

    constructor (state: S)
      ensures committed == working == state && trail == []
    {
      committed, working, trail := state, state, [];
    }

    method Commit()
      modifies `committed, `trail
      ensures committed == working && trail == old(trail) + [working]
    {
      committed := working;
      trail := trail + [working];
    }

    method Rollback()
      modifies `working
      ensures working == committed
    {
      working := committed;
    }
  }
}
