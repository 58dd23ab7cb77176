/** The re-entrant unit of work: nested blocks share one transaction and only the outermost one
    commits or rolls back. */
module Transactions {

  /** A connection as its unit of work sees it: how deeply blocks are nested, what its own
      statements read, and what survives a crash. */
  datatype Session<S> = Session(depth: nat, working: S, durable: S)
  {
    /** Outside every block there is nothing uncommitted. */
    ghost predicate Consistent() { depth == 0 ==> working == durable }

    function Entered(): Session<S> {
      Session(depth + 1, working, durable)
    }

    function Exited(ok: bool): Session<S>
      requires depth > 0
    {
      if depth > 1 then Session(depth - 1, working, durable)
      else if ok then Session(0, working, working)
      else Session(0, durable, durable)
    }

    function Written(s: S): Session<S>
      requires depth > 0
    {
      Session(depth, s, durable)
    }

    function Crashed(): Session<S> {
      Session(0, durable, durable)
    }
  }

  class UnitOfWork<S> {
    var depth: nat
    var working: S
    var durable: S
    /** Every state ever committed: where a crash can leave the database. */
    ghost var commits: seq<S>

    constructor (initial: S)
      ensures Snapshot() == Session(0, initial, initial) && commits == [initial]
    {
      depth, working, durable := 0, initial, initial;
      commits := [initial];
    }

    function Snapshot(): Session<S>
      reads this
    {
      Session(depth, working, durable)
    }

    method Enter()
      modifies this
      ensures Snapshot() == old(Snapshot()).Entered() && commits == old(commits)
    {
      depth := depth + 1;
    }

    method Exit(ok: bool)
      requires depth > 0
      modifies this
      ensures Snapshot() == old(Snapshot()).Exited(ok)
      ensures commits == if old(depth) == 1 && ok then old(commits) + [durable] else old(commits)
    {
      depth := depth - 1;
      if depth > 0 { return; }
      if ok {
        durable := working;
        commits := commits + [durable];
      } else {
        working := durable;
      }
    }

    /** Any statement; repositories only issue one inside a block. */
    method Write(s: S)
      requires depth > 0
      modifies this
      ensures Snapshot() == old(Snapshot()).Written(s) && commits == old(commits)
    {
      working := s;
    }
  }
}
