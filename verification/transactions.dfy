/** Nested `with conn:` blocks on flat SQLite savepoints (aura/store/db.py). */
module Transactions {
  /** A program against the connection: statements, exceptions, `with` blocks and handlers. `Abort` is a statement
      whose error makes SQLite roll the whole transaction back. */
  datatype Program<!Db> =
    | Exec(step: Db -> Db)
    | Fail
    | Abort
    | Then(first: Program<Db>, second: Program<Db>)
    | Block(body: Program<Db>)
    | Catch(body: Program<Db>)

  datatype Outcome<Db> = Outcome(db: Db, raised: bool)

  /** The intended meaning: a block that raises contributes nothing. */
  function Meaning<Db>(p: Program<Db>, db: Db): Outcome<Db> {
    match p
    case Exec(step) => Outcome(step(db), false)
    case Fail => Outcome(db, true)
    case Abort => Outcome(db, true)
    case Then(first, second) =>
      var o := Meaning(first, db);
      if o.raised then o else Meaning(second, o.db)
    case Block(body) =>
      var o := Meaning(body, db);
      if o.raised then Outcome(db, true) else o
    case Catch(body) => Outcome(Meaning(body, db).db, false)
  }

  // ---------- the connection ----------

  datatype Savepoint<Db> = Savepoint(name: nat, snapshot: Db)

  /** `db` is what the connection reads, `committed` what a reopened connection would read; `bySavepoint` says that the
      transaction was opened by its first savepoint. */
  datatype Conn<Db> = Conn(
    db: Db, committed: Db, inTransaction: bool, bySavepoint: bool, saves: seq<Savepoint<Db>>, txDepth: nat)

  /** A command's new state, and whether it raised. */
  datatype Reply<Db> = Reply(conn: Conn<Db>, raised: bool)

  function Start<Db>(db: Db): Conn<Db> {
    Conn(db, db, false, false, [], 0)
  }

  /** The newest savepoint of that name, or -1. */
  function Newest<Db>(saves: seq<Savepoint<Db>>, name: nat): (i: int)
    ensures -1 <= i < |saves|
  {
    if saves == [] then -1
    else if saves[|saves| - 1].name == name then |saves| - 1
    else Newest(saves[..|saves| - 1], name)
  }

  function Begin<Db>(c: Conn<Db>): Reply<Db> {
    if c.inTransaction then Reply(c, true)
    else Reply(c.(inTransaction := true), false)
  }

  /** Outside a transaction a savepoint opens one. */
  function Save<Db>(c: Conn<Db>, name: nat): Conn<Db> {
    c.(inTransaction := true, bySavepoint := c.bySavepoint || !c.inTransaction,
       saves := c.saves + [Savepoint(name, c.db)])
  }

  function RollbackTo<Db>(c: Conn<Db>, name: nat): Reply<Db> {
    var i := Newest(c.saves, name);
    if i < 0 then Reply(c, true) else Reply(c.(db := c.saves[i].snapshot, saves := c.saves[..i + 1]), false)
  }

  /** Releasing the savepoint that opened the transaction commits it. */
  function Release<Db>(c: Conn<Db>, name: nat): Reply<Db> {
    var i := Newest(c.saves, name);
    if i < 0 then Reply(c, true)
    else if i == 0 && c.bySavepoint then Reply(Commit(c), false)
    else Reply(c.(saves := c.saves[..i]), false)
  }

  function Commit<Db>(c: Conn<Db>): Conn<Db> {
    c.(committed := c.db, inTransaction := false, bySavepoint := false, saves := [])
  }

  function Rollback<Db>(c: Conn<Db>): Conn<Db> {
    c.(db := c.committed, inTransaction := false, bySavepoint := false, saves := [])
  }

  /** One statement; outside a transaction it commits by itself. */
  function Execute<Db>(c: Conn<Db>, step: Db -> Db): Conn<Db> {
    var db := step(c.db);
    if c.inTransaction then c.(db := db) else c.(db := db, committed := db)
  }

  /** `__enter__`: BEGIN, or a savepoint named after the depth. */
  function Enter<Db>(c: Conn<Db>): Reply<Db> {
    if c.txDepth == 0 then
      var begun := Begin(c);
      if begun.raised then begun else Reply(begun.conn.(txDepth := 1), false)
    else Reply(Save(c, c.txDepth).(txDepth := c.txDepth + 1), false)
  }

  /** `__exit__`, with the error of RELEASE swallowed. */
  function Exit<Db>(c: Conn<Db>, failed: bool): Reply<Db>
    requires c.txDepth > 0
  {
    var depth := c.txDepth - 1;
    var d := c.(txDepth := depth);
    if depth == 0 then
      Reply(if !c.inTransaction then d else if failed then Rollback(d) else Commit(d), false)
    else if failed then
      var back := RollbackTo(d, depth);
      Reply(Release(back.conn, depth).conn, back.raised)
    else Reply(Release(d, depth).conn, false)
  }

  /** What the flat commands do with a program. */
  function Flat<Db>(p: Program<Db>, c: Conn<Db>): (r: Reply<Db>)
    ensures r.conn.txDepth == c.txDepth
  {
    match p
    case Exec(step) => Reply(Execute(c, step), false)
    case Fail => Reply(c, true)
    case Abort => Reply(Rollback(c), true)
    case Then(first, second) =>
      var r := Flat(first, c);
      if r.raised then r else Flat(second, r.conn)
    case Block(body) =>
      var entered := Enter(c);
      if entered.raised then entered
      else
        var r := Flat(body, entered.conn);
        var left := Exit(r.conn, r.raised);
        Reply(left.conn, r.raised || left.raised)
    case Catch(body) => Reply(Flat(body, c).conn, false)
  }

  // ---------- the class ----------

  class SafeConnection<Db> {
    var db: Db
    var committed: Db
    var inTransaction: bool
    var bySavepoint: bool
    var saves: seq<Savepoint<Db>>
    var txDepth: nat

    function State(): Conn<Db>
      reads this
    {
      Conn(db, committed, inTransaction, bySavepoint, saves, txDepth)
    }

    constructor (initial: Db)
      ensures State() == Start(initial)
    {
      db, committed, inTransaction, bySavepoint, saves, txDepth := initial, initial, false, false, [], 0;
    }

    method ExecuteStep(step: Db -> Db)
      modifies this
      ensures State() == Execute(old(State()), step)
    {
      db := step(db);
      if !inTransaction {
        committed := db;
      }
    }

    /** SQLite's own rollback of the whole transaction. */
    method RollbackAll()
      modifies this
      ensures State() == Rollback(old(State()))
    {
      db, inTransaction, bySavepoint, saves := committed, false, false, [];
    }

    method CommitAll()
      modifies this
      ensures State() == Commit(old(State()))
    {
      committed, inTransaction, bySavepoint, saves := db, false, false, [];
    }

    method EnterBlock() returns (raised: bool)
      modifies this
      ensures Reply(State(), raised) == Enter(old(State()))
    {
      raised := txDepth == 0 && inTransaction;
      if raised {
        return;
      }
      if txDepth == 0 {
        inTransaction := true;
      } else {
        bySavepoint := bySavepoint || !inTransaction;
        inTransaction, saves := true, saves + [Savepoint(txDepth, db)];
      }
      txDepth := txDepth + 1;
    }

    method ExitBlock(failed: bool) returns (raised: bool)
      requires txDepth > 0
      modifies this
      ensures Reply(State(), raised) == Exit(old(State()), failed)
    {
      raised := false;
      txDepth := txDepth - 1;
      if txDepth == 0 {
        if inTransaction {
          if failed {
            RollbackAll();
          } else {
            CommitAll();
          }
        }
        return;
      }
      if failed {
        var i := Newest(saves, txDepth);
        raised := i < 0;
        if !raised {
          db, saves := saves[i].snapshot, saves[..i + 1];
        }
      }
      var i := Newest(saves, txDepth);
      if i == 0 && bySavepoint {
        CommitAll();
      } else if i >= 0 {
        saves := saves[..i];
      }
    }

    /** Run a program through the context manager. */
    method Run(p: Program<Db>) returns (raised: bool)
      modifies this
      ensures Reply(State(), raised) == Flat(p, old(State()))
      decreases p
    {
      match p
      case Exec(step) =>
        ExecuteStep(step);
        raised := false;
      case Fail =>
        raised := true;
      case Abort =>
        RollbackAll();
        raised := true;
      case Then(first, second) =>
        raised := Run(first);
        if !raised {
          raised := Run(second);
        }
      case Block(body) =>
        raised := EnterBlock();
        if !raised {
          var failed := Run(body);
          var exitRaised := ExitBlock(failed);
          raised := failed || exitRaised;
        }
      case Catch(body) =>
        var _ := Run(body);
        raised := false;
    }
  }

  // ---------- refinement ----------

  /** Inside a transaction with one savepoint per nested block, named 1, 2, and so on. */
  ghost predicate Open<Db>(c: Conn<Db>) {
    c.txDepth > 0 && c.inTransaction && !c.bySavepoint && |c.saves| == c.txDepth - 1 &&
      forall i :: 0 <= i < |c.saves| ==> c.saves[i].name == i + 1
  }

  ghost predicate Idle<Db>(c: Conn<Db>) {
    c.txDepth == 0 && !c.inTransaction && !c.bySavepoint && c.saves == [] && c.db == c.committed
  }

  /** Blocks are open, but SQLite has rolled their transaction back. */
  ghost predicate Lost<Db>(c: Conn<Db>) {
    c.txDepth > 0 && !c.inTransaction && !c.bySavepoint && c.saves == [] && c.db == c.committed
  }

  predicate Aborts<Db>(p: Program<Db>) {
    match p
    case Exec(_) => false
    case Fail => false
    case Abort => true
    case Then(first, second) => Aborts(first) || Aborts(second)
    case Block(body) => Aborts(body)
    case Catch(body) => Aborts(body)
  }

  /** No handler inside an open block catches an abort. */
  predicate AbortsEscape<Db>(p: Program<Db>, inside: bool) {
    match p
    case Exec(_) => true
    case Fail => true
    case Abort => true
    case Then(first, second) => AbortsEscape(first, inside) && AbortsEscape(second, inside)
    case Block(body) => AbortsEscape(body, true)
    case Catch(body) => AbortsEscape(body, inside) && (inside ==> !Aborts(body))
  }

  /** The exception that a program ends with is that of an abort. */
  predicate Aborting<Db>(p: Program<Db>, db: Db) {
    match p
    case Exec(_) => false
    case Fail => false
    case Abort => true
    case Then(first, second) =>
      var o := Meaning(first, db);
      if o.raised then Aborting(first, db) else Aborting(second, o.db)
    case Block(body) => Aborting(body, db)
    case Catch(body) => false
  }

  /** On its way from that state a program comes to a handler inside an open block that catches an abort. */
  predicate Swallows<Db>(p: Program<Db>, db: Db, inside: bool) {
    match p
    case Exec(_) => false
    case Fail => false
    case Abort => false
    case Then(first, second) =>
      var o := Meaning(first, db);
      Swallows(first, db, inside) || (!o.raised && Swallows(second, o.db, inside))
    case Block(body) => Swallows(body, db, true)
    case Catch(body) => Swallows(body, db, inside) || (inside && Aborting(body, db))
  }

  lemma {:induction false} AbortingAborts<Db>(p: Program<Db>, db: Db)
    requires Aborting(p, db)
    ensures Aborts(p) && Meaning(p, db).raised
  {
    match p
    case Then(first, second) =>
      var o := Meaning(first, db);
      if o.raised { AbortingAborts(first, db); } else { AbortingAborts(second, o.db); }
    case Block(body) => AbortingAborts(body, db);
    case _ =>
  }

  /** When no handler inside a block could catch an abort, none does, from any state. */
  lemma {:induction false} EscapingIsSafe<Db>(p: Program<Db>, db: Db, inside: bool)
    requires AbortsEscape(p, inside)
    ensures !Swallows(p, db, inside)
  {
    match p
    case Then(first, second) =>
      EscapingIsSafe(first, db, inside);
      EscapingIsSafe(second, Meaning(first, db).db, inside);
    case Block(body) => EscapingIsSafe(body, db, true);
    case Catch(body) =>
      EscapingIsSafe(body, db, inside);
      if Aborting(body, db) { AbortingAborts(body, db); }
    case _ =>
  }

  lemma NewestIsTop<Db>(c: Conn<Db>)
    requires |c.saves| > 0
    ensures Newest(c.saves, c.saves[|c.saves| - 1].name) == |c.saves| - 1
  {
  }

  /** What a run inside or outside a block leaves: the meaning, or a lost transaction while raising. */
  ghost predicate RunsAs<Db>(p: Program<Db>, c: Conn<Db>, r: Reply<Db>) {
    var o := Meaning(p, c.db);
    && r.raised == o.raised
    && r.conn.txDepth == c.txDepth
    && if Idle(c) then Idle(r.conn) && r.conn.db == o.db
       else
         && r.conn.committed == c.committed
         && if Aborting(p, c.db) then Lost(r.conn) && r.raised else r.conn == c.(db := o.db)
  }

  lemma {:induction false} FlatRuns<Db>(p: Program<Db>, c: Conn<Db>)
    requires Idle(c) || Open(c)
    requires !Swallows(p, c.db, c.txDepth > 0)
    ensures RunsAs(p, c, Flat(p, c))
  {
    match p
    case Exec(step) =>
    case Fail =>
    case Abort =>
    case Then(first, second) =>
      FlatRuns(first, c);
      var r := Flat(first, c);
      if !r.raised {
        FlatRuns(second, r.conn);
      }
    case Block(body) =>
      var entered := Enter(c).conn;
      assert Open(entered);
      FlatRuns(body, entered);
      BlockRuns(body, c);
    case Catch(body) =>
      FlatRuns(body, c);
  }

  /** Leaving the newest nested block restores or keeps, and drops exactly its savepoint. */
  lemma LeaveSaved<Db>(c: Conn<Db>, d: Conn<Db>, failed: bool)
    requires Open(c) && d == Enter(c).conn.(db := d.db)
    ensures Exit(d, failed) == Reply(c.(db := if failed then c.db else d.db), false)
  {
    assert d.saves[..|c.saves| + 1] == d.saves && d.saves[..|c.saves|] == c.saves;
    NewestIsTop(d);
  }

  lemma LeaveLost<Db>(d: Conn<Db>, failed: bool)
    requires Lost(d)
    ensures Exit(d, failed).conn == d.(txDepth := d.txDepth - 1)
  {
    hide Release, RollbackTo;
    if d.txDepth > 1 {
      NoSavepoint(d);
    }
  }

  lemma NoSavepoint<Db>(d: Conn<Db>)
    requires Lost(d) && d.txDepth > 1
    ensures var e := d.(txDepth := d.txDepth - 1);
            RollbackTo(e, e.txDepth) == Reply(e, true) && Release(e, e.txDepth) == Reply(e, true)
  {
  }

  lemma BlockRuns<Db>(body: Program<Db>, c: Conn<Db>)
    requires Idle(c) || Open(c)
    requires Open(Enter(c).conn) && !Enter(c).raised && RunsAs(body, Enter(c).conn, Flat(body, Enter(c).conn))
    ensures RunsAs(Block(body), c, Flat(Block(body), c))
  {
    hide Exit;
    var r := Flat(body, Enter(c).conn);
    assert Flat(Block(body), c).conn == Exit(r.conn, r.raised).conn;
    assert Meaning(Block(body), c.db).raised == Meaning(body, c.db).raised == r.raised;
    if Lost(r.conn) {
      LeaveLost(r.conn, r.raised);
    } else if Open(c) {
      LeaveSaved(c, r.conn, r.raised);
    } else {
      LeaveTop(c, r.conn, r.raised);
    }
  }

  lemma LeaveTop<Db>(c: Conn<Db>, d: Conn<Db>, failed: bool)
    requires Idle(c) && d == Enter(c).conn.(db := d.db)
    ensures Exit(d, failed) == Reply(Start(if failed then c.db else d.db), false)
  {
  }

  /** From an idle connection every program that swallows no abort leaves, reads and commits exactly what its meaning
      says, raises exactly when its meaning raises, and the depth is back at zero. */
  lemma NestedBlocksAreAtomic<Db>(p: Program<Db>, db: Db)
    requires !Swallows(p, db, false)
    ensures var o := Meaning(p, db);
            Flat(p, Start(db)) == Reply(Start(o.db), o.raised)
  {
    FlatRuns(p, Start(db));
  }

  /** Until the outermost block leaves, a reopened connection still reads what was there before it. */
  lemma NothingIsCommittedInside<Db>(p: Program<Db>, c: Conn<Db>)
    requires Open(c) && !Swallows(p, c.db, true)
    ensures Flat(p, c).conn.committed == c.committed
  {
    FlatRuns(p, c);
  }

  /** In the run of the flat commands some handler goes on inside a block whose transaction is gone. */
  predicate LosesUnnoticed<Db>(p: Program<Db>, c: Conn<Db>) {
    match p
    case Exec(_) => false
    case Fail => false
    case Abort => false
    case Then(first, second) =>
      var r := Flat(first, c);
      LosesUnnoticed(first, c) || (!r.raised && LosesUnnoticed(second, r.conn))
    case Block(body) => !Enter(c).raised && LosesUnnoticed(body, Enter(c).conn)
    case Catch(body) =>
      LosesUnnoticed(body, c) || (c.txDepth > 0 && c.inTransaction && !Flat(body, c).conn.inTransaction)
  }

  /** A transaction is lost unnoticed if and only if a handler inside a block catches an abort that is reached. */
  lemma {:induction false} LostExactly<Db>(p: Program<Db>, c: Conn<Db>)
    requires Idle(c) || Open(c)
    ensures LosesUnnoticed(p, c) <==> Swallows(p, c.db, c.txDepth > 0)
  {
    match p
    case Then(first, second) =>
      LostExactly(first, c);
      if !Swallows(first, c.db, c.txDepth > 0) {
        FlatRuns(first, c);
        var r := Flat(first, c);
        if !r.raised {
          NotAborting(first, c.db);
          LostExactly(second, r.conn);
        }
      }
    case Block(body) =>
      assert Open(Enter(c).conn) && !Enter(c).raised;
      LostExactly(body, Enter(c).conn);
    case Catch(body) =>
      LostExactly(body, c);
      if !Swallows(body, c.db, c.txDepth > 0) { FlatRuns(body, c); }
    case _ =>
  }

  lemma NotAborting<Db>(p: Program<Db>, db: Db)
    ensures !Meaning(p, db).raised ==> !Aborting(p, db)
  {
    if Aborting(p, db) { AbortingAborts(p, db); }
  }

  /** Such a loss matters: once a handler inside a block has swallowed an abort, later statements of that block commit
      one by one, although the block then fails. */
  lemma SwallowedAbortLeaks<Db>(step: Db -> Db, db: Db)
    ensures var p := Block(Then(Catch(Block(Abort)), Then(Exec(step), Fail)));
            && Meaning(p, db) == Outcome(db, true)
            && Flat(p, Start(db)) == Reply(Start(step(db)), true)
  {
    var outer, lost := Enter(Start(db)).conn, Conn(db, db, false, false, [], 1);
    var inner := Enter(outer).conn;
    assert Exit(Rollback(inner), true) == Reply(lost, true);
    assert Flat(Abort, inner) == Reply(Rollback(inner), true);
    assert Flat(Block(Abort), outer) == Reply(lost, true);
    assert Flat(Catch(Block(Abort)), outer) == Reply(lost, false);
    var rest := Then(Exec(step), Fail);
    assert Flat(Exec(step), lost) == Reply(Execute(lost, step), false);
    assert Flat(Fail, Execute(lost, step)) == Reply(Execute(lost, step), true);
    assert Flat(rest, lost) == Reply(Execute(lost, step), true);
    assert Flat(Then(Catch(Block(Abort)), rest), outer) == Reply(Execute(lost, step), true);
    assert Meaning(Then(Catch(Block(Abort)), rest), db).raised by {
      assert Meaning(rest, db).raised by { assert Meaning(Fail, step(db)).raised; }
    }
  }
}
