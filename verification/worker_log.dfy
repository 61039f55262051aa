/** The worker's block around a closed bar as commands on its connection: what the decision log inside it can do to the
    bar (aura/runner/worker.py on aura/store/db.py). */
module WorkerLog {
  import opened PaperLedger
  import opened WorkerBars
  import opened WorkerBarsSafety
  import T = Transactions

  /** What the connection reads: trades by account, and processed bars. */
  datatype Store = Store(tables: map<Account, TradeTable>, bars: map<BarKey, Decision>)

  function StoreOf(db: Db): Store {
    Store(db.tables, db.bars)
  }

  function ClaimRow(key: BarKey): Store -> Store {
    (s: Store) => s.(bars := s.bars[key := Processing])
  }

  function CompleteRow(key: BarKey): Store -> Store {
    (s: Store) => s.(bars := Completion(s.bars, key))
  }

  function BookRows(tables: map<Account, TradeTable>): Store -> Store {
    (s: Store) => s.(tables := tables)
  }

  /** The insert of the decision log, by what becomes of it; the log's own rows are not part of the store. */
  function Insert(outcome: LogOutcome): T.Program<Store> {
    match outcome
    case LogRefused => T.Fail
    case TransactionLost => T.Abort
    case _ => T.Exec((s: Store) => s)
  }

  /** Claim the bar, book what it does to the accounts, log inside a block of its own whose errors are swallowed, and
      complete the bar. */
  function BarBlock(key: BarKey, tables: map<Account, TradeTable>, insert: T.Program<Store>): T.Program<Store> {
    T.Block(T.Then(T.Exec(ClaimRow(key)), T.Then(T.Exec(BookRows(tables)), LogThenComplete(key, insert))))
  }

  function LogThenComplete(key: BarKey, insert: T.Program<Store>): T.Program<Store> {
    T.Then(T.Catch(T.Block(insert)), T.Exec(CompleteRow(key)))
  }

  lemma {:induction false} NoAbortEscapes<S>(p: T.Program<S>, inside: bool)
    requires !T.Aborts(p)
    ensures T.AbortsEscape(p, inside)
  {
    match p
    case Then(first, second) =>
      NoAbortEscapes(first, inside);
      NoAbortEscapes(second, inside);
    case Block(body) => NoAbortEscapes(body, true);
    case Catch(body) => NoAbortEscapes(body, inside);
    case _ =>
  }

  /** The worker's block meets the condition under which nested blocks are atomic exactly when no statement of the log
      can roll the transaction back. */
  lemma BarBlockEscapes(key: BarKey, tables: map<Account, TradeTable>, insert: T.Program<Store>)
    ensures T.AbortsEscape(BarBlock(key, tables, insert), false) <==> !T.Aborts(insert)
  {
    var log := T.Catch(T.Block(insert));
    assert T.AbortsEscape(log, true) <==> !T.Aborts(insert) by {
      assert T.Aborts(T.Block(insert)) == T.Aborts(insert);
      if !T.Aborts(insert) { NoAbortEscapes(insert, true); }
      assert T.AbortsEscape(T.Block(insert), true) == T.AbortsEscape(insert, true);
    }
    var tail := LogThenComplete(key, insert);
    assert T.AbortsEscape(tail, true) == T.AbortsEscape(log, true);
    var rest := T.Then(T.Exec(BookRows(tables)), tail);
    assert T.AbortsEscape(rest, true) == T.AbortsEscape(tail, true);
    assert T.AbortsEscape(T.Then(T.Exec(ClaimRow(key)), rest), true) == T.AbortsEscape(rest, true);
  }

  /** From any state the worker's block loses its transaction unnoticed exactly when the insert of the log swallows an
      abort or ends with one. */
  lemma BarBlockLoses(key: BarKey, tables: map<Account, TradeTable>, insert: T.Program<Store>, s: Store)
    ensures var booked := BookRows(tables)(ClaimRow(key)(s));
            T.LosesUnnoticed(BarBlock(key, tables, insert), T.Start(s)) <==>
            T.Swallows(insert, booked, true) || T.Aborting(insert, booked)
  {
    T.LostExactly(BarBlock(key, tables, insert), T.Start(s));
    var claimed := ClaimRow(key)(s);
    var booked := BookRows(tables)(claimed);
    var log, tail := T.Catch(T.Block(insert)), LogThenComplete(key, insert);
    assert T.Swallows(T.Block(insert), booked, true) == T.Swallows(insert, booked, true);
    assert T.Aborting(T.Block(insert), booked) == T.Aborting(insert, booked);
    assert T.Swallows(tail, booked, true) == T.Swallows(log, booked, true);
    var rest := T.Then(T.Exec(BookRows(tables)), tail);
    assert T.Swallows(rest, claimed, true) == T.Swallows(tail, booked, true);
    assert T.Swallows(T.Then(T.Exec(ClaimRow(key)), rest), s, true) == T.Swallows(rest, claimed, true);
  }

  /** A log that keeps the transaction, whether it was written or refused: the block commits the booked rows and the
      completed bar. */
  lemma LoggedBlock(key: BarKey, tables: map<Account, TradeTable>, insert: T.Program<Store>, s: Store)
    requires insert == T.Fail || insert == T.Exec((x: Store) => x)
    ensures T.Flat(BarBlock(key, tables, insert), T.Start(s))
            == T.Reply(T.Start(Store(tables, s.bars[key := Completed])), false)
  {
    BarBlockEscapes(key, tables, insert);
    LoggedMeaning(key, tables, insert, s);
    hide *;
    T.EscapingIsSafe(BarBlock(key, tables, insert), s, false);
    T.NestedBlocksAreAtomic(BarBlock(key, tables, insert), s);
  }

  lemma LoggedMeaning(key: BarKey, tables: map<Account, TradeTable>, insert: T.Program<Store>, s: Store)
    requires insert == T.Fail || insert == T.Exec((x: Store) => x)
    ensures !T.Aborts(insert)
    ensures T.Meaning(BarBlock(key, tables, insert), s) == T.Outcome(Store(tables, s.bars[key := Completed]), false)
  {
    var claimed := ClaimRow(key)(s);
    var booked := BookRows(tables)(claimed);
    var done := Store(tables, s.bars[key := Completed]);
    assert T.Meaning(T.Catch(T.Block(insert)), booked) == T.Outcome(booked, false);
    assert booked.bars[key := Completed] == s.bars[key := Completed];
    assert CompleteRow(key)(booked) == done;
    assert T.Meaning(T.Exec(CompleteRow(key)), booked) == T.Outcome(done, false);
    assert T.Meaning(LogThenComplete(key, insert), booked) == T.Outcome(done, false);
    var rest := T.Then(T.Exec(BookRows(tables)), LogThenComplete(key, insert));
    assert T.Meaning(T.Exec(BookRows(tables)), claimed) == T.Outcome(booked, false);
    assert T.Meaning(rest, claimed) == T.Outcome(done, false);
    assert T.Meaning(T.Exec(ClaimRow(key)), s) == T.Outcome(claimed, false);
    assert T.Meaning(T.Then(T.Exec(ClaimRow(key)), rest), s) == T.Outcome(done, false);
  }

  /** A log that loses the transaction: nothing is raised, and nothing of the bar is left. */
  lemma LostBlock(key: BarKey, tables: map<Account, TradeTable>, s: Store)
    requires key !in s.bars
    ensures T.Flat(BarBlock(key, tables, T.Abort), T.Start(s)) == T.Reply(T.Start(s), false)
  {
    var entered := T.Enter(T.Start(s)).conn;
    var booked := entered.(db := BookRows(tables)(ClaimRow(key)(s)));
    var lost := T.Conn(s, s, false, false, [], 1);
    var inner := T.Enter(booked).conn;
    assert T.Exit(T.Rollback(inner), true) == T.Reply(lost, true);
    assert T.Flat(T.Abort, inner) == T.Reply(T.Rollback(inner), true);
    assert T.Flat(T.Block(T.Abort), booked) == T.Reply(lost, true);
    var log := T.Catch(T.Block(T.Abort));
    assert T.Flat(log, booked) == T.Reply(lost, false);
    assert CompleteRow(key)(s) == s;
    assert T.Flat(T.Exec(CompleteRow(key)), lost) == T.Reply(lost, false);
    var tail := LogThenComplete(key, T.Abort);
    assert T.Flat(tail, booked) == T.Reply(lost, false);
    var claimed := entered.(db := ClaimRow(key)(s));
    assert T.Flat(T.Exec(BookRows(tables)), claimed) == T.Reply(booked, false);
    var rest := T.Then(T.Exec(BookRows(tables)), tail);
    assert T.Flat(rest, claimed) == T.Reply(lost, false);
    assert T.Flat(T.Exec(ClaimRow(key)), entered) == T.Reply(claimed, false);
    assert T.Flat(T.Then(T.Exec(ClaimRow(key)), rest), entered) == T.Reply(lost, false);
  }

  /** The machine of `WorkerBars` does what the commands do: from a bar that is about to be logged, leaving the block
      raises nothing and leaves committed exactly the machine's rows, and the connection idle. */
  lemma BlockIsMachine(w: World, outcome: LogOutcome)
    requires w.phase.Logging? && Claim(w, w.phase.job, Processing)
    ensures T.Flat(BarBlock(w.phase.job.Key(), Tables(w.engines), Insert(outcome)), T.Start(StoreOf(w.db)))
            == T.Reply(T.Start(StoreOf(Left(LogDone(w, outcome)).db)), false)
  {
    hide Tables, RowsBack;
    var key := w.phase.job.Key();
    if outcome.TransactionLost? {
      LostBlock(key, Tables(w.engines), StoreOf(w.db));
    } else {
      LoggedBlock(key, Tables(w.engines), Insert(outcome), StoreOf(w.db));
      assert w.bars[key := Completed] == w.db.bars[key := Completed];
    }
  }
}
