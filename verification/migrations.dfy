/** The migration runner (aura/store/db.py), over the transactions of `SafeConnection`. */
module Migrations {
  import opened Wrappers
  import opened Transactions

  const SUPPORTED_SCHEMA_VERSION := 7

  /** The tables, and the rows of schema_migrations in the order they were written. A missing schema_migrations reads
      like an empty one. */
  datatype Store<C> = Store(content: C, versions: seq<nat>)

  datatype Script<!C> = Script(version: nat, statements: seq<C -> C>)

  /** What happens to one migration in one call: it runs through, or a statement fails, possibly rolling the whole
      transaction back. */
  datatype Fate = Succeeds | FailsAt(statement: nat, rollsBack: bool)

  datatype MigrateResult = Migrated(version: nat) | NewerSchema | FailedAt(version: nat)

  function MaxOf(versions: seq<nat>): (m: nat)
    ensures forall i :: 0 <= i < |versions| ==> versions[i] <= m
    ensures versions == [] ==> m == 0
    ensures versions != [] ==> m in versions
  {
    if versions == [] then 0
    else
      var m, last := MaxOf(versions[..|versions| - 1]), versions[|versions| - 1];
      if last >= m then last else m
  }

  function CurrentVersion<C>(s: Store<C>): nat {
    MaxOf(s.versions)
  }

  function Apply<C>(statements: seq<C -> C>, content: C): C {
    if statements == [] then content
    else
      var last := |statements| - 1;
      statements[last](Apply(statements[..last], content))
  }

  /** The statements one after the other, as a program. */
  function Chain<C>(statements: seq<C -> C>): Program<Store<C>> {
    if statements == [] then Exec((s: Store<C>) => s)
    else
      var last := |statements| - 1;
      var step := statements[last];
      Then(Chain(statements[..last]), Exec((s: Store<C>) => s.(content := step(s.content))))
  }

  /** One migration in its own `with conn:` block: the script, then the row of its version. */
  function Attempt<C>(script: Script<C>, fate: Fate): Program<Store<C>> {
    if fate.FailsAt? && fate.statement <= |script.statements| then
      Block(Then(Chain(script.statements[..fate.statement]), if fate.rollsBack then Abort else Fail))
    else
      Block(Then(Chain(script.statements), Exec((s: Store<C>) => s.(versions := s.versions + [script.version]))))
  }

  predicate Fails<C>(script: Script<C>, fate: Fate) {
    fate.FailsAt? && fate.statement <= |script.statements|
  }

  lemma {:induction false} ChainApplies<C>(statements: seq<C -> C>, s: Store<C>)
    ensures Meaning(Chain(statements), s) == Outcome(s.(content := Apply(statements, s.content)), false)
    ensures AbortsEscape(Chain(statements), true)
  {
    if statements != [] {
      var last := |statements| - 1;
      ChainApplies(statements[..last], s);
      var step := statements[last];
      var before := Meaning(Chain(statements[..last]), s).db;
      var exec := Exec((x: Store<C>) => x.(content := step(x.content)));
      assert Meaning(exec, before) == Outcome(before.(content := step(before.content)), false);
    }
  }

  /** A migration is applied whole, with its version recorded, or not at all; the connection is idle again. */
  lemma AttemptIsAtomic<C>(script: Script<C>, fate: Fate, s: Store<C>)
    ensures Flat(Attempt(script, fate), Start(s)) ==
            if Fails(script, fate) then Reply(Start(s), true)
            else Reply(Start(Store(Apply(script.statements, s.content), s.versions + [script.version])), false)
  {
    if Fails(script, fate) {
      var body := script.statements[..fate.statement];
      ChainApplies(body, s);
      var last: Program<Store<C>> := if fate.rollsBack then Abort else Fail;
      assert Meaning(last, Meaning(Chain(body), s).db).raised;
    } else {
      ChainApplies(script.statements, s);
      var before := s.(content := Apply(script.statements, s.content));
      var insert := Exec((x: Store<C>) => x.(versions := x.versions + [script.version]));
      assert Meaning(insert, before) == Outcome(before.(versions := before.versions + [script.version]), false);
    }
    EscapingIsSafe(Attempt(script, fate), s, false);
    NestedBlocksAreAtomic(Attempt(script, fate), s);
  }

  // ---------- migrate ----------

  predicate Ascending<C>(scripts: seq<Script<C>>) {
    && (forall i :: 0 <= i < |scripts| ==> scripts[i].version > 0)
    && forall i, j :: 0 <= i < j < |scripts| ==> scripts[i].version < scripts[j].version
  }

  /** The scripts from index i on, skipping what the call found installed. */
  function RunFrom<C>(scripts: seq<Script<C>>, have: nat, fates: map<nat, Fate>, s: Store<C>, i: nat)
    : (Store<C>, MigrateResult)
    decreases |scripts| - i
  {
    if i >= |scripts| then (s, Migrated(CurrentVersion(s)))
    else if scripts[i].version <= have then RunFrom(scripts, have, fates, s, i + 1)
    else if Fails(scripts[i], FateOf(fates, scripts[i].version)) then (s, FailedAt(scripts[i].version))
    else
      RunFrom(scripts, have, fates, Store(Apply(scripts[i].statements, s.content), s.versions + [scripts[i].version]),
              i + 1)
  }

  function FateOf(fates: map<nat, Fate>, version: nat): Fate {
    if version in fates then fates[version] else Succeeds
  }

  function MigrateOf<C>(scripts: seq<Script<C>>, fates: map<nat, Fate>, s: Store<C>): (Store<C>, MigrateResult) {
    if CurrentVersion(s) > SUPPORTED_SCHEMA_VERSION then (s, NewerSchema)
    else RunFrom(scripts, CurrentVersion(s), fates, s, 0)
  }

  method Migrate<C>(conn: SafeConnection<Store<C>>, scripts: seq<Script<C>>, fates: map<nat, Fate>)
    returns (result: MigrateResult)
    requires conn.State() == Start(conn.db)
    modifies conn
    ensures conn.State() == Start(conn.db)
    ensures (conn.db, result) == MigrateOf(scripts, fates, old(conn.db))
  {
    var have := CurrentVersion(conn.db);
    if have > SUPPORTED_SCHEMA_VERSION {
      return NewerSchema;
    }
    hide Attempt, Flat, Fails;
    for i := 0 to |scripts|
      invariant conn.State() == Start(conn.db)
      invariant MigrateOf(scripts, fates, old(conn.db)) == RunFrom(scripts, have, fates, conn.db, i)
    {
      if scripts[i].version <= have {
        continue;
      }
      var fate := FateOf(fates, scripts[i].version);
      AttemptIsAtomic(scripts[i], fate, conn.db);
      var raised := conn.Run(Attempt(scripts[i], fate));
      if raised {
        return FailedAt(scripts[i].version);
      }
    }
    result := Migrated(CurrentVersion(conn.db));
  }

  // ---------- path independence ----------

  /** The store after the first n scripts, each applied once in version order. */
  function After<C>(scripts: seq<Script<C>>, empty: C, n: nat): Store<C>
    requires n <= |scripts|
  {
    if n == 0 then Store(empty, [])
    else
      var before := After(scripts, empty, n - 1);
      Store(Apply(scripts[n - 1].statements, before.content), before.versions + [scripts[n - 1].version])
  }

  lemma {:induction false} AfterVersion<C>(scripts: seq<Script<C>>, empty: C, n: nat)
    requires Ascending(scripts) && n <= |scripts|
    ensures |After(scripts, empty, n).versions| == n
    ensures forall i :: 0 <= i < n ==> After(scripts, empty, n).versions[i] == scripts[i].version
    ensures CurrentVersion(After(scripts, empty, n)) == if n == 0 then 0 else scripts[n - 1].version
  {
    hide Apply, MaxOf;
    if n > 0 {
      AfterVersion(scripts, empty, n - 1);
      var before, versions := After(scripts, empty, n - 1).versions, After(scripts, empty, n).versions;
      assert versions == before + [scripts[n - 1].version];
      MaxOfGrown(before, scripts[n - 1].version);
    } else {
      assert MaxOf([]) == 0;
    }
  }

  lemma MaxOfGrown(versions: seq<nat>, v: nat)
    requires forall i :: 0 <= i < |versions| ==> versions[i] <= v
    ensures MaxOf(versions + [v]) == v
  {
    var grown := versions + [v];
    assert grown[|versions|] == v;
    assert forall i :: 0 <= i < |grown| ==> grown[i] <= v;
  }

  /** How far one call gets when the first n scripts are installed. */
  function Reach<C>(scripts: seq<Script<C>>, fates: map<nat, Fate>, n: nat): (m: nat)
    requires n <= |scripts|
    ensures n <= m <= |scripts|
    decreases |scripts| - n
  {
    if n == |scripts| || Fails(scripts[n], FateOf(fates, scripts[n].version)) then n else Reach(scripts, fates, n + 1)
  }

  lemma {:induction false} RunReaches<C>(scripts: seq<Script<C>>, empty: C, fates: map<nat, Fate>, have: nat, n: nat)
    requires Ascending(scripts) && n <= |scripts|
    requires n < |scripts| ==> have < scripts[n].version
    ensures var m := Reach(scripts, fates, n);
            RunFrom(scripts, have, fates, After(scripts, empty, n), n) ==
            (After(scripts, empty, m),
             if m < |scripts| then FailedAt(scripts[m].version) else Migrated(CurrentVersion(After(scripts, empty, m))))
    decreases |scripts| - n
  {
    hide Apply, Fails, CurrentVersion;
    if n < |scripts| && !Fails(scripts[n], FateOf(fates, scripts[n].version)) {
      RunReaches(scripts, empty, fates, have, n + 1);
    }
  }

  lemma {:induction false} SkipInstalled<C>(scripts: seq<Script<C>>, have: nat, fates: map<nat, Fate>, s: Store<C>,
                                            i: nat, n: nat)
    requires i <= n <= |scripts| && forall k :: 0 <= k < n ==> scripts[k].version <= have
    ensures RunFrom(scripts, have, fates, s, i) == RunFrom(scripts, have, fates, s, n)
    decreases n - i
  {
    if i < n {
      SkipInstalled(scripts, have, fates, s, i + 1, n);
    }
  }

  /** One call on an installation of the first n scripts: refused untouched when that is newer than supported, else it
      installs scripts in order up to the first failure, which it reports. */
  lemma MigrateReaches<C>(scripts: seq<Script<C>>, empty: C, fates: map<nat, Fate>, n: nat)
    requires Ascending(scripts) && n <= |scripts|
    ensures var s := After(scripts, empty, n);
            MigrateOf(scripts, fates, s) ==
            if n > 0 && scripts[n - 1].version > SUPPORTED_SCHEMA_VERSION then (s, NewerSchema)
            else
              var m := Reach(scripts, fates, n);
              (After(scripts, empty, m),
               if m < |scripts| then FailedAt(scripts[m].version)
               else Migrated(if m == 0 then 0 else scripts[m - 1].version))
  {
    hide RunFrom, CurrentVersion;
    AfterVersion(scripts, empty, n);
    var have := CurrentVersion(After(scripts, empty, n));
    SkipInstalled(scripts, have, fates, After(scripts, empty, n), 0, n);
    RunReaches(scripts, empty, fates, have, n);
    AfterVersion(scripts, empty, Reach(scripts, fates, n));
  }

  /** The stores after each of a run of calls, every call with its own failures. */
  function Calls<C>(scripts: seq<Script<C>>, calls: seq<map<nat, Fate>>, s: Store<C>): Store<C> {
    if calls == [] then s
    else MigrateOf(scripts, calls[|calls| - 1], Calls(scripts, calls[..|calls| - 1], s)).0
  }

  /** Whatever the earlier calls did, the store is that of some prefix of the scripts. */
  lemma {:induction false} CallsReachPrefix<C>(scripts: seq<Script<C>>, calls: seq<map<nat, Fate>>, empty: C)
    returns (n: nat)
    requires Ascending(scripts)
    ensures n <= |scripts| && Calls(scripts, calls, Store(empty, [])) == After(scripts, empty, n)
  {
    if calls == [] {
      n := 0;
    } else {
      var last := |calls| - 1;
      n := CallsReachPrefix(scripts, calls[..last], empty);
      MigrateReaches(scripts, empty, calls[last], n);
      if !(n > 0 && scripts[n - 1].version > SUPPORTED_SCHEMA_VERSION) {
        n := Reach(scripts, calls[last], n);
      }
    }
  }

  /** After any run of complete and failed calls, a call that succeeds ends in all scripts applied once each in version
      order, whatever the path; one that fails ends in exactly the scripts before the failed one; a refused one changes
      nothing. */
  lemma MigrationIsPathIndependent<C>(scripts: seq<Script<C>>, calls: seq<map<nat, Fate>>, fates: map<nat, Fate>,
                                      empty: C)
    requires Ascending(scripts)
    ensures var s := Calls(scripts, calls, Store(empty, []));
            var (s', result) := MigrateOf(scripts, fates, s);
            match result
            case Migrated(version) => s' == After(scripts, empty, |scripts|) && version == CurrentVersion(s')
            case FailedAt(version) => exists m ::
              0 <= m < |scripts| && scripts[m].version == version && s' == After(scripts, empty, m)
            case NewerSchema => s' == s && CurrentVersion(s) > SUPPORTED_SCHEMA_VERSION
  {
    hide RunFrom, CurrentVersion, After;
    var n := CallsReachPrefix(scripts, calls, empty);
    MigrateReaches(scripts, empty, fates, n);
    AfterVersion(scripts, empty, n);
    AfterVersion(scripts, empty, |scripts|);
  }

  /** A repeated call after a success changes nothing; it succeeds exactly when the newest script is supported. */
  lemma RepeatedCallChangesNothing<C>(scripts: seq<Script<C>>, fates: map<nat, Fate>, empty: C)
    requires Ascending(scripts)
    ensures var s := After(scripts, empty, |scripts|);
            && MigrateOf(scripts, fates, s).0 == s
            && (MigrateOf(scripts, fates, s).1 == Migrated(CurrentVersion(s)) <==>
                CurrentVersion(s) <= SUPPORTED_SCHEMA_VERSION)
  {
    hide RunFrom, CurrentVersion, After;
    MigrateReaches(scripts, empty, fates, |scripts|);
    AfterVersion(scripts, empty, |scripts|);
  }

  /** A database newer than this code is refused untouched, whatever is in it. */
  lemma NewerSchemaIsRefused<C>(scripts: seq<Script<C>>, fates: map<nat, Fate>, s: Store<C>, version: nat)
    requires version in s.versions && version > SUPPORTED_SCHEMA_VERSION
    ensures MigrateOf(scripts, fates, s) == (s, NewerSchema)
  {
    var i :| 0 <= i < |s.versions| && s.versions[i] == version;
  }
}
