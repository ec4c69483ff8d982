/** The state machine behind the log: a database that applies each entry in one transaction, with its index. */
module Apply {
  // It may crash and restart between any two entries.
  //
  // The database is abstract. What it does with a statement is a partial, deterministic function; a statement on which
  // it is undefined fails, and its transaction is rolled back.

  import opened RaftSpec

  datatype Engine<!Db> = Engine(empty: Db, run: (Db, string) -> Option<Db>)

  // ---------- What the log means ----------

  /** Whether the transaction of a command commits, and so records its index. */
  predicate Commits<Db>(e: Engine<Db>, db: Db, c: Command) {
    match c
    case Exec(sql) => e.run(db, sql).Some?
    case Noop => true
    case ConfChange(_, _) => false
  }

  function Effect<Db>(e: Engine<Db>, db: Db, c: Command): Db {
    if c.Exec? && e.run(db, c.sql).Some? then e.run(db, c.sql).value else db
  }

  /** The database that a log produces, entry by entry; a failed entry and a configuration change produce nothing. */
  function Fold<Db>(e: Engine<Db>, log: seq<Entry>): Db {
    if log == [] then e.empty else Effect(e, Fold(e, log[..|log| - 1]), log[|log| - 1].command)
  }

  /** Whether the transaction of the entry at a one-based index commits. */
  predicate CommitsAt<Db>(e: Engine<Db>, log: seq<Entry>, index: nat)
    requires 1 <= index <= |log|
  {
    Commits(e, Fold(e, log[..index - 1]), log[index - 1].command)
  }

  // ---------- The store and the apply loop ----------

  /** The database file: the tables, and the row of the metadata table that holds the applied index. */
  class Store<Db> {
    const engine: Engine<Db>
    var db: Db
    var row: Option<nat>

    constructor (engine: Engine<Db>)
      ensures this.engine == engine && db == engine.empty && row == None
    {
      this.engine, this.db, this.row := engine, engine.empty, None;
    }

    function Recorded(): nat
      reads this
    {
      if row.Some? then row.value else 0
    }

    /** One transaction: the statement and the index, or neither. */
    method ApplyEntry(index: nat, command: Command) returns (ok: bool)
      modifies this
      ensures ok <==> command.Exec? ==> engine.run(old(db), command.sql).Some?
      ensures ok ==> db == Effect(engine, old(db), command) && Recorded() == index
      ensures !ok ==> db == old(db) && row == old(row)
    {
      var tx := db;
      if command.Exec? {
        var result := engine.run(tx, command.sql);
        if result.None? {
          return false;
        }
        tx := result.value;
      }
      db, row := tx, Some(index);
      return true;
    }

    method AppliedIndex() returns (index: nat)
      ensures index == Recorded()
    {
      if row.None? {
        return 0;
      }
      return row.value;
    }
  }

  /** The database, the index it has recorded, and the index up to which the apply loop has come; `took` is a record
      of the indexes whose transactions have committed, which nothing reads. */
  datatype Applier<+Db> = Applier(db: Db, recorded: nat, applied: nat, took: seq<nat>)

  function Started<Db>(e: Engine<Db>): Applier<Db> {
    Applier(e.empty, 0, 0, [])
  }

  /** One turn of the apply loop. */
  function TurnOn<Db>(e: Engine<Db>, a: Applier<Db>, c: Command): Applier<Db> {
    if Commits(e, a.db, c)
    then Applier(Effect(e, a.db, c), a.applied + 1, a.applied + 1, a.took + [a.applied + 1])
    else a.(applied := a.applied + 1)
  }

  /** A restart begins after the recorded index. */
  function Restarted<Db>(a: Applier<Db>): Applier<Db> {
    a.(applied := a.recorded)
  }

  class Loop<Db> {
    const store: Store<Db>
    var appliedIndex: nat
    ghost var took: seq<nat>

    ghost function State(): Applier<Db>
      reads this, store
    {
      Applier(store.db, store.Recorded(), appliedIndex, took)
    }

    constructor (store: Store<Db>, ghost took: seq<nat>)
      ensures this.store == store && State() == Applier(store.db, store.Recorded(), store.Recorded(), took)
    {
      this.store := store;
      this.took := took;
      new;
      appliedIndex := store.AppliedIndex();
    }

    /** A configuration change does not reach the store; whatever the outcome, the loop goes on. */
    method ApplyNext(command: Command)
      modifies this, store
      ensures State() == TurnOn(store.engine, old(State()), command)
    {
      var index := appliedIndex + 1;
      if !command.ConfChange? {
        var ok := store.ApplyEntry(index, command);
        if ok {
          took := took + [index];
        }
      }
      appliedIndex := index;
    }
  }

  // ---------- In step with the log ----------

  /** The database is what the log up to the applied index produces; so is it already up to the recorded index. */
  predicate InStep<Db(==)>(e: Engine<Db>, log: seq<Entry>, a: Applier<Db>) {
    && a.recorded <= a.applied <= |log|
    && a.db == Fold(e, log[..a.applied])
    && a.db == Fold(e, log[..a.recorded])
  }

  predicate Ascending(took: seq<nat>) {
    forall j, k :: 0 <= j < k < |took| ==> took[j] < took[k]
  }

  predicate TookAt<Db>(e: Engine<Db>, log: seq<Entry>, a: Applier<Db>, index: nat) {
    index in a.took <==> 1 <= index <= a.applied && index <= |log| && CommitsAt(e, log, index)
  }

  /** Every transaction that commits has committed, once and in order, and no other has. */
  ghost predicate TookOnce<Db>(e: Engine<Db>, log: seq<Entry>, a: Applier<Db>) {
    && Ascending(a.took) && (forall k :: 0 <= k < |a.took| ==> a.took[k] <= a.recorded)
    && (forall index :: TookAt(e, log, a, index))
  }

  lemma FoldNext<Db>(e: Engine<Db>, log: seq<Entry>, k: nat)
    requires k < |log|
    ensures Fold(e, log[..k + 1]) == Effect(e, Fold(e, log[..k]), log[k].command)
  {
    assert log[..k + 1][..k] == log[..k];
  }

  lemma TurnKeepsStep<Db>(e: Engine<Db>, log: seq<Entry>, a: Applier<Db>)
    requires InStep(e, log, a) && a.applied < |log|
    ensures InStep(e, log, TurnOn(e, a, log[a.applied].command))
  {
    FoldNext(e, log, a.applied);
  }

  lemma TurnTakesOnce<Db>(e: Engine<Db>, log: seq<Entry>, a: Applier<Db>)
    requires InStep(e, log, a) && a.applied < |log| && TookOnce(e, log, a)
    ensures TookOnce(e, log, TurnOn(e, a, log[a.applied].command))
  {
    var b := TurnOn(e, a, log[a.applied].command);
    forall index: nat ensures TookAt(e, log, b, index) {
      assert TookAt(e, log, a, index);
    }
  }

  /** Entries between the recorded and the applied index committed nothing, so a restart may see them again. */
  lemma RestartTakesOnce<Db>(e: Engine<Db>, log: seq<Entry>, a: Applier<Db>)
    requires InStep(e, log, a) && TookOnce(e, log, a)
    ensures InStep(e, log, Restarted(a)) && TookOnce(e, log, Restarted(a))
  {
    forall index: nat ensures TookAt(e, log, Restarted(a), index) {
      assert TookAt(e, log, a, index);
      if index in a.took {
        var k :| 0 <= k < |a.took| && a.took[k] == index;
        assert index <= a.recorded;
      }
    }
  }

  /** The log may change beyond what is applied. */
  lemma LogMayChange<Db>(e: Engine<Db>, log: seq<Entry>, log': seq<Entry>, a: Applier<Db>)
    requires InStep(e, log, a) && a.applied <= |log'| && log'[..a.applied] == log[..a.applied]
    ensures InStep(e, log', a)
    ensures TookOnce(e, log, a) ==> TookOnce(e, log', a)
  {
    assert log'[..a.recorded] == log'[..a.applied][..a.recorded] == log[..a.recorded];
    if TookOnce(e, log, a) {
      forall index: nat ensures TookAt(e, log', a, index) {
        assert TookAt(e, log, a, index);
        if 1 <= index <= a.applied {
          assert log'[..index - 1] == log'[..a.applied][..index - 1] == log[..index - 1];
          assert log'[index - 1] == log'[..a.applied][index - 1] == log[index - 1];
        }
      }
    }
  }

  // ---------- Runs ----------

  /** What may happen between two states: a turn of the loop, a change of the log beyond the applied index, or a crash
      and a restart with a log that still holds the recorded entries. */
  datatype Happening = Turn | LogChange(log: seq<Entry>) | Restart(log: seq<Entry>)

  datatype Local<+Db> = Local(log: seq<Entry>, applier: Applier<Db>)

  predicate CanHappen<Db>(s: Local<Db>, h: Happening) {
    match h
    case Turn => s.applier.applied < |s.log|
    case LogChange(log) =>
      s.applier.applied <= |log| && s.applier.applied <= |s.log|
      && log[..s.applier.applied] == s.log[..s.applier.applied]
    case Restart(log) =>
      s.applier.recorded <= |log| && s.applier.recorded <= |s.log|
      && log[..s.applier.recorded] == s.log[..s.applier.recorded]
  }

  function After<Db>(e: Engine<Db>, s: Local<Db>, h: Happening): Local<Db>
    requires CanHappen(s, h)
  {
    match h
    case Turn => s.(applier := TurnOn(e, s.applier, s.log[s.applier.applied].command))
    case LogChange(log) => s.(log := log)
    case Restart(log) => Local(log, Restarted(s.applier))
  }

  predicate CanRun<Db>(e: Engine<Db>, s: Local<Db>, hs: seq<Happening>)
    decreases |hs|
  {
    hs == [] || (CanHappen(s, hs[0]) && CanRun(e, After(e, s, hs[0]), hs[1..]))
  }

  function RunOf<Db>(e: Engine<Db>, s: Local<Db>, hs: seq<Happening>): Local<Db>
    requires CanRun(e, s, hs)
    decreases |hs|
  {
    if hs == [] then s else RunOf(e, After(e, s, hs[0]), hs[1..])
  }

  ghost predicate Exact<Db>(e: Engine<Db>, s: Local<Db>) {
    InStep(e, s.log, s.applier) && TookOnce(e, s.log, s.applier)
  }

  lemma HappeningKeepsExact<Db>(e: Engine<Db>, s: Local<Db>, h: Happening)
    requires Exact(e, s) && CanHappen(s, h)
    ensures Exact(e, After(e, s, h))
  {
    match h
    case Turn =>
      TurnKeepsStep(e, s.log, s.applier);
      TurnTakesOnce(e, s.log, s.applier);
    case LogChange(log) =>
      LogMayChange(e, s.log, log, s.applier);
    case Restart(log) =>
      RestartTakesOnce(e, s.log, s.applier);
      LogMayChange(e, s.log, log, Restarted(s.applier));
  }

  lemma {:induction false} RunKeepsExact<Db>(e: Engine<Db>, s: Local<Db>, hs: seq<Happening>)
    requires Exact(e, s) && CanRun(e, s, hs)
    ensures Exact(e, RunOf(e, s, hs))
    decreases |hs|
  {
    if hs != [] {
      HappeningKeepsExact(e, s, hs[0]);
      RunKeepsExact(e, After(e, s, hs[0]), hs[1..]);
    }
  }

  /** Exactly once: from an empty database, through any applies, log changes, crashes and restarts, the database is
      what the applied entries produce in log order, and each entry whose transaction commits has committed once. */
  lemma ExactlyOnce<Db>(e: Engine<Db>, log: seq<Entry>, hs: seq<Happening>)
    requires CanRun(e, Local(log, Started(e)), hs)
    ensures var s := RunOf(e, Local(log, Started(e)), hs);
            InStep(e, s.log, s.applier) && TookOnce(e, s.log, s.applier)
  {
    var s := Local(log, Started(e));
    forall index: nat ensures TookAt(e, log, s.applier, index) {}
    RunKeepsExact(e, s, hs);
  }

  // ---------- Transactions that fail for another reason ----------

  /** A transaction may also fail because it cannot begin or commit. The loop goes on all the same, and the entry is
      skipped. */
  function Skipped<Db>(a: Applier<Db>): Applier<Db> {
    a.(applied := a.applied + 1)
  }

  /** Whether skipping a command is harmless, whatever the database and what it makes of statements. */
  ghost predicate HarmlessToSkip(c: Command) {
    forall e: Engine<int>, log: seq<Entry>, a: Applier<int> :: SkipKeepsStep(e, log, a, c)
  }

  predicate SkipKeepsStep<Db(==)>(e: Engine<Db>, log: seq<Entry>, a: Applier<Db>, c: Command) {
    InStep(e, log, a) && a.applied < |log| && log[a.applied].command == c ==> InStep(e, log, Skipped(a))
  }

  /** A database that counts its statements. */
  function Counter(): Engine<int> {
    Engine(0, (db: int, sql: string) => Some(db + 1))
  }

  /** An entry may be skipped, on every database, exactly if it holds no statement. */
  lemma SkippedExactly(c: Command)
    ensures HarmlessToSkip(c) <==> !c.Exec?
  {
    if c.Exec? {
      var log := [Entry(1, 1, c)];
      assert log[..0] == [];
      FoldNext(Counter(), log, 0);
      assert !SkipKeepsStep(Counter(), log, Started(Counter()), c);
    } else {
      forall e: Engine<int>, log: seq<Entry>, a: Applier<int> ensures SkipKeepsStep(e, log, a, c) {
        if a.applied < |log| && log[a.applied].command == c {
          FoldNext(e, log, a.applied);
        }
      }
    }
  }

  /** The log up to `m` without its entry at `k`, counted from zero. */
  function Missed(log: seq<Entry>, k: nat, m: nat): seq<Entry>
    requires k < m <= |log|
  {
    log[..k] + log[k + 1..m]
  }

  /** The database is what the log without the skipped entry produces. Up to the recorded index it is so too, or,
      if nothing has been recorded since, it is what the log produced before. */
  predicate Misses<Db(==)>(e: Engine<Db>, s: Local<Db>, k: nat) {
    var a := s.applier;
    && k < a.applied <= |s.log| && a.recorded <= a.applied
    && a.db == Fold(e, Missed(s.log, k, a.applied))
    && a.db == if a.recorded > k then Fold(e, Missed(s.log, k, a.recorded)) else Fold(e, s.log[..a.recorded])
  }

  lemma SkipMisses<Db>(e: Engine<Db>, log: seq<Entry>, a: Applier<Db>)
    requires InStep(e, log, a) && a.applied < |log|
    ensures Misses(e, Local(log, Skipped(a)), a.applied)
  {
    assert Missed(log, a.applied, a.applied + 1) == log[..a.applied];
  }

  lemma MissedNext<Db>(e: Engine<Db>, log: seq<Entry>, k: nat, m: nat)
    requires k < m < |log|
    ensures Fold(e, Missed(log, k, m + 1)) == Effect(e, Fold(e, Missed(log, k, m)), log[m].command)
  {
    assert Missed(log, k, m + 1) == Missed(log, k, m) + [log[m]];
  }

  lemma MissedSame(log: seq<Entry>, log': seq<Entry>, k: nat, m: nat, upTo: nat)
    requires k < m <= upTo <= |log| && upTo <= |log'| && log'[..upTo] == log[..upTo]
    ensures Missed(log', k, m) == Missed(log, k, m)
  {
    assert log'[..k] == log'[..upTo][..k] && log'[k + 1..m] == log'[..upTo][k + 1..m];
  }

  lemma TurnMisses<Db>(e: Engine<Db>, s: Local<Db>, k: nat)
    requires Misses(e, s, k) && s.applier.applied < |s.log|
    ensures var s' := After(e, s, Turn);
            Misses(e, s', k) && s'.applier.recorded >= s.applier.recorded
  {
    hide Fold, Missed;
    MissedNext(e, s.log, k, s.applier.applied);
  }

  lemma ChangeMisses<Db>(e: Engine<Db>, s: Local<Db>, k: nat, log: seq<Entry>)
    requires Misses(e, s, k) && CanHappen(s, LogChange(log))
    ensures Misses(e, s.(log := log), k)
  {
    var a := s.applier;
    hide Fold, Missed;
    MissedSame(s.log, log, k, a.applied, a.applied);
    if a.recorded > k {
      MissedSame(s.log, log, k, a.recorded, a.applied);
    }
    assert log[..a.recorded] == log[..a.applied][..a.recorded] == s.log[..a.applied][..a.recorded] == s.log[..a.recorded];
  }

  lemma RestartMisses<Db>(e: Engine<Db>, s: Local<Db>, k: nat, log: seq<Entry>)
    requires Misses(e, s, k) && CanHappen(s, Restart(log))
    ensures var s' := Local(log, Restarted(s.applier));
            if s.applier.recorded <= k then InStep(e, s'.log, s'.applier) else Misses(e, s', k)
  {
    var a := s.applier;
    hide Fold, Missed;
    if a.recorded > k {
      MissedSame(s.log, log, k, a.recorded, a.recorded);
    }
  }

  /** Whatever happens, a replica goes on without the entry, until it restarts before it has recorded a later one:
      then it applies the entry after all. */
  lemma HappeningAfterSkip<Db>(e: Engine<Db>, s: Local<Db>, k: nat, h: Happening)
    requires Misses(e, s, k) && CanHappen(s, h)
    ensures var s' := After(e, s, h);
            if h.Restart? && s.applier.recorded <= k then InStep(e, s'.log, s'.applier)
            else Misses(e, s', k) && (s.applier.recorded > k ==> s'.applier.recorded > k)
  {
    hide Misses, InStep, TurnOn;
    match h
    case Turn => TurnMisses(e, s, k);
    case LogChange(log) => ChangeMisses(e, s, k, log);
    case Restart(log) => RestartMisses(e, s, k, log);
  }

  lemma {:induction false} RunMisses<Db>(e: Engine<Db>, s: Local<Db>, k: nat, hs: seq<Happening>)
    requires Misses(e, s, k) || InStep(e, s.log, s.applier)
    requires CanRun(e, s, hs)
    ensures var s' := RunOf(e, s, hs); Misses(e, s', k) || InStep(e, s'.log, s'.applier)
    decreases |hs|
  {
    if hs != [] {
      if Misses(e, s, k) {
        HappeningAfterSkip(e, s, k, hs[0]);
      } else {
        HappeningKeepsStep(e, s, hs[0]);
      }
      RunMisses(e, After(e, s, hs[0]), k, hs[1..]);
    }
  }

  /** Through every run after a skip, the replica is in step again or misses exactly the skipped entry. */
  lemma RunAfterSkip<Db>(e: Engine<Db>, log: seq<Entry>, a: Applier<Db>, hs: seq<Happening>)
    requires InStep(e, log, a) && a.applied < |log| && CanRun(e, Local(log, Skipped(a)), hs)
    ensures var s := RunOf(e, Local(log, Skipped(a)), hs);
            Misses(e, s, a.applied) || InStep(e, s.log, s.applier)
  {
    SkipMisses(e, log, a);
    RunMisses(e, Local(log, Skipped(a)), a.applied, hs);
  }

  lemma HappeningKeepsStep<Db>(e: Engine<Db>, s: Local<Db>, h: Happening)
    requires InStep(e, s.log, s.applier) && CanHappen(s, h)
    ensures InStep(e, After(e, s, h).log, After(e, s, h).applier)
  {
    match h
    case Turn => TurnKeepsStep(e, s.log, s.applier);
    case LogChange(log) => LogMayChange(e, s.log, log, s.applier);
    case Restart(log) => LogMayChange(e, s.log, log, Restarted(s.applier));
  }

  /** Once a later entry is recorded, the skipped one is never applied, through any applies, log changes, crashes and
      restarts. */
  lemma {:induction false} SkipLasts<Db>(e: Engine<Db>, s: Local<Db>, k: nat, hs: seq<Happening>)
    requires Misses(e, s, k) && s.applier.recorded > k && CanRun(e, s, hs)
    ensures Misses(e, RunOf(e, s, hs), k) && RunOf(e, s, hs).applier.recorded > k
    decreases |hs|
  {
    if hs != [] {
      HappeningAfterSkip(e, s, k, hs[0]);
      SkipLasts(e, After(e, s, hs[0]), k, hs[1..]);
    }
  }

  predicate AllStatements(log: seq<Entry>) {
    forall k :: 0 <= k < |log| ==> log[k].command.Exec?
  }

  lemma {:induction false} CounterCounts(log: seq<Entry>)
    requires AllStatements(log)
    ensures Fold(Counter(), log) == |log|
  {
    if log != [] {
      CounterCounts(log[..|log| - 1]);
    }
  }

  /** On a database that counts, a replica that misses a statement stays one behind the log, and so behind every
      replica in step. */
  lemma SkippedStaysBehind(s: Local<int>, k: nat)
    requires Misses(Counter(), s, k) && AllStatements(s.log)
    ensures s.applier.db + 1 == Fold(Counter(), s.log[..s.applier.applied])
    ensures !InStep(Counter(), s.log, s.applier)
  {
    CounterCounts(s.log[..s.applier.applied]);
    CounterCounts(Missed(s.log, k, s.applier.applied));
  }
}
