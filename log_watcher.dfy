/**
 * The watcher that follows the log file of the table in play: it recomputes the
 * file's statistics when new actions arrive, shows them combined with the store,
 * commits only what is new since the file's baseline, and re-imports every log.
 *
 * A poll of the log file is a parameter: `Some(file)` is its content at that
 * moment, and `None` stands for a file that SQLite reports as locked.
 */
module Watcher {
  import opened Wrappers
  import opened Models
  import opened LogParser
  import opened Calculator
  import opened StatsStore

  // ---------------------------------------------------------------------------
  // Deltas, the live view and re-import, as values
  // ---------------------------------------------------------------------------

  /**
   * What `save_pending_stats` merges for each player of the file: the field-wise
   * `file - imported` under the player's name when a baseline row exists, and the
   * file's row itself otherwise.
   */
  ghost function Deltas(file: map<string, PlayerStats>, imp: map<string, PlayerStats>): (d: map<string, PlayerStats>)
    ensures d.Keys == file.Keys
    ensures KeyedByName(file) ==> KeyedByName(d)
  {
    map n | n in file :: if n in imp then Diff(file[n], imp[n]).(playerName := n) else file[n]
  }

  /**
   * One entry of the live view: `db + file - imported` field by field (no baseline
   * counting as zero) when the store and the file both have the player, and
   * whichever of the two has them otherwise.
   */
  function AggregateOne(name: string, db: Option<PlayerStats>, file: Option<PlayerStats>, imp: Option<PlayerStats>)
    : (r: Option<PlayerStats>)
    ensures r.None? <==> db.None? && file.None?
    ensures db.Some? && file.Some? ==> r.value.playerName == name && forall i :: 0 <= i < Counters ==>
      Counter(r.value, i) == Counter(db.value, i) + Counter(file.value, i) - (if imp.Some? then Counter(imp.value, i) else 0)
    ensures db.Some? && file.None? ==> r == db
    ensures db.None? && file.Some? ==> r == file
  {
    if db.Some? && file.Some? then
      Some(Diff(Sum(db.value, file.value), imp.GetOr(NewPlayerStats(name))).(playerName := name))
    else if db.Some? then db
    else file
  }

  /** The map lookup `m.get(n)`. */
  function Get(m: map<string, PlayerStats>, n: string): Option<PlayerStats>
  {
    if n in m then Some(m[n]) else None
  }

  /** The live view of the table players `table`. */
  ghost function AggregatedOf(db: map<string, PlayerStats>, file: map<string, PlayerStats>,
                              imp: map<string, PlayerStats>, table: seq<string>): (r: map<string, PlayerStats>)
    ensures forall n :: n in r <==> n in table && (n in db || n in file)
  {
    map n | n in table && (n in db || n in file) :: AggregateOne(n, Get(db, n), Get(file, n), Get(imp, n)).value
  }

  /**
   * The live view shows each table player exactly as committing the file would store
   * them: when every baseline row is also in the store (importing a file merges its
   * rows before it records their baseline), the view of a player is the row the store
   * would hold after `save_pending_stats`.
   */
  lemma AggregatedIsCommitted(db: map<string, PlayerStats>, file: map<string, PlayerStats>,
                              imp: map<string, PlayerStats>, n: string)
    requires KeyedByName(db) && KeyedByName(file) && imp.Keys <= db.Keys
    requires n in db || n in file
    ensures AggregateOne(n, Get(db, n), Get(file, n), Get(imp, n)) ==
      Some(MergedMap(db, Deltas(file, imp), file.Keys)[n])
  {
    var view := AggregateOne(n, Get(db, n), Get(file, n), Get(imp, n));
    var stored := MergedMap(db, Deltas(file, imp), file.Keys)[n];
    if n in db && n in file {
      forall i | 0 <= i < Counters ensures Counter(view.value, i) == Counter(stored, i) {
      }
      CountersDetermine(view.value, stored);
    }
  }

  /**
   * No double count: a file whose rows were merged into the store when its baseline
   * `imp` was taken, and whose deltas against that baseline are merged later, leaves the
   * store as if the whole current file had been merged once.
   */
  lemma NoDoubleCount(m: map<string, PlayerStats>, file: map<string, PlayerStats>, imp: map<string, PlayerStats>)
    requires KeyedByName(file) && imp.Keys <= file.Keys
    ensures MergedMap(MergedMap(m, imp, imp.Keys), Deltas(file, imp), file.Keys) == MergedMap(m, file, file.Keys)
  {
    var l := MergedMap(MergedMap(m, imp, imp.Keys), Deltas(file, imp), file.Keys);
    var r := MergedMap(m, file, file.Keys);
    forall n | n in r
      ensures n in l && l[n] == r[n]
    {
      if n in imp {
        NoDoubleCountAt(m, file, imp, n);
      }
    }
    assert l.Keys == r.Keys;
  }

  /** The row of one player with a baseline: stored base plus baseline plus delta is stored base plus file. */
  lemma NoDoubleCountAt(m: map<string, PlayerStats>, file: map<string, PlayerStats>, imp: map<string, PlayerStats>, n: string)
    requires KeyedByName(file) && imp.Keys <= file.Keys && n in imp
    ensures MergedMap(MergedMap(m, imp, imp.Keys), Deltas(file, imp), file.Keys)[n] == MergedMap(m, file, file.Keys)[n]
  {
    var base := MergedMap(m, imp, imp.Keys)[n];
    var l := MergedMap(MergedMap(m, imp, imp.Keys), Deltas(file, imp), file.Keys)[n];
    var r := MergedMap(m, file, file.Keys)[n];
    assert l == Sum(base, Diff(file[n], imp[n]).(playerName := n));
    forall i | 0 <= i < Counters ensures Counter(l, i) == Counter(r, i) {
    }
    CountersDetermine(l, r);
  }
  /** Merging the deltas of a file against itself leaves a store that already has its players as it is. */
  lemma ZeroDeltasChangeNothing(m: map<string, PlayerStats>, file: map<string, PlayerStats>)
    requires KeyedByName(m) && file.Keys <= m.Keys
    ensures MergedMap(m, Deltas(file, file), file.Keys) == m
  {
    var r := MergedMap(m, Deltas(file, file), file.Keys);
    forall n | n in m
      ensures r[n] == m[n]
    {
      if n in file {
        forall i | 0 <= i < Counters ensures Counter(r[n], i) == Counter(m[n], i) {
        }
        CountersDetermine(r[n], m[n]);
      }
    }
  }

  /**
   * Committing twice with no update in between adds nothing the second time: the first
   * commit makes the baseline equal to the file's statistics.
   */
  lemma SecondCommitAddsZero(m: map<string, PlayerStats>, file: map<string, PlayerStats>, imp: map<string, PlayerStats>)
    requires KeyedByName(m) && KeyedByName(file)
    ensures var once := MergedMap(m, Deltas(file, imp), file.Keys);
      MergedMap(once, Deltas(file, file), file.Keys) == once
  {
    var once := MergedMap(m, Deltas(file, imp), file.Keys);
    MergedMapKeyed(m, Deltas(file, imp), file.Keys);
    ZeroDeltasChangeNothing(once, file);
  }
  /** A file to import: its path and its content, `None` when reading it fails. */
  type ImportFile = (string, Option<LogFile>)

  /** The store's rows after importing `files` in order into an emptied store. */
  ghost function ImportedPlayers(files: seq<ImportFile>): (r: map<string, PlayerStats>)
    ensures KeyedByName(r)
  {
    if files == [] then map[]
    else
      var acc := ImportedPlayers(files[..|files| - 1]);
      var last := files[|files| - 1];
      if last.1.None? then acc
      else
        var fileStats := AllPlayerStatsOf(last.1.value);
        MergedMap(acc, fileStats, fileStats.Keys)
  }

  /** The ledger after importing `files` in order: each readable file with its last ActionID and baseline. */
  ghost function ImportedLedger(files: seq<ImportFile>): map<string, ProcessedLog>
  {
    if files == [] then map[]
    else
      var acc := ImportedLedger(files[..|files| - 1]);
      var last := files[|files| - 1];
      if last.1.None? then acc
      else
        var db := last.1.value;
        acc[last.0 := ProcessedLog(GetLastProcessedActionId(db), Some(AllPlayerStatsOf(db)))]
  }

  /** The ledger has a row for exactly the paths of the readable files. */
  lemma {:induction false} ImportedLedgerPaths(files: seq<ImportFile>)
    ensures forall p :: p in ImportedLedger(files) <==> exists i :: 0 <= i < |files| && files[i].0 == p && files[i].1.Some?
  {
    if files != [] {
      var init := files[..|files| - 1];
      ImportedLedgerPaths(init);
      assert forall i :: 0 <= i < |init| ==> init[i] == files[i];
    }
  }

  /** A readable file that is not read again later keeps the row its import recorded. */
  lemma {:induction false} ImportedLedgerLast(files: seq<ImportFile>, i: int)
    requires 0 <= i < |files| && files[i].1.Some?
    requires forall j :: i < j < |files| ==> files[j].0 != files[i].0 || files[j].1.None?
    ensures files[i].0 in ImportedLedger(files)
    ensures ImportedLedger(files)[files[i].0] ==
      ProcessedLog(GetLastProcessedActionId(files[i].1.value), Some(AllPlayerStatsOf(files[i].1.value)))
  {
    var init := files[..|files| - 1];
    if i < |files| - 1 {
      assert forall j :: i < j < |init| ==> init[j] == files[j];
      ImportedLedgerLast(init, i);
    }
  }

  /** The number of readable files among `files`. */
  function ImportedCount(files: seq<ImportFile>): (r: nat)
    ensures r <= |files|
  {
    if files == [] then 0
    else ImportedCount(files[..|files| - 1]) + (if files[|files| - 1].1.Some? then 1 else 0)
  }

  /** Nothing is counted exactly when no file could be read. */
  lemma {:induction false} ImportedNone(files: seq<ImportFile>)
    ensures ImportedCount(files) == 0 <==> forall i :: 0 <= i < |files| ==> files[i].1.None?
  {
    if files != [] {
      var init := files[..|files| - 1];
      ImportedNone(init);
      assert forall i :: 0 <= i < |init| ==> init[i] == files[i];
    }
  }

  // ---------------------------------------------------------------------------
  // The watcher
  // ---------------------------------------------------------------------------

  class LogWatcher {
    /** The store the watcher commits to. */
    const store: StatsDB
    /** The log file followed, if any (a parser and calculator exist exactly when it is set). */
    var currentLog: Option<string>
    /** The largest ActionID of the followed file already reflected in `currentFileStats`. */
    var lastActionId: int
    var currentTablePlayers: seq<string>
    /** The statistics of the whole followed file. */
    var currentFileStats: map<string, PlayerStats>
    /** The part of the followed file already committed to the store. */
    var importedFileStats: map<string, PlayerStats>

    ghost predicate Valid()
      reads this, store
    {
      store.Valid() && KeyedByName(currentFileStats)
    }

    constructor(db: StatsDB)
      requires db.Valid()
      ensures Valid() && store == db
      ensures currentLog == None && lastActionId == 0 && currentTablePlayers == []
      ensures currentFileStats == map[] && importedFileStats == map[]
    {
      store := db;
      currentLog := None;
      lastActionId := 0;
      currentTablePlayers := [];
      currentFileStats := map[];
      importedFileStats := map[];
    }

    /**
     * `_switch_to_log`: follow `path` from its first action, with the baseline stored
     * for it (none counting as empty), then process the file as polled.
     */
    method SwitchToLog(path: string, poll: Option<LogFile>)
      requires Valid()
      modifies this
      ensures Valid()
      ensures currentLog == Some(path) && importedFileStats == store.GetImportedFileStats(path).GetOr(map[])
      ensures poll.None? || GetLastProcessedActionId(poll.value) <= 0 ==>
        lastActionId == 0 && currentFileStats == map[] && currentTablePlayers == old(currentTablePlayers)
      ensures poll.Some? && GetLastProcessedActionId(poll.value) > 0 ==>
        && lastActionId == GetLastProcessedActionId(poll.value)
        && currentFileStats == AllPlayerStatsOf(poll.value)
        && currentTablePlayers == GetCurrentTablePlayers(poll.value)
    {
      currentLog := Some(path);
      lastActionId := 0;
      currentFileStats := map[];
      importedFileStats := store.GetImportedFileStats(path).GetOr(map[]);
      ProcessUpdates(poll);
    }

    /**
     * `_process_updates`: nothing happens without a followed file, when the file is
     * locked, or when it has no action beyond `lastActionId`; otherwise the file's
     * statistics are recomputed, then `lastActionId` and the table players follow.
     */
    method ProcessUpdates(poll: Option<LogFile>)
      requires Valid()
      modifies this
      ensures Valid()
      ensures currentLog == old(currentLog) && importedFileStats == old(importedFileStats)
      ensures currentLog.None? || poll.None? || GetLastProcessedActionId(poll.value) <= old(lastActionId) ==>
        && lastActionId == old(lastActionId) && currentFileStats == old(currentFileStats)
        && currentTablePlayers == old(currentTablePlayers)
      ensures currentLog.Some? && poll.Some? && GetLastProcessedActionId(poll.value) > old(lastActionId) ==>
        && lastActionId == GetLastProcessedActionId(poll.value)
        && currentFileStats == AllPlayerStatsOf(poll.value)
        && currentTablePlayers == GetCurrentTablePlayers(poll.value)
    {
      if currentLog.None? || poll.None? {
        return;
      }
      var db := poll.value;
      var currentMaxAction := GetLastProcessedActionId(db);
      if currentMaxAction <= lastActionId {
        return;
      }
      currentFileStats := CalculateAllPlayersStats(db);
      lastActionId := currentMaxAction;
      var newPlayers := GetCurrentTablePlayers(db);
      if newPlayers != currentTablePlayers {
        currentTablePlayers := newPlayers;
      }
      var aggregated := GetAggregatedTableStats();
    }

    /** `get_table_stats`: the followed file's rows of the players at the table. */
    function GetTableStats(): (r: map<string, PlayerStats>)
      reads this
      ensures forall n :: n in r <==> n in currentFileStats && n in currentTablePlayers
      ensures forall n :: n in r ==> r[n] == currentFileStats[n]
    {
      if currentTablePlayers == [] then map[]
      else map n | n in currentFileStats && n in currentTablePlayers :: currentFileStats[n]
    }

    /** `get_aggregated_table_stats`: the live view of the table players; the store is only read. */
    method GetAggregatedTableStats() returns (aggregated: map<string, PlayerStats>)
      ensures aggregated == AggregatedOf(store.players, currentFileStats, importedFileStats, currentTablePlayers)
    {
      aggregated := map[];
      if currentTablePlayers == [] {
        return;
      }
      var dbStats := store.GetAllPlayersStats();
      for i := 0 to |currentTablePlayers|
        invariant forall n :: n in aggregated <==> n in currentTablePlayers[..i] && (n in dbStats || n in currentFileStats)
        invariant forall n :: n in aggregated ==>
          aggregated[n] == AggregateOne(n, Get(dbStats, n), Get(currentFileStats, n), Get(importedFileStats, n)).value
      {
        var playerName := currentTablePlayers[i];
        var view := AggregateOne(playerName, Get(dbStats, playerName), Get(currentFileStats, playerName),
                                 Get(importedFileStats, playerName));
        if view.Some? {
          aggregated := aggregated[playerName := view.value];
        }
        assert currentTablePlayers[..i + 1] == currentTablePlayers[..i] + [playerName];
      }
      assert currentTablePlayers[..|currentTablePlayers|] == currentTablePlayers;
    }

    /**
     * `save_pending_stats`: merge each player's delta against the baseline, then record
     * the current statistics as the file's new baseline, in the ledger and in memory.
     * Nothing happens without a followed file or with no statistics yet.
     */
    method SavePendingStats()
      requires Valid()
      modifies this, store
      ensures Valid()
      ensures currentLog.None? || old(currentFileStats) == map[] ==>
        && store.players == old(store.players) && store.processed == old(store.processed)
        && importedFileStats == old(importedFileStats)
      ensures currentLog.Some? && old(currentFileStats) != map[] ==>
        && store.players == MergedMap(old(store.players), Deltas(currentFileStats, old(importedFileStats)), currentFileStats.Keys)
        && store.processed == old(store.processed)[currentLog.value := ProcessedLog(lastActionId, Some(currentFileStats))]
        && importedFileStats == currentFileStats
      ensures currentLog == old(currentLog) && lastActionId == old(lastActionId)
      ensures currentFileStats == old(currentFileStats) && currentTablePlayers == old(currentTablePlayers)
    {
      if currentLog.None? || currentFileStats == map[] {
        return;
      }
      ghost var deltas := Deltas(currentFileStats, importedFileStats);
      ghost var before := store.players;
      var todo := currentFileStats.Keys;
      ghost var done: set<string> := {};
      while todo != {}
        invariant unchanged(this) && deltas.Keys == currentFileStats.Keys
        invariant todo <= currentFileStats.Keys && done == currentFileStats.Keys - todo
        invariant store.Valid() && store.players == MergedMap(before, deltas, done)
        invariant store.processed == old(store.processed)
        decreases todo
      {
        var playerName :| playerName in todo;
        var fileStats := currentFileStats[playerName];
        var delta;
        if playerName in importedFileStats {
          delta := Diff(fileStats, importedFileStats[playerName]).(playerName := playerName);
        } else {
          delta := fileStats;
        }
        assert delta == deltas[playerName];
        MergedMapStep(before, deltas, done, playerName);
        var merged := store.MergeStats(delta);
        todo := todo - {playerName};
        done := done + {playerName};
      }
      assert done == currentFileStats.Keys;
      store.SetLastProcessedAction(currentLog.value, lastActionId, Some(currentFileStats));
      importedFileStats := currentFileStats;
    }

    /** The loop of `import_all_logs` that merges one file's rows into the store. */
    method MergeFileStats(fileStats: map<string, PlayerStats>)
      requires store.Valid() && KeyedByName(fileStats)
      modifies store
      ensures store.Valid()
      ensures store.players == MergedMap(old(store.players), fileStats, fileStats.Keys)
      ensures store.processed == old(store.processed)
    {
      ghost var before := store.players;
      var todo := fileStats.Keys;
      ghost var done: set<string> := {};
      while todo != {}
        invariant todo <= fileStats.Keys && done == fileStats.Keys - todo
        invariant store.Valid() && store.players == MergedMap(before, fileStats, done)
        invariant store.processed == old(store.processed)
        decreases todo
      {
        var playerName :| playerName in todo;
        MergedMapStep(before, fileStats, done, playerName);
        var merged := store.MergeStats(fileStats[playerName]);
        todo := todo - {playerName};
        done := done + {playerName};
      }
      assert done == fileStats.Keys;
    }

    /** One iteration of the loop of `import_all_logs`: a readable file is merged and recorded. */
    method ImportLog(ghost done: seq<ImportFile>, path: string, content: Option<LogFile>) returns (counted: bool)
      requires store.Valid() && store.players == ImportedPlayers(done) && store.processed == ImportedLedger(done)
      modifies store
      ensures store.Valid()
      ensures store.players == ImportedPlayers(done + [(path, content)])
      ensures store.processed == ImportedLedger(done + [(path, content)])
      ensures counted == content.Some?
    {
      ghost var next := done + [(path, content)];
      assert next[..|next| - 1] == done && next[|next| - 1] == (path, content);
      counted := false;
      if content.Some? {
        var db := content.value;
        var fileStats := CalculateAllPlayersStats(db);
        MergeFileStats(fileStats);
        var lastAction := GetLastProcessedActionId(db);
        store.SetLastProcessedAction(path, lastAction, Some(fileStats));
        counted := true;
      }
    }

    /** The loop of `import_all_logs` over the files, into an emptied store. */
    method ImportLogs(files: seq<ImportFile>) returns (imported: nat)
      requires store.Valid() && store.players == map[] && store.processed == map[]
      modifies store
      ensures store.Valid()
      ensures store.players == ImportedPlayers(files) && store.processed == ImportedLedger(files)
      ensures imported == ImportedCount(files)
    {
      imported := 0;
      for i := 0 to |files|
        invariant store.Valid()
        invariant store.players == ImportedPlayers(files[..i]) && store.processed == ImportedLedger(files[..i])
        invariant imported == ImportedCount(files[..i])
      {
        var (path, content) := files[i];
        assert files[..i + 1] == files[..i] + [(path, content)];
        assert files[..i + 1][..i] == files[..i];
        var counted := ImportLog(files[..i], path, content);
        if counted {
          imported := imported + 1;
        }
      }
      assert files[..|files|] == files;
    }

    /**
     * `import_all_logs`: empty the store once, then for each readable file merge its
     * statistics and record its last ActionID and baseline; a file that cannot be read
     * is skipped and not counted. The followed file, if any, then resumes from the
     * ActionID just recorded for it.
     */
    method ImportAllLogs(files: seq<ImportFile>) returns (imported: nat)
      requires Valid()
      modifies this, store
      ensures Valid()
      ensures store.players == ImportedPlayers(files) && store.processed == ImportedLedger(files)
      ensures imported == ImportedCount(files) && imported <= |files|
      ensures currentLog.Some? ==> lastActionId == store.GetLastProcessedAction(currentLog.value)
      ensures currentLog.None? ==> lastActionId == old(lastActionId)
      ensures currentLog == old(currentLog) && currentFileStats == old(currentFileStats)
      ensures importedFileStats == old(importedFileStats) && currentTablePlayers == old(currentTablePlayers)
    {
      store.ClearAllStats();
      imported := ImportLogs(files);
      if currentLog.Some? {
        lastActionId := store.GetLastProcessedAction(currentLog.value);
      }
    }
  }
}
