/**
 * The persistent store of aggregated statistics: the `player_stats` table as a map
 * from player name to record, and the `processed_logs` ledger as a map from log path
 * to the last ActionID taken from that log and the snapshot of its statistics.
 */
module StatsStore {
  import opened Wrappers
  import opened Models

  /** One `processed_logs` row: the last ActionID and the `stats_json` baseline, if any. */
  datatype ProcessedLog = ProcessedLog(lastActionId: int, snapshot: Option<map<string, PlayerStats>>)

  // ---------------------------------------------------------------------------
  // Merging, as values
  // ---------------------------------------------------------------------------

  /**
   * The table after `merge_stats(s)`: the row of `s.playerName` becomes the field-wise
   * sum of the stored row and `s` when there is one, and `s` itself otherwise; no
   * other row changes.
   */
  function MergedInto(m: map<string, PlayerStats>, s: PlayerStats): (r: map<string, PlayerStats>)
    ensures r.Keys == m.Keys + {s.playerName}
    ensures s.playerName !in m ==> r[s.playerName] == s
    ensures s.playerName in m ==> r[s.playerName].playerName == s.playerName
    ensures s.playerName in m ==> forall i :: 0 <= i < Counters ==>
      Counter(r[s.playerName], i) == Counter(m[s.playerName], i) + Counter(s, i)
    ensures forall n :: n in m && n != s.playerName ==> r[n] == m[n]
  {
    m[s.playerName := if s.playerName in m then Sum(m[s.playerName], s) else s]
  }

  /** Merging keeps every row keyed by its own name. */
  lemma MergedIntoKeyed(m: map<string, PlayerStats>, s: PlayerStats)
    requires KeyedByName(m)
    ensures KeyedByName(MergedInto(m, s))
  {
  }

  /** Adding `b` then `a` to a record gives the same counters as adding `a` then `b`. */
  lemma SumSwap(x: PlayerStats, a: PlayerStats, b: PlayerStats)
    requires a.playerName == b.playerName
    ensures Sum(Sum(x, a), b) == Sum(Sum(x, b), a)
  {
    var l, r := Sum(Sum(x, a), b), Sum(Sum(x, b), a);
    forall i | 0 <= i < Counters ensures Counter(l, i) == Counter(r, i) {
    }
    CountersDetermine(l, r);
  }

  /** Two records under one name added to nothing: the order does not matter. */
  lemma SumCommutes(a: PlayerStats, b: PlayerStats)
    requires a.playerName == b.playerName
    ensures Sum(a, b) == Sum(b, a)
  {
    var l, r := Sum(a, b), Sum(b, a);
    forall i | 0 <= i < Counters ensures Counter(l, i) == Counter(r, i) {
    }
    CountersDetermine(l, r);
  }

  /** Merging two deltas in either order stores the same table. */
  lemma MergeCommutes(m: map<string, PlayerStats>, a: PlayerStats, b: PlayerStats)
    ensures MergedInto(MergedInto(m, a), b) == MergedInto(MergedInto(m, b), a)
  {
    if a.playerName == b.playerName {
      var n := a.playerName;
      if n in m {
        SumSwap(m[n], a, b);
      } else {
        SumCommutes(a, b);
      }
    }
  }

  /** Merging a delta whose counters are all zero into a stored row leaves the table as it was. */
  lemma MergeZeroDelta(m: map<string, PlayerStats>, s: PlayerStats)
    requires KeyedByName(m) && s.playerName in m
    requires forall i :: 0 <= i < Counters ==> Counter(s, i) == 0
    ensures MergedInto(m, s) == m
  {
    var n := s.playerName;
    var merged := MergedInto(m, s);
    CountersDetermine(merged[n], m[n]);
  }

  /**
   * Merging, in any order, the rows of `d` named by `keys` (each keyed by its own
   * name): a named row is added to the stored row, or stored as it is when there is none.
   */
  ghost function MergedMap(m: map<string, PlayerStats>, d: map<string, PlayerStats>, keys: set<string>): (r: map<string, PlayerStats>)
    requires keys <= d.Keys
    ensures r.Keys == m.Keys + keys
  {
    map n | n in m.Keys + keys :: if n in keys then (if n in m then Sum(m[n], d[n]) else d[n]) else m[n]
  }

  /** Merging one more row of `d` extends the merged set by that row. */
  lemma MergedMapStep(m: map<string, PlayerStats>, d: map<string, PlayerStats>, keys: set<string>, n: string)
    requires keys <= d.Keys && n in d && n !in keys && d[n].playerName == n
    ensures MergedInto(MergedMap(m, d, keys), d[n]) == MergedMap(m, d, keys + {n})
  {
    var l, r := MergedInto(MergedMap(m, d, keys), d[n]), MergedMap(m, d, keys + {n});
    assert l.Keys == r.Keys;
    forall k | k in l ensures l[k] == r[k] {
    }
  }

  /** Merging rows keyed by their own names keeps every row keyed by its own name. */
  lemma MergedMapKeyed(m: map<string, PlayerStats>, d: map<string, PlayerStats>, keys: set<string>)
    requires keys <= d.Keys && KeyedByName(m) && forall n :: n in keys ==> d[n].playerName == n
    ensures KeyedByName(MergedMap(m, d, keys))
  {
  }

  /** Merging no rows changes nothing. */
  lemma MergedMapNone(m: map<string, PlayerStats>, d: map<string, PlayerStats>)
    ensures MergedMap(m, d, {}) == m
  {
  }

  // ---------------------------------------------------------------------------
  // The store
  // ---------------------------------------------------------------------------

  class StatsDB {
    /** `player_stats`, by `player_name`. */
    var players: map<string, PlayerStats>
    /** `processed_logs`, by `log_path`. */
    var processed: map<string, ProcessedLog>

    /** Every stored row is under its own name, as the primary key `player_name` makes it. */
    ghost predicate Valid()
      reads this
    {
      KeyedByName(players)
    }

    /** Opening a database file that holds the given tables. */
    constructor(players0: map<string, PlayerStats>, processed0: map<string, ProcessedLog>)
      requires KeyedByName(players0)
      ensures Valid()
      ensures players == players0 && processed == processed0
    {
      players := players0;
      processed := processed0;
    }

    /** `get_player_stats`: the stored row, which carries the name asked for, or None. */
    function GetPlayerStats(name: string): (r: Option<PlayerStats>)
      reads this
      ensures r.Some? <==> name in players
      ensures r.Some? ==> r.value == players[name]
      ensures Valid() && r.Some? ==> r.value.playerName == name
    {
      if name in players then Some(players[name]) else None
    }

    /** `get_all_players_stats`: every stored row, by name. */
    function GetAllPlayersStats(): (r: map<string, PlayerStats>)
      reads this
      ensures r.Keys == players.Keys && forall n :: n in r ==> GetPlayerStats(n) == Some(r[n])
      ensures Valid() ==> KeyedByName(r)
    {
      players
    }

    /** `save_player_stats`: insert, or overwrite all sixteen counters of, the row of `s.playerName`. */
    method SavePlayerStats(s: PlayerStats)
      requires Valid()
      modifies this
      ensures Valid()
      ensures players == old(players)[s.playerName := s] && processed == old(processed)
      ensures GetPlayerStats(s.playerName) == Some(s)
    {
      players := players[s.playerName := s];
    }

    /** `merge_stats`: add `newStats` to the stored row of its player, or store it when there is none. */
    method MergeStats(newStats: PlayerStats) returns (merged: PlayerStats)
      requires Valid()
      modifies this
      ensures Valid()
      ensures players == MergedInto(old(players), newStats) && processed == old(processed)
      ensures merged == players[newStats.playerName]
    {
      var existing := GetPlayerStats(newStats.playerName);
      if existing.Some? {
        merged := Sum(existing.value, newStats);
        SavePlayerStats(merged);
      } else {
        SavePlayerStats(newStats);
        merged := newStats;
      }
    }

    /** `get_last_processed_action`: the recorded ActionID of `path`, 0 for a path never recorded. */
    function GetLastProcessedAction(path: string): (r: int)
      reads this
      ensures path !in processed ==> r == 0
      ensures path in processed ==> r == processed[path].lastActionId
    {
      if path in processed then processed[path].lastActionId else 0
    }

    /** `set_last_processed_action`: insert or overwrite the ledger row of `path`. */
    method SetLastProcessedAction(path: string, actionId: int, snapshot: Option<map<string, PlayerStats>>)
      requires Valid()
      modifies this
      ensures Valid()
      ensures processed == old(processed)[path := ProcessedLog(actionId, snapshot)] && players == old(players)
      ensures GetLastProcessedAction(path) == actionId && GetImportedFileStats(path) == snapshot
    {
      processed := processed[path := ProcessedLog(actionId, snapshot)];
    }

    /** `get_imported_file_stats`: the baseline stored for `path`; None when there is no row or no baseline. */
    function GetImportedFileStats(path: string): (r: Option<map<string, PlayerStats>>)
      reads this
      ensures path !in processed ==> r.None?
      ensures path in processed ==> r == processed[path].snapshot
    {
      if path in processed then processed[path].snapshot else None
    }

    /** `clear_all_stats`: empty both tables. */
    method ClearAllStats()
      requires Valid()
      modifies this
      ensures Valid()
      ensures players == map[] && processed == map[]
      ensures forall p :: GetLastProcessedAction(p) == 0 && GetImportedFileStats(p).None?
    {
      players := map[];
      processed := map[];
    }
  }
}
