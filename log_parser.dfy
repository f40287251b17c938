/**
 * The read contract of one hand-history log: its `Action`, `Player` and `Game`
 * tables as sequences of rows, and each query as a filter or projection of them.
 * The SQL `ORDER BY` clauses become a sort on a total preorder.
 */
module LogParser {
  import opened Wrappers
  import opened Text
  import opened Models

  /** One row of the `Action` table. */
  datatype ActionRow = ActionRow(
    actionId: int,
    gameId: int,
    handId: int,
    round: int,
    seat: int,
    verb: string,
    amount: Option<int>)

  /** One row of the `Player` table: who sits in which seat of which game. */
  datatype PlayerRow = PlayerRow(name: string, gameId: int, seat: int)

  /** A played hand, identified by (game id, hand id). */
  type HandKey = (int, int)

  /** Strictly increasing ActionID along the sequence. */
  ghost predicate IdsIncreasing(rows: seq<ActionRow>)
  {
    forall i, j :: 0 <= i < j < |rows| ==> rows[i].actionId < rows[j].actionId
  }

  /**
   * The `Action` table in storage order. ActionID is the table's integer primary key,
   * so storage order is increasing ActionID and a scan already is `ORDER BY ActionID`.
   */
  type ActionTable = rows: seq<ActionRow> | IdsIncreasing(rows) witness []

  /** The three tables of one log file that the statistics engine reads. */
  datatype LogFile = LogFile(actions: ActionTable, players: seq<PlayerRow>, games: seq<int>)

  /** The `HandAction` a row is turned into (the ActionID is dropped). */
  function ToHandAction(a: ActionRow): HandAction
  {
    HandAction(a.handId, a.gameId, a.round, a.seat, a.verb, a.amount)
  }

  /** Row-by-row conversion, keeping the order. */
  function Project(rows: seq<ActionRow>): (r: seq<HandAction>)
    ensures |r| == |rows|
    ensures forall i :: 0 <= i < |rows| ==> r[i] == ToHandAction(rows[i])
  {
    if rows == [] then []
    else
      var t := Project(rows[1..]);
      var r := [ToHandAction(rows[0])] + t;
      assert forall i :: 1 <= i < |rows| ==> r[i] == t[i - 1] && rows[1..][i - 1] == rows[i];
      r
  }

  /** A row-by-row image of `rows` holds the image of every row and nothing else. */
  lemma ProjectMembers(rows: seq<ActionRow>, r: seq<HandAction>)
    requires |r| == |rows| && forall i :: 0 <= i < |rows| ==> r[i] == ToHandAction(rows[i])
    ensures forall a :: a in rows ==> ToHandAction(a) in r
    ensures forall x :: x in r ==> exists a :: a in rows && x == ToHandAction(a)
  {
    forall a | a in rows ensures ToHandAction(a) in r {
      var i :| 0 <= i < |rows| && rows[i] == a;
      assert r[i] == ToHandAction(a);
    }
    forall x | x in r ensures exists a :: a in rows && x == ToHandAction(a) {
      var i :| 0 <= i < |r| && r[i] == x;
      assert rows[i] in rows;
    }
  }

  // ---------------------------------------------------------------------------
  // WHERE clauses

  /**
   * The conjunction of the filters the queries use: equality on game, hand and
   * round, "the seat this player holds in that game", `ActionID > k`, and a
   * case-insensitive `LIKE '%pattern%'` on the verb.
   */
  datatype Where = Where(
    game: Option<int>,
    hand: Option<int>,
    round: Option<int>,
    seats: Option<map<int, int>>,
    after: Option<int>,
    verbLike: Option<string>)

  predicate Satisfies(a: ActionRow, w: Where)
  {
    && (w.game.Some? ==> a.gameId == w.game.value)
    && (w.hand.Some? ==> a.handId == w.hand.value)
    && (w.round.Some? ==> a.round == w.round.value)
    && (w.seats.Some? ==> a.gameId in w.seats.value && a.seat == w.seats.value[a.gameId])
    && (w.after.Some? ==> a.actionId > w.after.value)
    && (w.verbLike.Some? ==> Contains(Lower(a.verb), w.verbLike.value))
  }

  /** `SELECT * ... WHERE w`: exactly the rows satisfying `w`, in their original order. */
  function Select(rows: seq<ActionRow>, w: Where): (r: seq<ActionRow>)
    ensures forall a :: a in r <==> a in rows && Satisfies(a, w)
    ensures IdsIncreasing(rows) ==> IdsIncreasing(r)
    ensures |r| <= |rows|
  {
    if rows == [] then []
    else
      var tail := Select(rows[1..], w);
      assert IdsIncreasing(rows) ==> forall b :: b in tail ==> rows[0].actionId < b.actionId by {
        if IdsIncreasing(rows) {
          IncreasingSplit(rows);
        }
      }
      if Satisfies(rows[0], w) then [rows[0]] + tail else tail
  }

  /** An increasing sequence is its smallest row followed by an increasing rest. */
  lemma IncreasingSplit(rows: seq<ActionRow>)
    requires IdsIncreasing(rows) && rows != []
    ensures IdsIncreasing(rows[1..])
    ensures forall b :: b in rows[1..] ==> rows[0].actionId < b.actionId
  {
    forall p, q | 0 <= p < q < |rows[1..]| ensures rows[1..][p].actionId < rows[1..][q].actionId {
      assert rows[1..][p] == rows[p + 1] && rows[1..][q] == rows[q + 1];
    }
    forall b | b in rows[1..] ensures rows[0].actionId < b.actionId {
      var j :| 0 <= j < |rows[1..]| && rows[1..][j] == b;
      assert rows[j + 1] == b;
    }
  }

  /** Two sequences with the same multiset of elements have the same members. */
  lemma SameMembers<T>(r: seq<T>, s: seq<T>)
    requires multiset(r) == multiset(s)
    ensures forall a :: a in r <==> a in s
  {
    forall a ensures a in r <==> a in s {
      assert a in r <==> a in multiset(r);
      assert a in s <==> a in multiset(s);
    }
  }

  /** A member of a non-empty sequence is its head or a member of its tail. */
  lemma HeadOrTail<T>(s: seq<T>)
    requires s != []
    ensures forall a :: a in s <==> a == s[0] || a in s[1..]
  {
    assert s == [s[0]] + s[1..];
  }

  /** A sequence without members is empty. */
  lemma EmptyIfNoMember<T>(s: seq<T>)
    ensures (forall x :: x !in s) ==> s == []
  {
    if s != [] {
      assert s[0] in s;
    }
  }

  /**
   * Two increasing sequences with the same members are equal: the membership
   * contract of `Select` pins its result down completely.
   */

  lemma {:induction false} IncreasingDeterminedByMembers(r1: seq<ActionRow>, r2: seq<ActionRow>)
    requires IdsIncreasing(r1) && IdsIncreasing(r2)
    requires forall a :: a in r1 <==> a in r2
    ensures r1 == r2
  {
    EmptyIfNoMember(r1);
    EmptyIfNoMember(r2);
    if r1 != [] && r2 != [] {
      assert r1 == [r1[0]] + r1[1..] && r2 == [r2[0]] + r2[1..];
      HeadOrTail(r1);
      HeadOrTail(r2);
      IncreasingSplit(r1);
      IncreasingSplit(r2);
      assert r1[0] == r2[0];
      assert forall a :: a in r1[1..] <==> a in r2[1..];
      IncreasingDeterminedByMembers(r1[1..], r2[1..]);
    }
  }

  // ---------------------------------------------------------------------------
  // ORDER BY

  ghost predicate TotalPreorder<T(!new)>(le: (T, T) -> bool)
  {
    && (forall a, b :: le(a, b) || le(b, a))
    && (forall a, b, c :: le(a, b) && le(b, c) ==> le(a, c))
  }

  ghost predicate SortedBy<T>(s: seq<T>, le: (T, T) -> bool)
  {
    forall i, j :: 0 <= i < j < |s| ==> le(s[i], s[j])
  }

  function Insert<T(!new)>(x: T, s: seq<T>, le: (T, T) -> bool): (r: seq<T>)
    requires TotalPreorder(le) && SortedBy(s, le)
    ensures SortedBy(r, le)
    ensures multiset(r) == multiset(s) + multiset{x}
  {
    if s == [] then [x]
    else if le(x, s[0]) then [x] + s
    else
      assert s == [s[0]] + s[1..];
      var t := Insert(x, s[1..], le);
      assert forall y :: y in t ==> le(s[0], y) by {
        forall y | y in t ensures le(s[0], y) {
          assert y in multiset(t);
          if y != x {
            assert y in multiset(s[1..]);
            var j :| 0 <= j < |s[1..]| && s[1..][j] == y;
            assert s[j + 1] == y;
          }
        }
      }
      [s[0]] + t
  }

  /** `ORDER BY`: a permutation of `s` that is sorted by `le`. */
  function SortBy<T(!new)>(s: seq<T>, le: (T, T) -> bool): (r: seq<T>)
    requires TotalPreorder(le)
    ensures SortedBy(r, le)
    ensures multiset(r) == multiset(s)
  {
    if s == [] then []
    else
      assert s == [s[0]] + s[1..];
      Insert(s[0], SortBy(s[1..], le), le)
  }

  /** `ORDER BY UniqueGameID, HandID, ActionID`. */
  predicate HandOrderLe(a: ActionRow, b: ActionRow)
  {
    || a.gameId < b.gameId
    || (a.gameId == b.gameId && a.handId < b.handId)
    || (a.gameId == b.gameId && a.handId == b.handId && a.actionId <= b.actionId)
  }

  /** `ORDER BY Seat`. */
  predicate SeatLe(a: PlayerRow, b: PlayerRow)
  {
    a.seat <= b.seat
  }

  lemma HandOrderIsTotal()
    ensures TotalPreorder(HandOrderLe)
  {
  }

  /** `ORDER BY UniqueGameID, HandID, ActionID` of some rows: the same rows, sorted. */
  function SortByHand(rows: seq<ActionRow>): (r: seq<ActionRow>)
    ensures SortedBy(r, HandOrderLe) && multiset(r) == multiset(rows)
    ensures forall a :: a in r <==> a in rows
  {
    HandOrderIsTotal();
    var r := SortBy(rows, HandOrderLe);
    SameMembers(r, rows);
    r
  }

  lemma SeatOrderIsTotal()
    ensures TotalPreorder(SeatLe)
  {
  }

  // ---------------------------------------------------------------------------
  // Queries on the Player and Game tables

  /** The names in the `Player` table. */
  ghost function PlayerNames(db: LogFile): set<string>
  {
    set p | p in db.players :: p.name
  }

  /** The games in which `name` has a `Player` row. */
  ghost function GamesOf(players: seq<PlayerRow>, name: string): set<int>
  {
    set p | p in players && p.name == name :: p.gameId
  }

  /** `get_players`: every player name with the set of games it played. */
  method GetPlayers(db: LogFile) returns (players: map<string, set<int>>)
    ensures players.Keys == PlayerNames(db)
    ensures forall n :: n in players ==> players[n] == GamesOf(db.players, n)
  {
    players := map[];
    for i := 0 to |db.players|
      invariant players.Keys == set p | p in db.players[..i] :: p.name
      invariant forall n :: n in players ==> players[n] == GamesOf(db.players[..i], n)
    {
      var row := db.players[i];
      assert db.players[..i + 1] == db.players[..i] + [row];
      if row.name !in players {
        players := players[row.name := {}];
      }
      players := players[row.name := players[row.name] + {row.gameId}];
    }
    assert db.players[..|db.players|] == db.players;
  }

  /**
   * The `{game: seat}` dictionary built from the `Player` rows of `name`: a game
   * is a key exactly when such a row exists, and the seat is that of one of them
   * (the last one, as a dictionary comprehension keeps it).
   */
  function SeatsIn(players: seq<PlayerRow>, name: string): (m: map<int, int>)
    ensures forall g :: g in m <==> exists p :: p in players && p.name == name && p.gameId == g
    ensures forall g :: g in m ==> PlayerRow(name, g, m[g]) in players
  {
    if players == [] then map[]
    else
      var init := players[..|players| - 1];
      var last := players[|players| - 1];
      assert players == init + [last];
      var m := SeatsIn(init, name);
      if last.name == name then m[last.gameId := last.seat] else m
  }

  /** `get_player_seats`. */
  function GetPlayerSeats(db: LogFile, name: string): map<int, int>
  {
    SeatsIn(db.players, name)
  }

  /** The `Player` rows of game `g`. */
  function PlayersOfGame(players: seq<PlayerRow>, g: int): (r: seq<PlayerRow>)
    ensures forall p :: p in r <==> p in players && p.gameId == g
    ensures multiset(r) <= multiset(players)
  {
    if players == [] then []
    else
      assert players == [players[0]] + players[1..];
      (if players[0].gameId == g then [players[0]] else []) + PlayersOfGame(players[1..], g)
  }

  /** The largest element of a non-empty sequence (`MAX(...)`). */
  function MaxOf(s: seq<int>): (m: int)
    requires |s| > 0
    ensures m in s
    ensures forall x :: x in s ==> x <= m
  {
    if |s| == 1 then s[0]
    else
      assert s == [s[0]] + s[1..];
      var t := MaxOf(s[1..]);
      if s[0] >= t then s[0] else t
  }

  /** The `Player` rows of the game with the highest id, `ORDER BY Seat`; none without a game. */
  function TablePlayerRows(db: LogFile): (rows: seq<PlayerRow>)
    ensures db.games == [] ==> rows == []
    ensures db.games != [] ==> SortedBy(rows, SeatLe)
    ensures db.games != [] ==> multiset(rows) == multiset(PlayersOfGame(db.players, MaxOf(db.games)))
  {
    if db.games == [] then []
    else
      SeatOrderIsTotal();
      SortBy(PlayersOfGame(db.players, MaxOf(db.games)), SeatLe)
  }

  /** The `Name` column of a sequence of `Player` rows. */
  function Names(rows: seq<PlayerRow>): (r: seq<string>)
    ensures |r| == |rows|
    ensures forall i :: 0 <= i < |rows| ==> r[i] == rows[i].name
    ensures forall n :: n in r <==> exists p :: p in rows && p.name == n
  {
    if rows == [] then []
    else
      assert rows == [rows[0]] + rows[1..];
      [rows[0].name] + Names(rows[1..])
  }

  /**
   * `get_current_table_players`: the names seated in the game with the highest id,
   * ordered by seat; the empty list when the log has no game.
   */
  function GetCurrentTablePlayers(db: LogFile): (r: seq<string>)
    ensures db.games == [] ==> r == []
    ensures db.games != [] ==> forall n :: n in r <==>
      exists p :: p in db.players && p.gameId == MaxOf(db.games) && p.name == n
    ensures db.games != [] ==> exists rows ::
      && SortedBy(rows, SeatLe)
      && multiset(rows) == multiset(PlayersOfGame(db.players, MaxOf(db.games)))
      && r == Names(rows)
  {
    var rows := TablePlayerRows(db);
    assert db.games != [] ==> forall p :: p in rows <==> p in db.players && p.gameId == MaxOf(db.games) by {
      if db.games != [] {
        forall p ensures p in rows <==> p in db.players && p.gameId == MaxOf(db.games) {
          assert p in rows <==> p in multiset(rows);
        }
      }
    }
    Names(rows)
  }

  // ---------------------------------------------------------------------------
  // Queries on the Action table

  /** `get_actions(game_id, hand_id, betting_round)`: the matching actions, `ORDER BY ActionID`. */
  function GetActions(db: LogFile, game: Option<int>, hand: Option<int>, round: Option<int>): (r: seq<HandAction>)
    ensures forall x :: x in r ==>
      && (game.Some? ==> x.gameId == game.value)
      && (hand.Some? ==> x.handId == hand.value)
      && (round.Some? ==> x.bettingRound == round.value)
    ensures forall a :: a in db.actions && Satisfies(a, Where(game, hand, round, None, None, None)) ==>
      ToHandAction(a) in r
    ensures exists rows ::
      && IdsIncreasing(rows)
      && (forall a :: a in rows <==> a in db.actions && Satisfies(a, Where(game, hand, round, None, None, None)))
      && r == Project(rows)
  {
    var sel := Select(db.actions, Where(game, hand, round, None, None, None));
    ProjectMembers(sel, Project(sel));
    Project(sel)
  }

  /**
   * The rows at the seat `name` holds in each of its games (round 0 only when
   * `preflopOnly`), `ORDER BY UniqueGameID, HandID, ActionID`; none when the player
   * has no game.
   */
  function PlayerActionRows(db: LogFile, name: string, preflopOnly: bool): (r: seq<ActionRow>)
    ensures SortedBy(r, HandOrderLe)
    ensures forall a :: a in r <==>
      && a in db.actions
      && (preflopOnly ==> a.round == 0)
      && a.gameId in GetPlayerSeats(db, name)
      && a.seat == GetPlayerSeats(db, name)[a.gameId]
    ensures multiset(r) ==
      multiset(Select(db.actions, Where(None, None, if preflopOnly then Some(0) else None,
                                        Some(GetPlayerSeats(db, name)), None, None)))
  {
    var seats := GetPlayerSeats(db, name);
    var sel := Select(db.actions, Where(None, None, if preflopOnly then Some(0) else None, Some(seats), None, None));
    if seats == map[] then
      EmptyIfNoMember(sel);
      []
    else
      SortByHand(sel)
  }

  /** `get_preflop_actions_by_player`. */
  function GetPreflopActionsByPlayer(db: LogFile, name: string): (r: seq<HandAction>)
    ensures forall x :: x in r ==> x.bettingRound == 0
  {
    var rows := PlayerActionRows(db, name, true);
    ProjectMembers(rows, Project(rows));
    Project(rows)
  }

  /** `get_all_actions_by_player`. */
  function GetAllActionsByPlayer(db: LogFile, name: string): seq<HandAction>
  {
    Project(PlayerActionRows(db, name, false))
  }

  /** The hands in which the seat `name` holds in that game has at least one action. */
  ghost function HandsPlayed(db: LogFile, name: string): set<HandKey>
  {
    var seats := GetPlayerSeats(db, name);
    set a | a in db.actions && a.gameId in seats && a.seat == seats[a.gameId] :: (a.gameId, a.handId)
  }

  /** `get_hands_played_by_player`: the (game, hand) pairs with an action at the player's seat. */
  method GetHandsPlayedByPlayer(db: LogFile, name: string) returns (hands: set<HandKey>)
    ensures hands == HandsPlayed(db, name)
    ensures forall g, h :: (g, h) in hands <==>
      exists a :: a in db.actions && a.gameId == g && a.handId == h &&
        g in GetPlayerSeats(db, name) && a.seat == GetPlayerSeats(db, name)[g]
    ensures GetPlayerSeats(db, name) == map[] ==> hands == {}
  {
    hands := {};
    var playerGames := GetPlayerSeats(db, name);
    if playerGames == map[] {
      return;
    }
    var rows := db.actions;
    for i := 0 to |rows|
      invariant hands == set a | a in rows[..i] && a.gameId in playerGames && a.seat == playerGames[a.gameId] ::
        (a.gameId, a.handId)
    {
      assert rows[..i + 1] == rows[..i] + [rows[i]];
      if rows[i].gameId in playerGames && rows[i].seat == playerGames[rows[i].gameId] {
        hands := hands + {(rows[i].gameId, rows[i].handId)};
      }
    }
    assert rows[..|rows|] == rows;
  }

  /** `get_last_processed_action_id`: the largest ActionID, 0 for an empty table. */
  function GetLastProcessedActionId(db: LogFile): (r: int)
    ensures |db.actions| == 0 ==> r == 0
    ensures |db.actions| > 0 ==> exists a :: a in db.actions && a.actionId == r
    ensures forall a :: a in db.actions ==> a.actionId <= r
  {
    if |db.actions| == 0 then 0
    else
      var last := db.actions[|db.actions| - 1];
      assert forall a :: a in db.actions ==> a.actionId <= last.actionId by {
        forall a | a in db.actions ensures a.actionId <= last.actionId {
          var i :| 0 <= i < |db.actions| && db.actions[i] == a;
        }
      }
      last.actionId
  }

  /**
   * The rows with ActionID above `k`, by ActionID. Since ids increase along the
   * table they are a suffix of it: what was appended after the row with id `k`.
   */
  function ActionRowsSince(db: LogFile, k: int): (r: seq<ActionRow>)
    ensures IdsIncreasing(r)
    ensures forall a :: a in r <==> a in db.actions && a.actionId > k
    ensures exists i :: 0 <= i <= |db.actions| && r == db.actions[i..]
  {
    var rows := db.actions;
    var i := FirstAfter(rows, k);
    SuffixIsSelect(rows, k);
    rows[i..]
  }

  /** In an increasing table, the rows above `k` are the suffix starting at `FirstAfter`. */
  lemma SuffixIsSelect(rows: seq<ActionRow>, k: int)
    requires IdsIncreasing(rows)
    ensures rows[FirstAfter(rows, k)..] == Select(rows, Where(None, None, None, None, Some(k), None))
  {
    var i := FirstAfter(rows, k);
    SuffixMembers(rows, k);
    SuffixIncreasing(rows, i);
    IncreasingDeterminedByMembers(rows[i..], Select(rows, Where(None, None, None, None, Some(k), None)));
  }

  /** The suffix from `FirstAfter` holds exactly the rows above `k`. */
  lemma SuffixMembers(rows: seq<ActionRow>, k: int)
    requires IdsIncreasing(rows)
    ensures forall a :: a in rows[FirstAfter(rows, k)..] <==> a in rows && a.actionId > k
  {
    var i := FirstAfter(rows, k);
    forall a ensures a in rows[i..] <==> a in rows && a.actionId > k {
      if a in rows[i..] {
        var j :| 0 <= j < |rows[i..]| && rows[i..][j] == a;
        assert rows[i + j] == a;
      }
      if a in rows && a.actionId > k {
        var j :| 0 <= j < |rows| && rows[j] == a;
        assert rows[i..][j - i] == a;
      }
    }
  }

  /** A suffix of an increasing sequence is increasing. */
  lemma SuffixIncreasing(rows: seq<ActionRow>, i: int)
    requires IdsIncreasing(rows) && 0 <= i <= |rows|
    ensures IdsIncreasing(rows[i..])
  {
    forall p, q | 0 <= p < q < |rows[i..]| ensures rows[i..][p].actionId < rows[i..][q].actionId {
      assert rows[i..][p] == rows[i + p] && rows[i..][q] == rows[i + q];
    }
  }

  /** The first index whose ActionID is above `k` (or the length). */
  function FirstAfter(rows: seq<ActionRow>, k: int): (i: nat)
    requires IdsIncreasing(rows)
    ensures i <= |rows|
    ensures forall j :: 0 <= j < i ==> rows[j].actionId <= k
    ensures forall j :: i <= j < |rows| ==> rows[j].actionId > k
  {
    if rows == [] then 0
    else if rows[0].actionId > k then 0
    else
      IncreasingSplit(rows);
      var t := FirstAfter(rows[1..], k);
      assert forall j :: 1 <= j <= t ==> rows[j].actionId <= k by {
        forall j | 1 <= j <= t ensures rows[j].actionId <= k {
          assert rows[1..][j - 1] == rows[j];
        }
      }
      assert forall j :: t + 1 <= j < |rows| ==> rows[j].actionId > k by {
        forall j | t + 1 <= j < |rows| ensures rows[j].actionId > k {
          assert rows[1..][j - 1] == rows[j];
        }
      }
      t + 1
  }

  /** `get_actions_since`: the actions recorded after ActionID `k`, by ActionID. */
  function GetActionsSince(db: LogFile, k: int): seq<HandAction>
  {
    Project(ActionRowsSince(db, k))
  }

  /** `hand_has_showdown`: the hand has at least one round-4 action. */
  function HandHasShowdown(db: LogFile, g: int, h: int): (b: bool)
    ensures b <==> exists a :: a in db.actions && a.gameId == g && a.handId == h && a.round == 4
  {
    var sel := Select(db.actions, Where(Some(g), Some(h), Some(4), None, None, None));
    assert sel != [] ==> sel[0] in sel;
    |sel| > 0
  }

  /** A round-4 row of hand (g, h) whose verb contains "wins", ignoring case. */
  predicate IsWinRow(db: LogFile, g: int, h: int, a: ActionRow)
  {
    a in db.actions && a.gameId == g && a.handId == h && a.round == 4 && Contains(Lower(a.verb), "wins")
  }

  /**
   * `get_showdown_winner`: the seat of a round-4 action of the hand whose verb
   * contains "wins" (case-insensitively, as `LIKE` compares), or none.
   */
  function GetShowdownWinner(db: LogFile, g: int, h: int): (r: Option<int>)
    ensures r.None? <==> !exists a :: IsWinRow(db, g, h, a)
    ensures r.Some? ==> exists a :: IsWinRow(db, g, h, a) && a.seat == r.value
  {
    var sel := Select(db.actions, Where(Some(g), Some(h), Some(4), None, None, Some("wins")));
    if sel == [] then None
    else
      assert sel[0] in sel;
      assert IsWinRow(db, g, h, sel[0]);
      Some(sel[0].seat)
  }
}
