/**
 * The value types of the tracker: one recorded action, and the per-player record of
 * sixteen counters with the percentages and the aggression factor derived from them.
 */
module Models {
  import opened Wrappers

  /**
   * One action of one seat in one hand. `bettingRound` is 0 for preflop, 1 flop,
   * 2 turn, 3 river and 4 showdown; `action` is the free-text verb label.
   */
  datatype HandAction = HandAction(
    handId: int,
    gameId: int,
    bettingRound: int,
    playerSeat: int,
    action: string,
    amount: Option<int>)

  /**
   * The sixteen counters of one player. They are `int`, not `nat`: the live view
   * and the committed delta subtract a baseline field by field without clamping.
   */
  datatype PlayerStats = PlayerStats(
    playerName: string,
    totalHands: int,
    vpipHands: int,
    pfrHands: int,
    totalBets: int,
    totalCalls: int,
    threeBetOpportunities: int,
    threeBetMade: int,
    cbetOpportunities: int,
    cbetMade: int,
    foldToThreeBetOpportunities: int,
    foldToThreeBetMade: int,
    foldToCbetOpportunities: int,
    foldToCbetMade: int,
    handsSawFlop: int,
    handsWentToShowdown: int,
    showdownsWon: int)

  /** The number of counters in a record. */
  const Counters: nat := 16

  /** The `i`-th counter, in declaration order. */
  function Counter(s: PlayerStats, i: nat): int
    requires i < Counters
  {
    match i
    case 0 => s.totalHands
    case 1 => s.vpipHands
    case 2 => s.pfrHands
    case 3 => s.totalBets
    case 4 => s.totalCalls
    case 5 => s.threeBetOpportunities
    case 6 => s.threeBetMade
    case 7 => s.cbetOpportunities
    case 8 => s.cbetMade
    case 9 => s.foldToThreeBetOpportunities
    case 10 => s.foldToThreeBetMade
    case 11 => s.foldToCbetOpportunities
    case 12 => s.foldToCbetMade
    case 13 => s.handsSawFlop
    case 14 => s.handsWentToShowdown
    case _ => s.showdownsWon
  }

  /** Two records with the same name and the same sixteen counters are the same record. */
  lemma CountersDetermine(a: PlayerStats, b: PlayerStats)
    requires a.playerName == b.playerName
    requires forall i :: 0 <= i < Counters ==> Counter(a, i) == Counter(b, i)
    ensures a == b
  {
    assert Counter(a, 0) == Counter(b, 0) && Counter(a, 1) == Counter(b, 1);
    assert Counter(a, 2) == Counter(b, 2) && Counter(a, 3) == Counter(b, 3);
    assert Counter(a, 4) == Counter(b, 4) && Counter(a, 5) == Counter(b, 5);
    assert Counter(a, 6) == Counter(b, 6) && Counter(a, 7) == Counter(b, 7);
    assert Counter(a, 8) == Counter(b, 8) && Counter(a, 9) == Counter(b, 9);
    assert Counter(a, 10) == Counter(b, 10) && Counter(a, 11) == Counter(b, 11);
    assert Counter(a, 12) == Counter(b, 12) && Counter(a, 13) == Counter(b, 13);
    assert Counter(a, 14) == Counter(b, 14) && Counter(a, 15) == Counter(b, 15);
  }

  /** `PlayerStats(player_name=name)`: every counter starts at zero. */
  function NewPlayerStats(name: string): (s: PlayerStats)
    ensures s.playerName == name
    ensures forall i :: 0 <= i < Counters ==> Counter(s, i) == 0
  {
    PlayerStats(name, 0, 0, 0, 0, 0, 0, 0, 0, 0, 0, 0, 0, 0, 0, 0, 0)
  }

  /** Field-wise sum, carrying the name of `b` (the new record of a merge). */
  function Sum(a: PlayerStats, b: PlayerStats): (r: PlayerStats)
    ensures r.playerName == b.playerName
    ensures forall i :: 0 <= i < Counters ==> Counter(r, i) == Counter(a, i) + Counter(b, i)
  {
    PlayerStats(
      b.playerName,
      a.totalHands + b.totalHands,
      a.vpipHands + b.vpipHands,
      a.pfrHands + b.pfrHands,
      a.totalBets + b.totalBets,
      a.totalCalls + b.totalCalls,
      a.threeBetOpportunities + b.threeBetOpportunities,
      a.threeBetMade + b.threeBetMade,
      a.cbetOpportunities + b.cbetOpportunities,
      a.cbetMade + b.cbetMade,
      a.foldToThreeBetOpportunities + b.foldToThreeBetOpportunities,
      a.foldToThreeBetMade + b.foldToThreeBetMade,
      a.foldToCbetOpportunities + b.foldToCbetOpportunities,
      a.foldToCbetMade + b.foldToCbetMade,
      a.handsSawFlop + b.handsSawFlop,
      a.handsWentToShowdown + b.handsWentToShowdown,
      a.showdownsWon + b.showdownsWon)
  }

  /** Field-wise difference `a - b`, carrying the name of `a`; nothing is clamped at zero. */
  function Diff(a: PlayerStats, b: PlayerStats): (r: PlayerStats)
    ensures r.playerName == a.playerName
    ensures forall i :: 0 <= i < Counters ==> Counter(r, i) == Counter(a, i) - Counter(b, i)
  {
    PlayerStats(
      a.playerName,
      a.totalHands - b.totalHands,
      a.vpipHands - b.vpipHands,
      a.pfrHands - b.pfrHands,
      a.totalBets - b.totalBets,
      a.totalCalls - b.totalCalls,
      a.threeBetOpportunities - b.threeBetOpportunities,
      a.threeBetMade - b.threeBetMade,
      a.cbetOpportunities - b.cbetOpportunities,
      a.cbetMade - b.cbetMade,
      a.foldToThreeBetOpportunities - b.foldToThreeBetOpportunities,
      a.foldToThreeBetMade - b.foldToThreeBetMade,
      a.foldToCbetOpportunities - b.foldToCbetOpportunities,
      a.foldToCbetMade - b.foldToCbetMade,
      a.handsSawFlop - b.handsSawFlop,
      a.handsWentToShowdown - b.handsWentToShowdown,
      a.showdownsWon - b.showdownsWon)
  }

  /** A map from player name to record in which every record carries its own key. */
  ghost predicate KeyedByName(m: map<string, PlayerStats>)
  {
    forall n :: n in m ==> m[n].playerName == n
  }

  // ---------------------------------------------------------------------------
  // Derived metrics

  /**
   * A guarded percentage: 0 when there is no opportunity, otherwise exactly
   * `made / opportunity * 100`, which lies in [0, 100] whenever `0 <= made <= opportunity`.
   */
  function Percent(made: int, opportunity: int): (r: real)
    ensures opportunity == 0 ==> r == 0.0
    ensures opportunity != 0 ==> r * (opportunity as real) == (made as real) * 100.0
    ensures 0 <= made <= opportunity ==> 0.0 <= r <= 100.0
  {
    if opportunity == 0 then 0.0
    else
      var q := made as real / opportunity as real;
      assert q * (opportunity as real) == made as real;
      assert 0 <= made <= opportunity ==> 0.0 <= q <= 1.0;
      q * 100.0
  }

  /** VPIP %: hands with a voluntary preflop investment among all hands. */
  function Vpip(s: PlayerStats): (r: real)
    ensures s.totalHands == 0 ==> r == 0.0
    ensures s.totalHands != 0 ==> r * (s.totalHands as real) == (s.vpipHands as real) * 100.0
    ensures 0 <= s.vpipHands <= s.totalHands ==> 0.0 <= r <= 100.0
  {
    Percent(s.vpipHands, s.totalHands)
  }

  /** PFR %: hands with a preflop raise among all hands. */
  function Pfr(s: PlayerStats): (r: real)
    ensures s.totalHands == 0 ==> r == 0.0
    ensures s.totalHands != 0 ==> r * (s.totalHands as real) == (s.pfrHands as real) * 100.0
    ensures 0 <= s.pfrHands <= s.totalHands ==> 0.0 <= r <= 100.0
  {
    Percent(s.pfrHands, s.totalHands)
  }

  /** 3-Bet %: 3-bets made among 3-bet opportunities. */
  function ThreeBet(s: PlayerStats): (r: real)
    ensures s.threeBetOpportunities == 0 ==> r == 0.0
    ensures s.threeBetOpportunities != 0 ==>
      r * (s.threeBetOpportunities as real) == (s.threeBetMade as real) * 100.0
    ensures 0 <= s.threeBetMade <= s.threeBetOpportunities ==> 0.0 <= r <= 100.0
  {
    Percent(s.threeBetMade, s.threeBetOpportunities)
  }

  /** C-Bet %: continuation bets made among c-bet opportunities. */
  function Cbet(s: PlayerStats): (r: real)
    ensures s.cbetOpportunities == 0 ==> r == 0.0
    ensures s.cbetOpportunities != 0 ==> r * (s.cbetOpportunities as real) == (s.cbetMade as real) * 100.0
    ensures 0 <= s.cbetMade <= s.cbetOpportunities ==> 0.0 <= r <= 100.0
  {
    Percent(s.cbetMade, s.cbetOpportunities)
  }

  /** Fold to 3-Bet %: folds among the times the player's raise was re-raised. */
  function FoldToThreeBet(s: PlayerStats): (r: real)
    ensures s.foldToThreeBetOpportunities == 0 ==> r == 0.0
    ensures s.foldToThreeBetOpportunities != 0 ==>
      r * (s.foldToThreeBetOpportunities as real) == (s.foldToThreeBetMade as real) * 100.0
    ensures 0 <= s.foldToThreeBetMade <= s.foldToThreeBetOpportunities ==> 0.0 <= r <= 100.0
  {
    Percent(s.foldToThreeBetMade, s.foldToThreeBetOpportunities)
  }

  /** Fold to C-Bet %: folds among the times the player faced a continuation bet. */
  function FoldToCbet(s: PlayerStats): (r: real)
    ensures s.foldToCbetOpportunities == 0 ==> r == 0.0
    ensures s.foldToCbetOpportunities != 0 ==>
      r * (s.foldToCbetOpportunities as real) == (s.foldToCbetMade as real) * 100.0
    ensures 0 <= s.foldToCbetMade <= s.foldToCbetOpportunities ==> 0.0 <= r <= 100.0
  {
    Percent(s.foldToCbetMade, s.foldToCbetOpportunities)
  }

  /** WTSD %: showdowns among the hands that saw the flop (not among all hands). */
  function Wtsd(s: PlayerStats): (r: real)
    ensures s.handsSawFlop == 0 ==> r == 0.0
    ensures s.handsSawFlop != 0 ==> r * (s.handsSawFlop as real) == (s.handsWentToShowdown as real) * 100.0
    ensures 0 <= s.handsWentToShowdown <= s.handsSawFlop ==> 0.0 <= r <= 100.0
  {
    Percent(s.handsWentToShowdown, s.handsSawFlop)
  }

  /** W$SD %: showdowns won among the showdowns reached (not among all hands). */
  function Wsd(s: PlayerStats): (r: real)
    ensures s.handsWentToShowdown == 0 ==> r == 0.0
    ensures s.handsWentToShowdown != 0 ==>
      r * (s.handsWentToShowdown as real) == (s.showdownsWon as real) * 100.0
    ensures 0 <= s.showdownsWon <= s.handsWentToShowdown ==> 0.0 <= r <= 100.0
  {
    Percent(s.showdownsWon, s.handsWentToShowdown)
  }

  /** A ratio that is either a finite real or the infinite sentinel `float('inf')`. */
  datatype Ratio = Finite(value: real) | Infinite

  /** Python's `<` between two such ratios: infinity is above every finite value. */
  predicate RatioLess(a: Ratio, b: Ratio)
  {
    match (a, b)
    case (Finite(x), Finite(y)) => x < y
    case (Finite(_), Infinite) => true
    case (Infinite, _) => false
  }

  /**
   * AF: aggressive actions per call. Infinite exactly when there are no calls and at
   * least one bet; 0 when there are neither; otherwise the exact quotient.
   */
  function Af(s: PlayerStats): (r: Ratio)
    ensures r.Infinite? <==> s.totalCalls == 0 && s.totalBets > 0
    ensures s.totalCalls == 0 && s.totalBets <= 0 ==> r == Finite(0.0)
    ensures s.totalCalls != 0 ==> r.Finite? && r.value * (s.totalCalls as real) == s.totalBets as real
    ensures s.totalCalls > 0 && s.totalBets >= 0 ==> r.Finite? && r.value >= 0.0
  {
    if s.totalCalls == 0 then
      if s.totalBets > 0 then Infinite else Finite(0.0)
    else
      Finite(s.totalBets as real / s.totalCalls as real)
  }

  /** The sentinel compares above every finite ratio and below none. */
  lemma InfiniteAboveFinite(x: real)
    ensures RatioLess(Finite(x), Infinite) && !RatioLess(Infinite, Finite(x))
  {
  }

  /** A fresh record reports 0 for every percentage and a finite AF of 0. */
  lemma NewRecordMetrics(name: string)
    ensures var s := NewPlayerStats(name);
      Vpip(s) == 0.0 && Pfr(s) == 0.0 && ThreeBet(s) == 0.0 && Cbet(s) == 0.0 &&
      FoldToThreeBet(s) == 0.0 && FoldToCbet(s) == 0.0 && Wtsd(s) == 0.0 && Wsd(s) == 0.0 &&
      Af(s) == Finite(0.0)
  {
    var s := NewPlayerStats(name);
    assert Counter(s, 0) == 0 && Counter(s, 3) == 0 && Counter(s, 4) == 0;
    assert Counter(s, 5) == 0 && Counter(s, 7) == 0 && Counter(s, 9) == 0;
    assert Counter(s, 11) == 0 && Counter(s, 13) == 0 && Counter(s, 14) == 0;
  }

  /** Adding a record and then subtracting it again gives back the record (under the later name). */
  lemma SumDiffCancel(a: PlayerStats, b: PlayerStats)
    ensures Diff(Sum(a, b), b) == a.(playerName := b.playerName)
  {
    var l, r := Diff(Sum(a, b), b), a.(playerName := b.playerName);
    forall i | 0 <= i < Counters ensures Counter(l, i) == Counter(r, i) {
      assert Counter(r, i) == Counter(a, i);
    }
    CountersDetermine(l, r);
  }

  /** Ordered counters (each numerator at most its denominator) keep every metric in range. */
  lemma OrderedMetricsInRange(s: PlayerStats)
    requires 0 <= s.pfrHands && 0 <= s.vpipHands <= s.totalHands && s.pfrHands <= s.totalHands
    requires 0 <= s.threeBetMade <= s.threeBetOpportunities && 0 <= s.cbetMade <= s.cbetOpportunities
    requires 0 <= s.foldToThreeBetMade <= s.foldToThreeBetOpportunities
    requires 0 <= s.foldToCbetMade <= s.foldToCbetOpportunities
    requires 0 <= s.handsWentToShowdown <= s.handsSawFlop && 0 <= s.showdownsWon <= s.handsWentToShowdown
    requires 0 <= s.totalBets && 0 <= s.totalCalls
    ensures 0.0 <= Vpip(s) <= 100.0 && 0.0 <= Pfr(s) <= 100.0
    ensures 0.0 <= ThreeBet(s) <= 100.0 && 0.0 <= Cbet(s) <= 100.0
    ensures 0.0 <= FoldToThreeBet(s) <= 100.0 && 0.0 <= FoldToCbet(s) <= 100.0
    ensures 0.0 <= Wtsd(s) <= 100.0 && 0.0 <= Wsd(s) <= 100.0
    ensures Af(s).Finite? ==> Af(s).value >= 0.0
  {
  }
}
