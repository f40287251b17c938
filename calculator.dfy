/**
 * The statistics engine: from one log's tables to each player's sixteen counters.
 * Each per-hand analysis is a scanning method proved against a declarative
 * predicate, and a player's record is proved equal to `PlayerStatsOf`, which counts
 * the hands satisfying each predicate.
 */
module Calculator {
  import opened Wrappers
  import opened Text
  import opened Models
  import opened LogParser

  // ---------------------------------------------------------------------------
  // Verb classes (a verb is in a class when its lower-cased text contains one of
  // the class's words)

  const VpipVerbs: seq<string> := ["calls", "bets", "is all in with"]
  /** Preflop "bets" is a raise, the big blind being the opening bet. */
  const PfrVerbs: seq<string> := ["bets", "is all in with"]
  const AggressiveVerbs: seq<string> := ["bets", "is all in with"]
  const PassiveVerbs: seq<string> := ["calls"]
  const RaiseVerbs: seq<string> := ["bets", "is all in with"]
  const FoldVerbs: seq<string> := ["folds"]

  predicate IsBlind(a: HandAction)
  {
    Contains(Lower(a.action), "blind")
  }

  predicate IsRaise(a: HandAction)
  {
    ContainsAny(Lower(a.action), RaiseVerbs)
  }

  predicate IsFold(a: HandAction)
  {
    ContainsAny(Lower(a.action), FoldVerbs)
  }

  /** What a per-hand analysis reports: whether the situation arose, and whether the player did it. */
  datatype Signal = Signal(opportunity: bool, made: bool)

  // ---------------------------------------------------------------------------
  // VPIP and PFR of one hand

  /** A non-blind action of the player with a VPIP verb. */
  ghost predicate HandVpip(own: seq<HandAction>)
  {
    exists k :: 0 <= k < |own| && !IsBlind(own[k]) && ContainsAny(Lower(own[k].action), VpipVerbs)
  }

  /** A non-blind action of the player with a PFR verb. */
  ghost predicate HandPfr(own: seq<HandAction>)
  {
    exists k :: 0 <= k < |own| && !IsBlind(own[k]) && ContainsAny(Lower(own[k].action), PfrVerbs)
  }

  /** The scan of the player's preflop actions in one hand, skipping blind posts. */
  method ScanOwnPreflop(own: seq<HandAction>) returns (vpip: bool, pfr: bool)
    ensures vpip <==> HandVpip(own)
    ensures pfr <==> HandPfr(own)
    ensures pfr ==> vpip
    ensures (forall k :: 0 <= k < |own| ==> IsBlind(own[k])) ==> !vpip && !pfr
  {
    vpip, pfr := false, false;
    for i := 0 to |own|
      invariant vpip <==> exists k :: 0 <= k < i && !IsBlind(own[k]) && ContainsAny(Lower(own[k].action), VpipVerbs)
      invariant pfr <==> exists k :: 0 <= k < i && !IsBlind(own[k]) && ContainsAny(Lower(own[k].action), PfrVerbs)
    {
      var actionType := Lower(own[i].action);
      if Contains(actionType, "blind") {
        continue;
      }
      if ContainsAny(actionType, VpipVerbs) {
        vpip := true;
      }
      if ContainsAny(actionType, PfrVerbs) {
        pfr := true;
      }
    }
  }

  /** Every PFR word is a VPIP word, so a PFR hand is a VPIP hand. */
  lemma PfrImpliesVpip(own: seq<HandAction>)
    ensures HandPfr(own) ==> HandVpip(own)
  {
    assert VpipVerbs[1..] == PfrVerbs;
    if HandPfr(own) {
      var k :| 0 <= k < |own| && !IsBlind(own[k]) && ContainsAny(Lower(own[k].action), PfrVerbs);
      assert ContainsAny(Lower(own[k].action), VpipVerbs);
    }
  }

  // ---------------------------------------------------------------------------
  // 3-bet

  /** An action of the player that is not a blind post. */
  predicate OwnVoluntary(a: HandAction, seat: int)
  {
    a.playerSeat == seat && !IsBlind(a)
  }

  /**
   * The player's first non-blind action in the hand's preflop is preceded by a
   * raise-class action. The preceding actions are never the player's voluntary
   * ones, but they may be the player's own blind posts.
   */
  ghost predicate ThreeBetOpportunity(all: seq<HandAction>, seat: int)
  {
    exists j :: 0 <= j < |all| && OwnVoluntary(all[j], seat) &&
      (forall k :: 0 <= k < j ==> !OwnVoluntary(all[k], seat)) &&
      (exists k :: 0 <= k < j && IsRaise(all[k]))
  }

  /** The 3-bet signal: the opportunity, and a non-blind raise among the player's actions. */
  ghost function ThreeBetSignal(all: seq<HandAction>, seat: int, own: seq<HandAction>): Signal
  {
    var opportunity := ThreeBetOpportunity(all, seat);
    Signal(opportunity, opportunity && exists k :: 0 <= k < |own| && !IsBlind(own[k]) && IsRaise(own[k]))
  }

  /** `_analyze_three_bet`. */
  method AnalyzeThreeBet(all: seq<HandAction>, seat: int, own: seq<HandAction>) returns (s: Signal)
    ensures s == ThreeBetSignal(all, seat, own)
  {
    s := Signal(false, false);
    var raiseBeforePlayer := false;
    var firstIndex: Option<nat> := None;
    for i := 0 to |all|
      invariant firstIndex.None?
      invariant forall k :: 0 <= k < i ==> !OwnVoluntary(all[k], seat)
      invariant raiseBeforePlayer <==> exists k :: 0 <= k < i && IsRaise(all[k])
    {
      if all[i].playerSeat == seat && !IsBlind(all[i]) {
        firstIndex := Some(i);
        break;
      }
      if IsRaise(all[i]) {
        raiseBeforePlayer := true;
      }
    }
    if raiseBeforePlayer && firstIndex.Some? {
      s := s.(opportunity := true);
      for i := 0 to |own|
        invariant !s.made
        invariant forall k :: 0 <= k < i ==> !(!IsBlind(own[k]) && IsRaise(own[k]))
      {
        if IsBlind(own[i]) {
          continue;
        }
        if IsRaise(own[i]) {
          s := s.(made := true);
          break;
        }
      }
    }
  }

  // ---------------------------------------------------------------------------
  // Continuation bet

  /** The flop actions of hand (g, h). */
  function FlopActions(db: LogFile, g: int, h: int): seq<HandAction>
  {
    GetActions(db, Some(g), Some(h), Some(1))
  }

  /** The c-bet signal: the flop has an action, and one of the player's flop actions is a raise. */
  ghost function CbetSignal(flop: seq<HandAction>, seat: int): Signal
  {
    Signal(flop != [], exists k :: 0 <= k < |flop| && flop[k].playerSeat == seat && IsRaise(flop[k]))
  }

  /** The scan of the flop in `_analyze_cbet`. */
  method ScanFlopForCbet(flop: seq<HandAction>, seat: int) returns (s: Signal)
    ensures s == CbetSignal(flop, seat)
  {
    s := Signal(false, false);
    if flop == [] {
      return;
    }
    s := s.(opportunity := true);
    for i := 0 to |flop|
      invariant !s.made
      invariant forall k :: 0 <= k < i ==> !(flop[k].playerSeat == seat && IsRaise(flop[k]))
    {
      if flop[i].playerSeat == seat && IsRaise(flop[i]) {
        s := s.(made := true);
        break;
      }
    }
  }

  /** `_analyze_cbet`: the c-bet signal on the hand's flop actions. */
  method AnalyzeCbet(db: LogFile, g: int, h: int, seat: int) returns (s: Signal)
    ensures s == CbetSignal(FlopActions(db, g, h), seat)
  {
    var flop := FlopActions(db, g, h);
    s := ScanFlopForCbet(flop, seat);
  }

  // ---------------------------------------------------------------------------
  // Fold to 3-bet

  predicate OwnRaise(a: HandAction, seat: int)
  {
    a.playerSeat == seat && IsRaise(a)
  }

  predicate OtherRaise(a: HandAction, seat: int)
  {
    a.playerSeat != seat && IsRaise(a)
  }

  /** Among the first `n` actions, another seat raised after a raise of the player. */
  ghost predicate ReRaisedBefore(all: seq<HandAction>, seat: int, n: int)
    requires n <= |all|
  {
    exists i, j :: 0 <= i < j < n && OwnRaise(all[i], seat) && OtherRaise(all[j], seat)
  }

  /** Action `f` is a fold of the player, not itself a raise, after the player was re-raised. */
  ghost predicate FoldsToThreeBetAt(all: seq<HandAction>, seat: int, f: int)
    requires 0 <= f < |all|
  {
    ReRaisedBefore(all, seat, f) && all[f].playerSeat == seat && !IsRaise(all[f]) && IsFold(all[f])
  }

  lemma ReRaisedMonotone(all: seq<HandAction>, seat: int, m: int, n: int)
    requires m <= n <= |all|
    ensures ReRaisedBefore(all, seat, m) ==> ReRaisedBefore(all, seat, n)
  {
  }

  /**
   * The fold-to-3-bet signal: the player was re-raised somewhere in the preflop,
   * and folded after it.
   */
  ghost function FoldToThreeBetSignal(all: seq<HandAction>, seat: int): Signal
  {
    Signal(ReRaisedBefore(all, seat, |all|), exists f :: 0 <= f < |all| && FoldsToThreeBetAt(all, seat, f))
  }

  /** `_analyze_fold_to_3bet`. */
  method AnalyzeFoldToThreeBet(all: seq<HandAction>, seat: int) returns (s: Signal)
    ensures s == FoldToThreeBetSignal(all, seat)
  {
    s := Signal(false, false);
    var playerRaised := false;
    var threeBetHappened := false;
    for i := 0 to |all|
      invariant playerRaised <==> exists k :: 0 <= k < i && OwnRaise(all[k], seat)
      invariant threeBetHappened <==> ReRaisedBefore(all, seat, i)
      invariant s.opportunity == threeBetHappened
      invariant !s.made
      invariant forall f :: 0 <= f < i ==> !FoldsToThreeBetAt(all, seat, f)
    {
      var a := all[i];
      assert ReRaisedBefore(all, seat, i + 1) <==>
        ReRaisedBefore(all, seat, i) || (OtherRaise(a, seat) && exists k :: 0 <= k < i && OwnRaise(all[k], seat));
      if a.playerSeat == seat {
        if IsRaise(a) {
          playerRaised := true;
        } else if playerRaised && threeBetHappened {
          if IsFold(a) {
            assert FoldsToThreeBetAt(all, seat, i);
            ReRaisedMonotone(all, seat, i, |all|);
            s := s.(made := true);
            break;
          }
        }
      } else {
        if playerRaised && IsRaise(a) {
          threeBetHappened := true;
          s := s.(opportunity := true);
        }
      }
    }
  }

  // ---------------------------------------------------------------------------
  // Fold to continuation bet

  /**
   * The seat of the last preflop raise-class action by another seat than the
   * player's: the one holding the initiative.
   */
  function LastOtherRaiser(pre: seq<HandAction>, seat: int): (r: Option<int>)
    ensures r.None? <==> forall k :: 0 <= k < |pre| ==> !OtherRaise(pre[k], seat)
    ensures r.Some? ==> r.value != seat
    ensures r.Some? ==> exists k :: 0 <= k < |pre| && OtherRaise(pre[k], seat) && pre[k].playerSeat == r.value &&
                                    (forall m :: k < m < |pre| ==> !OtherRaise(pre[m], seat))
  {
    if pre == [] then None
    else
      var init := pre[..|pre| - 1];
      var last := pre[|pre| - 1];
      if OtherRaise(last, seat) then Some(last.playerSeat)
      else
        var r := LastOtherRaiser(init, seat);
        assert forall k :: 0 <= k < |init| ==> init[k] == pre[k];
        r
  }

  /** At flop action `f` the player acts after the preflop raiser has bet on the flop. */
  ghost predicate FacesCbetAt(flop: seq<HandAction>, seat: int, raiser: int, f: int)
    requires 0 <= f < |flop|
  {
    flop[f].playerSeat == seat && exists k :: 0 <= k < f && flop[k].playerSeat == raiser && IsRaise(flop[k])
  }

  /**
   * The flop half of the fold-to-c-bet signal: the opportunity is the player acting
   * after the raiser's flop bet, and the fold is that first such action being a fold.
   */
  ghost function FacingCbetSignal(flop: seq<HandAction>, seat: int, raiser: int): Signal
  {
    Signal(
      exists f :: 0 <= f < |flop| && FacesCbetAt(flop, seat, raiser, f),
      exists f :: 0 <= f < |flop| && FacesCbetAt(flop, seat, raiser, f) &&
        (forall e :: 0 <= e < f ==> !FacesCbetAt(flop, seat, raiser, e)) && IsFold(flop[f]))
  }

  /** The fold-to-c-bet signal: none without another preflop raiser, else the flop half. */
  ghost function FoldToCbetSignal(flop: seq<HandAction>, seat: int, pre: seq<HandAction>): Signal
  {
    var raiser := LastOtherRaiser(pre, seat);
    if raiser.None? then Signal(false, false) else FacingCbetSignal(flop, seat, raiser.value)
  }

  /** The scan of the flop in `_analyze_fold_to_cbet`, once the raiser is known. */
  method ScanFlopForFold(flop: seq<HandAction>, seat: int, raiser: int) returns (s: Signal)
    requires raiser != seat
    ensures s == FacingCbetSignal(flop, seat, raiser)
  {
    s := Signal(false, false);
    var cbetHappened := false;
    for i := 0 to |flop|
      invariant cbetHappened <==> exists k :: 0 <= k < i && flop[k].playerSeat == raiser && IsRaise(flop[k])
      invariant forall e :: 0 <= e < i ==> !FacesCbetAt(flop, seat, raiser, e)
      invariant s == Signal(false, false)
    {
      var a := flop[i];
      if a.playerSeat == raiser {
        if IsRaise(a) {
          cbetHappened := true;
        }
      } else if a.playerSeat == seat && cbetHappened {
        assert FacesCbetAt(flop, seat, raiser, i);
        s := Signal(true, IsFold(a));
        break;
      }
    }
  }

  /** `_analyze_fold_to_cbet`. */
  method AnalyzeFoldToCbet(db: LogFile, g: int, h: int, seat: int, pre: seq<HandAction>) returns (s: Signal)
    ensures s == FoldToCbetSignal(FlopActions(db, g, h), seat, pre)
  {
    s := Signal(false, false);
    var raiser: Option<int> := None;
    for i := 0 to |pre|
      invariant raiser == LastOtherRaiser(pre[..i], seat)
    {
      assert pre[..i + 1][..i] == pre[..i];
      if pre[i].playerSeat != seat && IsRaise(pre[i]) {
        raiser := Some(pre[i].playerSeat);
      }
    }
    assert pre[..|pre|] == pre;
    if raiser.None? {
      return;
    }
    var flop := FlopActions(db, g, h);
    s := ScanFlopForFold(flop, seat, raiser.value);
  }

  /**
   * Made implies opportunity, for each of the four situations; the caller only
   * looks at `made` once `opportunity` holds.
   */
  lemma MadeImpliesOpportunity(all: seq<HandAction>, seat: int, own: seq<HandAction>, flop: seq<HandAction>)
    ensures ThreeBetSignal(all, seat, own).made ==> ThreeBetSignal(all, seat, own).opportunity
    ensures CbetSignal(flop, seat).made ==> CbetSignal(flop, seat).opportunity
    ensures FoldToThreeBetSignal(all, seat).made ==> FoldToThreeBetSignal(all, seat).opportunity
    ensures FoldToCbetSignal(flop, seat, all).made ==> FoldToCbetSignal(flop, seat, all).opportunity
  {
    if FoldToThreeBetSignal(all, seat).made {
      var f :| 0 <= f < |all| && FoldsToThreeBetAt(all, seat, f);
      ReRaisedMonotone(all, seat, f, |all|);
    }
  }

  // ---------------------------------------------------------------------------
  // Grouping by hand

  function KeyOf(a: HandAction): HandKey
  {
    (a.gameId, a.handId)
  }

  /** The actions of hand `k`, in their order. */
  function OfHand(s: seq<HandAction>, k: HandKey): (r: seq<HandAction>)
    ensures forall x :: x in r <==> x in s && KeyOf(x) == k
  {
    if s == [] then []
    else
      var init := s[..|s| - 1];
      var last := s[|s| - 1];
      assert s == init + [last];
      var t := OfHand(init, k);
      if KeyOf(last) == k then t + [last] else t
  }

  /** The hands `s` has an action of. */
  ghost function Keys(s: seq<HandAction>): set<HandKey>
  {
    set x | x in s :: KeyOf(x)
  }

  /** A `defaultdict(list)` lookup that does not insert: the group of `k`, or none. */
  function GroupOf(m: map<HandKey, seq<HandAction>>, k: HandKey): seq<HandAction>
  {
    if k in m then m[k] else []
  }

  /**
   * Appending each action of `s` whose hand is in `keep` to its hand's list: the
   * keys are the kept hands with an action, and each list holds exactly that
   * hand's actions.
   */
  ghost function Grouped(s: seq<HandAction>, keep: set<HandKey>): (m: map<HandKey, seq<HandAction>>)
    ensures forall k :: k in m <==> k in keep && exists x :: x in s && KeyOf(x) == k
    ensures forall k :: k in m ==> forall x :: x in m[k] <==> x in s && KeyOf(x) == k
  {
    map k | k in Keys(s) && k in keep :: OfHand(s, k)
  }

  /** Appending one action extends the list of its own hand and no other. */
  lemma OfHandSnoc(t: seq<HandAction>, x: HandAction, k: HandKey)
    ensures OfHand(t + [x], k) == if KeyOf(x) == k then OfHand(t, k) + [x] else OfHand(t, k)
  {
    var s := t + [x];
    assert s[..|s| - 1] == t;
  }

  /** The expected grouping once `x` is appended: `x` joins its hand's list, if that hand is kept. */
  ghost function GroupedAfter(t: seq<HandAction>, x: HandAction, keep: set<HandKey>): map<HandKey, seq<HandAction>>
  {
    var before := Grouped(t, keep);
    if KeyOf(x) in keep then before[KeyOf(x) := GroupOf(before, KeyOf(x)) + [x]] else before
  }

  /** One hand's list after appending `x`. */
  lemma GroupedSnocAt(t: seq<HandAction>, x: HandAction, keep: set<HandKey>, k: HandKey)
    requires k in Grouped(t + [x], keep)
    ensures k in GroupedAfter(t, x, keep) && Grouped(t + [x], keep)[k] == GroupedAfter(t, x, keep)[k]
  {
    var s := t + [x];
    OfHandSnoc(t, x, k);
    if k != KeyOf(x) {
      var y :| y in s && KeyOf(y) == k;
      assert y in t;
    } else if KeyOf(x) !in Grouped(t, keep) {
      EmptyIfNoMember(OfHand(t, k));
    }
  }

  /** Appending one action to the input appends it to its hand's group. */
  lemma GroupedSnoc(t: seq<HandAction>, x: HandAction, keep: set<HandKey>)
    ensures Grouped(t + [x], keep) == GroupedAfter(t, x, keep)
  {
    var after, expected := Grouped(t + [x], keep), GroupedAfter(t, x, keep);
    assert x in t + [x];
    forall k | k in after
      ensures k in expected && after[k] == expected[k]
    {
      GroupedSnocAt(t, x, keep, k);
    }
    assert after.Keys == expected.Keys;
  }

  /** Grouping one more action of `actions` is `GroupedSnoc` on the prefix. */
  lemma GroupedPrefix(actions: seq<HandAction>, i: int, keep: set<HandKey>)
    requires 0 <= i < |actions|
    ensures Grouped(actions[..i + 1], keep) == GroupedAfter(actions[..i], actions[i], keep)
  {
    assert actions[..i + 1] == actions[..i] + [actions[i]];
    GroupedSnoc(actions[..i], actions[i], keep);
  }

  /** The grouping of the player's own preflop actions (`preflop_by_hand`). */
  method GroupByHand(actions: seq<HandAction>) returns (m: map<HandKey, seq<HandAction>>)
    ensures m == Grouped(actions, Keys(actions))
  {
    m := map[];
    for i := 0 to |actions|
      invariant m == Grouped(actions[..i], Keys(actions))
    {
      var key := KeyOf(actions[i]);
      assert key in Keys(actions) by {
        assert actions[i] in actions;
      }
      GroupedPrefix(actions, i, Keys(actions));
      m := m[key := GroupOf(m, key) + [actions[i]]];
    }
    assert actions[..|actions|] == actions;
  }

  /** Every preflop action of the log, by ActionID. */
  function PreflopActions(db: LogFile): seq<HandAction>
  {
    GetActions(db, None, None, Some(0))
  }

  /** The grouping loop of `_get_all_preflop_actions_by_hand`, keeping the actions of the given hands. */
  method GroupKept(actions: seq<HandAction>, hands: set<HandKey>) returns (m: map<HandKey, seq<HandAction>>)
    ensures m == Grouped(actions, hands)
  {
    m := map[];
    for i := 0 to |actions|
      invariant m == Grouped(actions[..i], hands)
    {
      var key := KeyOf(actions[i]);
      GroupedPrefix(actions, i, hands);
      if key in hands {
        m := m[key := GroupOf(m, key) + [actions[i]]];
      }
    }
    assert actions[..|actions|] == actions;
  }

  /** `_get_all_preflop_actions_by_hand`: every seat's preflop actions of the given hands. */
  method GetAllPreflopActionsByHand(db: LogFile, hands: set<HandKey>) returns (m: map<HandKey, seq<HandAction>>)
    ensures m == Grouped(PreflopActions(db), hands)
  {
    m := GroupKept(PreflopActions(db), hands);
  }

  // ---------------------------------------------------------------------------
  // The counted hands

  /** `any(a.player_seat == seat for a in actions)`. */
  function AnyAtSeat(actions: seq<HandAction>, seat: int): (b: bool)
    ensures b <==> exists a :: a in actions && a.playerSeat == seat
  {
    if actions == [] then false
    else
      assert actions == [actions[0]] + actions[1..];
      actions[0].playerSeat == seat || AnyAtSeat(actions[1..], seat)
  }

  /**
   * What the per-hand analyses of one player read: the log, the player's seat in
   * each of its games, its own preflop actions by hand (`preflop_by_hand`) and every
   * seat's preflop actions of the hands it played (`all_preflop_by_hand`).
   */
  datatype Context = Context(
    db: LogFile,
    seats: map<int, int>,
    own: map<HandKey, seq<HandAction>>,
    all: map<HandKey, seq<HandAction>>)

  /** The context `calculate_player_stats` builds for `name`. */
  ghost function ContextOf(db: LogFile, name: string): Context
  {
    var pre := GetPreflopActionsByPlayer(db, name);
    Context(db, GetPlayerSeats(db, name), Grouped(pre, Keys(pre)), Grouped(PreflopActions(db), HandsPlayed(db, name)))
  }

  /** The per-hand facts the counters count. */
  datatype HandStat =
    | VpipHand | PfrHand
    | ThreeBetOpp | ThreeBetMade
    | CbetOpp | CbetMade
    | FoldToThreeBetOpp | FoldToThreeBetMade
    | FoldToCbetOpp | FoldToCbetMade
    | SawFlopHand | ShowdownHand | ShowdownWon

  /** The player's seat has a flop action in hand `k`. */
  ghost predicate SawFlop(c: Context, k: HandKey)
  {
    k.0 in c.seats && AnyAtSeat(FlopActions(c.db, k.0, k.1), c.seats[k.0])
  }

  /** The 3-bet signal of hand `k`, when the seat and the hand's preflop are known. */
  ghost function ThreeBetAt(c: Context, k: HandKey): Signal
  {
    if k in c.own && k.0 in c.seats && k in c.all then ThreeBetSignal(c.all[k], c.seats[k.0], c.own[k])
    else Signal(false, false)
  }

  ghost function CbetAt(c: Context, k: HandKey): Signal
  {
    if k.0 in c.seats then CbetSignal(FlopActions(c.db, k.0, k.1), c.seats[k.0]) else Signal(false, false)
  }

  ghost function FoldToThreeBetAt(c: Context, k: HandKey): Signal
  {
    if k.0 in c.seats then FoldToThreeBetSignal(GroupOf(c.all, k), c.seats[k.0]) else Signal(false, false)
  }

  /** Fold to c-bet is only analysed in hands where the player saw the flop. */
  ghost function FoldToCbetAt(c: Context, k: HandKey): Signal
  {
    if SawFlop(c, k) then FoldToCbetSignal(FlopActions(c.db, k.0, k.1), c.seats[k.0], GroupOf(c.all, k))
    else Signal(false, false)
  }

  /** The player saw the flop and has a showdown action in a hand with a showdown. */
  ghost predicate WentToShowdown(c: Context, k: HandKey)
  {
    && SawFlop(c, k)
    && HandHasShowdown(c.db, k.0, k.1)
    && AnyAtSeat(GetActions(c.db, Some(k.0), Some(k.1), Some(4)), c.seats[k.0])
  }

  /** ... and the hand's showdown winner is the player's seat. */
  ghost predicate WonShowdown(c: Context, k: HandKey)
  {
    WentToShowdown(c, k) && GetShowdownWinner(c.db, k.0, k.1) == Some(c.seats[k.0])
  }

  /** Whether hand `k` counts for `stat`. */
  ghost predicate Holds(c: Context, stat: HandStat, k: HandKey)
  {
    match stat
    case VpipHand => k in c.own && HandVpip(c.own[k])
    case PfrHand => k in c.own && HandPfr(c.own[k])
    case ThreeBetOpp => ThreeBetAt(c, k).opportunity
    case ThreeBetMade => ThreeBetAt(c, k).made
    case CbetOpp => CbetAt(c, k).opportunity
    case CbetMade => CbetAt(c, k).made
    case FoldToThreeBetOpp => FoldToThreeBetAt(c, k).opportunity
    case FoldToThreeBetMade => FoldToThreeBetAt(c, k).made
    case FoldToCbetOpp => FoldToCbetAt(c, k).opportunity
    case FoldToCbetMade => FoldToCbetAt(c, k).made
    case SawFlopHand => SawFlop(c, k)
    case ShowdownHand => WentToShowdown(c, k)
    case ShowdownWon => WonShowdown(c, k)
  }

  /** The elements of `s` that satisfy `p`. */
  ghost function Filter<T>(s: set<T>, p: T -> bool): set<T>
  {
    set k | k in s && p(k)
  }

  /** Visiting one more element adds it to the filtered set exactly when it satisfies `p`. */
  lemma FilterStep<T>(s: set<T>, p: T -> bool, h: T)
    requires h !in s
    ensures |Filter(s + {h}, p)| == |Filter(s, p)| + (if p(h) then 1 else 0)
  {
    assert Filter(s + {h}, p) == Filter(s, p) + (if p(h) then {h} else {});
  }

  /** The hands of `s` that count for `stat`. */
  ghost function Counted(c: Context, stat: HandStat, s: set<HandKey>): set<HandKey>
  {
    Filter(s, k => Holds(c, stat, k))
  }

  /** Visiting one more hand adds one to a counter exactly when the hand counts. */
  lemma CountedStep(c: Context, stat: HandStat, s: set<HandKey>, h: HandKey)
    requires h !in s
    ensures |Counted(c, stat, s + {h})| == |Counted(c, stat, s)| + (if Holds(c, stat, h) then 1 else 0)
  {
    FilterStep(s, k => Holds(c, stat, k), h);
  }

  /** The indices of the player's actions outside the showdown round up to `n` with a word of `verbs`. */
  ghost function ActionsWith(actions: seq<HandAction>, verbs: seq<string>, n: int): set<int>
  {
    set i | 0 <= i < n && i < |actions| && actions[i].bettingRound != 4 && ContainsAny(Lower(actions[i].action), verbs)
  }

  /**
   * The record `calculate_player_stats` returns: the count of hands played, and,
   * for each other counter, the number of hands (or actions) satisfying its
   * predicate; a fresh record when no hand was played.
   */
  ghost function PlayerStatsOf(db: LogFile, name: string): (r: PlayerStats)
    ensures r.playerName == name
  {
    var hands := HandsPlayed(db, name);
    if |hands| == 0 then NewPlayerStats(name)
    else
      var c := ContextOf(db, name);
      var pfrHands := Counted(c, PfrHand, c.own.Keys);
      var actions := GetAllActionsByPlayer(db, name);
      PlayerStats(
        name,
        |hands|,
        |Counted(c, VpipHand, c.own.Keys)|,
        |pfrHands|,
        |ActionsWith(actions, AggressiveVerbs, |actions|)|,
        |ActionsWith(actions, PassiveVerbs, |actions|)|,
        |Counted(c, ThreeBetOpp, c.own.Keys)|,
        |Counted(c, ThreeBetMade, c.own.Keys)|,
        |Counted(c, CbetOpp, pfrHands)|,
        |Counted(c, CbetMade, pfrHands)|,
        |Counted(c, FoldToThreeBetOpp, pfrHands)|,
        |Counted(c, FoldToThreeBetMade, pfrHands)|,
        |Counted(c, FoldToCbetOpp, hands)|,
        |Counted(c, FoldToCbetMade, hands)|,
        |Counted(c, SawFlopHand, hands)|,
        |Counted(c, ShowdownHand, hands)|,
        |Counted(c, ShowdownWon, hands)|)
  }

  // ---------------------------------------------------------------------------
  // The accumulator

  /**
   * The body of the loop over `preflop_by_hand` for one hand: the VPIP and PFR
   * scan, then the 3-bet analysis when the seat and the hand's preflop are known.
   */
  method ClassifyPreflopHand(ghost c: Context, handKey: HandKey, actions: seq<HandAction>,
                             all: map<HandKey, seq<HandAction>>, seats: map<int, int>)
    returns (hasVpip: bool, hasPfr: bool, threeBet: Signal)
    requires handKey in c.own && actions == c.own[handKey] && all == c.all && seats == c.seats
    ensures hasVpip == HandVpip(actions) && hasPfr == HandPfr(actions)
    ensures threeBet == ThreeBetAt(c, handKey)
    ensures threeBet.made ==> threeBet.opportunity
  {
    hasVpip, hasPfr := ScanOwnPreflop(actions);
    threeBet := Signal(false, false);
    var (gameId, handId) := handKey;
    if gameId in seats && handKey in all {
      threeBet := AnalyzeThreeBet(all[handKey], seats[gameId], actions);
    }
  }

  /** What the preflop counters count, in terms of the per-hand analyses. */
  lemma PreflopHolds(c: Context, k: HandKey)
    requires k in c.own
    ensures Holds(c, VpipHand, k) == HandVpip(c.own[k]) && Holds(c, PfrHand, k) == HandPfr(c.own[k])
    ensures Holds(c, ThreeBetOpp, k) == ThreeBetAt(c, k).opportunity
    ensures Holds(c, ThreeBetMade, k) == ThreeBetAt(c, k).made
  {
  }

  /** The counters of the loop over `preflop_by_hand` once the hands of `done` are visited. */
  ghost predicate PreflopTallied(c: Context, done: set<HandKey>, stats: PlayerStats, r: PlayerStats, pfrHands: set<HandKey>)
  {
    && pfrHands == Counted(c, PfrHand, done)
    && r.vpipHands == stats.vpipHands + |Counted(c, VpipHand, done)|
    && r.pfrHands == stats.pfrHands + |pfrHands|
    && r.threeBetOpportunities == stats.threeBetOpportunities + |Counted(c, ThreeBetOpp, done)|
    && r.threeBetMade == stats.threeBetMade + |Counted(c, ThreeBetMade, done)|
    && r == stats.(vpipHands := r.vpipHands, pfrHands := r.pfrHands,
                   threeBetOpportunities := r.threeBetOpportunities, threeBetMade := r.threeBetMade)
  }

  /** One iteration of the loop over `preflop_by_hand`: classify the hand and count it. */
  method TallyPreflopHand(ghost c: Context, ghost done: set<HandKey>, ghost stats: PlayerStats,
                          handKey: HandKey, actions: seq<HandAction>, all: map<HandKey, seq<HandAction>>,
                          seats: map<int, int>, r: PlayerStats, pfrHands: set<HandKey>)
    returns (r': PlayerStats, pfrHands': set<HandKey>)
    requires handKey in c.own && actions == c.own[handKey] && all == c.all && seats == c.seats
    requires handKey !in done && PreflopTallied(c, done, stats, r, pfrHands)
    ensures PreflopTallied(c, done + {handKey}, stats, r', pfrHands')
  {
    var hasVpip, hasPfr, signal := ClassifyPreflopHand(c, handKey, actions, all, seats);
    PreflopHolds(c, handKey);
    CountedStep(c, VpipHand, done, handKey);
    CountedStep(c, ThreeBetOpp, done, handKey);
    CountedStep(c, ThreeBetMade, done, handKey);
    assert Counted(c, PfrHand, done + {handKey}) == pfrHands + (if hasPfr then {handKey} else {});
    r' := r.(vpipHands := r.vpipHands + (if hasVpip then 1 else 0),
             pfrHands := r.pfrHands + (if hasPfr then 1 else 0),
             threeBetOpportunities := r.threeBetOpportunities + (if signal.opportunity then 1 else 0),
             threeBetMade := r.threeBetMade + (if signal.opportunity && signal.made then 1 else 0));
    pfrHands' := pfrHands + (if hasPfr then {handKey} else {});
  }

  /**
   * The loop over `preflop_by_hand`: VPIP, PFR and the 3-bet pair, one hand at a
   * time, collecting the hands with a preflop raise.
   */
  method CountPreflop(ghost c: Context, own: map<HandKey, seq<HandAction>>, all: map<HandKey, seq<HandAction>>,
                      seats: map<int, int>, stats: PlayerStats)
    returns (r: PlayerStats, pfrHands: set<HandKey>)
    requires own == c.own && all == c.all && seats == c.seats
    ensures PreflopTallied(c, own.Keys, stats, r, pfrHands)
  {
    r, pfrHands := stats, {};
    var todo := own.Keys;
    ghost var done: set<HandKey> := {};
    assert Counted(c, PfrHand, done) == {};
    while todo != {}
      invariant todo <= own.Keys && done == own.Keys - todo
      invariant PreflopTallied(c, done, stats, r, pfrHands)
      decreases todo
    {
      var handKey :| handKey in todo;
      r, pfrHands := TallyPreflopHand(c, done, stats, handKey, own[handKey], all, seats, r, pfrHands);
      todo := todo - {handKey};
      done := done + {handKey};
    }
    assert done == own.Keys;
  }

  /** The c-bet analysis of one hand in which the player raised preflop. */
  method ClassifyCbet(ghost c: Context, handKey: HandKey, db: LogFile, seats: map<int, int>) returns (cbet: Signal)
    requires db == c.db && seats == c.seats
    ensures cbet.opportunity == Holds(c, CbetOpp, handKey) && cbet.made == Holds(c, CbetMade, handKey)
    ensures cbet.made ==> cbet.opportunity
  {
    cbet := Signal(false, false);
    if handKey.0 in seats {
      cbet := AnalyzeCbet(db, handKey.0, handKey.1, seats[handKey.0]);
      MadeImpliesOpportunity([], seats[handKey.0], [], FlopActions(db, handKey.0, handKey.1));
    }
  }

  /** The fold-to-3-bet analysis of one hand in which the player raised preflop. */
  method ClassifyFoldToThreeBet(ghost c: Context, handKey: HandKey, seats: map<int, int>,
                                all: map<HandKey, seq<HandAction>>)
    returns (foldToThreeBet: Signal)
    requires seats == c.seats && all == c.all
    ensures foldToThreeBet.opportunity == Holds(c, FoldToThreeBetOpp, handKey)
    ensures foldToThreeBet.made == Holds(c, FoldToThreeBetMade, handKey)
    ensures foldToThreeBet.made ==> foldToThreeBet.opportunity
  {
    foldToThreeBet := Signal(false, false);
    if handKey.0 in seats {
      foldToThreeBet := AnalyzeFoldToThreeBet(GroupOf(all, handKey), seats[handKey.0]);
      MadeImpliesOpportunity(GroupOf(all, handKey), seats[handKey.0], [], []);
    }
  }

  /** The counters of the loop over `pfr_hands` once the hands of `done` are visited. */
  ghost predicate RaisedTallied(c: Context, done: set<HandKey>, stats: PlayerStats, r: PlayerStats)
  {
    && r.cbetOpportunities == stats.cbetOpportunities + |Counted(c, CbetOpp, done)|
    && r.cbetMade == stats.cbetMade + |Counted(c, CbetMade, done)|
    && r.foldToThreeBetOpportunities == stats.foldToThreeBetOpportunities + |Counted(c, FoldToThreeBetOpp, done)|
    && r.foldToThreeBetMade == stats.foldToThreeBetMade + |Counted(c, FoldToThreeBetMade, done)|
    && r == stats.(cbetOpportunities := r.cbetOpportunities, cbetMade := r.cbetMade,
                   foldToThreeBetOpportunities := r.foldToThreeBetOpportunities,
                   foldToThreeBetMade := r.foldToThreeBetMade)
  }

  /** One iteration of the loop over `pfr_hands`. */
  method TallyRaisedHand(ghost c: Context, ghost done: set<HandKey>, ghost stats: PlayerStats,
                         handKey: HandKey, db: LogFile, seats: map<int, int>, all: map<HandKey, seq<HandAction>>,
                         r: PlayerStats)
    returns (r': PlayerStats)
    requires db == c.db && seats == c.seats && all == c.all
    requires handKey !in done && RaisedTallied(c, done, stats, r)
    ensures RaisedTallied(c, done + {handKey}, stats, r')
  {
    var cbet := ClassifyCbet(c, handKey, db, seats);
    var foldToThreeBet := ClassifyFoldToThreeBet(c, handKey, seats, all);
    CountedStep(c, CbetOpp, done, handKey);
    CountedStep(c, CbetMade, done, handKey);
    CountedStep(c, FoldToThreeBetOpp, done, handKey);
    CountedStep(c, FoldToThreeBetMade, done, handKey);
    r' := r;
    if cbet.opportunity {
      r' := r'.(cbetOpportunities := r'.cbetOpportunities + 1);
      if cbet.made {
        r' := r'.(cbetMade := r'.cbetMade + 1);
      }
    }
    if foldToThreeBet.opportunity {
      r' := r'.(foldToThreeBetOpportunities := r'.foldToThreeBetOpportunities + 1);
      if foldToThreeBet.made {
        r' := r'.(foldToThreeBetMade := r'.foldToThreeBetMade + 1);
      }
    }
  }

  /** The loop over `pfr_hands`: the c-bet and fold-to-3-bet pairs. */
  method CountRaisedHands(ghost c: Context, pfrHands: set<HandKey>, db: LogFile, seats: map<int, int>,
                          all: map<HandKey, seq<HandAction>>, stats: PlayerStats)
    returns (r: PlayerStats)
    requires db == c.db && seats == c.seats && all == c.all
    ensures RaisedTallied(c, pfrHands, stats, r)
  {
    r := stats;
    var todo := pfrHands;
    ghost var done: set<HandKey> := {};
    while todo != {}
      invariant todo <= pfrHands && done == pfrHands - todo
      invariant RaisedTallied(c, done, stats, r)
      decreases todo
    {
      var handKey :| handKey in todo;
      r := TallyRaisedHand(c, done, stats, handKey, db, seats, all, r);
      todo := todo - {handKey};
      done := done + {handKey};
    }
    assert done == pfrHands;
  }

  /** Whether the player's seat acted on the flop of one played hand. */
  method ClassifySawFlop(ghost c: Context, handKey: HandKey, db: LogFile, seats: map<int, int>) returns (sawFlop: bool)
    requires db == c.db && seats == c.seats
    ensures sawFlop == SawFlop(c, handKey)
  {
    sawFlop := false;
    if handKey.0 in seats {
      sawFlop := AnyAtSeat(GetActions(db, Some(handKey.0), Some(handKey.1), Some(1)), seats[handKey.0]);
    }
  }

  /** The fold-to-c-bet analysis of a hand in which the player saw the flop. */
  method ClassifyFoldToCbet(ghost c: Context, handKey: HandKey, db: LogFile, seats: map<int, int>,
                            all: map<HandKey, seq<HandAction>>)
    returns (foldToCbet: Signal)
    requires db == c.db && seats == c.seats && all == c.all && SawFlop(c, handKey)
    ensures foldToCbet == FoldToCbetAt(c, handKey)
    ensures foldToCbet.made ==> foldToCbet.opportunity
  {
    foldToCbet := AnalyzeFoldToCbet(db, handKey.0, handKey.1, seats[handKey.0], GroupOf(all, handKey));
    MadeImpliesOpportunity(GroupOf(all, handKey), seats[handKey.0], [], FlopActions(db, handKey.0, handKey.1));
  }

  /** The showdown analysis of a hand in which the player saw the flop. */
  method ClassifyShowdown(ghost c: Context, handKey: HandKey, db: LogFile, seats: map<int, int>)
    returns (showdown: bool, won: bool)
    requires db == c.db && seats == c.seats && SawFlop(c, handKey)
    ensures showdown == WentToShowdown(c, handKey) && won == WonShowdown(c, handKey)
    ensures won ==> showdown
  {
    showdown, won := false, false;
    var playerSeat := seats[handKey.0];
    if HandHasShowdown(db, handKey.0, handKey.1) {
      var showdownActions := GetActions(db, Some(handKey.0), Some(handKey.1), Some(4));
      showdown := AnyAtSeat(showdownActions, playerSeat);
      if showdown {
        var winnerSeat := GetShowdownWinner(db, handKey.0, handKey.1);
        won := winnerSeat == Some(playerSeat);
      }
    }
  }

  /** What the flop counters of the hands-played loop count, in terms of the per-hand analyses. */
  lemma PlayedHolds(c: Context, k: HandKey)
    ensures Holds(c, SawFlopHand, k) == SawFlop(c, k)
    ensures Holds(c, FoldToCbetOpp, k) == FoldToCbetAt(c, k).opportunity
    ensures Holds(c, FoldToCbetMade, k) == FoldToCbetAt(c, k).made
  {
  }

  /** What the showdown counters of the hands-played loop count. */
  lemma ShowdownHolds(c: Context, k: HandKey)
    ensures Holds(c, ShowdownHand, k) == WentToShowdown(c, k)
    ensures Holds(c, ShowdownWon, k) == WonShowdown(c, k)
  {
  }

  /** A hand in which the player did not see the flop counts for no postflop statistic. */
  lemma NoFlopNoPostflop(c: Context, k: HandKey)
    ensures !SawFlop(c, k) ==> FoldToCbetAt(c, k) == Signal(false, false) && !WentToShowdown(c, k)
  {
  }

  /** The counters of the loop over `hands_played` once the hands of `done` are visited. */
  ghost predicate PlayedTallied(c: Context, done: set<HandKey>, stats: PlayerStats, r: PlayerStats)
  {
    && r.foldToCbetOpportunities == stats.foldToCbetOpportunities + |Counted(c, FoldToCbetOpp, done)|
    && r.foldToCbetMade == stats.foldToCbetMade + |Counted(c, FoldToCbetMade, done)|
    && r.handsSawFlop == stats.handsSawFlop + |Counted(c, SawFlopHand, done)|
    && r.handsWentToShowdown == stats.handsWentToShowdown + |Counted(c, ShowdownHand, done)|
    && r.showdownsWon == stats.showdownsWon + |Counted(c, ShowdownWon, done)|
    && r == stats.(foldToCbetOpportunities := r.foldToCbetOpportunities, foldToCbetMade := r.foldToCbetMade,
                   handsSawFlop := r.handsSawFlop, handsWentToShowdown := r.handsWentToShowdown,
                   showdownsWon := r.showdownsWon)
  }

  /** One iteration of the loop over `hands_played`. */
  method TallyPlayedHand(ghost c: Context, ghost done: set<HandKey>, ghost stats: PlayerStats,
                         handKey: HandKey, db: LogFile, seats: map<int, int>, all: map<HandKey, seq<HandAction>>,
                         r: PlayerStats)
    returns (r': PlayerStats)
    requires db == c.db && seats == c.seats && all == c.all
    requires handKey !in done && PlayedTallied(c, done, stats, r)
    ensures PlayedTallied(c, done + {handKey}, stats, r')
  {
    var sawFlop := ClassifySawFlop(c, handKey, db, seats);
    var foldToCbet, showdown, won := Signal(false, false), false, false;
    if sawFlop {
      foldToCbet := ClassifyFoldToCbet(c, handKey, db, seats, all);
      showdown, won := ClassifyShowdown(c, handKey, db, seats);
    }
    PlayedHolds(c, handKey);
    ShowdownHolds(c, handKey);
    NoFlopNoPostflop(c, handKey);
    CountedStep(c, FoldToCbetOpp, done, handKey);
    CountedStep(c, FoldToCbetMade, done, handKey);
    CountedStep(c, SawFlopHand, done, handKey);
    CountedStep(c, ShowdownHand, done, handKey);
    CountedStep(c, ShowdownWon, done, handKey);
    r' := r;
    if sawFlop {
      r' := r'.(handsSawFlop := r'.handsSawFlop + 1);
      if foldToCbet.opportunity {
        r' := r'.(foldToCbetOpportunities := r'.foldToCbetOpportunities + 1);
        if foldToCbet.made {
          r' := r'.(foldToCbetMade := r'.foldToCbetMade + 1);
        }
      }
      if showdown {
        r' := r'.(handsWentToShowdown := r'.handsWentToShowdown + 1);
        if won {
          r' := r'.(showdownsWon := r'.showdownsWon + 1);
        }
      }
    }
  }

  /** The loop over `hands_played`: saw flop, fold to c-bet, showdown reached and won. */
  method CountPlayedHands(ghost c: Context, hands: set<HandKey>, db: LogFile, seats: map<int, int>,
                          all: map<HandKey, seq<HandAction>>, stats: PlayerStats)
    returns (r: PlayerStats)
    requires db == c.db && seats == c.seats && all == c.all
    ensures PlayedTallied(c, hands, stats, r)
  {
    r := stats;
    var todo := hands;
    ghost var done: set<HandKey> := {};
    while todo != {}
      invariant todo <= hands && done == hands - todo
      invariant PlayedTallied(c, done, stats, r)
      decreases todo
    {
      var handKey :| handKey in todo;
      r := TallyPlayedHand(c, done, stats, handKey, db, seats, all, r);
      todo := todo - {handKey};
      done := done + {handKey};
    }
    assert done == hands;
  }

  /** One more action extends the counted prefix by that action when it qualifies. */
  lemma ActionsWithStep(actions: seq<HandAction>, verbs: seq<string>, i: int)
    requires 0 <= i < |actions|
    ensures |ActionsWith(actions, verbs, i + 1)| == |ActionsWith(actions, verbs, i)| +
      (if actions[i].bettingRound != 4 && ContainsAny(Lower(actions[i].action), verbs) then 1 else 0)
  {
    var q := actions[i].bettingRound != 4 && ContainsAny(Lower(actions[i].action), verbs);
    assert ActionsWith(actions, verbs, i + 1) == ActionsWith(actions, verbs, i) + (if q then {i} else {});
  }

  /** The loop over all the player's actions: aggressive and passive actions outside the showdown. */
  method CountAggression(actions: seq<HandAction>, stats: PlayerStats) returns (r: PlayerStats)
    ensures r.totalBets == stats.totalBets + |ActionsWith(actions, AggressiveVerbs, |actions|)|
    ensures r.totalCalls == stats.totalCalls + |ActionsWith(actions, PassiveVerbs, |actions|)|
    ensures r == stats.(totalBets := r.totalBets, totalCalls := r.totalCalls)
  {
    r := stats;
    assert ActionsWith(actions, AggressiveVerbs, 0) == {} && ActionsWith(actions, PassiveVerbs, 0) == {};
    for i := 0 to |actions|
      invariant r.totalBets == stats.totalBets + |ActionsWith(actions, AggressiveVerbs, i)|
      invariant r.totalCalls == stats.totalCalls + |ActionsWith(actions, PassiveVerbs, i)|
      invariant r == stats.(totalBets := r.totalBets, totalCalls := r.totalCalls)
    {
      ActionsWithStep(actions, AggressiveVerbs, i);
      ActionsWithStep(actions, PassiveVerbs, i);
      if actions[i].bettingRound == 4 {
        continue;
      }
      var actionType := Lower(actions[i].action);
      if ContainsAny(actionType, AggressiveVerbs) {
        r := r.(totalBets := r.totalBets + 1);
      }
      if ContainsAny(actionType, PassiveVerbs) {
        r := r.(totalCalls := r.totalCalls + 1);
      }
    }
  }

  // ---------------------------------------------------------------------------
  // Whole-player statistics
  // ---------------------------------------------------------------------------

  /**
   * `calculate_player_stats`: the hands played, then the loop over the player's
   * preflop hands, the loop over the hands they raised, the loop over the hands
   * played and the loop over all their actions.
   */
  method CalculatePlayerStats(db: LogFile, name: string) returns (stats: PlayerStats)
    ensures stats == PlayerStatsOf(db, name)
  {
    stats := NewPlayerStats(name);
    var handsPlayed := GetHandsPlayedByPlayer(db, name);
    stats := stats.(totalHands := |handsPlayed|);
    if stats.totalHands == 0 {
      return;
    }
    var playerSeats := GetPlayerSeats(db, name);
    var preflopByHand := GroupByHand(GetPreflopActionsByPlayer(db, name));
    var allPreflopByHand := GetAllPreflopActionsByHand(db, handsPlayed);
    ghost var c := ContextOf(db, name);
    assert c == Context(db, playerSeats, preflopByHand, allPreflopByHand);
    var pfrHands;
    stats, pfrHands := CountPreflop(c, preflopByHand, allPreflopByHand, playerSeats, stats);
    stats := CountRaisedHands(c, pfrHands, db, playerSeats, allPreflopByHand, stats);
    stats := CountPlayedHands(c, handsPlayed, db, playerSeats, allPreflopByHand, stats);
    stats := CountAggression(GetAllActionsByPlayer(db, name), stats);
  }

  /** The statistics `calculate_all_players_stats` returns: one record per player name. */
  ghost function AllPlayerStatsOf(db: LogFile): (m: map<string, PlayerStats>)
    ensures m.Keys == PlayerNames(db)
    ensures KeyedByName(m)
  {
    map n | n in PlayerNames(db) :: PlayerStatsOf(db, n)
  }

  /** `calculate_all_players_stats`: the dict comprehension over `get_players()`. */
  method CalculateAllPlayersStats(db: LogFile) returns (m: map<string, PlayerStats>)
    ensures m == AllPlayerStatsOf(db)
  {
    var players := GetPlayers(db);
    m := map[];
    var todo := players.Keys;
    while todo != {}
      invariant todo <= players.Keys
      invariant m.Keys == players.Keys - todo
      invariant forall n :: n in m ==> m[n] == PlayerStatsOf(db, n)
      decreases todo
    {
      var playerName :| playerName in todo;
      var stats := CalculatePlayerStats(db, playerName);
      m := m[playerName := stats];
      todo := todo - {playerName};
    }
  }

  /** One record per name of `names`. */
  ghost function StatsByName(db: LogFile, names: seq<string>): (m: map<string, PlayerStats>)
    ensures forall n :: n in m <==> n in names
    ensures KeyedByName(m)
  {
    map n | n in names :: PlayerStatsOf(db, n)
  }

  /** The statistics `calculate_table_players_stats` returns: one record per name at the current table. */
  ghost function TablePlayerStatsOf(db: LogFile): (m: map<string, PlayerStats>)
    ensures forall n :: n in m <==> n in GetCurrentTablePlayers(db)
    ensures KeyedByName(m)
  {
    StatsByName(db, GetCurrentTablePlayers(db))
  }

  /** The dict comprehension `{name: calculate_player_stats(name) for name in names}`. */
  method StatsOfNames(db: LogFile, names: seq<string>) returns (m: map<string, PlayerStats>)
    ensures m == StatsByName(db, names)
  {
    m := map[];
    for i := 0 to |names|
      invariant forall n :: n in m <==> n in names[..i]
      invariant forall n :: n in m ==> m[n] == PlayerStatsOf(db, n)
    {
      var stats := CalculatePlayerStats(db, names[i]);
      m := m[names[i] := stats];
      assert names[..i + 1] == names[..i] + [names[i]];
    }
    assert names[..|names|] == names;
  }

  /** `calculate_table_players_stats`: the comprehension over `get_current_table_players()`. */
  method CalculateTablePlayersStats(db: LogFile) returns (m: map<string, PlayerStats>)
    ensures m == TablePlayerStatsOf(db)
  {
    var currentPlayers := GetCurrentTablePlayers(db);
    m := StatsOfNames(db, currentPlayers);
  }

  // ---------------------------------------------------------------------------
  // Bounds between the counters
  // ---------------------------------------------------------------------------

  /** A subset is no larger. */
  lemma {:induction false} SubsetNoLarger<T>(a: set<T>, b: set<T>)
    requires a <= b
    ensures |a| <= |b|
    decreases |b|
  {
    if b != {} {
      var x :| x in b;
      SubsetNoLarger(a - {x}, b - {x});
    }
  }

  /** Counting one fact over a subset, where it implies a second fact, gives no more than counting the second. */
  lemma CountedBelow(c: Context, s: set<HandKey>, t: set<HandKey>, stat: HandStat, bound: HandStat)
    requires s <= t
    requires forall k :: k in s && Holds(c, stat, k) ==> Holds(c, bound, k)
    ensures |Counted(c, stat, s)| <= |Counted(c, bound, t)|
  {
    SubsetNoLarger(Counted(c, stat, s), Counted(c, bound, t));
  }

  /** A counter over `s` is at most `|s|`. */
  lemma CountedAtMost(c: Context, stat: HandStat, s: set<HandKey>)
    ensures |Counted(c, stat, s)| <= |s|
  {
    SubsetNoLarger(Counted(c, stat, s), s);
  }

  /** Every hand the player has a preflop action in is a hand they played. */
  lemma PreflopHandsPlayed(db: LogFile, name: string)
    ensures ContextOf(db, name).own.Keys <= HandsPlayed(db, name)
  {
    var pre := GetPreflopActionsByPlayer(db, name);
    var rows := PlayerActionRows(db, name, true);
    ProjectMembers(rows, pre);
    forall k | k in ContextOf(db, name).own
      ensures k in HandsPlayed(db, name)
    {
      var x :| x in pre && KeyOf(x) == k;
      var a :| a in rows && x == ToHandAction(a);
      assert a in db.actions && a.gameId in GetPlayerSeats(db, name) && a.seat == GetPlayerSeats(db, name)[a.gameId];
    }
  }

  /** The preflop facts behind the bounds, hand by hand. */
  lemma PreflopFactsOrdered(c: Context, k: HandKey)
    ensures Holds(c, PfrHand, k) ==> Holds(c, VpipHand, k)
    ensures Holds(c, ThreeBetMade, k) ==> Holds(c, ThreeBetOpp, k)
  {
    if k in c.own {
      PfrImpliesVpip(c.own[k]);
      if k.0 in c.seats && k in c.all {
        MadeImpliesOpportunity(c.all[k], c.seats[k.0], c.own[k], []);
      }
    }
  }

  /** The facts of the raised hands behind the bounds, hand by hand. */
  lemma RaisedFactsOrdered(c: Context, k: HandKey)
    ensures Holds(c, CbetMade, k) ==> Holds(c, CbetOpp, k)
    ensures Holds(c, FoldToThreeBetMade, k) ==> Holds(c, FoldToThreeBetOpp, k)
  {
    if k.0 in c.seats {
      MadeImpliesOpportunity(GroupOf(c.all, k), c.seats[k.0], [], FlopActions(c.db, k.0, k.1));
    }
  }

  /** The facts of the played hands behind the bounds, hand by hand. */
  lemma PlayedFactsOrdered(c: Context, k: HandKey)
    ensures Holds(c, FoldToCbetMade, k) ==> Holds(c, FoldToCbetOpp, k)
    ensures Holds(c, FoldToCbetOpp, k) ==> Holds(c, SawFlopHand, k)
    ensures Holds(c, ShowdownWon, k) ==> Holds(c, ShowdownHand, k)
    ensures Holds(c, ShowdownHand, k) ==> Holds(c, SawFlopHand, k)
  {
    PlayedHolds(c, k);
    ShowdownHolds(c, k);
    if k.0 in c.seats {
      MadeImpliesOpportunity(GroupOf(c.all, k), c.seats[k.0], [], FlopActions(c.db, k.0, k.1));
    }
  }

  /** Counted over the same hands, PFR is at most VPIP and 3-bets made at most their opportunities. */
  lemma PreflopCountsOrdered(c: Context, s: set<HandKey>)
    ensures |Counted(c, PfrHand, s)| <= |Counted(c, VpipHand, s)| <= |s|
    ensures |Counted(c, ThreeBetMade, s)| <= |Counted(c, ThreeBetOpp, s)| <= |s|
  {
    forall k | k in s && Holds(c, PfrHand, k)
      ensures Holds(c, VpipHand, k)
    {
      PreflopFactsOrdered(c, k);
    }
    forall k | k in s && Holds(c, ThreeBetMade, k)
      ensures Holds(c, ThreeBetOpp, k)
    {
      PreflopFactsOrdered(c, k);
    }
    CountedBelow(c, s, s, PfrHand, VpipHand);
    CountedBelow(c, s, s, ThreeBetMade, ThreeBetOpp);
    CountedAtMost(c, VpipHand, s);
    CountedAtMost(c, ThreeBetOpp, s);
  }

  /** Counted over the same hands, each c-bet or fold-to-3-bet `made` is at most its opportunities. */
  lemma RaisedCountsOrdered(c: Context, s: set<HandKey>)
    ensures |Counted(c, CbetMade, s)| <= |Counted(c, CbetOpp, s)| <= |s|
    ensures |Counted(c, FoldToThreeBetMade, s)| <= |Counted(c, FoldToThreeBetOpp, s)| <= |s|
  {
    forall k | k in s && Holds(c, CbetMade, k)
      ensures Holds(c, CbetOpp, k)
    {
      RaisedFactsOrdered(c, k);
    }
    forall k | k in s && Holds(c, FoldToThreeBetMade, k)
      ensures Holds(c, FoldToThreeBetOpp, k)
    {
      RaisedFactsOrdered(c, k);
    }
    CountedBelow(c, s, s, CbetMade, CbetOpp);
    CountedBelow(c, s, s, FoldToThreeBetMade, FoldToThreeBetOpp);
    CountedAtMost(c, CbetOpp, s);
    CountedAtMost(c, FoldToThreeBetOpp, s);
  }

  /** Counted over the same hands: fold to c-bet and the showdown counters sit below the flops seen. */
  lemma PlayedCountsOrdered(c: Context, s: set<HandKey>)
    ensures |Counted(c, FoldToCbetMade, s)| <= |Counted(c, FoldToCbetOpp, s)| <= |Counted(c, SawFlopHand, s)|
    ensures |Counted(c, ShowdownWon, s)| <= |Counted(c, ShowdownHand, s)| <= |Counted(c, SawFlopHand, s)| <= |s|
  {
    forall k | k in s && Holds(c, FoldToCbetMade, k)
      ensures Holds(c, FoldToCbetOpp, k)
    {
      PlayedFactsOrdered(c, k);
    }
    forall k | k in s && Holds(c, FoldToCbetOpp, k)
      ensures Holds(c, SawFlopHand, k)
    {
      PlayedFactsOrdered(c, k);
    }
    forall k | k in s && Holds(c, ShowdownWon, k)
      ensures Holds(c, ShowdownHand, k)
    {
      PlayedFactsOrdered(c, k);
    }
    forall k | k in s && Holds(c, ShowdownHand, k)
      ensures Holds(c, SawFlopHand, k)
    {
      PlayedFactsOrdered(c, k);
    }
    CountedBelow(c, s, s, FoldToCbetMade, FoldToCbetOpp);
    CountedBelow(c, s, s, FoldToCbetOpp, SawFlopHand);
    CountedBelow(c, s, s, ShowdownWon, ShowdownHand);
    CountedBelow(c, s, s, ShowdownHand, SawFlopHand);
    CountedAtMost(c, SawFlopHand, s);
  }

  /**
   * The computed record's counters are ordered as their meanings demand: each
   * `made` at most its opportunities, PFR at most VPIP at most the hands played,
   * the c-bet and fold-to-3-bet opportunities at most the PFR hands, and the
   * showdowns won at most the showdowns at most the flops seen at most the hands.
   */
  lemma StatsOrdered(db: LogFile, name: string)
    ensures var r := PlayerStatsOf(db, name);
      && 0 <= r.pfrHands <= r.vpipHands <= r.totalHands
      && 0 <= r.threeBetMade <= r.threeBetOpportunities <= r.totalHands
      && 0 <= r.cbetMade <= r.cbetOpportunities <= r.pfrHands
      && 0 <= r.foldToThreeBetMade <= r.foldToThreeBetOpportunities <= r.pfrHands
      && 0 <= r.foldToCbetMade <= r.foldToCbetOpportunities <= r.handsSawFlop
      && 0 <= r.showdownsWon <= r.handsWentToShowdown <= r.handsSawFlop <= r.totalHands
      && 0 <= r.totalBets && 0 <= r.totalCalls
  {
    var hands := HandsPlayed(db, name);
    if |hands| != 0 {
      var c := ContextOf(db, name);
      PreflopHandsPlayed(db, name);
      SubsetNoLarger(c.own.Keys, hands);
      PreflopCountsOrdered(c, c.own.Keys);
      RaisedCountsOrdered(c, Counted(c, PfrHand, c.own.Keys));
      PlayedCountsOrdered(c, hands);
    }
  }

  /** `total_hands` counts the hands played, and a player with none gets an all-zero record. */
  lemma NoHandsAllZero(db: LogFile, name: string)
    ensures PlayerStatsOf(db, name).totalHands == |HandsPlayed(db, name)|
    ensures HandsPlayed(db, name) == {} ==>
      forall i :: 0 <= i < Counters ==> Counter(PlayerStatsOf(db, name), i) == 0
  {
  }

  /** Every percentage of a computed record lies in [0, 100], and its AF is never negative. */
  lemma MetricsInRange(db: LogFile, name: string)
    ensures var r := PlayerStatsOf(db, name);
      && 0.0 <= Vpip(r) <= 100.0 && 0.0 <= Pfr(r) <= 100.0
      && 0.0 <= ThreeBet(r) <= 100.0 && 0.0 <= Cbet(r) <= 100.0
      && 0.0 <= FoldToThreeBet(r) <= 100.0 && 0.0 <= FoldToCbet(r) <= 100.0
      && 0.0 <= Wtsd(r) <= 100.0 && 0.0 <= Wsd(r) <= 100.0
      && (Af(r).Finite? ==> Af(r).value >= 0.0)
  {
    StatsOrdered(db, name);
    OrderedMetricsInRange(PlayerStatsOf(db, name));
  }

  // ---------------------------------------------------------------------------
  // A worked hand
  // ---------------------------------------------------------------------------

  /**
   * How the labels of the worked hand classify: lower-casing leaves "bets", "calls"
   * and "folds" unchanged, none is a blind, "bets" is a raise, "calls" is voluntary
   * but not a raise, and "folds" is a fold.
   */
  lemma VerbLabels()
    ensures Lower("bets") == "bets" && Lower("calls") == "calls" && Lower("folds") == "folds"
    ensures !Contains("bets", "blind") && !Contains("calls", "blind")
    ensures ContainsAny("bets", RaiseVerbs) && ContainsAny("bets", PfrVerbs) && ContainsAny("bets", VpipVerbs)
    ensures ContainsAny("calls", VpipVerbs) && !ContainsAny("calls", PfrVerbs) && !ContainsAny("calls", RaiseVerbs)
    ensures ContainsAny("folds", FoldVerbs)
  {
    LowerIdentity("bets");
    LowerIdentity("calls");
    LowerIdentity("folds");
    assert Contains("calls", "calls");
    assert "calls"[..4][0] != "bets"[0] && "calls"[1..][..4][0] != "bets"[0];
    assert !Contains("calls", "bets") && !Contains("calls", "is all in with");
  }

  /** Seat 1 bets preflop and seat 2 calls ... */
  const WorkedPreflop: seq<HandAction> :=
    [HandAction(1, 1, 0, 1, "bets", Some(20)), HandAction(1, 1, 0, 2, "calls", Some(20))]

  /** ... then seat 1 bets the flop and seat 2 folds. */
  const WorkedFlop: seq<HandAction> :=
    [HandAction(1, 1, 1, 1, "bets", Some(40)), HandAction(1, 1, 1, 2, "folds", None)]

  /** Seat 2 put money in voluntarily without raising. */
  lemma WorkedHandCaller()
    ensures HandVpip([WorkedPreflop[1]]) && !HandPfr([WorkedPreflop[1]])
  {
    VerbLabels();
    var call := WorkedPreflop[1];
    assert !IsBlind(call) && [call][0] == call;
  }

  /** For seat 2, the last preflop raiser of another seat is seat 1. */
  lemma WorkedHandRaisedBy()
    ensures LastOtherRaiser(WorkedPreflop, 2) == Some(1)
  {
    VerbLabels();
    assert OtherRaise(WorkedPreflop[0], 2) && !OtherRaise(WorkedPreflop[1], 2);
  }

  /** On the flop, seat 2 acts after seat 1's bet, and that first action is a fold. */
  lemma WorkedFlopFacing()
    ensures FacingCbetSignal(WorkedFlop, 2, 1) == Signal(true, true)
  {
    VerbLabels();
    assert IsRaise(WorkedFlop[0]) && IsFold(WorkedFlop[1]);
    assert FacesCbetAt(WorkedFlop, 2, 1, 1);
    assert !FacesCbetAt(WorkedFlop, 2, 1, 0);
  }

  /** Seat 2 then faced seat 1's c-bet and folded to it. */
  lemma WorkedHandFolder()
    ensures FoldToCbetSignal(WorkedFlop, 2, WorkedPreflop) == Signal(true, true)
  {
    WorkedHandRaisedBy();
    WorkedFlopFacing();
  }

  /** Seat 1 raised preflop and c-bet the flop. */
  lemma WorkedHandRaiser()
    ensures HandPfr([WorkedPreflop[0]]) && HandVpip([WorkedPreflop[0]])
    ensures CbetSignal(WorkedFlop, 1) == Signal(true, true)
  {
    VerbLabels();
    var bet := WorkedPreflop[0];
    assert !IsBlind(bet) && [bet][0] == bet;
    assert IsRaise(WorkedFlop[0]);
  }
}
