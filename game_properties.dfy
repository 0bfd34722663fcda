/** What the engine promises across calls: the state invariant that
    initialisation establishes and every round keeps, the behaviour of a
    stopped game, running to completion, and the scores of some fixed
    match-ups. */
module GameProperties {
  import opened Strategies
  import Catalogue
  import opened GameLogic

  // ---------------------------------------------------------------------------
  // Initialisation and the state invariant

  lemma InitializeIsConsistent(players: seq<Player>, maxRounds: int)
    ensures Consistent(Initialize(players, maxRounds))
  {
    var st := Initialize(players, maxRounds);
    forall p | 0 <= p < |st.players| ensures PlayerMatchesHistory(st.players[p], st.roundHistory) {
    }
  }

  /** Adding a round to the history adds its points to every sum. */
  lemma SumScoresAppend(history: seq<RoundResult>, r: RoundResult, id: int)
    ensures SumScores(history + [r], id) == SumScores(history, id) + Get0(r.scores, id)
  {
    assert (history + [r])[..|history|] == history;
  }

  /** A round that is due: one more round, one more history entry numbered
      with the old round index, one more move per player (the one recorded
      for it), its points added to its score, and the game still running
      exactly when rounds are left. */
  lemma AdvanceProductive(st: GameState, coins: Coins)
    requires Productive(st) && Roster(st.players)
    ensures var next := Advance(st, coins);
      && next.currentRound == st.currentRound + 1
      && next.roundHistory == st.roundHistory + [RoundOf(st, coins)]
      && next.roundHistory[|st.roundHistory|].round == st.currentRound
      && next.isRunning == (st.currentRound + 1 < st.maxRounds)
      && forall p :: 0 <= p < |st.players| ==>
           && next.players[p].moves == st.players[p].moves + [RecordedMove(st, coins, p)]
           && next.players[p].score == st.players[p].score + RoundScore(st, coins, p)
           && next.players[p].score >= st.players[p].score
  {
  }

  /** A round that is not due only stops the game, and a second call changes
      nothing more. */
  lemma AdvanceStopped(st: GameState, coins: Coins)
    requires !Productive(st)
    ensures Advance(st, coins) == st.(isRunning := false)
    ensures Advance(Advance(st, coins), coins) == Advance(st, coins)
  {
  }

  /** A player settled with a round's result matches the history extended
      with that result. */
  lemma SettledPlayerMatches(player: Player, history: seq<RoundResult>, r: RoundResult, settled: Player)
    requires PlayerMatchesHistory(player, history)
    requires player.id in r.moves && settled.id == player.id
    requires settled.moves == player.moves + [r.moves[player.id]]
    requires settled.score == player.score + Get0(r.scores, player.id)
    ensures PlayerMatchesHistory(settled, history + [r])
  {
    SumScoresAppend(history, r, player.id);
    var n := |history|;
    assert (history + [r])[..n] == history;
    assert settled.moves[..n] == player.moves;
  }

  lemma AdvanceIsConsistent(st: GameState, coins: Coins)
    requires CanAdvance(st) && Consistent(st)
    ensures Consistent(Advance(st, coins))
  {
    if Productive(st) {
      var next := Advance(st, coins);
      var r := RoundOf(st, coins);
      assert next.roundHistory == st.roundHistory + [r];
      forall p | 0 <= p < |next.players| ensures PlayerMatchesHistory(next.players[p], next.roundHistory) {
        SettledPlayerMatches(st.players[p], st.roundHistory, r, next.players[p]);
      }
    }
  }

  lemma {:induction false} AdvanceNIsConsistent(st: GameState, coins: Coins, k: nat)
    requires CanAdvance(st) && Consistent(st)
    ensures Consistent(AdvanceN(st, coins, k))
    decreases k
  {
    if k > 0 {
      AdvanceIsConsistent(st, coins);
      AdvanceNIsConsistent(Advance(st, coins), coins, k - 1);
    }
  }

  /** The score view agrees with the history on a consistent state. */
  lemma ScoresAreHistorySums(st: GameState, p: nat)
    requires Consistent(st) && UniqueIds(st.players) && p < |st.players|
    ensures GetScores(st.players)[st.players[p].id] == SumScores(st.roundHistory, st.players[p].id)
  {
    assert PlayerMatchesHistory(st.players[p], st.roundHistory);
    forall l | p < l < |st.players| ensures st.players[l].id != st.players[p].id {
      DistinctIds(st.players, l, p);
    }
  }

  // ---------------------------------------------------------------------------
  // Running to completion

  /** `k > 0` round calls are one call followed by `k - 1` more. */
  lemma AdvanceNFirst(st: GameState, coins: Coins, k: nat)
    requires CanAdvance(st) && k > 0
    ensures AdvanceN(st, coins, k) == AdvanceN(Advance(st, coins), coins, k - 1)
  {
  }

  /** A round that is due leaves one round fewer before the limit. */
  lemma RoundsLeftDrop(st: GameState, coins: Coins)
    requires Productive(st) && Roster(st.players)
    ensures Advance(st, coins).maxRounds - Advance(st, coins).currentRound == st.maxRounds - st.currentRound - 1
  {
  }

  /** A running game with rounds left runs until the limit, and the run is
      exactly as many single rounds as are left. */
  lemma {:induction false} RunFromPlaysOut(st: GameState, coins: Coins)
    requires Productive(st) && Roster(st.players)
    ensures RunFrom(st, coins) == AdvanceN(st, coins, st.maxRounds - st.currentRound)
    ensures RunFrom(st, coins).currentRound == st.maxRounds
    decreases st.maxRounds - st.currentRound
  {
    var next := Advance(st, coins);
    var left := st.maxRounds - st.currentRound;
    assert RunFrom(st, coins) == RunFrom(next, coins);
    AdvanceNFirst(st, coins, left);
    RoundsLeftDrop(st, coins);
    if next.isRunning {
      RunFromPlaysOut(next, coins);
    } else {
      assert left == 1;
    }
  }

  /** Running a game that has reached its limit only stops it. */
  lemma RunFromFinished(st: GameState, coins: Coins)
    requires st.currentRound >= st.maxRounds
    ensures RunFrom(st.(isRunning := true), coins) == st.(isRunning := false)
  {
  }

  /** Running a freshly initialised game plays exactly `maxRounds` rounds,
      one call of the round operation each, and stops in a consistent state. */
  lemma RunInitializedGame(players: seq<Player>, maxRounds: int, coins: Coins)
    requires Roster(players) && maxRounds > 0
    ensures var start := Initialize(players, maxRounds).(isRunning := true);
      var final := RunFrom(start, coins);
      && final == AdvanceN(start, coins, maxRounds)
      && final.currentRound == maxRounds && |final.roundHistory| == maxRounds
      && !final.isRunning
      && Consistent(final)
  {
    var start := Initialize(players, maxRounds).(isRunning := true);
    InitializeIsConsistent(players, maxRounds);
    assert Roster(start.players);
    RunFromPlaysOut(start, coins);
    AdvanceNIsConsistent(start, coins, maxRounds);
  }

  // ---------------------------------------------------------------------------
  // Round-robin scoring

  /** With everybody cooperating, each matchup earns 3. */
  lemma {:induction false} CooperatorsScoreUpTo(st: GameState, coins: Coins, p: nat, k: nat)
    requires p < |st.players| && k <= |st.players|
    requires forall q :: 0 <= q < |st.players| ==> st.players[q].strategy == Catalogue.AlwaysCooperate
    ensures ScoreUpTo(st, coins, p, k) == 3 * (if p < k then k - 1 else k)
    decreases k
  {
    if k > 0 {
      CooperatorsScoreUpTo(st, coins, p, k - 1);
    }
  }

  /** With every player on Always Cooperate, every player earns 3 from each of
      the other N - 1 players in a round (so 6 each with three players). */
  lemma AllCooperateRound(st: GameState, coins: Coins)
    requires Roster(st.players)
    requires forall q :: 0 <= q < |st.players| ==> st.players[q].strategy == Catalogue.AlwaysCooperate
    ensures forall p :: 0 <= p < |st.players| ==>
      RoundOf(st, coins).scores[st.players[p].id] == 3 * (|st.players| - 1)
  {
    forall p | 0 <= p < |st.players| ensures RoundScore(st, coins, p) == 3 * (|st.players| - 1) {
      CooperatorsScoreUpTo(st, coins, p, |st.players|);
    }
  }

  /** In a two-player round each player earns the payoff of the single matchup,
      and records the move it made in it. */
  lemma TwoPlayerRound(st: GameState, coins: Coins)
    requires Productive(st) && Roster(st.players) && |st.players| == 2
    ensures var next := Advance(st, coins);
      var m0, m1 := Choice(st, coins, 0, 1), Choice(st, coins, 1, 0);
      && next.players[0].score == st.players[0].score + Payoff(m0, m1).0
      && next.players[1].score == st.players[1].score + Payoff(m0, m1).1
      && next.players[0].moves == st.players[0].moves + [m0]
      && next.players[1].moves == st.players[1].moves + [m1]
  {
    var m0, m1 := Choice(st, coins, 0, 1), Choice(st, coins, 1, 0);
    PayoffSymmetric(m0, m1);
    assert ScoreUpTo(st, coins, 0, 1) == 0;
    assert ScoreUpTo(st, coins, 1, 1) == PointsAgainst(st, coins, 1, 0);
    AdvanceProductive(st, coins);
  }

  /** The move of a rule that ignores its inputs. */
  function FixedMove(s: Catalogue.Strategy): (m: Move)
    requires s.AlwaysCooperate? || s.AlwaysDefect?
    ensures forall h: seq<Move>, r: nat, c: bool :: Catalogue.Decide(s, h, r, c) == m
  {
    if s.AlwaysCooperate? then Cooperate else Defect
  }

  /** A two-player game between two rules that ignore their inputs
      (Always Cooperate or Always Defect on either side). */
  predicate UnconditionalPair(st: GameState)
  {
    && Roster(st.players) && |st.players| == 2
    && (st.players[0].strategy.AlwaysCooperate? || st.players[0].strategy.AlwaysDefect?)
    && (st.players[1].strategy.AlwaysCooperate? || st.players[1].strategy.AlwaysDefect?)
  }

  /** The payoffs such a pair earns in every round. */
  function PairPayoff(st: GameState): (int, int)
    requires UnconditionalPair(st)
  {
    Payoff(FixedMove(st.players[0].strategy), FixedMove(st.players[1].strategy))
  }

  /** Such a round gives each player its entry of the payoff table for the two
      fixed moves, and leaves the same match-up one round on. */
  lemma UnconditionalStep(st: GameState, coins: Coins)
    requires UnconditionalPair(st) && Productive(st)
    ensures var next := Advance(st, coins);
      && UnconditionalPair(next) && PairPayoff(next) == PairPayoff(st)
      && next.players[0].score == st.players[0].score + PairPayoff(st).0
      && next.players[1].score == st.players[1].score + PairPayoff(st).1
  {
    TwoPlayerRound(st, coins);
    assert Choice(st, coins, 0, 1) == FixedMove(st.players[0].strategy);
    assert Choice(st, coins, 1, 0) == FixedMove(st.players[1].strategy);
  }

  /** Scaling equal entries gives equal totals. */
  lemma ScaleEntry(n: int, p: int, c: int)
    requires p == c
    ensures n * p == n * c
  {
  }

  /** A first round worth `x` followed by `k - 1` rounds worth `x` each. */
  lemma AddRounds(before: int, after: int, total: int, x: int, k: int)
    requires after == before + x && total == after + (k - 1) * x
    ensures total == before + k * x
  {
  }

  /** Over `k` rounds of that match-up each player earns `k` times its entry. */
  lemma {:induction false} UnconditionalRounds(st: GameState, coins: Coins, k: nat)
    requires UnconditionalPair(st)
    requires k > 0 ==> Productive(st)
    requires st.currentRound + k <= st.maxRounds
    ensures AdvanceN(st, coins, k).players[0].score == st.players[0].score + k * PairPayoff(st).0
    ensures AdvanceN(st, coins, k).players[1].score == st.players[1].score + k * PairPayoff(st).1
    decreases k
  {
    if k > 0 {
      var next := Advance(st, coins);
      UnconditionalStep(st, coins);
      UnconditionalRounds(next, coins, k - 1);
      AdvanceNFirst(st, coins, k);
      var last := AdvanceN(st, coins, k);
      AddRounds(st.players[0].score, next.players[0].score, last.players[0].score, PairPayoff(st).0, k);
      AddRounds(st.players[1].score, next.players[1].score, last.players[1].score, PairPayoff(st).1, k);
    }
  }

  /** Two rules that ignore their inputs, from a fresh two-player start over n
      rounds: each player ends with n times its entry of the payoff table. */
  lemma UnconditionalGame(a: Player, b: Player, n: int, coins: Coins)
    requires a.id != b.id && n > 0
    requires a.strategy.AlwaysCooperate? || a.strategy.AlwaysDefect?
    requires b.strategy.AlwaysCooperate? || b.strategy.AlwaysDefect?
    ensures var final := RunFrom(Initialize([a, b], n).(isRunning := true), coins);
      var payoff := Payoff(FixedMove(a.strategy), FixedMove(b.strategy));
      final.players[0].score == n * payoff.0 && final.players[1].score == n * payoff.1
  {
    var start := Initialize([a, b], n).(isRunning := true);
    PairRoster(a, b);
    assert UnconditionalPair(start);
    RunFromPlaysOut(start, coins);
    UnconditionalRounds(start, coins, n);
  }

  /** Always Cooperate against Always Defect over n rounds ends 0 to 5n. */
  lemma CooperatorAgainstDefector(a: Player, b: Player, n: int, coins: Coins)
    requires a.id != b.id && n > 0
    requires a.strategy == Catalogue.AlwaysCooperate && b.strategy == Catalogue.AlwaysDefect
    ensures var final := RunFrom(Initialize([a, b], n).(isRunning := true), coins);
      final.players[0].score == 0 && final.players[1].score == 5 * n
  {
    UnconditionalGame(a, b, n, coins);
    var payoff := Payoff(FixedMove(a.strategy), FixedMove(b.strategy));
    ScaleEntry(n, payoff.0, 0);
    ScaleEntry(n, payoff.1, 5);
  }

  /** Two Always Cooperate players over n rounds end 3n each. */
  lemma CooperatorAgainstCooperator(a: Player, b: Player, n: int, coins: Coins)
    requires a.id != b.id && n > 0
    requires a.strategy == Catalogue.AlwaysCooperate && b.strategy == Catalogue.AlwaysCooperate
    ensures var final := RunFrom(Initialize([a, b], n).(isRunning := true), coins);
      final.players[0].score == 3 * n && final.players[1].score == 3 * n
  {
    UnconditionalGame(a, b, n, coins);
    var payoff := Payoff(FixedMove(a.strategy), FixedMove(b.strategy));
    ScaleEntry(n, payoff.0, 3);
    ScaleEntry(n, payoff.1, 3);
  }

  /** Two Always Defect players over n rounds end n each. */
  lemma DefectorAgainstDefector(a: Player, b: Player, n: int, coins: Coins)
    requires a.id != b.id && n > 0
    requires a.strategy == Catalogue.AlwaysDefect && b.strategy == Catalogue.AlwaysDefect
    ensures var final := RunFrom(Initialize([a, b], n).(isRunning := true), coins);
      final.players[0].score == n && final.players[1].score == n
  {
    UnconditionalGame(a, b, n, coins);
    var payoff := Payoff(FixedMove(a.strategy), FixedMove(b.strategy));
    ScaleEntry(n, payoff.0, 1);
    ScaleEntry(n, payoff.1, 1);
  }

  /** A two-player game of Tit for Tat, at roster index t, against Always Defect
      at the other index, after the defector has made its first move. */
  predicate TitForTatFacesDefector(st: GameState, t: nat)
  {
    && Roster(st.players) && |st.players| == 2 && t < 2
    && st.players[t].strategy == Catalogue.TitForTat && st.players[1 - t].strategy == Catalogue.AlwaysDefect
    && st.currentRound > 0 && |st.players[1 - t].moves| > 0 && Last(st.players[1 - t].moves) == Defect
  }

  /** Such a round is mutual defection, 1 each, and leaves the game in the same
      situation one round on. */
  lemma TitForTatDefectorStep(st: GameState, coins: Coins, t: nat)
    requires TitForTatFacesDefector(st, t) && Productive(st)
    ensures var next := Advance(st, coins);
      && TitForTatFacesDefector(next, t)
      && next.players[t].score == st.players[t].score + 1
      && next.players[1 - t].score == st.players[1 - t].score + 1
  {
    TwoPlayerRound(st, coins);
    assert Choice(st, coins, t, 1 - t) == Defect;
    assert Choice(st, coins, 1 - t, t) == Defect;
  }

  /** Tit for Tat against Always Defect once the first round is over: both
      defect and each earns 1 per round. */
  lemma {:induction false} TitForTatDefectorRounds(st: GameState, coins: Coins, t: nat, k: nat)
    requires TitForTatFacesDefector(st, t)
    requires k > 0 ==> Productive(st)
    requires st.currentRound + k <= st.maxRounds
    ensures AdvanceN(st, coins, k).players[t].score == st.players[t].score + k
    ensures AdvanceN(st, coins, k).players[1 - t].score == st.players[1 - t].score + k
    decreases k
  {
    if k > 0 {
      var next := Advance(st, coins);
      TitForTatDefectorStep(st, coins, t);
      TitForTatDefectorRounds(next, coins, t, k - 1);
      AdvanceNFirst(st, coins, k);
    }
  }

  /** Tit for Tat, at roster index t, about to meet Always Defect in the first
      round. */
  predicate TitForTatMeetsDefector(st: GameState, t: nat)
  {
    && Roster(st.players) && |st.players| == 2 && t < 2
    && st.players[t].strategy == Catalogue.TitForTat && st.players[1 - t].strategy == Catalogue.AlwaysDefect
    && Productive(st) && st.currentRound == 0
  }

  /** The first round of Tit for Tat against Always Defect: the cooperator is
      exploited, 0 to 5, after which the defection is on record and the game
      goes on while rounds are left. */
  lemma TitForTatOpening(st: GameState, coins: Coins, t: nat)
    requires TitForTatMeetsDefector(st, t)
    ensures var second := Advance(st, coins);
      && second.players[t].score == st.players[t].score
      && second.players[1 - t].score == st.players[1 - t].score + 5
      && TitForTatFacesDefector(second, t)
      && second.currentRound == 1 && second.maxRounds == st.maxRounds
      && second.isRunning == (1 < st.maxRounds)
  {
    TwoPlayerRound(st, coins);
    assert Choice(st, coins, t, 1 - t) == Cooperate;
    assert Choice(st, coins, 1 - t, t) == Defect;
  }

  /** All `maxRounds` rounds of Tit for Tat against Always Defect: after the
      first round, both earn 1 a round. */
  lemma TitForTatDefectorRun(st: GameState, coins: Coins, t: nat)
    requires TitForTatMeetsDefector(st, t)
    ensures AdvanceN(st, coins, st.maxRounds).players[t].score == st.players[t].score + (st.maxRounds - 1)
    ensures AdvanceN(st, coins, st.maxRounds).players[1 - t].score
      == Advance(st, coins).players[1 - t].score + (st.maxRounds - 1)
  {
    TitForTatOpening(st, coins, t);
    AdvanceNFirst(st, coins, st.maxRounds);
    TitForTatDefectorRounds(Advance(st, coins), coins, t, st.maxRounds - 1);
  }

  /** From round 0 with zero scores, Tit for Tat against Always Defect ends
      the game n - 1 to 5 + (n - 1). */
  lemma TitForTatDefectorGame(st: GameState, coins: Coins, t: nat)
    requires TitForTatMeetsDefector(st, t)
    requires st.players[t].score == 0 && st.players[1 - t].score == 0
    ensures RunFrom(st, coins).players[t].score == st.maxRounds - 1
    ensures RunFrom(st, coins).players[1 - t].score == 5 + (st.maxRounds - 1)
  {
    RunFromPlaysOut(st, coins);
    TitForTatOpening(st, coins, t);
    TitForTatDefectorRun(st, coins, t);
  }

  /** Tit for Tat against Always Defect over n rounds, in either roster order,
      ends n - 1 to 5 + (n - 1). */
  lemma TitForTatAgainstDefector(players: seq<Player>, t: nat, n: int, coins: Coins)
    requires |players| == 2 && players[0].id != players[1].id && n > 0 && t < 2
    requires players[t].strategy == Catalogue.TitForTat && players[1 - t].strategy == Catalogue.AlwaysDefect
    ensures var final := RunFrom(Initialize(players, n).(isRunning := true), coins);
      final.players[t].score == n - 1 && final.players[1 - t].score == 5 + (n - 1)
  {
    var start := Initialize(players, n).(isRunning := true);
    PairRoster(players[0], players[1]);
    assert players == [players[0], players[1]];
    assert TitForTatMeetsDefector(start, t);
    TitForTatDefectorGame(start, coins, t);
  }
}
