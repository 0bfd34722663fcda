/** The game engine: the payoff table, the game state, and the operations that
    initialise a game, play one round of round-robin pairwise matchups, run a
    game to completion and derive score views from the state. States are values;
    every operation returns a new one. */
module GameLogic {
  import opened Strategies
  import Catalogue

  /** Payoffs for (row player's move, column player's move), as
      (row player's points, column player's points). */
  function Payoff(a: Move, b: Move): (r: (int, int))
    ensures 0 <= r.0 <= 5 && 0 <= r.1 <= 5
  {
    match (a, b)
    case (Cooperate, Cooperate) => (3, 3)
    case (Cooperate, Defect) => (0, 5)
    case (Defect, Cooperate) => (5, 0)
    case (Defect, Defect) => (1, 1)
  }

  /** A player as the engine sees it. The display name and colour have no
      effect on the game and are not part of the model; `strategy` is the tag
      of the bound strategy function. */
  datatype Player = Player(id: int, strategy: Catalogue.Strategy, score: int, moves: seq<Move>)

  /** What happened in one round: each player's move and the points it earned,
      keyed by player id. */
  datatype RoundResult = RoundResult(round: nat, moves: map<int, Move>, scores: map<int, int>)

  datatype GameState = GameState(
    players: seq<Player>,
    currentRound: nat,
    maxRounds: int,
    roundHistory: seq<RoundResult>,
    isRunning: bool)

  /** The randomness source: the coin a strategy call reads, given the round,
      the roster index of the player deciding and that of its opponent. */
  type Coins = (nat, nat, nat) -> bool

  /** `m[key]`, or 0 when `key` has no entry. */
  function Get0(m: map<int, int>, key: int): int
  {
    if key in m then m[key] else 0
  }

  /** The ids on a roster. */
  function Ids(players: seq<Player>): (r: set<int>)
    ensures forall k :: 0 <= k < |players| ==> players[k].id in r
    decreases |players|
  {
    if players == [] then {}
    else
      var n := |players| - 1;
      assert forall k :: 0 <= k < n ==> players[..n][k] == players[k];
      Ids(players[..n]) + {players[n].id}
  }

  lemma {:induction false} IdsAreRosterIds(players: seq<Player>, id: int)
    requires id in Ids(players)
    ensures exists k :: 0 <= k < |players| && players[k].id == id
    decreases |players|
  {
    var n := |players| - 1;
    if players[n].id != id {
      IdsAreRosterIds(players[..n], id);
      var k :| 0 <= k < n && players[..n][k].id == id;
      assert players[k].id == id;
    }
  }

  /** The first roster index holding `id`, or the roster size when none does. */
  function IndexOfId(players: seq<Player>, id: int): (k: nat)
    ensures k <= |players|
    ensures k < |players| ==> players[k].id == id
    decreases |players|
  {
    if |players| == 0 then 0
    else if players[0].id == id then 0
    else 1 + IndexOfId(players[1..], id)
  }

  /** No two players share an id: each player is the first holder of its id. */
  predicate UniqueIds(players: seq<Player>)
  {
    forall a {:trigger IndexOfId(players, players[a].id)} :: 0 <= a < |players| ==> IndexOfId(players, players[a].id) == a
  }

  /** Under distinct ids, no player before position k - 1 holds its id. */
  lemma DistinctFromLast(players: seq<Player>, k: nat)
    requires UniqueIds(players) && 0 < k <= |players|
    ensures forall p :: 0 <= p < k - 1 ==> players[p].id != players[k - 1].id
  {
    forall p | 0 <= p < k - 1 ensures players[p].id != players[k - 1].id {
      DistinctIds(players, p, k - 1);
    }
  }

  /** Under distinct ids, two roster positions hold two different ids. */
  lemma DistinctIds(players: seq<Player>, p: nat, q: nat)
    requires UniqueIds(players) && p < |players| && q < |players| && p != q
    ensures players[p].id != players[q].id
  {
    assert IndexOfId(players, players[p].id) == p;
    assert IndexOfId(players, players[q].id) == q;
  }

  /** Rosters with the same ids in the same order find every id at the same index. */
  lemma {:induction false} SameRosterSameIndex(a: seq<Player>, b: seq<Player>, id: int)
    requires SameRoster(a, b)
    ensures IndexOfId(a, id) == IndexOfId(b, id)
    decreases |a|
  {
    if |a| > 0 && a[0].id != id {
      SameRosterSameIndex(a[1..], b[1..], id);
    }
  }

  /** Distinct ids carry over to a roster with the same ids. */
  lemma RosterCarries(a: seq<Player>, b: seq<Player>)
    requires SameRoster(a, b) && Roster(a)
    ensures Roster(b)
  {
    forall k | 0 <= k < |b| ensures IndexOfId(b, b[k].id) == k {
      SameRosterSameIndex(a, b, b[k].id);
    }
  }

  /** A roster on which a round is meaningful: at least two players, distinct ids. */
  predicate Roster(players: seq<Player>)
  {
    |players| >= 2 && UniqueIds(players)
  }

  /** Two players with different ids make a roster. */
  lemma PairRoster(a: Player, b: Player)
    requires a.id != b.id
    ensures Roster([a, b])
  {
    assert [a, b][1..] == [b];
    assert IndexOfId([a, b], b.id) == 1;
  }

  /** Same players in the same order, with the same ids and strategies. */
  predicate SameRoster(a: seq<Player>, b: seq<Player>)
  {
    |a| == |b| && forall k {:trigger b[k]} :: 0 <= k < |a| ==> a[k].id == b[k].id && a[k].strategy == b[k].strategy
  }

  /** A round will be played: the game is running and the limit is not reached. */
  predicate Productive(st: GameState)
  {
    st.isRunning && st.currentRound < st.maxRounds
  }

  /** What a round needs of the state before it can be played. */
  predicate CanAdvance(st: GameState)
  {
    Productive(st) ==> Roster(st.players)
  }

  /** The state invariant: one history entry per round played, numbered in
      order; every player has one move per round, recorded in that round's
      entry, and a score equal to the sum of its per-round points; a running
      game has rounds left. */
  ghost predicate Consistent(st: GameState)
  {
    && st.currentRound == |st.roundHistory|
    && (forall k :: 0 <= k < |st.roundHistory| ==> st.roundHistory[k].round == k)
    && (forall p :: 0 <= p < |st.players| ==> PlayerMatchesHistory(st.players[p], st.roundHistory))
    && (st.isRunning ==> st.currentRound < st.maxRounds)
  }

  ghost predicate PlayerMatchesHistory(player: Player, history: seq<RoundResult>)
  {
    && |player.moves| == |history|
    && player.score == SumScores(history, player.id)
    && MovesRecorded(player.moves, history, player.id)
  }

  /** Round by round, the history holds an entry for `id` equal to its move. */
  ghost predicate MovesRecorded(moves: seq<Move>, history: seq<RoundResult>, id: int)
    requires |moves| == |history|
    decreases |history|
  {
    |history| == 0 ||
    (var n := |history| - 1;
     && MovesRecorded(moves[..n], history[..n], id)
     && id in history[n].moves && history[n].moves[id] == moves[n])
  }

  /** The entry recorded in round k is the k-th move. */
  lemma {:induction false} MovesRecordedAt(moves: seq<Move>, history: seq<RoundResult>, id: int, k: nat)
    requires |moves| == |history| && MovesRecorded(moves, history, id) && k < |history|
    ensures id in history[k].moves && history[k].moves[id] == moves[k]
    decreases |history|
  {
    var n := |history| - 1;
    if k < n {
      MovesRecordedAt(moves[..n], history[..n], id, k);
    }
  }

  // ---------------------------------------------------------------------------
  // Initialisation

  function Initialize(players: seq<Player>, maxRounds: int): (st: GameState)
    ensures st.currentRound == 0 && st.roundHistory == [] && !st.isRunning && st.maxRounds == maxRounds
    ensures SameRoster(players, st.players) && (Roster(players) ==> Roster(st.players))
    ensures forall k :: 0 <= k < |st.players| ==> st.players[k].score == 0 && st.players[k].moves == []
  {
    var reset := seq(|players|, k requires 0 <= k < |players| => players[k].(score := 0, moves := []));
    assert Roster(players) ==> Roster(reset) by {
      if Roster(players) { RosterCarries(players, reset); }
    }
    GameState(reset, 0, maxRounds, [], false)
  }

  // ---------------------------------------------------------------------------
  // One round, in closed form

  /** The move player `i` chooses against player `j` in the current round: its
      strategy sees `j`'s moves from the earlier rounds. */
  function Choice(st: GameState, coins: Coins, i: nat, j: nat): Move
    requires i < |st.players| && j < |st.players|
  {
    var ps := st.players;
    Catalogue.Decide(ps[i].strategy, ps[j].moves, st.currentRound, coins(st.currentRound, i, j))
  }

  /** The points player `i` earns from its matchup with player `j`. */
  function PointsAgainst(st: GameState, coins: Coins, i: nat, j: nat): (r: int)
    requires i < |st.players| && j < |st.players|
    ensures 0 <= r <= 5
  {
    Payoff(Choice(st, coins, i, j), Choice(st, coins, j, i)).0
  }

  /** The points player `p` earns against the opponents at roster indices below
      `k`, other than itself. */
  function ScoreUpTo(st: GameState, coins: Coins, p: nat, k: nat): (r: int)
    requires p < |st.players| && k <= |st.players|
    ensures 0 <= r <= 5 * (if p < k then k - 1 else k)
    decreases k
  {
    if k == 0 then 0
    else ScoreUpTo(st, coins, p, k - 1) + (if k - 1 == p then 0 else PointsAgainst(st, coins, p, k - 1))
  }

  /** The points player `p` earns in the round: the sum over its matchups with
      every other player, so between 0 and 5 per opponent. */
  function RoundScore(st: GameState, coins: Coins, p: nat): (r: int)
    requires p < |st.players|
    ensures 0 <= r <= 5 * (|st.players| - 1)
  {
    ScoreUpTo(st, coins, p, |st.players|)
  }

  /** The opponent in the first matchup a player takes part in: pairs are taken
      in the order (0,1), (0,2), ..., (1,2), ..., so player 0 meets player 1
      first and every other player meets player 0 first. */
  function FirstOpponent(p: nat): nat
  {
    if p == 0 then 1 else 0
  }

  /** The move recorded for player `p` in the round. */
  function RecordedMove(st: GameState, coins: Coins, p: nat): Move
    requires Roster(st.players) && p < |st.players|
  {
    Choice(st, coins, p, FirstOpponent(p))
  }

  /** Player id to the move recorded for that player in the round. */
  function RecordedMoves(st: GameState, coins: Coins): (m: map<int, Move>)
    requires Roster(st.players)
    ensures forall p {:trigger m[st.players[p].id]} :: 0 <= p < |st.players| ==>
      st.players[p].id in m && m[st.players[p].id] == RecordedMove(st, coins, p)
  {
    RecordedMovesUpTo(st, coins, |st.players|)
  }

  /** The same, for the players at roster indices below k. */
  function RecordedMovesUpTo(st: GameState, coins: Coins, k: nat): (m: map<int, Move>)
    requires Roster(st.players) && k <= |st.players|
    ensures forall p {:trigger m[st.players[p].id]} :: 0 <= p < k ==>
      st.players[p].id in m && m[st.players[p].id] == RecordedMove(st, coins, p)
    decreases k
  {
    var ps := st.players;
    if k == 0 then map[]
    else
      DistinctFromLast(ps, k);
      RecordedMovesUpTo(st, coins, k - 1)[ps[k - 1].id := RecordedMove(st, coins, k - 1)]
  }

  /** Player id to the points that player earns in the round. */
  function RoundScores(st: GameState, coins: Coins): (m: map<int, int>)
    requires Roster(st.players)
    ensures forall p {:trigger m[st.players[p].id]} :: 0 <= p < |st.players| ==>
      st.players[p].id in m && m[st.players[p].id] == RoundScore(st, coins, p)
  {
    RoundScoresUpTo(st, coins, |st.players|)
  }

  /** The same, for the players at roster indices below k. */
  function RoundScoresUpTo(st: GameState, coins: Coins, k: nat): (m: map<int, int>)
    requires Roster(st.players) && k <= |st.players|
    ensures forall p {:trigger m[st.players[p].id]} :: 0 <= p < k ==>
      st.players[p].id in m && m[st.players[p].id] == RoundScore(st, coins, p)
    decreases k
  {
    var ps := st.players;
    if k == 0 then map[]
    else
      DistinctFromLast(ps, k);
      RoundScoresUpTo(st, coins, k - 1)[ps[k - 1].id := RoundScore(st, coins, k - 1)]
  }

  /** The result of the round about to be played in `st`. */
  function RoundOf(st: GameState, coins: Coins): (r: RoundResult)
    requires Roster(st.players)
    ensures r.round == st.currentRound
  {
    RoundResult(st.currentRound, RecordedMoves(st, coins), RoundScores(st, coins))
  }

  /** The maps built for the players at roster indices below k have exactly
      those players' ids as keys. */
  lemma {:induction false} RoundKeysUpTo(st: GameState, coins: Coins, k: nat)
    requires Roster(st.players) && k <= |st.players|
    ensures RecordedMovesUpTo(st, coins, k).Keys == Ids(st.players[..k])
    ensures RoundScoresUpTo(st, coins, k).Keys == Ids(st.players[..k])
    decreases k
  {
    if k > 0 {
      var ps := st.players;
      RoundKeysUpTo(st, coins, k - 1);
      assert ps[..k][..k - 1] == ps[..k - 1];
    }
  }

  /** A round's move and score maps have exactly the roster's ids as keys. */
  lemma RoundOfKeys(st: GameState, coins: Coins)
    requires Roster(st.players)
    ensures RoundOf(st, coins).moves.Keys == Ids(st.players)
    ensures RoundOf(st, coins).scores.Keys == Ids(st.players)
  {
    RoundKeysUpTo(st, coins, |st.players|);
    assert st.players[..|st.players|] == st.players;
  }

  /** A player gains the round's points and appends the round's move. */
  function SettlePlayer(player: Player, result: RoundResult): (r: Player)
    requires player.id in result.moves
    ensures r.id == player.id && r.strategy == player.strategy
    ensures |r.moves| == |player.moves| + 1 && r.moves[|player.moves|] == result.moves[player.id]
    ensures r.score - player.score == Get0(result.scores, player.id)
  {
    player.(score := player.score + Get0(result.scores, player.id),
            moves := player.moves + [result.moves[player.id]])
  }

  /** Every player gains the round's points and appends the round's move. */
  function Settle(players: seq<Player>, result: RoundResult): (r: seq<Player>)
    requires forall k :: 0 <= k < |players| ==> players[k].id in result.moves
    ensures SameRoster(players, r)
    ensures forall k {:trigger r[k]} :: 0 <= k < |r| ==>
      r[k].score == players[k].score + Get0(result.scores, players[k].id) &&
      r[k].moves == players[k].moves + [result.moves[players[k].id]]
  {
    seq(|players|, k requires 0 <= k < |players| => SettlePlayer(players[k], result))
  }

  /** The state after one call of the round operation: unchanged but stopped
      when no round is due, otherwise one round further. */
  function Advance(st: GameState, coins: Coins): (next: GameState)
    requires CanAdvance(st)
    ensures SameRoster(st.players, next.players) && next.maxRounds == st.maxRounds
    ensures Roster(st.players) ==> Roster(next.players)
    ensures CanAdvance(next)
    ensures Productive(st) ==> next.currentRound == st.currentRound + 1 && next.isRunning == (st.currentRound + 1 < st.maxRounds)
    ensures !Productive(st) ==> next == st.(isRunning := false)
  {
    if !Productive(st) then st.(isRunning := false)
    else
      var result := RoundOf(st, coins);
      RoundOfKeys(st, coins);
      var settled := Settle(st.players, result);
      RosterCarries(st.players, settled);
      GameState(settled, st.currentRound + 1, st.maxRounds,
                st.roundHistory + [result], st.currentRound + 1 < st.maxRounds)
  }

  // ---------------------------------------------------------------------------
  // One round, as the engine plays it

  /** Limit of the roster indices q whose matchup with p the pair loop has
      already scored, once it has done all pairs (a, _) with a < i and the
      pairs (i, b) with b < j. */
  function Upper(n: nat, p: nat, i: nat, j: nat): (u: nat)
    requires p < n && (i < n ==> j <= n)
    ensures u <= n
  {
    if p < i then n else if p == i then j else if p < j then i + 1 else i
  }

  /** Whether player p has taken part in one of those pairs (given n >= 2). */
  predicate Touched(p: nat, i: nat, j: nat)
  {
    i > 0 || (p < j && j > 1)
  }

  /** What the pair loop has written for player p after the pairs described
      at `Upper`: an entry once p has been in a pair, the move of its first
      pair, and the points of the pairs scored so far. */
  ghost predicate FilledAt(st: GameState, coins: Coins, moves: map<int, Move>, scores: map<int, int>,
                           i: nat, j: nat, p: nat)
    requires Roster(st.players) && i <= |st.players| && (i < |st.players| ==> j <= |st.players|)
    requires p < |st.players|
  {
    var id := st.players[p].id;
    && (id in moves <==> Touched(p, i, j))
    && (id in scores <==> Touched(p, i, j))
    && (Touched(p, i, j) ==> moves[id] == RecordedMove(st, coins, p))
    && Get0(scores, id) == ScoreUpTo(st, coins, p, Upper(|st.players|, p, i, j))
  }

  ghost predicate Filled(st: GameState, coins: Coins, moves: map<int, Move>, scores: map<int, int>, i: nat, j: nat)
    requires Roster(st.players) && i <= |st.players| && (i < |st.players| ==> j <= |st.players|)
  {
    && moves.Keys <= Ids(st.players)
    && scores.Keys <= Ids(st.players)
    && forall p :: 0 <= p < |st.players| ==> FilledAt(st, coins, moves, scores, i, j, p)
  }

  /** Before any pair, both maps are empty. */
  lemma NothingFilled(st: GameState, coins: Coins)
    requires Roster(st.players)
    ensures Filled(st, coins, map[], map[], 0, 1)
  {
    forall p | 0 <= p < |st.players| ensures FilledAt(st, coins, map[], map[], 0, 1, p) {
      if p == 0 {
        assert ScoreUpTo(st, coins, p, 1) == ScoreUpTo(st, coins, p, 0);
      }
    }
  }

  /** The map writes the pair loop performs for pair (i, j): each player keeps
      a move already recorded, and both gain the pair's points. */
  predicate PairUpdate(st: GameState, coins: Coins, moves: map<int, Move>, scores: map<int, int>, i: nat, j: nat,
                       moves': map<int, Move>, scores': map<int, int>)
    requires i < |st.players| && j < |st.players|
  {
    var ps := st.players;
    var m1, m2 := Choice(st, coins, i, j), Choice(st, coins, j, i);
    var mv := moves[ps[i].id := if ps[i].id in moves then moves[ps[i].id] else m1];
    var sc := scores[ps[i].id := Get0(scores, ps[i].id) + Payoff(m1, m2).0];
    && moves' == mv[ps[j].id := if ps[j].id in mv then mv[ps[j].id] else m2]
    && scores' == sc[ps[j].id := Get0(sc, ps[j].id) + Payoff(m1, m2).1]
  }

  /** Pair (i, j) as seen by player i. */
  lemma PairStepFirst(st: GameState, coins: Coins, moves: map<int, Move>, scores: map<int, int>, i: nat, j: nat,
                      moves': map<int, Move>, scores': map<int, int>)
    requires Roster(st.players) && i < j < |st.players|
    requires FilledAt(st, coins, moves, scores, i, j, i)
    requires PairUpdate(st, coins, moves, scores, i, j, moves', scores')
    ensures FilledAt(st, coins, moves', scores', i, j + 1, i)
  {
    var ps := st.players;
    DistinctIds(ps, i, j);
    assert Upper(|ps|, i, i, j + 1) == j + 1 && Upper(|ps|, i, i, j) == j;
  }

  /** Pair (i, j) as seen by player j. */
  lemma PairStepSecond(st: GameState, coins: Coins, moves: map<int, Move>, scores: map<int, int>, i: nat, j: nat,
                       moves': map<int, Move>, scores': map<int, int>)
    requires Roster(st.players) && i < j < |st.players|
    requires FilledAt(st, coins, moves, scores, i, j, j)
    requires PairUpdate(st, coins, moves, scores, i, j, moves', scores')
    ensures FilledAt(st, coins, moves', scores', i, j + 1, j)
  {
    var ps := st.players;
    PayoffSymmetric(Choice(st, coins, i, j), Choice(st, coins, j, i));
    DistinctIds(ps, i, j);
    assert Upper(|ps|, j, i, j + 1) == i + 1 && Upper(|ps|, j, i, j) == i;
  }

  /** Pair (i, j) as seen by everybody else: nothing changes. */
  lemma PairStepOther(st: GameState, coins: Coins, moves: map<int, Move>, scores: map<int, int>, i: nat, j: nat,
                      moves': map<int, Move>, scores': map<int, int>, p: nat)
    requires Roster(st.players) && i < j < |st.players| && p < |st.players| && p != i && p != j
    requires FilledAt(st, coins, moves, scores, i, j, p)
    requires PairUpdate(st, coins, moves, scores, i, j, moves', scores')
    ensures FilledAt(st, coins, moves', scores', i, j + 1, p)
  {
    var ps := st.players;
    DistinctIds(ps, p, i);
    DistinctIds(ps, p, j);
    assert Upper(|ps|, p, i, j + 1) == Upper(|ps|, p, i, j);
  }

  /** Scoring pair (i, j) moves the loop from (i, j) to (i, j + 1). */
  lemma PairStep(st: GameState, coins: Coins, moves: map<int, Move>, scores: map<int, int>, i: nat, j: nat,
                 moves': map<int, Move>, scores': map<int, int>)
    requires Roster(st.players) && i < j < |st.players|
    requires Filled(st, coins, moves, scores, i, j)
    requires PairUpdate(st, coins, moves, scores, i, j, moves', scores')
    ensures Filled(st, coins, moves', scores', i, j + 1)
  {
    var ps := st.players;
    var j1 := j + 1;
    forall p | 0 <= p < |ps| ensures FilledAt(st, coins, moves', scores', i, j1, p) {
      if p == i {
        PairStepFirst(st, coins, moves, scores, i, j, moves', scores');
      } else if p == j {
        PairStepSecond(st, coins, moves, scores, i, j, moves', scores');
      } else {
        PairStepOther(st, coins, moves, scores, i, j, moves', scores', p);
      }
    }
  }

  /** Finishing row i of the pair loop is starting row i + 1. */
  lemma RowStep(st: GameState, coins: Coins, moves: map<int, Move>, scores: map<int, int>, i: nat)
    requires Roster(st.players) && i < |st.players|
    requires Filled(st, coins, moves, scores, i, |st.players|)
    ensures Filled(st, coins, moves, scores, i + 1, i + 2)
  {
    var ps := st.players;
    var n := |ps|;
    var i1, i2 := i + 1, i + 2;
    forall p | 0 <= p < n ensures FilledAt(st, coins, moves, scores, i1, i2, p) {
      assert FilledAt(st, coins, moves, scores, i, n, p);
      if p == i + 1 {
        assert ScoreUpTo(st, coins, p, i + 2) == ScoreUpTo(st, coins, p, i + 1);
      }
    }
  }

  /** Once all pairs are done, the move map is the closed-form one. */
  lemma FilledMoves(st: GameState, coins: Coins, moves: map<int, Move>, scores: map<int, int>)
    requires Roster(st.players)
    requires Filled(st, coins, moves, scores, |st.players|, |st.players| + 1)
    ensures moves == RecordedMoves(st, coins)
  {
    var ps := st.players;
    var m := RecordedMoves(st, coins);
    RoundOfKeys(st, coins);
    forall key | key in Ids(ps) ensures key in moves && moves[key] == m[key] {
      IdsAreRosterIds(ps, key);
      var p :| 0 <= p < |ps| && ps[p].id == key;
      assert FilledAt(st, coins, moves, scores, |ps|, |ps| + 1, p);
    }
  }

  /** Once all pairs are done, the score map is the closed-form one. */
  lemma FilledScores(st: GameState, coins: Coins, moves: map<int, Move>, scores: map<int, int>)
    requires Roster(st.players)
    requires Filled(st, coins, moves, scores, |st.players|, |st.players| + 1)
    ensures scores == RoundScores(st, coins)
  {
    var ps := st.players;
    var m := RoundScores(st, coins);
    RoundOfKeys(st, coins);
    forall key | key in Ids(ps) ensures key in scores && scores[key] == m[key] {
      IdsAreRosterIds(ps, key);
      var p :| 0 <= p < |ps| && ps[p].id == key;
      assert FilledAt(st, coins, moves, scores, |ps|, |ps| + 1, p);
    }
  }

  /** The round operation. With every roster position paired with every later
      one, each player's move is recorded by the first pair it is in and kept by
      the later ones, and its points are added up over all its pairs. */
  method PlayRound(st: GameState, coins: Coins) returns (next: GameState)
    requires CanAdvance(st)
    ensures next == Advance(st, coins)
  {
    if st.currentRound >= st.maxRounds || !st.isRunning {
      return st.(isRunning := false);
    }
    var ps := st.players;
    var n := |ps|;
    var moves: map<int, Move> := map[];
    var scores: map<int, int> := map[];
    NothingFilled(st, coins);
    var i := 0;
    while i < n
      invariant 0 <= i <= n
      invariant Filled(st, coins, moves, scores, i, i + 1)
    {
      var j := i + 1;
      while j < n
        invariant i + 1 <= j <= n
        invariant Filled(st, coins, moves, scores, i, j)
      {
        var player1, player2 := ps[i], ps[j];
        var player1Move := Catalogue.Decide(player1.strategy, player2.moves, st.currentRound, coins(st.currentRound, i, j));
        var player2Move := Catalogue.Decide(player2.strategy, player1.moves, st.currentRound, coins(st.currentRound, j, i));
        ghost var moves0, scores0 := moves, scores;
        moves := moves[player1.id := if player1.id in moves then moves[player1.id] else player1Move];
        moves := moves[player2.id := if player2.id in moves then moves[player2.id] else player2Move];
        var (player1Points, player2Points) := Payoff(player1Move, player2Move);
        scores := scores[player1.id := Get0(scores, player1.id) + player1Points];
        scores := scores[player2.id := Get0(scores, player2.id) + player2Points];
        PairStep(st, coins, moves0, scores0, i, j, moves, scores);
        j := j + 1;
      }
      RowStep(st, coins, moves, scores, i);
      i := i + 1;
    }
    var roundResult := RoundResult(st.currentRound, moves, scores);
    FilledMoves(st, coins, moves, scores);
    FilledScores(st, coins, moves, scores);
    next := GameState(Settle(ps, roundResult), st.currentRound + 1, st.maxRounds,
                      st.roundHistory + [roundResult], st.currentRound + 1 < st.maxRounds);
  }

  // ---------------------------------------------------------------------------
  // Running a game

  /** A bound on the calls of the round operation still to come. */
  function Remaining(st: GameState): nat
  {
    (if st.isRunning then 1 else 0) + (if st.currentRound < st.maxRounds then st.maxRounds - st.currentRound else 0)
  }

  /** The state reached by calling the round operation until the game stops. */
  function RunFrom(st: GameState, coins: Coins): (final: GameState)
    requires CanAdvance(st)
    ensures !final.isRunning
    ensures SameRoster(st.players, final.players)
    decreases Remaining(st)
  {
    if !st.isRunning then st else RunFrom(Advance(st, coins), coins)
  }

  /** The run operation: restart the game and play rounds until it stops. */
  method RunGame(st: GameState, coins: Coins) returns (final: GameState)
    requires st.currentRound < st.maxRounds ==> Roster(st.players)
    ensures final == RunFrom(st.(isRunning := true), coins)
    ensures !final.isRunning
  {
    var currentState := st.(isRunning := true);
    while currentState.isRunning
      invariant CanAdvance(currentState)
      invariant RunFrom(currentState, coins) == RunFrom(st.(isRunning := true), coins)
      decreases Remaining(currentState)
    {
      currentState := PlayRound(currentState, coins);
    }
    final := currentState;
  }

  /** `k` calls of the round operation. */
  function AdvanceN(st: GameState, coins: Coins, k: nat): (r: GameState)
    requires CanAdvance(st)
    ensures CanAdvance(r) && SameRoster(st.players, r.players)
    decreases k
  {
    if k == 0 then st else AdvanceN(Advance(st, coins), coins, k - 1)
  }

  // ---------------------------------------------------------------------------
  // Derived views

  /** No player after roster index k has the same id as player k. */
  predicate LastWithId(players: seq<Player>, k: nat)
    requires k < |players|
  {
    forall l :: k < l < |players| ==> players[l].id != players[k].id
  }

  /** Player id to score. Later players overwrite earlier ones with the same id. */
  function GetScores(players: seq<Player>): (m: map<int, int>)
    ensures m.Keys == Ids(players)
    ensures forall k :: 0 <= k < |players| && LastWithId(players, k) ==> m[players[k].id] == players[k].score
  {
    if players == [] then map[]
    else
      var init, last := players[..|players| - 1], players[|players| - 1];
      DropLast(players);
      GetScores(init)[last.id := last.score]
  }

  /** How the roster without its last player relates to the whole roster. */
  lemma DropLast(players: seq<Player>)
    requires players != []
    ensures forall k :: 0 <= k < |players| - 1 && LastWithId(players, k) ==>
      LastWithId(players[..|players| - 1], k) && players[k].id != players[|players| - 1].id
  {
    var init := players[..|players| - 1];
    assert forall k :: 0 <= k < |init| ==> init[k] == players[k];
  }

  /** A player's points summed over the given rounds, counting 0 for a round
      without an entry for it. */
  function SumScores(history: seq<RoundResult>, id: int): int
  {
    if history == [] then 0
    else SumScores(history[..|history| - 1], id) + Get0(history[|history| - 1].scores, id)
  }

  /** The chart view: round labels and one cumulative score series per player. */
  datatype ChartData = ChartData(labels: seq<int>, datasets: seq<seq<int>>)

  /** The running totals of one player's points, round by round. */
  method CumulativeScores(history: seq<RoundResult>, id: int) returns (series: seq<int>)
    ensures |series| == |history|
    ensures forall k :: 0 <= k < |history| ==> series[k] == SumScores(history[..k + 1], id)
  {
    series := [];
    var cumulativeScore := 0;
    var i := 0;
    while i < |history|
      invariant 0 <= i <= |history|
      invariant |series| == i
      invariant cumulativeScore == SumScores(history[..i], id)
      invariant forall k :: 0 <= k < i ==> series[k] == SumScores(history[..k + 1], id)
    {
      var roundScore := Get0(history[i].scores, id);
      assert history[..i + 1][..i] == history[..i];
      cumulativeScore := cumulativeScore + roundScore;
      series := series + [cumulativeScore];
      i := i + 1;
    }
  }

  method GetChartData(st: GameState) returns (chart: ChartData)
    ensures |chart.labels| == st.currentRound
    ensures forall k :: 0 <= k < st.currentRound ==> chart.labels[k] == k + 1
    ensures |chart.datasets| == |st.players|
    ensures forall p :: 0 <= p < |st.players| ==>
      |chart.datasets[p]| == |st.roundHistory| &&
      forall k :: 0 <= k < |st.roundHistory| ==>
        chart.datasets[p][k] == SumScores(st.roundHistory[..k + 1], st.players[p].id)
    ensures Consistent(st) ==> forall p :: 0 <= p < |st.players| && |st.roundHistory| > 0 ==>
      chart.datasets[p][|st.roundHistory| - 1] == st.players[p].score
  {
    var labels := seq(st.currentRound, i => i + 1);
    var datasets := [];
    var p := 0;
    while p < |st.players|
      invariant 0 <= p <= |st.players|
      invariant |datasets| == p
      invariant forall q :: 0 <= q < p ==>
        |datasets[q]| == |st.roundHistory| &&
        forall k :: 0 <= k < |st.roundHistory| ==>
          datasets[q][k] == SumScores(st.roundHistory[..k + 1], st.players[q].id)
    {
      var data := CumulativeScores(st.roundHistory, st.players[p].id);
      datasets := datasets + [data];
      p := p + 1;
    }
    chart := ChartData(labels, datasets);
    if Consistent(st) {
      var h := st.roundHistory;
      assert h[..|h|] == h;
      forall p | 0 <= p < |st.players| && |h| > 0 ensures chart.datasets[p][|h| - 1] == st.players[p].score {
        assert PlayerMatchesHistory(st.players[p], h);
      }
    }
  }

  // ---------------------------------------------------------------------------
  // The payoff table

  /** The four entries of the table. */
  lemma PayoffTable()
    ensures Payoff(Cooperate, Cooperate) == (3, 3)
    ensures Payoff(Cooperate, Defect) == (0, 5)
    ensures Payoff(Defect, Cooperate) == (5, 0)
    ensures Payoff(Defect, Defect) == (1, 1)
  {
  }

  /** Swapping the two moves swaps the two payoffs. */
  lemma PayoffSymmetric(a: Move, b: Move)
    ensures Payoff(a, b) == (Payoff(b, a).1, Payoff(b, a).0)
  {
  }
}
