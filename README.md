# Iterated Prisoner's Dilemma engine, in Dafny

This project models the simulation core of an iterated, N-player, round-robin
Prisoner's Dilemma simulator. It consists of two parts:

- **the strategy library**: eight decision rules, each mapping the opponent's
  past moves and the round index to a move, and the catalogue that names them;
- **the game engine**: the payoff table, game initialisation, the round
  operation, run-to-completion, the score view and the chart view.

The model is split into three files:

- `strategies.dfy`:
  - module `Strategies`: `Move` and the eight rules, as pure functions;
  - module `Catalogue`: a `Strategy` tag per rule, the dispatcher `Decide`, and
    the name-to-rule table `Names`.
- `game_logic.dfy`, module `GameLogic`, with the engine's data and
  operations:
  - the data: `Player`, `RoundResult`, `GameState`;
  - the engine's own operations, each described below.
- `game_properties.dfy`, module `GameProperties`, with the lemmas that
  relate several calls:
  - the state invariant `Consistent`, established by `Initialize` and kept by
    every round;
  - how a stopped game behaves;
  - running to completion;
  - the scores of fixed match-ups.

The engine's operations in `GameLogic`:

- **`Initialize`** resets every player.
- **`PlayRound`** is the round operation. It is written as the original's
  nested pair loop, which fills the per-round move map and score map in place.
  It is proved equal to the closed-form transition `Advance`, in which:
  - player p's recorded move is the one it chose in its first pairing: against
    roster index 1 for p = 0, and against index 0 otherwise (`RecordedMove`);
  - player p's round score is the sum of its payoffs over all N − 1 pairings
    (`RoundScore`).
- **`RunGame`** is the original's `while` loop; it equals `RunFrom`.
- **`GetScores`** builds the id-to-score map.
- **`GetChartData`** builds the cumulative series, using the accumulator loop
  `CumulativeScores`.

Randomness is modelled as follows. The original draws `Math.random()` inside
Generous Tit for Tat and Random. Here the "coin" for each strategy call is a
parameter, of type `Coins = (round, decider's roster index, opponent's roster
index) -> bool`:

- a coin value of `true` makes Generous Tit for Tat forgive a defection;
- a coin value of `true` makes Random cooperate.

The model also reflects two points of the engine's JavaScript:

- **First writer wins.** The move map records a move with `x || y`, so a later
  pair never overwrites a move already recorded.
- **Missing scores count as 0.** The expression `scores[id] || 0` reads 0 for an
  absent entry; the model's `Get0` does the same.

## Model

| member | source | states |
|---|---|---|
| Strategies.AlwaysCooperate | src/lib/strategies/index.ts:5 | always Cooperate, whatever the history and round |
| Strategies.AlwaysDefect | src/lib/strategies/index.ts:8 | always Defect, whatever the history and round |
| Strategies.TitForTat | src/lib/strategies/index.ts:11-19 | defects exactly when the round is past 0, the history is non-empty and the opponent's last move was Defect; cooperates otherwise |
| Strategies.GenerousTitForTat | src/lib/strategies/index.ts:22-35 | defects exactly when Tit for Tat would and the forgiving coin did not fire; without the coin it is Tit for Tat |
| Strategies.TitForTwoTats | src/lib/strategies/index.ts:38-54 | defects exactly when round > 1, the history has more than one move and the last two are both Defect |
| Strategies.GrimTrigger | src/lib/strategies/index.ts:57-69 | defects exactly when round > 0 and the opponent's history contains a Defect |
| Strategies.Pavlov | src/lib/strategies/index.ts:72-87 | equals Tit for Tat on every input |
| Strategies.Random | src/lib/strategies/index.ts:90-92 | cooperates exactly when the coin fires, ignoring history and round |
| Strategies.TitForTatCopies | src/lib/strategies/index.ts:17-18 | after the first round, Tit for Tat's answer to a history ending in m is m |
| Strategies.GenerousAfterCooperation | src/lib/strategies/index.ts:28-34 | after an opponent's cooperation, Generous Tit for Tat cooperates whatever the coin, as Tit for Tat does |
| Strategies.GrimTriggerNeverForgives | src/lib/strategies/index.ts:63-66 | once the history holds a Defect, every extension of it yields Defect in every round after the first |
| Catalogue.Decide | src/lib/strategies/index.ts:5-92 | a tag runs its rule: Always Defect defects on every input, and every rule other than Always Defect and Random cooperates in round 0 or on an empty history |
| Catalogue.OnlyRandomisedRulesReadTheCoin | src/lib/strategies/index.ts:5-92 | a rule's output depends on the coin if and only if it is Generous Tit for Tat or Random |
| Catalogue.NamesBindTheirRules | src/lib/strategies/index.ts:95-104 | the catalogue's names are exactly the eight display names, and each is bound to the rule of that name |
| Catalogue.CatalogueHasEightNames | src/lib/strategies/index.ts:95-104 | the catalogue has exactly eight distinct names |
| Catalogue.CatalogueIsComplete | src/lib/strategies/index.ts:95-104 | no two names map to the same rule, and every rule is offered under some name |
| GameLogic.Payoff | src/lib/game-logic.ts:5-14 | each side of a payoff lies between 0 and 5; the four entries are stated by `PayoffTable` |
| GameLogic.PayoffTable | src/lib/game-logic.ts:5-14 | the payoff table is exactly (C,C)→(3,3), (C,D)→(0,5), (D,C)→(5,0), (D,D)→(1,1) |
| GameLogic.PayoffSymmetric | src/lib/game-logic.ts:5-14 | swapping the two moves swaps the two payoffs |
| GameLogic.Initialize | src/lib/game-logic.ts:41-53 | round 0, empty history, not running, the given round limit; same players in the same order with the same ids and strategies; every score 0 and every move list empty |
| GameLogic.Get0 | src/lib/game-logic.ts:88-89 | defined as the map's entry for the key, or 0 when there is none, as the fallback to 0 reads a missing score |
| GameLogic.Choice | src/lib/game-logic.ts:77-78 | defined as the decider's rule applied to the opponent's whole move list, the current round and the coin for (round, decider, opponent) |
| GameLogic.PointsAgainst | src/lib/game-logic.ts:85 | a player's points from one pairing lie between 0 and 5 |
| GameLogic.ScoreUpTo | src/lib/game-logic.ts:85-89 | a player's points from its pairings with the indices below k lie between 0 and 5 per opponent counted |
| GameLogic.RoundScore | src/lib/game-logic.ts:88-89 | a player's round score lies between 0 and 5·(N − 1) |
| GameLogic.RecordedMove | src/lib/game-logic.ts:81-82 | defined as the move the player chose in its first pairing: against index 1 for player 0, against index 0 for every other player |
| GameLogic.RecordedMoves | src/lib/game-logic.ts:71-82 | every roster id is a key of the round's move map, mapped to that player's recorded move |
| GameLogic.RoundScores | src/lib/game-logic.ts:71-91 | every roster id is a key of the round's score map, mapped to the sum of that player's payoffs over its N − 1 pairings |
| GameLogic.RoundOf | src/lib/game-logic.ts:64-68 | the round result carries the current round counter as its number |
| GameLogic.RoundKeysUpTo | src/lib/game-logic.ts:71-91 | after the pairs among the first k players, both maps have exactly those k players' ids as keys |
| GameLogic.RoundOfKeys | src/lib/game-logic.ts:64-91 | the round's move map and score map have exactly the roster's ids as keys, no more |
| GameLogic.SettlePlayer | src/lib/game-logic.ts:94-102 | same id and strategy; the move list is one longer and ends with the player's recorded move; the score grows by its round score, 0 if absent |
| GameLogic.Settle | src/lib/game-logic.ts:94-103 | same roster; each player's score grows by its entry in the round's scores (0 if absent), and its move list grows by exactly its recorded move |
| GameLogic.Advance | src/lib/game-logic.ts:56-111 | the round limit and roster are kept; when a round is due, the round counter goes up by one and the game runs on exactly when rounds remain; otherwise the state is unchanged except that the running flag is cleared |
| GameLogic.PlayRound | src/lib/game-logic.ts:56-112 | the pair loop over i < j, with first-writer-wins move recording and additive scores, produces exactly the closed-form transition `Advance` |
| GameLogic.RunFrom | src/lib/game-logic.ts:115-123 | repeating the round operation ends with a stopped game over the same roster |
| GameLogic.RunGame | src/lib/game-logic.ts:115-123 | the loop, started with the running flag set, terminates with the game stopped, in the state `RunFrom` describes |
| GameLogic.AdvanceN | src/lib/game-logic.ts:56-111 | any number of round calls keeps the roster, and keeps the roster valid to play rounds on |
| GameLogic.GetScores | src/lib/game-logic.ts:126-131 | the keys are the roster's ids; each id maps to the score of the last player holding it |
| GameLogic.SumScores | src/lib/game-logic.ts:139-147 | defined as the player's points summed over the given rounds, counting 0 for a round without its entry; `SumScoresAppend` and `ScoresAreHistorySums` relate it to the engine |
| GameLogic.CumulativeScores | src/lib/game-logic.ts:139-147 | one entry per round played; entry k is the player's points summed over rounds 0..k, counting 0 for a missing entry |
| GameLogic.GetChartData | src/lib/game-logic.ts:134-162 | labels are 1..currentRound; there is one series per player, whose length is the number of rounds and whose k-th element is the prefix sum up to round k; on a consistent state the last element is the player's score |
| GameLogic.MovesRecordedAt | src/lib/game-logic.ts:95-109 | under the invariant, a player's k-th move is the move recorded for it in the k-th history entry |
| GameProperties.InitializeIsConsistent | src/lib/game-logic.ts:41-53 | a freshly initialised game satisfies the state invariant: round counter = history length = every move list's length, entries numbered in order, scores equal to history sums |
| GameProperties.SumScoresAppend | src/lib/game-logic.ts:100 | adding a round to the history adds that round's points to a player's sum |
| GameProperties.AdvanceProductive | src/lib/game-logic.ts:94-111 | a due round: the counter goes up by one, exactly one entry is appended, numbered with the old counter; each player gets exactly one more move (its recorded move); each score grows by its round score and never decreases; the game runs on exactly when old round + 1 < limit |
| GameProperties.AdvanceStopped | src/lib/game-logic.ts:57-62 | when no round is due, only the running flag changes, to false; a second call changes nothing more |
| GameProperties.SettledPlayerMatches | src/lib/game-logic.ts:94-103 | a player settled with a round's result matches the history extended with that result |
| GameProperties.AdvanceIsConsistent | src/lib/game-logic.ts:56-111 | every call of the round operation preserves the state invariant |
| GameProperties.AdvanceNIsConsistent | src/lib/game-logic.ts:56-111 | any number of round calls preserves the state invariant |
| GameProperties.ScoresAreHistorySums | src/lib/game-logic.ts:126-131 | on a consistent state with distinct ids, the score view gives each player the sum of its round scores over the history |
| GameProperties.AdvanceNFirst | src/lib/game-logic.ts:118-120 | k > 0 round calls are one call followed by k − 1 more |
| GameProperties.RoundsLeftDrop | src/lib/game-logic.ts:108 | a round that is due leaves one round fewer before the limit |
| GameProperties.RunFromPlaysOut | src/lib/game-logic.ts:115-123 | a running game with rounds left runs until the counter reaches the limit, and equals exactly limit − counter calls of the round operation |
| GameProperties.RunFromFinished | src/lib/game-logic.ts:57-62 | running a game that has reached its limit only stops it |
| GameProperties.RunInitializedGame | src/lib/game-logic.ts:115-123 | from a fresh start with limit n > 0, running plays exactly n rounds, equals n round calls, and stops in a consistent state with n history entries |
| GameProperties.CooperatorsScoreUpTo | src/lib/game-logic.ts:71-91 | with every player on Always Cooperate, each pairing scored so far is worth 3 |
| GameProperties.AllCooperateRound | src/lib/game-logic.ts:71-91 | with every player on Always Cooperate, each player earns 3·(N − 1) in a round |
| GameProperties.TwoPlayerRound | src/lib/game-logic.ts:71-103 | in a two-player round, each player earns its side of the single pairing's payoff and records the move it made in it |
| GameProperties.FixedMove | src/lib/strategies/index.ts:5-8 | Always Cooperate and Always Defect give one fixed move for every history, round and coin |
| GameProperties.UnconditionalStep | src/lib/game-logic.ts:71-103 | a round between two such rules gives each player its entry of the payoff table and leaves the same match-up |
| GameProperties.UnconditionalRounds | src/lib/game-logic.ts:56-111 | k such rounds give each player k times its entry |
| GameProperties.UnconditionalGame | src/lib/game-logic.ts:41-123 | from a fresh two-player start over n rounds, two input-ignoring rules end with n times their payoff entries |
| GameProperties.CooperatorAgainstDefector | src/lib/game-logic.ts:41-123 | Always Cooperate against Always Defect over n rounds ends 0 to 5n |
| GameProperties.CooperatorAgainstCooperator | src/lib/game-logic.ts:41-123 | two Always Cooperate players over n rounds end 3n each |
| GameProperties.DefectorAgainstDefector | src/lib/game-logic.ts:41-123 | two Always Defect players over n rounds end n each |
| GameProperties.TitForTatDefectorStep | src/lib/game-logic.ts:71-111 | with Tit for Tat at either index, once Always Defect's defection is on record a round is mutual defection, 1 each, and the situation persists one round on |
| GameProperties.TitForTatDefectorRounds | src/lib/game-logic.ts:56-111 | k such rounds give each player k, for Tit for Tat at either index |
| GameProperties.TitForTatOpening | src/lib/game-logic.ts:71-111 | in round 0 Tit for Tat, at either index, cooperates and is exploited, 0 to 5; afterwards the defection is on record, the counter is 1, and the game runs on exactly when the limit exceeds 1 |
| GameProperties.TitForTatDefectorRun | src/lib/game-logic.ts:56-111 | limit round calls from round 0 give Tit for Tat limit − 1 in total, and the defector limit − 1 on top of its first-round points |
| GameProperties.TitForTatDefectorGame | src/lib/game-logic.ts:115-123 | from round 0 with zero scores, Tit for Tat at either index against Always Defect ends limit − 1 to 5 + (limit − 1) |
| GameProperties.TitForTatAgainstDefector | src/lib/game-logic.ts:41-123 | from a fresh two-player start over n rounds, in either roster order, Tit for Tat against Always Defect ends n − 1 to 5 + (n − 1) |

## Left out

- The React components, chart registration, display sorting and table rendering
  have no effect on the engine.
- The timer-paced round loop of the user interface is orchestration around the
  round operation, not part of it.
- Roster editing (the id of a new player is max + 1, at least 2 players, at most
  6) is configuration held by the user interface.
- The probabilities 0.1 and 0.5 of the two randomised rules are not modelled.
  They become a boolean coin per strategy call, so every statement holds for
  every sequence of draws.
- A player's `name`, `strategyName` and `color` and the chart's `label`,
  `borderColor`, `backgroundColor` and `tension` are cosmetic and are dropped.
  A player holds a strategy tag in place of both the `strategy` function
  reference and the `strategyName` string, which the catalogue `Names` links.
- JavaScript numbers are modelled as unbounded integers; floating-point
  rounding of very large scores is not modelled.
- GameLogic.PlayRound: the model requires at least two players with distinct
  ids, but only when a round is due. The original does not validate this.
  - With fewer than two players, it records no move and appends `undefined`
    to each move list.
  - With a repeated id, two players share one map entry.

  Neither case is modelled.
- GameLogic.SettlePlayer does not itself restate that the earlier moves are
  kept; `GameLogic.Settle` states each player's whole new move list.
- GameLogic.GetScores takes the roster rather than the whole state; the
  original reads nothing but `players` from the state it is given.
- GameLogic.RunGame and GameLogic.Advance carry the same roster requirement
  as GameLogic.PlayRound, for the same reason.

Where the engine's documented design and its code differ, the model follows
the code:

- **What a strategy sees.** The design has a strategy see the opponent's past
  moves in the current matchup. The code passes the opponent's whole move list. That
  list holds one move per round: the move recorded from the opponent's first
  pairing. So with three or more players, a strategy sees the moves its
  opponent made against someone else (`GameLogic.Choice`).
- **Pavlov.** The source comments call Pavlov win-stay/lose-shift, but the
  code only mirrors the opponent's last move. `Strategies.Pavlov` proves it is
  Tit for Tat.
