/** The decision rules of the simulator. Each rule maps the opponent's past moves
    in one matchup, oldest first, and the 0-based index of the current round to a
    move. The two randomised rules read an injected coin instead of a random
    number generator: `coin == true` is the outcome that makes them cooperate. */
module Strategies {

  datatype Move = Cooperate | Defect

  /** The opponent's most recent move. */
  function Last(history: seq<Move>): Move
    requires |history| > 0
  {
    history[|history| - 1]
  }

  /** No prior information: the first round, or a matchup without history. */
  predicate Opening(history: seq<Move>, round: nat)
  {
    round == 0 || |history| == 0
  }

  function AlwaysCooperate(history: seq<Move>, round: nat): (m: Move)
    ensures m == Cooperate
  {
    Cooperate
  }

  function AlwaysDefect(history: seq<Move>, round: nat): (m: Move)
    ensures m == Defect
  {
    Defect
  }

  /** Cooperates first, then copies the opponent's last move. */
  function TitForTat(history: seq<Move>, round: nat): (m: Move)
    ensures m == Defect <==> round > 0 && |history| > 0 && Last(history) == Defect
  {
    if Opening(history, round) then Cooperate else Last(history)
  }

  /** Tit for Tat that forgives a defection when the coin fires
      (in the original, with probability 0.1). */
  function GenerousTitForTat(history: seq<Move>, round: nat, coin: bool): (m: Move)
    ensures m == Defect <==> round > 0 && |history| > 0 && Last(history) == Defect && !coin
    ensures !coin ==> m == TitForTat(history, round)
  {
    if Opening(history, round) then Cooperate
    else if Last(history) == Defect && coin then Cooperate
    else Last(history)
  }

  /** Defects only after two defections in a row. */
  function TitForTwoTats(history: seq<Move>, round: nat): (m: Move)
    ensures m == Defect <==>
      round > 1 && |history| > 1 && Last(history) == Defect && history[|history| - 2] == Defect
  {
    if round <= 1 || |history| <= 1 then Cooperate
    else
      var lastMove := history[|history| - 1];
      var secondLastMove := history[|history| - 2];
      if lastMove == Defect && secondLastMove == Defect then Defect else Cooperate
  }

  /** Cooperates until the opponent has defected once, then defects. */
  function GrimTrigger(history: seq<Move>, round: nat): (m: Move)
    ensures m == Defect <==> round > 0 && Defect in history
  {
    if Opening(history, round) then Cooperate
    else if Defect in history then Defect
    else Cooperate
  }

  /** Named after win-stay/lose-shift, but as written it only looks at the
      opponent's last move, which makes it Tit for Tat. */
  function Pavlov(history: seq<Move>, round: nat): (m: Move)
    ensures m == TitForTat(history, round)
  {
    if Opening(history, round) then Cooperate
    else
      var opponentLastMove := Last(history);
      if opponentLastMove == Cooperate then Cooperate else Defect
  }

  /** Ignores its inputs; cooperates when the coin fires
      (in the original, with probability 0.5). */
  function Random(history: seq<Move>, round: nat, coin: bool): (m: Move)
    ensures m == Cooperate <==> coin
  {
    if coin then Cooperate else Defect
  }

  /** Tit for Tat's next move after seeing `m` is `m`. */
  lemma TitForTatCopies(history: seq<Move>, m: Move, round: nat)
    requires round > 0
    ensures TitForTat(history + [m], round) == m
  {
  }

  /** With a cooperative last move, Generous Tit for Tat never consults the coin
      and plays like Tit for Tat. */
  lemma GenerousAfterCooperation(history: seq<Move>, round: nat, coin: bool)
    requires |history| > 0 && Last(history) == Cooperate
    ensures GenerousTitForTat(history, round, coin) == TitForTat(history, round) == Cooperate
  {
  }

  /** Once the opponent has defected, Grim Trigger defects in every later round,
      whatever the opponent does afterwards. */
  lemma GrimTriggerNeverForgives(history: seq<Move>, later: seq<Move>, round: nat)
    requires Defect in history && round > 0
    ensures GrimTrigger(history + later, round) == Defect
  {
    var k :| 0 <= k < |history| && history[k] == Defect;
    assert (history + later)[k] == Defect;
  }
}

/** The catalogue of strategies offered by the simulator, keyed by display name. */
module Catalogue {
  import S = Strategies

  /** A tag for each entry of the catalogue; it stands for the bound strategy
      function of a player. */
  datatype Strategy =
    | AlwaysCooperate
    | AlwaysDefect
    | TitForTat
    | GenerousTitForTat
    | TitForTwoTats
    | GrimTrigger
    | Pavlov
    | Random

  /** Calls the rule a tag stands for. `coin` is this call's draw of the
      randomness source; only the two randomised rules read it. Every rule but
      Always Defect and Random opens with cooperation. */
  function Decide(s: Strategy, history: seq<S.Move>, round: nat, coin: bool): (m: S.Move)
    ensures s.AlwaysDefect? ==> m == S.Defect
    ensures S.Opening(history, round) && !s.AlwaysDefect? && !s.Random? ==> m == S.Cooperate
  {
    match s
    case AlwaysCooperate => S.AlwaysCooperate(history, round)
    case AlwaysDefect => S.AlwaysDefect(history, round)
    case TitForTat => S.TitForTat(history, round)
    case GenerousTitForTat => S.GenerousTitForTat(history, round, coin)
    case TitForTwoTats => S.TitForTwoTats(history, round)
    case GrimTrigger => S.GrimTrigger(history, round)
    case Pavlov => S.Pavlov(history, round)
    case Random => S.Random(history, round, coin)
  }

  /** Six of the eight rules are deterministic: they never read the coin. */
  lemma OnlyRandomisedRulesReadTheCoin(s: Strategy)
    ensures !s.GenerousTitForTat? && !s.Random? <==>
      forall h: seq<S.Move>, r: nat :: Decide(s, h, r, true) == Decide(s, h, r, false)
  {
    if s.GenerousTitForTat? {
      assert Decide(s, [S.Defect], 1, true) != Decide(s, [S.Defect], 1, false);
    } else if s.Random? {
      assert Decide(s, [], 0, true) != Decide(s, [], 0, false);
    }
  }

  /** The catalogue: display name to rule. */
  const Names: map<string, Strategy> :=
    map[
      "Always Cooperate" := AlwaysCooperate,
      "Always Defect" := AlwaysDefect,
      "Tit for Tat" := TitForTat,
      "Generous Tit for Tat" := GenerousTitForTat,
      "Tit for Two Tats" := TitForTwoTats,
      "Grim Trigger" := GrimTrigger,
      "Pavlov" := Pavlov,
      "Random" := Random
    ]

  /** The names offered, each bound to the rule of the same name. */
  lemma NamesBindTheirRules()
    ensures Names.Keys == {"Always Cooperate", "Always Defect", "Tit for Tat", "Generous Tit for Tat",
                           "Tit for Two Tats", "Grim Trigger", "Pavlov", "Random"}
    ensures Names["Always Cooperate"] == AlwaysCooperate && Names["Always Defect"] == AlwaysDefect
    ensures Names["Tit for Tat"] == TitForTat && Names["Generous Tit for Tat"] == GenerousTitForTat
    ensures Names["Tit for Two Tats"] == TitForTwoTats && Names["Grim Trigger"] == GrimTrigger
    ensures Names["Pavlov"] == Pavlov && Names["Random"] == Random
  {
  }

  /** Eight distinct names. */
  lemma CatalogueHasEightNames()
    ensures |Names| == 8
  {
    assert "Pavlov"[0] != "Random"[0];
    assert "Always Cooperate"[0] != "Tit for Two Tats"[0];
    var m0: map<string, Strategy> := map[];
    var m1 := m0["Always Cooperate" := AlwaysCooperate];
    var m2 := m1["Always Defect" := AlwaysDefect];
    var m3 := m2["Tit for Tat" := TitForTat];
    var m4 := m3["Generous Tit for Tat" := GenerousTitForTat];
    var m5 := m4["Tit for Two Tats" := TitForTwoTats];
    var m6 := m5["Grim Trigger" := GrimTrigger];
    var m7 := m6["Pavlov" := Pavlov];
    var m8 := m7["Random" := Random];
    assert |m4| == 4;
    assert |m8| == 8;
    assert m8 == Names;
  }

  /** No two names are bound to the same rule, and every rule is offered. */
  lemma CatalogueIsComplete()
    ensures forall a, b :: a in Names && b in Names && a != b ==> Names[a] != Names[b]
    ensures forall s: Strategy :: s in Names.Values
  {
    forall s: Strategy ensures s in Names.Values {
      match s
      case AlwaysCooperate => assert Names["Always Cooperate"] == s;
      case AlwaysDefect => assert Names["Always Defect"] == s;
      case TitForTat => assert Names["Tit for Tat"] == s;
      case GenerousTitForTat => assert Names["Generous Tit for Tat"] == s;
      case TitForTwoTats => assert Names["Tit for Two Tats"] == s;
      case GrimTrigger => assert Names["Grim Trigger"] == s;
      case Pavlov => assert Names["Pavlov"] == s;
      case Random => assert Names["Random"] == s;
    }
  }
}
