/** The rules of one round: moves, who beats whom, how the computer's move is
    skewed by the difficulty, and the difficulty table.

    Moves are the integers the game uses for its three images:
    0 is rock, 1 is paper, 2 is scissors.  The round resolver takes any
    integer for the player's move, so the functions here do too; the facts
    about them are stated for real moves (IsMove) and, where the code has an
    answer for other integers, for those as well. */
module Rules {

  const Rock := 0
  const Paper := 1
  const Scissors := 2

  predicate IsMove(m: int) {
    0 <= m <= 2
  }

  /** The result of a round, seen from the player. */
  datatype Outcome = PlayerWins | ComputerWins | Tie

  /** The computer move that loses to the player's move: the one the player beats
      (rock beats scissors, paper beats rock, scissors beat paper). */
  function LosingReply(player: int): (c: int)
    ensures IsMove(c)
    ensures IsMove(player) ==> c == (player + 2) % 3 && c != player
  {
    if player == 0 then 2
    else if player == 1 then 0
    else 1
  }

  /** The computer move that beats the player's move. */
  function WinningReply(player: int): (c: int)
    ensures IsMove(c)
    ensures IsMove(player) ==> c == (player + 1) % 3 && c != player
  {
    if player == 0 then 1
    else if player == 1 then 2
    else 0
  }

  /** Scores a round.  The player loses exactly when the computer's move is the
      next one in the cycle rock, paper, scissors, wins exactly when it is the
      one after that, and ties when both moves are equal.  A pair that is not
      two moves matches neither test and is scored as a tie. */
  function Judge(player: int, computer: int): (o: Outcome)
    ensures IsMove(player) && IsMove(computer) ==>
              (o == ComputerWins <==> computer == (player + 1) % 3) &&
              (o == PlayerWins <==> computer == (player + 2) % 3) &&
              (o == Tie <==> computer == player)
    ensures !(IsMove(player) && IsMove(computer)) ==> o == Tie
  {
    if (player == 0 && computer == 1) || (player == 1 && computer == 2) || (player == 2 && computer == 0) then
      ComputerWins
    else if (player == 0 && computer == 2) || (player == 1 && computer == 0) || (player == 2 && computer == 1) then
      PlayerWins
    else
      Tie
  }

  /** The skew holds in the player's favour: an easy difficulty and a draw below it. */
  predicate Favoured(chance: real, skew: real) {
    chance > 0.5 && skew < chance
  }

  /** The skew holds against the player: a hard difficulty and a draw above it. */
  predicate Disfavoured(chance: real, skew: real) {
    chance < 0.5 && skew > chance
  }

  /** The computer's move for a round: the uniform draw `base`, overridden by the
      move the player beats when the skew favours the player and by the move
      that beats the player when it works against them.  `base` is the draw
      from {0, 1, 2} and `skew` the draw from [0, 1). */
  function ComputerChoice(chance: real, player: int, base: int, skew: real): (c: int)
    requires IsMove(base)
    ensures IsMove(c)
    ensures IsMove(player) && Favoured(chance, skew) ==> Judge(player, c) == PlayerWins
    ensures IsMove(player) && Disfavoured(chance, skew) ==> Judge(player, c) == ComputerWins
    ensures !Favoured(chance, skew) && !Disfavoured(chance, skew) ==> c == base
    ensures chance == 0.5 ==> c == base
  {
    if chance > 0.5 then
      (if skew < chance then LosingReply(player) else base)
    else if chance < 0.5 then
      (if skew > chance then WinningReply(player) else base)
    else
      base
  }

  /** The five radio buttons of the main menu, from easiest to hardest. */
  datatype Difficulty = BabyEasy | Easy | Normal | Hard | SuperHard

  /** The skew probability stored for a difficulty.  The source writes the
      values as float literals (0.8f, 0.6f, 0.5f, 0.4f, 0.2f) and stores them
      into a double, so each is the float nearest to the decimal, kept exactly. */
  function ChanceToWin(d: Difficulty): (p: real)
    ensures 0.0 < p < 1.0
    ensures p > 0.5 <==> d == BabyEasy || d == Easy
    ensures p == 0.5 <==> d == Normal
    ensures p < 0.5 <==> d == Hard || d == SuperHard
  {
    match d
    case BabyEasy => 13421773.0 / 16777216.0   // 0.8f
    case Easy => 10066330.0 / 16777216.0       // 0.6f
    case Normal => 0.5                         // 0.5f
    case Hard => 13421773.0 / 33554432.0       // 0.4f
    case SuperHard => 13421773.0 / 67108864.0  // 0.2f
  }

  /** A position in the list of difficulties, easiest first. */
  function Rank(d: Difficulty): nat {
    match d
    case BabyEasy => 0
    case Easy => 1
    case Normal => 2
    case Hard => 3
    case SuperHard => 4
  }

  /** A harder difficulty always stores a smaller chance to win. */
  lemma ChanceDecreasesWithDifficulty(d: Difficulty, e: Difficulty)
    requires Rank(d) < Rank(e)
    ensures ChanceToWin(e) < ChanceToWin(d)
  {
  }

  /** Each stored value lies within one float rounding step of its decimal. */
  lemma ChanceIsNearDecimal(d: Difficulty)
    ensures var decimal := match d
              case BabyEasy => 0.8
              case Easy => 0.6
              case Normal => 0.5
              case Hard => 0.4
              case SuperHard => 0.2;
            decimal <= ChanceToWin(d) < decimal + 1.0 / 16777216.0
  {
  }

  /** The two replies undo each other: rock, paper and scissors form a cycle. */
  lemma RepliesAreInverse(m: int)
    requires IsMove(m)
    ensures WinningReply(LosingReply(m)) == m
    ensures LosingReply(WinningReply(m)) == m
    ensures LosingReply(m) != WinningReply(m)
  {
  }

  /** Scoring is antisymmetric: swapping the two moves swaps winner and loser. */
  lemma JudgeAntisymmetric(a: int, b: int)
    requires IsMove(a) && IsMove(b)
    ensures Judge(a, b) == PlayerWins <==> Judge(b, a) == ComputerWins
    ensures Judge(a, b) == Tie <==> Judge(b, a) == Tie
  {
  }

  /** Against a fixed player move, each outcome comes from exactly one computer
      move, so a uniform computer move gives each outcome a third of the time. */
  lemma OneComputerMovePerOutcome(player: int, o: Outcome)
    requires IsMove(player)
    ensures exists c :: IsMove(c) && Judge(player, c) == o
    ensures forall c1, c2 :: IsMove(c1) && IsMove(c2) && Judge(player, c1) == o && Judge(player, c2) == o ==> c1 == c2
  {
    var c := match o
      case PlayerWins => LosingReply(player)
      case ComputerWins => WinningReply(player)
      case Tie => player;
    assert IsMove(c) && Judge(player, c) == o;
  }

  /** The replies are the only computer moves that decide a round. */
  lemma RepliesDecide(player: int, c: int)
    requires IsMove(player) && IsMove(c)
    ensures Judge(player, c) == PlayerWins <==> c == LosingReply(player)
    ensures Judge(player, c) == ComputerWins <==> c == WinningReply(player)
  {
  }
}
