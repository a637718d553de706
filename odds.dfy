/** How likely each outcome of a round is, when the computer's two draws are
    uniform: `base` over {0, 1, 2} and `skew` over [0, 1).

    The skew draw only matters through its side of `chance`: every draw below
    `chance` leads to the same computer move for a given base, and so does
    every draw above it (SkewSidesAreUniform).  The single draw equal to
    `chance` has probability zero.  So the probability of an outcome is the
    weight `chance` of the lower side times the share of bases that give the
    outcome there, plus the weight `1 - chance` of the upper side times its
    share. */
module Odds {
  import opened Rules

  /** How many of the three base draws give outcome `o` for this skew draw. */
  function BasesGiving(chance: real, player: int, skew: real, o: Outcome): (n: nat)
    ensures n <= 3
  {
    (if Judge(player, ComputerChoice(chance, player, 0, skew)) == o then 1 else 0) +
    (if Judge(player, ComputerChoice(chance, player, 1, skew)) == o then 1 else 0) +
    (if Judge(player, ComputerChoice(chance, player, 2, skew)) == o then 1 else 0)
  }

  /** A draw standing for each side of `chance` within [0, 1). */
  function LowSkew(chance: real): real { chance / 2.0 }
  function HighSkew(chance: real): real { (chance + 1.0) / 2.0 }

  /** Every skew draw on one side of `chance` gives the computer the same move
      as that side's stand-in, whatever the base draw. */
  lemma SkewSideMove(chance: real, player: int, b: int, skew: real)
    requires 0.0 < chance < 1.0 && IsMove(b)
    ensures skew < chance ==> ComputerChoice(chance, player, b, skew) == ComputerChoice(chance, player, b, LowSkew(chance))
    ensures skew > chance ==> ComputerChoice(chance, player, b, skew) == ComputerChoice(chance, player, b, HighSkew(chance))
  {
    // The skew draw is only compared with `chance`, and each stand-in lies
    // strictly on its side.
    assert LowSkew(chance) < chance < HighSkew(chance);
  }

  /** So every skew draw on one side of `chance` has as many bases giving each
      outcome as that side's stand-in. */
  lemma SkewSidesAreUniform(chance: real, player: int, skew: real, o: Outcome)
    requires 0.0 < chance < 1.0 && 0.0 <= skew < 1.0
    ensures skew < chance ==> BasesGiving(chance, player, skew, o) == BasesGiving(chance, player, LowSkew(chance), o)
    ensures skew > chance ==> BasesGiving(chance, player, skew, o) == BasesGiving(chance, player, HighSkew(chance), o)
  {
    SkewSideMove(chance, player, 0, skew);
    SkewSideMove(chance, player, 1, skew);
    SkewSideMove(chance, player, 2, skew);
  }

  /** The probability that a round ends with outcome `o`. */
  function Probability(chance: real, player: int, o: Outcome): real
    requires 0.0 < chance < 1.0
  {
    chance * (BasesGiving(chance, player, LowSkew(chance), o) as real) / 3.0 +
    (1.0 - chance) * (BasesGiving(chance, player, HighSkew(chance), o) as real) / 3.0
  }

  /** Without skew, a uniform computer move gives one base per outcome. */
  lemma UnskewedCounts(chance: real, player: int, skew: real, o: Outcome)
    requires IsMove(player)
    requires !Favoured(chance, skew) && !Disfavoured(chance, skew)
    ensures BasesGiving(chance, player, skew, o) == 1
  {
  }

  /** When the player is favoured every base gives a win, and when disfavoured
      every base gives a loss. */
  lemma SkewedCounts(chance: real, player: int, skew: real)
    requires IsMove(player)
    ensures Favoured(chance, skew) ==>
              BasesGiving(chance, player, skew, PlayerWins) == 3 &&
              BasesGiving(chance, player, skew, ComputerWins) == 0 &&
              BasesGiving(chance, player, skew, Tie) == 0
    ensures Disfavoured(chance, skew) ==>
              BasesGiving(chance, player, skew, ComputerWins) == 3 &&
              BasesGiving(chance, player, skew, PlayerWins) == 0 &&
              BasesGiving(chance, player, skew, Tie) == 0
  {
  }

  /** The three outcomes share all of the probability. */
  lemma ProbabilitiesSumToOne(chance: real, player: int)
    requires 0.0 < chance < 1.0 && IsMove(player)
    ensures Probability(chance, player, PlayerWins) + Probability(chance, player, ComputerWins)
            + Probability(chance, player, Tie) == 1.0
  {
    var lo, hi := LowSkew(chance), HighSkew(chance);
    assert BasesGiving(chance, player, lo, PlayerWins) + BasesGiving(chance, player, lo, ComputerWins)
           + BasesGiving(chance, player, lo, Tie) == 3;
    assert BasesGiving(chance, player, hi, PlayerWins) + BasesGiving(chance, player, hi, ComputerWins)
           + BasesGiving(chance, player, hi, Tie) == 3;
  }

  /** On an easy difficulty the player wins with probability
      chance + (1 - chance) / 3, which is more than `chance`. */
  lemma EasyWinProbability(chance: real, player: int)
    requires 0.5 < chance < 1.0 && IsMove(player)
    ensures Probability(chance, player, PlayerWins) == chance + (1.0 - chance) / 3.0
    ensures Probability(chance, player, PlayerWins) > chance
    ensures Probability(chance, player, ComputerWins) == Probability(chance, player, Tie) == (1.0 - chance) / 3.0
  {
    SkewedCounts(chance, player, LowSkew(chance));
    UnskewedCounts(chance, player, HighSkew(chance), PlayerWins);
    UnskewedCounts(chance, player, HighSkew(chance), ComputerWins);
    UnskewedCounts(chance, player, HighSkew(chance), Tie);
  }

  /** On a hard difficulty the computer wins with probability
      (1 - chance) + chance / 3, which is more than 1 - chance. */
  lemma HardLossProbability(chance: real, player: int)
    requires 0.0 < chance < 0.5 && IsMove(player)
    ensures Probability(chance, player, ComputerWins) == (1.0 - chance) + chance / 3.0
    ensures Probability(chance, player, ComputerWins) > 1.0 - chance
    ensures Probability(chance, player, PlayerWins) == Probability(chance, player, Tie) == chance / 3.0
  {
    SkewedCounts(chance, player, HighSkew(chance));
    UnskewedCounts(chance, player, LowSkew(chance), PlayerWins);
    UnskewedCounts(chance, player, LowSkew(chance), ComputerWins);
    UnskewedCounts(chance, player, LowSkew(chance), Tie);
  }

  /** On normal difficulty every outcome has probability one third. */
  lemma NormalIsFair(player: int, o: Outcome)
    requires IsMove(player)
    ensures Probability(0.5, player, o) == 1.0 / 3.0
  {
    UnskewedCounts(0.5, player, LowSkew(0.5), o);
    UnskewedCounts(0.5, player, HighSkew(0.5), o);
  }

  /** The same three facts for the five stored difficulties. */
  lemma DifficultyOdds(d: Difficulty, player: int)
    requires IsMove(player)
    ensures d == BabyEasy || d == Easy ==>
              Probability(ChanceToWin(d), player, PlayerWins) > ChanceToWin(d)
    ensures d == Normal ==>
              forall o :: Probability(ChanceToWin(d), player, o) == 1.0 / 3.0
    ensures d == Hard || d == SuperHard ==>
              Probability(ChanceToWin(d), player, ComputerWins) > 1.0 - ChanceToWin(d)
  {
    var p := ChanceToWin(d);
    if p > 0.5 {
      EasyWinProbability(p, player);
    } else if p < 0.5 {
      HardLossProbability(p, player);
    } else {
      forall o
        ensures Probability(p, player, o) == 1.0 / 3.0
      {
        NormalIsFair(player, o);
      }
    }
  }
}
