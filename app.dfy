/** The game window's logic as the object the source keeps it in: the counters,
    the settings and the disabled flag of the three move images are fields,
    and each event handler updates them step by step.  Every method is proved
    to leave the fields exactly where the matching transition of module Match
    takes the GameState they form (Snapshot), so the lemmas proved there about
    sessions, resets and the streak hold of this object too. */
module App {
  import opened Rules
  import opened Match

  class HelloApplication {
    var name: string
    var wins: int
    var losses: int
    var ties: int
    var roundsToPlay: int
    var currentRound: int
    var chanceToWin: real
    var rockOutCount: int
    var choicesDisabled: bool   // the disabled flag of the rock, paper and scissors images
    var inGame: bool            // the game scene is on the stage, not the main menu
    var nameError: MenuError    // what the name error label shows
    var roundsError: MenuError  // what the rounds error label shows
    var banner: Banner          // what the result label shows

    /** The fields as one value. */
    function Snapshot(): GameState
      reads this
    {
      GameState(name, wins, losses, ties, roundsToPlay, currentRound, chanceToWin, rockOutCount,
                choicesDisabled, inGame, nameError, roundsError, banner)
    }

    /** The field initialisers of the window. */
    constructor ()
      ensures Snapshot() == Initial()
    {
      name := "";
      wins := 0;
      losses := 0;
      ties := 0;
      roundsToPlay := 0;
      currentRound := 1;
      chanceToWin := 0.0;
      rockOutCount := 0;
      choicesDisabled := false;
      inGame := false;
      nameError := NoError;
      roundsError := NoError;
      banner := Blank;
      new;
      assert Snapshot() == GameState("", 0, 0, 0, 0, 1, 0.0, 0, false, false, NoError, NoError, Blank);
    }

    /** resetGame, run by the reset button and by the menu button. */
    method ResetGame()
      modifies this`name, this`wins, this`losses, this`ties, this`currentRound, this`rockOutCount,
               this`choicesDisabled, this`banner
      ensures Snapshot() == Reset(old(Snapshot()))
    {
      name := "";
      ClearCounters();
      SetChoiceDisabled(false);
      banner := Blank;
    }

    /** The part of resetGame that starts the match over: the three counters,
        the round number and the rock streak. */
    method ClearCounters()
      modifies this`wins, this`losses, this`ties, this`currentRound, this`rockOutCount
      ensures Snapshot() == old(Snapshot()).(wins := 0, losses := 0, ties := 0, currentRound := 1, rockOutCount := 0)
    {
      wins := 0;
      losses := 0;
      ties := 0;
      currentRound := 1;
      rockOutCount := 0;
    }

    /** playRound: skew the computer's uniform draw `base` by the draw `skew`
        and the chance to win, score the round and advance the round number.
        Returns the computer's move. */
    method PlayRound(playerChoice: int, base: int, skew: real) returns (computerChoice: int)
      requires IsMove(base) && 0.0 <= skew < 1.0
      modifies this`wins, this`losses, this`ties, this`currentRound, this`banner
      ensures computerChoice == ComputerChoice(old(chanceToWin), playerChoice, base, skew)
      ensures IsMove(computerChoice)
      ensures Snapshot() == Scored(old(Snapshot()), playerChoice, computerChoice)
    {
      computerChoice := base;
      if chanceToWin > 0.5 {
        if skew < chanceToWin {
          if playerChoice == 0 {
            computerChoice := 2;
          } else if playerChoice == 1 {
            computerChoice := 0;
          } else {
            computerChoice := 1;
          }
        }
      } else if chanceToWin < 0.5 {
        if skew > chanceToWin {
          if playerChoice == 0 {
            computerChoice := 1;
          } else if playerChoice == 1 {
            computerChoice := 2;
          } else {
            computerChoice := 0;
          }
        }
      }
      assert computerChoice == ComputerChoice(chanceToWin, playerChoice, base, skew);
      Score(playerChoice, computerChoice);
    }

    /** The scoring half of playRound: count the round for whoever won it, show
        the result and advance the round number. */
    method Score(playerChoice: int, computerChoice: int)
      modifies this`wins, this`losses, this`ties, this`currentRound, this`banner
      ensures wins == old(wins) + (if Judge(playerChoice, computerChoice) == PlayerWins then 1 else 0)
      ensures losses == old(losses) + (if Judge(playerChoice, computerChoice) == ComputerWins then 1 else 0)
      ensures ties == old(ties) + (if Judge(playerChoice, computerChoice) == Tie then 1 else 0)
      ensures banner == Result(Judge(playerChoice, computerChoice)) && currentRound == old(currentRound) + 1
    {
      ghost var outcome := Judge(playerChoice, computerChoice);

      if (playerChoice == 0 && computerChoice == 1) || (playerChoice == 1 && computerChoice == 2)
         || (playerChoice == 2 && computerChoice == 0) {
        assert outcome == ComputerWins;
        losses := losses + 1;
        banner := Result(ComputerWins);
      } else if (playerChoice == 0 && computerChoice == 2) || (playerChoice == 1 && computerChoice == 0)
                || (playerChoice == 2 && computerChoice == 1) {
        assert outcome == PlayerWins;
        wins := wins + 1;
        banner := Result(PlayerWins);
      } else {
        assert outcome == Tie;
        ties := ties + 1;
        banner := Result(Tie);
      }

      currentRound := currentRound + 1;
    }

    /** setChoiceDisabled: the same flag for all three move images. */
    method SetChoiceDisabled(status: bool)
      modifies this`choicesDisabled
      ensures choicesDisabled == status
    {
      choicesDisabled := status;
    }

    /** checkGameOver: freeze the choices once every round has been played. */
    method CheckGameOver()
      modifies this`choicesDisabled, this`banner
      ensures Snapshot() == CheckedGameOver(old(Snapshot()))
      ensures choicesDisabled <==> currentRound > roundsToPlay
    {
      if currentRound > roundsToPlay {
        SetChoiceDisabled(true);
        banner := GameOver;
      } else {
        SetChoiceDisabled(false);
      }
      assert Snapshot() == old(Snapshot()).(choicesDisabled := choicesDisabled, banner := banner);
    }

    /** playGame: disable the choices, play the round, and run the game over
        test that the source runs when the animation of the round finishes. */
    method PlayGame(playerChoice: int, base: int, skew: real) returns (computerChoice: int)
      requires IsMove(base) && 0.0 <= skew < 1.0
      modifies this`wins, this`losses, this`ties, this`currentRound, this`banner, this`choicesDisabled
      ensures computerChoice == ComputerChoice(old(chanceToWin), playerChoice, base, skew)
      ensures Snapshot() == AfterPlayGame(old(Snapshot()), playerChoice, base, skew)
      ensures Invariant(old(Snapshot())) ==> Invariant(Snapshot())
    {
      SetChoiceDisabled(true);
      computerChoice := PlayRound(playerChoice, base, skew);
      CheckGameOver();
    }

    /** The rock image's click handler: play rock, count the rock, and on the
        fifth rock in a row show the popup and start counting again. */
    method ClickRock(base: int, skew: real) returns (computerChoice: int, popup: bool)
      requires IsMove(base) && 0.0 <= skew < 1.0
      modifies this`wins, this`losses, this`ties, this`currentRound, this`banner, this`choicesDisabled,
               this`rockOutCount
      ensures computerChoice == ComputerChoice(old(chanceToWin), Rock, base, skew)
      ensures popup == Popup(old(rockOutCount), Rock)
      ensures Snapshot() == AfterClick(old(Snapshot()), Rock, base, skew)
    {
      computerChoice := PlayGame(Rock, base, skew);
      rockOutCount := rockOutCount + 1;
      popup := false;
      if rockOutCount >= 5 {
        popup := true;
        rockOutCount := 0;
      }
    }

    /** The paper image's click handler: play paper and end the rock streak. */
    method ClickPaper(base: int, skew: real) returns (computerChoice: int)
      requires IsMove(base) && 0.0 <= skew < 1.0
      modifies this`wins, this`losses, this`ties, this`currentRound, this`banner, this`choicesDisabled,
               this`rockOutCount
      ensures computerChoice == ComputerChoice(old(chanceToWin), Paper, base, skew)
      ensures Snapshot() == AfterClick(old(Snapshot()), Paper, base, skew)
    {
      computerChoice := PlayGame(Paper, base, skew);
      rockOutCount := 0;
    }

    /** The scissors image's click handler: play scissors and end the rock streak. */
    method ClickScissors(base: int, skew: real) returns (computerChoice: int)
      requires IsMove(base) && 0.0 <= skew < 1.0
      modifies this`wins, this`losses, this`ties, this`currentRound, this`banner, this`choicesDisabled,
               this`rockOutCount
      ensures computerChoice == ComputerChoice(old(chanceToWin), Scissors, base, skew)
      ensures Snapshot() == AfterClick(old(Snapshot()), Scissors, base, skew)
    {
      computerChoice := PlayGame(Scissors, base, skew);
      rockOutCount := 0;
    }

    /** The play button's handler.  A rounds text that is not an integer makes
        the handler set its error text and stop before the rest. */
    method PressPlay(nameText: string, rounds: RoundsEntry, difficulty: Difficulty)
      modifies this`name, this`nameError, this`roundsError, this`roundsToPlay, this`inGame, this`chanceToWin
      ensures Snapshot() == AfterPlayButton(old(Snapshot()), nameText, rounds, difficulty)
    {
      nameError := NoError;
      roundsError := NoError;
      name := nameText;
      if |name| == 0 {
        nameError := NameMissing;
      }
      assert Snapshot() == NameRead(old(Snapshot()), nameText);
      match rounds
      case NotAnInteger =>
        roundsError := RoundsNotInteger;
      case Integer(n) =>
        ReadRounds(n, difficulty);
    }

    /** The part of the play button's handler after the rounds text has parsed
        as the integer `n`. */
    method ReadRounds(n: int, difficulty: Difficulty)
      modifies this`nameError, this`roundsError, this`roundsToPlay, this`inGame, this`chanceToWin
      ensures Snapshot() == RoundsRead(old(Snapshot()), n, difficulty)
    {
      roundsToPlay := n;
      if roundsToPlay < 0 {
        roundsError := RoundsNegative;
      }
      if |name| != 0 && roundsToPlay > 0 {
        nameError := NoError;
        roundsError := NoError;
        inGame := true;
      }
      chanceToWin := ChanceToWin(difficulty);
    }

    /** The menu button's handler: reset and show the main menu again. */
    method PressMenu()
      modifies this
      ensures Snapshot() == AfterMenuButton(old(Snapshot()))
    {
      ResetGame();
      inGame := false;
    }
  }

  /** Rock on the easiest difficulty with a low skew draw: the computer is
      forced to scissors and the player wins. */
  method EasyRockScenario(game: HelloApplication)
    requires game.chanceToWin == ChanceToWin(BabyEasy) && game.roundsToPlay == 3
    requires game.wins == 0 && game.currentRound == 1 && game.rockOutCount == 0
    modifies game
  {
    var c, popup := game.ClickRock(0, 0.1);
    assert c == Scissors && game.wins == 1 && game.currentRound == 2;
    assert !popup && !game.choicesDisabled;
    assert BannerText(game.banner) == "You Win!";
  }

  /** Paper on the hardest difficulty with a high skew draw: the computer is
      forced to scissors and the player loses. */
  method HardPaperScenario(game: HelloApplication)
    requires game.chanceToWin == ChanceToWin(SuperHard) && game.losses == 0
    modifies game
  {
    var c := game.ClickPaper(0, 0.9);
    assert c == Scissors && game.losses == 1;
  }

  /** Three rounds on normal difficulty: the uniform draw is kept, and the
      third round freezes the choices. */
  method ThreeRoundScenario(game: HelloApplication)
    requires game.chanceToWin == 0.5 && game.roundsToPlay == 3
    requires game.currentRound == 1 && game.ties == 0
    modifies game
  {
    var c := game.ClickScissors(2, 0.3);
    assert c == Scissors && game.ties == 1 && !game.choicesDisabled;
    c := game.ClickScissors(0, 0.7);
    assert !game.choicesDisabled;
    c := game.ClickScissors(1, 0.7);
    assert game.currentRound == 4 && game.choicesDisabled && game.banner == GameOver;
    assert BannerText(game.banner) == "GAME OVER";
  }

  /** An empty name and a negative number of rounds: the menu stays shown and
      both error labels explain why. */
  method RefusedStartScenario(game: HelloApplication)
    requires !game.inGame
    modifies game
  {
    game.PressPlay("", Integer(-3), Normal);
    assert !game.inGame && game.roundsToPlay == -3;
    assert ErrorText(game.nameError) == "You must enter a name.";
    assert ErrorText(game.roundsError) == "Please enter a positive integer.";
  }
}
