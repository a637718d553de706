# Rock, Paper, Scissors: the game logic in Dafny

This project models the game logic of a single-window rock-paper-scissors game.
The game's JavaFX class `HelloApplication` keeps the match in instance fields
and updates them from event handlers. Those handlers are:

- the three move images (rock, paper, scissors);
- the reset and main-menu buttons;
- the play button of the main menu.

The model covers:

- how one round is resolved. A uniform computer move is overridden toward
  or against the player, depending on the difficulty's chance to win and a
  second uniform draw. The round is then scored.
- the win/loss/tie counters and the round number.
- the game-over freeze of the three choices.
- the "rock out" streak. Five rock clicks in a row show a popup.
- the validation done by the play button, and the table from difficulty to
  chance to win.

Moves are the source's integers: 0 is rock, 1 is paper, 2 is scissors.

The texts of the three labels the logic writes are values of small
datatypes. `MenuError` is what the name and rounds error labels show, and
`Banner` is what the result label shows. `ErrorText` and `BannerText` give
the exact strings of the source.

Files:

- `rules.dfy` (module `Rules`): the pure rules. These are the replies that
  lose to and beat a move, the scoring (`Judge`), the skewed computer move
  (`ComputerChoice`) and the difficulty table (`ChanceToWin`).
- `odds.dfy` (module `Odds`): the probability of each outcome when both draws
  are uniform.
- `match.dfy` (module `Match`): the window's state as a value (`GameState`)
  and one transition function per handler. It also holds the counter
  invariant, the streak, and lemmas about whole sessions of clicks.
- `app.dfy` (module `App`): the class `HelloApplication`. Its fields mirror
  the source's fields. Its methods update them step by step, as the handlers
  do. Each handler method (the constructor, `ResetGame`, `PlayRound`,
  `CheckGameOver`, `PlayGame`, the three clicks, `PressPlay`, `ReadRounds`
  and `PressMenu`) is proved to move its fields (`Snapshot()`) exactly as
  the matching transition of `Match` moves a `GameState`. `Score`,
  `ClearCounters` and `SetChoiceDisabled` state the fields they write. Four client scenarios
  follow the class. Three of the source's methods are split in two, so that
  each part is proved separately: `ResetGame` calls `ClearCounters`,
  `PlayRound` calls `Score`, and `PressPlay` calls `ReadRounds`.

The two random draws of a round are parameters:

- `base` is the draw from {0, 1, 2}.
- `skew` is the draw from [0, 1).

The difficulty values are float literals stored into a double. They are kept
at their exact float values: for example, 0.8f is 13421773/16777216. Only
their comparisons with 0.5 and with the skew draw matter.

Behaviour kept as written:

- A player move outside 0..2 is always scored as a tie (`Rules.Judge`).
- A rounds value of 0 with a name neither starts the game nor shows an error
  text (`Match.RefusalExplained`).
- The play button does not reset the match. A game starts fresh only because
  the window opens fresh and the menu button resets it
  (`Match.PlayButtonKeepsMatch`, `Match.AfterMenuButton`).
- The reset and menu buttons work while a round's animation runs, and the
  deferred game-over test then uses the state of that moment. After a menu
  press and a 0-rounds play press in that window, the next game starts
  with its choices disabled (`Match.MenuDuringAnimation`).

## Model

| member | source | states |
|---|---|---|
| `Rules.LosingReply` | src/main/java/com/example/project_2_lansing/HelloApplication.java:414-422 | The favouring override picks a move. For a real move it is the one the player beats, (player + 2) mod 3. It is a move for any input. |
| `Rules.WinningReply` | src/main/java/com/example/project_2_lansing/HelloApplication.java:424-433 | The opposing override picks a move. For a real move it is the one that beats the player, (player + 1) mod 3. It is a move for any input. |
| `Rules.Judge` | src/main/java/com/example/project_2_lansing/HelloApplication.java:435-446 | For two moves, the player loses iff computer = (player+1) mod 3, wins iff computer = (player+2) mod 3, and ties iff the moves are equal. Any pair that is not two moves is a tie. |
| `Rules.ComputerChoice` | src/main/java/com/example/project_2_lansing/HelloApplication.java:410-433 | The computer's move is always a move. If chance > 0.5 and skew < chance, the round is a player win. If chance < 0.5 and skew > chance, it is a computer win. Otherwise, including chance = 0.5, the move is the base draw. |
| `Rules.ChanceToWin` | src/main/java/com/example/project_2_lansing/HelloApplication.java:345-356 | Each difficulty's chance is in (0,1). It is above 0.5 exactly for the two easy levels, equal to 0.5 exactly for normal, and below 0.5 exactly for the two hard levels. |
| `Rules.ChanceDecreasesWithDifficulty` | src/main/java/com/example/project_2_lansing/HelloApplication.java:347-356 | A harder difficulty stores a strictly smaller chance to win. |
| `Rules.ChanceIsNearDecimal` | src/main/java/com/example/project_2_lansing/HelloApplication.java:348-356 | Each stored value is its decimal (0.8, 0.6, 0.5, 0.4, 0.2) or less than 2^-24 above it. |
| `Rules.RepliesAreInverse` | src/main/java/com/example/project_2_lansing/HelloApplication.java:416-431 | The two override mappings undo each other and never agree. |
| `Rules.JudgeAntisymmetric` | src/main/java/com/example/project_2_lansing/HelloApplication.java:435-446 | Swapping the two moves swaps a player win with a computer win and keeps a tie. |
| `Rules.OneComputerMovePerOutcome` | src/main/java/com/example/project_2_lansing/HelloApplication.java:435-446 | Against a fixed player move, each outcome comes from some computer move, and from only one. |
| `Rules.RepliesDecide` | src/main/java/com/example/project_2_lansing/HelloApplication.java:414-446 | A computer move wins for the player iff it is the favouring override. It loses for the player iff it is the opposing override. |
| `Odds.SkewSideMove` | src/main/java/com/example/project_2_lansing/HelloApplication.java:411-433 | For every base draw, a skew draw below the chance gives the same computer move as the lower stand-in, and one above it the same move as the upper stand-in. |
| `Odds.SkewSidesAreUniform` | src/main/java/com/example/project_2_lansing/HelloApplication.java:411-433 | A skew draw on either side of the chance has as many base draws giving each outcome as that side's stand-in. |
| `Odds.UnskewedCounts` | src/main/java/com/example/project_2_lansing/HelloApplication.java:410-446 | Without an override, each outcome comes from exactly one of the three base draws. |
| `Odds.SkewedCounts` | src/main/java/com/example/project_2_lansing/HelloApplication.java:414-446 | With the favouring override, all three base draws give a player win. With the opposing override, all three give a computer win. |
| `Odds.ProbabilitiesSumToOne` | src/main/java/com/example/project_2_lansing/HelloApplication.java:409-446 | The three outcome probabilities sum to 1. |
| `Odds.EasyWinProbability` | src/main/java/com/example/project_2_lansing/HelloApplication.java:409-422 | For chance > 0.5, the player wins with probability chance + (1 - chance)/3, which is more than chance. A loss and a tie each have probability (1 - chance)/3. |
| `Odds.HardLossProbability` | src/main/java/com/example/project_2_lansing/HelloApplication.java:424-433 | For chance < 0.5, the computer wins with probability (1 - chance) + chance/3, which is more than 1 - chance. A win and a tie each have probability chance/3. |
| `Odds.NormalIsFair` | src/main/java/com/example/project_2_lansing/HelloApplication.java:409-433 | At chance 0.5 every outcome has probability 1/3. |
| `Odds.DifficultyOdds` | src/main/java/com/example/project_2_lansing/HelloApplication.java:347-433 | The two easy levels make a win likelier than the chance. Normal is fair. The two hard levels make a loss likelier than 1 - chance. |
| `Match.Initial` | src/main/java/com/example/project_2_lansing/HelloApplication.java:45-54 | The window opens on the menu with a fresh match that satisfies the counter invariant. |
| `Match.Reset` | src/main/java/com/example/project_2_lansing/HelloApplication.java:391-402 | After a reset: wins = losses = ties = rockOutCount = 0, currentRound = 1, choices enabled, name and result label cleared. The rounds to play, the difficulty, the scene and the error texts are kept. |
| `Match.ResetForgetsMatch` | src/main/java/com/example/project_2_lansing/HelloApplication.java:391-402 | The reset state depends only on the kept settings, whatever the prior counters, streak or flags. |
| `Match.ResetIdempotent` | src/main/java/com/example/project_2_lansing/HelloApplication.java:391-402 | Resetting twice equals resetting once. |
| `Match.Scored` | src/main/java/com/example/project_2_lansing/HelloApplication.java:435-448 | Scoring a round adds 1 to exactly the counter of the outcome given by Judge and 1 to currentRound. It sets the result text. Nothing else changes, and the counter invariant is preserved. |
| `Match.CheckedGameOver` | src/main/java/com/example/project_2_lansing/HelloApplication.java:542-550 | Choices end disabled iff currentRound > roundsToPlay. In that case the label reads GAME OVER. Nothing else changes. |
| `Match.AfterPlayGame` | src/main/java/com/example/project_2_lansing/HelloApplication.java:555-595 | After a round, the counter of the outcome Judge gives for the skewed computer move has gone up by 1, and the other two are kept. The round number has gone up by 1. The choices are disabled iff the new round number exceeds the rounds to play. The result label reads GAME OVER in that case and shows the outcome otherwise. Settings, name and streak are unchanged, and the invariant is preserved. |
| `Match.StreakStep` | src/main/java/com/example/project_2_lansing/HelloApplication.java:263-302 | A rock click adds 1 to the streak, and the fifth rock resets it to 0. Paper or scissors reset it to 0. The streak stays in 0..4. |
| `Match.AfterClick` | src/main/java/com/example/project_2_lansing/HelloApplication.java:263-302 | A click plays one round: the counter of the outcome goes up by 1, the round advances, and the result label and the disabled flag follow the game-over test. Settings and name are kept. The streak takes one step. The invariant is preserved, which includes 0 <= rockOutCount < 5. |
| `Match.NameRead` | src/main/java/com/example/project_2_lansing/HelloApplication.java:330-334 | The first part of the play handler. The name is stored, the rounds error is cleared, and the name error is set iff the name is empty. The settings and the match are kept. |
| `Match.RoundsRead` | src/main/java/com/example/project_2_lansing/HelloApplication.java:335-356 | The rest of the handler once the rounds parse as n. roundsToPlay becomes n and the chance becomes the difficulty's. The game starts iff it had started or the name is non-empty and n > 0, and then both errors are cleared. A negative n sets the positive-integer error. Otherwise the errors are kept. The match is kept. |
| `Match.AfterPlayButton` | src/main/java/com/example/project_2_lansing/HelloApplication.java:328-365 | The name error is set iff the name is empty. For the rounds text: not an integer gives the integer error, a negative value the positive-integer error, otherwise no error. The game starts iff the name is non-empty and rounds > 0. A parsed value sets roundsToPlay and the difficulty's chance; a parse failure keeps both. The match is untouched. |
| `Match.RefusalExplained` | src/main/java/com/example/project_2_lansing/HelloApplication.java:333-343 | A refused start leaves the menu shown. It shows no error text iff the name is non-empty and the rounds are 0. |
| `Match.AfterMenuButton` | src/main/java/com/example/project_2_lansing/HelloApplication.java:321-325 | The menu button returns to the menu with a fresh match. |
| `Match.PlayButtonKeepsMatch` | src/main/java/com/example/project_2_lansing/HelloApplication.java:328-365 | The play button keeps a fresh match fresh and preserves the invariant. |
| `Match.RoundPlayed` | src/main/java/com/example/project_2_lansing/HelloApplication.java:555-571 | playGame up to its animation: the choices are disabled, the counter of the outcome Judge gives goes up by 1, the result label shows it and the round advances. Settings, name and streak are kept. |
| `Match.ResetDuringAnimation` | src/main/java/com/example/project_2_lansing/HelloApplication.java:586-605 | The reset button during the animation enables the choices again. With two or more rounds to play, a second round can be clicked, and the first round's deferred game-over test leaves the choices enabled during the second animation. |
| `Match.MenuDuringAnimation` | src/main/java/com/example/project_2_lansing/HelloApplication.java:586-605 | The game-over test runs when the animation ends, on the state of that moment. Suppose the menu button and then play with 0 rounds are pressed during the animation. The test then disables the choices and shows GAME OVER. The next game started begins at round 1, not over, with its choices disabled. |
| `Match.SessionCounts` | src/main/java/com/example/project_2_lansing/HelloApplication.java:435-448 | After N clicks, currentRound has gone up by N. wins, losses and ties have gone up by the number of clicks Judge scores that way. The invariant wins + losses + ties = currentRound - 1 still holds, and the settings are kept. |
| `Match.StreakCountsTrailingRocks` | src/main/java/com/example/project_2_lansing/HelloApplication.java:263-302 | Folding the streak step over any sequence of clicks from a streak in 0..4 gives the trailing rock clicks modulo 5. If every click was rock, the starting streak is added before the modulo. |
| `Match.SessionStreak` | src/main/java/com/example/project_2_lansing/HelloApplication.java:263-302 | After a sequence of clicks, the streak is the number of trailing rock clicks modulo 5. If every click was rock, it is that number added to the earlier streak, modulo 5. |
| `Match.FrozenAfterRounds` | src/main/java/com/example/project_2_lansing/HelloApplication.java:542-595 | From a fresh match with R > 0 rounds, after N clicks wins + losses + ties = N. The choices are disabled iff N >= R, so they are frozen after exactly R rounds and not before. |
| `Match.PopupEveryFifthRock` | src/main/java/com/example/project_2_lansing/HelloApplication.java:266-293 | From a zero streak, a rock click shows the popup iff the run of rock clicks it ends has a length that is a multiple of 5. |
| `Match.NextRockPopup` | src/main/java/com/example/project_2_lansing/HelloApplication.java:266-293 | From a zero streak, the next rock click shows the popup iff the clicks so far end in a run of rocks one short of a multiple of 5. |
| `App.HelloApplication.constructor` | src/main/java/com/example/project_2_lansing/HelloApplication.java:45-54 | The fields start as Match.Initial. |
| `App.HelloApplication.ResetGame` | src/main/java/com/example/project_2_lansing/HelloApplication.java:391-402 | The fields move as Match.Reset. |
| `App.HelloApplication.ClearCounters` | src/main/java/com/example/project_2_lansing/HelloApplication.java:393-397 | wins, losses, ties and rockOutCount become 0 and currentRound becomes 1. No other field changes. |
| `App.HelloApplication.PlayRound` | src/main/java/com/example/project_2_lansing/HelloApplication.java:407-451 | The method returns ComputerChoice of the chance before the call, which is a move. The fields move as Match.Scored. |
| `App.HelloApplication.Score` | src/main/java/com/example/project_2_lansing/HelloApplication.java:435-448 | The counter of the outcome Judge gives goes up by 1 and the other two are kept. The result label shows that outcome, and currentRound goes up by 1. |
| `App.HelloApplication.SetChoiceDisabled` | src/main/java/com/example/project_2_lansing/HelloApplication.java:456-460 | Only the shared disabled flag changes. |
| `App.HelloApplication.CheckGameOver` | src/main/java/com/example/project_2_lansing/HelloApplication.java:542-550 | The fields move as Match.CheckedGameOver. The choices are disabled iff currentRound > roundsToPlay. |
| `App.HelloApplication.PlayGame` | src/main/java/com/example/project_2_lansing/HelloApplication.java:555-606 | The method disables the choices, plays the round, then runs the game-over test. The fields move as Match.AfterPlayGame and the invariant is preserved. |
| `App.HelloApplication.ClickRock` | src/main/java/com/example/project_2_lansing/HelloApplication.java:263-294 | The fields move as Match.AfterClick for rock. The method reports the popup iff the streak reaches 5. |
| `App.HelloApplication.ClickPaper` | src/main/java/com/example/project_2_lansing/HelloApplication.java:295-298 | The fields move as Match.AfterClick for paper, which ends the streak. |
| `App.HelloApplication.ClickScissors` | src/main/java/com/example/project_2_lansing/HelloApplication.java:299-302 | The fields move as Match.AfterClick for scissors, which ends the streak. |
| `App.HelloApplication.PressPlay` | src/main/java/com/example/project_2_lansing/HelloApplication.java:328-365 | The fields move as Match.AfterPlayButton. |
| `App.HelloApplication.ReadRounds` | src/main/java/com/example/project_2_lansing/HelloApplication.java:335-356 | The fields move as Match.RoundsRead. |
| `App.HelloApplication.PressMenu` | src/main/java/com/example/project_2_lansing/HelloApplication.java:321-325 | The fields move as Match.AfterMenuButton. |

## Left out

- JavaFX widgets are not modelled: construction, layout, images, hover listeners, `anchorImages`, `getAnimationImage` and the `make...` helpers. They only build the screen.
- Theming (`loadTheme`, `changeStyle`, `changeButtonTheme`, `changeBackground`, the palettes) is not modelled. It only sets colours.
- Animations are not modelled as events. The round-result animation delays the game-over test by two seconds. The three choices stay disabled meanwhile unless the reset or menu button is pressed. Those buttons are not disabled, and `resetGame` re-enables the choices (line 398). A choice clicked then starts another round before the first round's game-over test has run. `App.HelloApplication.PlayGame` and `Match.AfterPlayGame` run the game-over test right after the round, so they do not capture a button pressed during the animation. `Match.MenuDuringAnimation` and `Match.ResetDuringAnimation` state, on values, what the source then does in two such interleavings. The rock-out popup's animation and window are modelled only as the `popup` result of `ClickRock`.
- The stats pie chart and `updateLabels` are not modelled. They only display the counters. The visibility of the result label is not modelled either; only its text is.
- Scene switching is modelled as the boolean `inGame`.
- `java.util.Random` is not modelled. Its two draws are parameters. `nextDouble` is taken as any real in [0, 1), not as a multiple of 2^-53. The probabilities in `Odds` are for a continuous uniform skew draw.
- `Integer.parseInt` is modelled as a rounds entry that is either an integer or not one. Its 32-bit range is not modelled.
- The counters are unbounded integers. The source's 32-bit `int` would only wrap after 2^31 rounds.
- The difficulty radio buttons share a toggle group, so exactly one is selected. The handler's case where none is selected, which leaves the chance unchanged, cannot occur and is not modelled.
- The click handlers do not test the disabled flag, as in the source. A disabled image receives no clicks, and `Match.FrozenAfterRounds` states when the flag is set.
- Clearing the selected state of the buttons (`setSelected(false)`) is not modelled. It is cosmetic.
