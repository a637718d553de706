/** The state of the game window as a value, and what each user action does to
    it.  The class HelloApplication (app.dfy) holds the same state in mutable
    fields; each of its methods is proved to move its fields exactly as the
    matching function here moves a GameState. */
module Match {
  import opened Rules

  /** The text of the rounds field, as Integer.parseInt sees it. */
  datatype RoundsEntry = Integer(value: int) | NotAnInteger

  /** What the name and rounds error labels of the main menu show. */
  datatype MenuError = NoError | NameMissing | RoundsNegative | RoundsNotInteger

  function ErrorText(e: MenuError): string {
    match e
    case NoError => ""
    case NameMissing => "You must enter a name."
    case RoundsNegative => "Please enter a positive integer."
    case RoundsNotInteger => "You must provide an integer for the number of rounds."
  }

  /** What the result label of the game screen shows: nothing, the outcome of
      the last round, or the end of the game. */
  datatype Banner = Blank | Result(outcome: Outcome) | GameOver

  function BannerText(b: Banner): string {
    match b
    case Blank => ""
    case Result(ComputerWins) => "Computer Wins!"
    case Result(PlayerWins) => "You Win!"
    case Result(Tie) => "It's a Tie!"
    case GameOver => "GAME OVER"
  }

  /** Everything the game logic reads or writes.  `inGame` says which of the two
      scenes the window shows; `choicesDisabled` is the disabled flag shared by
      the three move images; `banner` is what the result label shows. */
  datatype GameState = GameState(
    name: string,
    wins: int,
    losses: int,
    ties: int,
    roundsToPlay: int,
    currentRound: int,
    chanceToWin: real,
    rockOutCount: int,
    choicesDisabled: bool,
    inGame: bool,
    nameError: MenuError,
    roundsError: MenuError,
    banner: Banner)

  function Total(s: GameState): int {
    s.wins + s.losses + s.ties
  }

  /** What holds between user actions: the counters count the rounds played so
      far and the rock streak is below five. */
  ghost predicate Invariant(s: GameState) {
    s.wins >= 0 && s.losses >= 0 && s.ties >= 0 &&
    Total(s) == s.currentRound - 1 &&
    0 <= s.rockOutCount < 5
  }

  /** A match that has not played any round yet. */
  ghost predicate Fresh(s: GameState) {
    s.wins == 0 && s.losses == 0 && s.ties == 0 && s.currentRound == 1 &&
    s.rockOutCount == 0 && !s.choicesDisabled
  }

  /** Two states hold the same match: counters, round, streak, disabled flag and
      result label agree. */
  predicate SameMatch(s: GameState, t: GameState) {
    s.wins == t.wins && s.losses == t.losses && s.ties == t.ties &&
    s.currentRound == t.currentRound && s.rockOutCount == t.rockOutCount &&
    s.choicesDisabled == t.choicesDisabled && s.banner == t.banner
  }

  /** The game over test. */
  predicate Over(s: GameState) {
    s.currentRound > s.roundsToPlay
  }

  /** The field initialisers: zero counters, round 1, no rounds chosen, the main
      menu on screen.  A double field starts at 0.0 and the name, null in the
      source, is the empty text here. */
  function Initial(): (s: GameState)
    ensures Fresh(s) && Invariant(s) && !s.inGame && Over(s)
  {
    GameState("", 0, 0, 0, 0, 1, 0.0, 0, false, false, NoError, NoError, Blank)
  }

  // ----- resetGame ----------------------------------------------------------

  /** resetGame: zero the counters and the streak, back to round 1, enable the
      choices and clear the name and the result label.  The rounds to play,
      the difficulty, the scene and the menu's error texts are kept. */
  function Reset(s: GameState): (r: GameState)
    ensures Fresh(r) && Invariant(r) && r.name == "" && r.banner == Blank
    ensures r.roundsToPlay == s.roundsToPlay && r.chanceToWin == s.chanceToWin && r.inGame == s.inGame
    ensures r.nameError == s.nameError && r.roundsError == s.roundsError
  {
    s.(name := "", wins := 0, losses := 0, ties := 0, currentRound := 1, rockOutCount := 0,
       choicesDisabled := false, banner := Blank)
  }

  /** The settings a reset keeps; everything else it overwrites. */
  function Settings(s: GameState): (int, real, bool, MenuError, MenuError) {
    (s.roundsToPlay, s.chanceToWin, s.inGame, s.nameError, s.roundsError)
  }

  /** A reset forgets the whole match: two states with the same settings reset
      to the same state, whatever their counters, streak or flags were. */
  lemma ResetForgetsMatch(s: GameState, t: GameState)
    requires Settings(s) == Settings(t)
    ensures Reset(s) == Reset(t)
  {
  }

  /** Resetting twice is resetting once. */
  lemma ResetIdempotent(s: GameState)
    ensures Reset(Reset(s)) == Reset(s)
  {
  }

  // ----- playRound ------------------------------------------------------------

  /** The bookkeeping of playRound once the computer's move is known: the
      counter of the outcome goes up by one, the result label shows it, and the
      round number advances. */
  function Scored(s: GameState, player: int, computer: int): (r: GameState)
    ensures r.currentRound == s.currentRound + 1 && Total(r) == Total(s) + 1
    ensures r.wins == s.wins + (if Judge(player, computer) == PlayerWins then 1 else 0)
    ensures r.losses == s.losses + (if Judge(player, computer) == ComputerWins then 1 else 0)
    ensures r.ties == s.ties + (if Judge(player, computer) == Tie then 1 else 0)
    ensures r.banner == Result(Judge(player, computer))
    ensures Invariant(s) ==> Invariant(r)
    ensures Settings(r) == Settings(s) && r.name == s.name
    ensures r.rockOutCount == s.rockOutCount && r.choicesDisabled == s.choicesDisabled
  {
    var o := Judge(player, computer);
    var t := match o
      case ComputerWins => s.(losses := s.losses + 1)
      case PlayerWins => s.(wins := s.wins + 1)
      case Tie => s.(ties := s.ties + 1);
    t.(banner := Result(o), currentRound := t.currentRound + 1)
  }

  // ----- checkGameOver and playGame ------------------------------------------

  /** checkGameOver: once the round number passes the rounds to play the choices
      are disabled and the label says the game is over; otherwise the choices
      are enabled again. */
  function CheckedGameOver(s: GameState): (r: GameState)
    ensures r.choicesDisabled <==> Over(s)
    ensures r.banner == if Over(s) then GameOver else s.banner
    ensures Settings(r) == Settings(s) && r.name == s.name
    ensures r.wins == s.wins && r.losses == s.losses && r.ties == s.ties
    ensures r.currentRound == s.currentRound && r.rockOutCount == s.rockOutCount
  {
    if Over(s) then s.(choicesDisabled := true, banner := GameOver)
    else s.(choicesDisabled := false)
  }

  /** playGame up to the start of its animation: the choices are disabled and
      the round is played.  The game over test waits for the animation. */
  function RoundPlayed(s: GameState, player: int, base: int, skew: real): (r: GameState)
    requires IsMove(base)
    ensures r.choicesDisabled && r.currentRound == s.currentRound + 1
    ensures var o := Judge(player, ComputerChoice(s.chanceToWin, player, base, skew));
            r.wins == s.wins + (if o == PlayerWins then 1 else 0) &&
            r.losses == s.losses + (if o == ComputerWins then 1 else 0) &&
            r.ties == s.ties + (if o == Tie then 1 else 0) &&
            r.banner == Result(o)
    ensures Settings(r) == Settings(s) && r.name == s.name && r.rockOutCount == s.rockOutCount
  {
    Scored(s.(choicesDisabled := true), player, ComputerChoice(s.chanceToWin, player, base, skew))
  }

  /** playGame when nothing happens during its animation: disable the choices,
      play the round, and when the animation finishes, run the game over test. */
  function AfterPlayGame(s: GameState, player: int, base: int, skew: real): (r: GameState)
    requires IsMove(base)
    ensures r.currentRound == s.currentRound + 1 && Total(r) == Total(s) + 1
    ensures r.choicesDisabled <==> Over(r)
    ensures var o := Judge(player, ComputerChoice(s.chanceToWin, player, base, skew));
            r.wins == s.wins + (if o == PlayerWins then 1 else 0) &&
            r.losses == s.losses + (if o == ComputerWins then 1 else 0) &&
            r.ties == s.ties + (if o == Tie then 1 else 0) &&
            r.banner == (if Over(r) then GameOver else Result(o))
    ensures Settings(r) == Settings(s) && r.name == s.name
    ensures r.rockOutCount == s.rockOutCount
    ensures Invariant(s) ==> Invariant(r)
  {
    CheckedGameOver(RoundPlayed(s, player, base, skew))
  }

  // ----- the three click handlers and the rock streak ------------------------

  /** The streak after a click: a rock click counts one more rock, and the fifth
      rock in a row shows the popup and starts the count again; paper or
      scissors end the streak. */
  function StreakStep(count: int, choice: int): (n: int)
    ensures 0 <= count ==> 0 <= n < 5
    ensures choice == Rock && 0 <= count < 4 ==> n == count + 1
    ensures choice != Rock || count >= 4 ==> n == 0
  {
    if choice == Rock then
      (if count + 1 >= 5 then 0 else count + 1)
    else
      0
  }

  /** Whether a click shows the "ROCK OUT!" popup. */
  predicate Popup(count: int, choice: int) {
    choice == Rock && count + 1 >= 5
  }

  /** A click on one of the three images: play the round, then update the streak. */
  function AfterClick(s: GameState, choice: int, base: int, skew: real): (r: GameState)
    requires IsMove(base)
    ensures r.currentRound == s.currentRound + 1
    ensures var o := Judge(choice, ComputerChoice(s.chanceToWin, choice, base, skew));
            r.wins == s.wins + (if o == PlayerWins then 1 else 0) &&
            r.losses == s.losses + (if o == ComputerWins then 1 else 0) &&
            r.ties == s.ties + (if o == Tie then 1 else 0) &&
            r.banner == (if Over(r) then GameOver else Result(o))
    ensures Settings(r) == Settings(s) && r.name == s.name
    ensures r.choicesDisabled <==> Over(r)
    ensures r.rockOutCount == StreakStep(s.rockOutCount, choice)
    ensures Invariant(s) ==> Invariant(r)
  {
    AfterPlayGame(s, choice, base, skew).(rockOutCount := StreakStep(s.rockOutCount, choice))
  }

  // ----- the main menu: play button and menu button ---------------------------

  /** The play button starts the game exactly for a non-empty name and a
      positive number of rounds. */
  predicate Starts(nameText: string, rounds: RoundsEntry) {
    |nameText| != 0 && rounds.Integer? && rounds.value > 0
  }

  /** The first part of the play button's handler: clear both error texts,
      read the name, and complain when it is empty. */
  function NameRead(s: GameState, nameText: string): (r: GameState)
    ensures r.name == nameText && r.roundsError == NoError
    ensures r.nameError == NoError <==> |nameText| != 0
    ensures r.nameError == NoError || r.nameError == NameMissing
    ensures r.roundsToPlay == s.roundsToPlay && r.chanceToWin == s.chanceToWin && r.inGame == s.inGame
    ensures SameMatch(r, s)
  {
    var t := s.(nameError := NoError, roundsError := NoError, name := nameText);
    if |t.name| == 0 then t.(nameError := NameMissing) else t
  }

  /** The rest of the handler once the rounds text has parsed as `n`: store
      it, complain when it is negative, switch to the game scene when the name
      and the rounds are both acceptable (clearing the error texts), and store
      the difficulty's chance to win. */
  function RoundsRead(s: GameState, n: int, d: Difficulty): (r: GameState)
    ensures r.roundsToPlay == n && r.chanceToWin == ChanceToWin(d) && r.name == s.name
    ensures r.inGame <==> s.inGame || (|s.name| != 0 && n > 0)
    ensures n < 0 ==> r.roundsError == RoundsNegative && r.nameError == s.nameError
    ensures n == 0 ==> r.roundsError == s.roundsError && r.nameError == s.nameError
    ensures |s.name| != 0 && n > 0 ==> r.roundsError == NoError && r.nameError == NoError
    ensures |s.name| == 0 && n > 0 ==> r.roundsError == s.roundsError && r.nameError == s.nameError
    ensures SameMatch(r, s)
  {
    var t := s.(roundsToPlay := n);
    var u := if t.roundsToPlay < 0 then t.(roundsError := RoundsNegative) else t;
    var v := if |u.name| != 0 && u.roundsToPlay > 0 then u.(nameError := NoError, roundsError := NoError, inGame := true)
             else u;
    v.(chanceToWin := ChanceToWin(d))
  }

  /** The play button: read the name and the rounds, set the error texts, switch
      to the game scene when both are acceptable, and store the difficulty's
      chance to win.  A rounds text that is not an integer stops the handler
      after the name has been read: the rounds to play and the chance to win
      keep their values. */
  function AfterPlayButton(s: GameState, nameText: string, rounds: RoundsEntry, d: Difficulty): (r: GameState)
    ensures r.name == nameText
    ensures r.nameError == (if |nameText| == 0 then NameMissing else NoError)
    ensures r.roundsError == (if rounds.NotAnInteger? then RoundsNotInteger
                              else if rounds.value < 0 then RoundsNegative
                              else NoError)
    ensures r.inGame <==> s.inGame || Starts(nameText, rounds)
    ensures rounds.Integer? ==> r.roundsToPlay == rounds.value && r.chanceToWin == ChanceToWin(d)
    ensures rounds.NotAnInteger? ==> r.roundsToPlay == s.roundsToPlay && r.chanceToWin == s.chanceToWin
    ensures SameMatch(r, s)
  {
    var t := NameRead(s, nameText);
    match rounds
    case NotAnInteger => t.(roundsError := RoundsNotInteger)
    case Integer(n) => RoundsRead(t, n, d)
  }

  /** A refused start always leaves an error text, except for zero rounds with
      a name, which the handler neither accepts nor explains. */
  lemma RefusalExplained(s: GameState, nameText: string, rounds: RoundsEntry, d: Difficulty)
    requires !s.inGame && !Starts(nameText, rounds)
    ensures var r := AfterPlayButton(s, nameText, rounds, d);
            !r.inGame &&
            (r.nameError == NoError && r.roundsError == NoError <==> |nameText| != 0 && rounds == Integer(0))
  {
  }

  /** The menu button: reset the game and go back to the main menu. */
  function AfterMenuButton(s: GameState): (r: GameState)
    ensures Fresh(r) && Invariant(r) && !r.inGame
  {
    Reset(s).(inGame := false)
  }

  /** The play button does not touch the match: a game started from the menu
      keeps the match the menu left.  That is a fresh match (the window opens
      fresh and the menu button resets), except after an interleaving such as
      the one in MenuDuringAnimation. */
  lemma PlayButtonKeepsMatch(s: GameState, nameText: string, rounds: RoundsEntry, d: Difficulty)
    ensures var r := AfterPlayButton(s, nameText, rounds, d);
            (Fresh(s) ==> Fresh(r)) && (Invariant(s) ==> Invariant(r))
  {
  }

  /** The reset and menu buttons stay enabled while a round's animation runs,
      and the game over test runs when the animation finishes, on the state of
      that moment.  Going back to the menu and pressing play with 0 rounds in
      between makes that test freeze the choices and show GAME OVER, and the
      next game started then begins at round 1, not over, with its choices
      disabled. */
  lemma MenuDuringAnimation(s: GameState, player: int, base: int, skew: real,
                            firstName: string, d: Difficulty, nextName: string, n: int, e: Difficulty)
    requires IsMove(base) && |nextName| != 0 && n > 0
    ensures var pending := AfterPlayButton(AfterMenuButton(RoundPlayed(s, player, base, skew)), firstName, Integer(0), d);
            var finished := CheckedGameOver(pending);
            var next := AfterPlayButton(finished, nextName, Integer(n), e);
            !pending.choicesDisabled && finished.choicesDisabled && finished.banner == GameOver &&
            next.inGame && next.currentRound == 1 && !Over(next) && next.choicesDisabled
  {
  }

  /** The reset button during a round's animation enables the choices again.
      With two or more rounds to play a second round can then be clicked, and
      the first round's deferred game over test leaves the choices enabled
      while the second round's animation runs. */
  lemma ResetDuringAnimation(s: GameState, p1: int, b1: int, k1: real, p2: int, b2: int, k2: real)
    requires IsMove(b1) && IsMove(b2) && s.roundsToPlay >= 2
    ensures var reset := Reset(RoundPlayed(s, p1, b1, k1));
            var second := RoundPlayed(reset, p2, b2, k2);
            var firstCheck := CheckedGameOver(second);
            !reset.choicesDisabled && second.currentRound == 2 && !firstCheck.choicesDisabled
  {
  }

  // ----- sessions of clicks ----------------------------------------------------

  /** One click with the computer's two draws for it. */
  datatype Click = Click(choice: int, base: int, skew: real)

  predicate ValidClick(c: Click) {
    IsMove(c.choice) && IsMove(c.base) && 0.0 <= c.skew < 1.0
  }

  predicate ValidClicks(cs: seq<Click>) {
    forall i :: 0 <= i < |cs| ==> ValidClick(cs[i])
  }

  /** The state after a sequence of clicks, in order. */
  function AfterClicks(s: GameState, cs: seq<Click>): GameState
    requires ValidClicks(cs)
    decreases |cs|
  {
    if cs == [] then s
    else
      var last := cs[|cs| - 1];
      AfterClick(AfterClicks(s, cs[..|cs| - 1]), last.choice, last.base, last.skew)
  }

  /** The outcome of each click, for a fixed chance to win. */
  function Outcomes(chance: real, cs: seq<Click>): (os: seq<Outcome>)
    requires ValidClicks(cs)
    ensures |os| == |cs|
  {
    if cs == [] then []
    else
      var last := cs[|cs| - 1];
      Outcomes(chance, cs[..|cs| - 1]) + [Judge(last.choice, ComputerChoice(chance, last.choice, last.base, last.skew))]
  }

  function Count(os: seq<Outcome>, o: Outcome): nat {
    if os == [] then 0
    else Count(os[..|os| - 1], o) + (if os[|os| - 1] == o then 1 else 0)
  }

  /** How many clicks at the end of the sequence are rock clicks. */
  function TrailingRocks(cs: seq<Click>): nat {
    if cs == [] then 0
    else if cs[|cs| - 1].choice == Rock then TrailingRocks(cs[..|cs| - 1]) + 1
    else 0
  }

  /** The rock streak after a sequence of clicks: the trailing rock clicks
      counted modulo five, on top of the count before if every click was rock. */
  function ExpectedStreak(start: int, cs: seq<Click>): int {
    if TrailingRocks(cs) == |cs| then (start + |cs|) % 5 else TrailingRocks(cs) % 5
  }

  /** A prefix of valid clicks is valid. */
  lemma InitValid(cs: seq<Click>)
    requires ValidClicks(cs) && cs != []
    ensures ValidClicks(cs[..|cs| - 1])
  {
    var init := cs[..|cs| - 1];
    forall i | 0 <= i < |init| ensures ValidClick(init[i]) {
      assert init[i] == cs[i];
    }
  }

  /** One more rock on a streak counted modulo five. */
  lemma RockStepModFive(k: int)
    requires k >= 0
    ensures StreakStep(k % 5, Rock) == (k + 1) % 5
  {
  }

  /** What a sequence of clicks does: each click plays one round and is scored
      by Judge against the skewed computer move; the counters count the
      outcomes; the settings stay. */
  lemma {:induction false} SessionCounts(s: GameState, cs: seq<Click>)
    requires Invariant(s) && ValidClicks(cs)
    ensures var r := AfterClicks(s, cs);
            var os := Outcomes(s.chanceToWin, cs);
            Invariant(r) &&
            r.currentRound == s.currentRound + |cs| &&
            r.wins == s.wins + Count(os, PlayerWins) &&
            r.losses == s.losses + Count(os, ComputerWins) &&
            r.ties == s.ties + Count(os, Tie) &&
            r.roundsToPlay == s.roundsToPlay && r.chanceToWin == s.chanceToWin
  {
    if cs != [] {
      var init, last := cs[..|cs| - 1], cs[|cs| - 1];
      InitValid(cs);
      SessionCounts(s, init);
      var os := Outcomes(s.chanceToWin, cs);
      assert os[..|os| - 1] == Outcomes(s.chanceToWin, init);
      var p := AfterClicks(s, init);
      var computer := ComputerChoice(p.chanceToWin, last.choice, last.base, last.skew);
      var q := Scored(p.(choicesDisabled := true), last.choice, computer);
      assert os[|os| - 1] == Judge(last.choice, computer);
      assert AfterClicks(s, cs) == CheckedGameOver(q).(rockOutCount := StreakStep(p.rockOutCount, last.choice));
    }
  }

  /** The last click of a sequence moves the streak by one StreakStep. */
  lemma LastClickStreak(s: GameState, cs: seq<Click>)
    requires ValidClicks(cs) && cs != []
    ensures ValidClicks(cs[..|cs| - 1])
    ensures AfterClicks(s, cs).rockOutCount
            == StreakStep(AfterClicks(s, cs[..|cs| - 1]).rockOutCount, cs[|cs| - 1].choice)
  {
    InitValid(cs);
  }

  /** The streak after a sequence of clicks, from a given count, as the source
      keeps it: one StreakStep per click. */
  function StreakAfter(start: int, cs: seq<Click>): int {
    if cs == [] then start
    else StreakStep(StreakAfter(start, cs[..|cs| - 1]), cs[|cs| - 1].choice)
  }

  /** The streak counts the trailing rock clicks modulo five, on top of the
      count before if every click was rock. */
  lemma {:induction false} StreakCountsTrailingRocks(start: int, cs: seq<Click>)
    requires 0 <= start < 5
    ensures StreakAfter(start, cs) == ExpectedStreak(start, cs)
  {
    if cs != [] {
      var init, last := cs[..|cs| - 1], cs[|cs| - 1];
      StreakCountsTrailingRocks(start, init);
      if last.choice == Rock {
        assert TrailingRocks(cs) == TrailingRocks(init) + 1;
        if TrailingRocks(init) == |init| {
          RockStepModFive(start + |init|);
        } else {
          RockStepModFive(TrailingRocks(init));
        }
      } else {
        assert TrailingRocks(cs) == 0;
      }
    }
  }

  /** The window's streak after a sequence of clicks is the expected one. */
  lemma {:induction false} SessionStreak(s: GameState, cs: seq<Click>)
    requires 0 <= s.rockOutCount < 5 && ValidClicks(cs)
    ensures AfterClicks(s, cs).rockOutCount == StreakAfter(s.rockOutCount, cs)
    ensures AfterClicks(s, cs).rockOutCount == ExpectedStreak(s.rockOutCount, cs)
  {
    if cs != [] {
      LastClickStreak(s, cs);
      SessionStreak(s, cs[..|cs| - 1]);
    }
    StreakCountsTrailingRocks(s.rockOutCount, cs);
  }

  /** From a fresh match with R rounds to play, the choices are disabled after
      N clicks exactly when N >= R: every one of the first R clicks finds them
      enabled, and the R-th freezes them. */
  lemma {:induction false} FrozenAfterRounds(s: GameState, cs: seq<Click>)
    requires Fresh(s) && ValidClicks(cs) && s.roundsToPlay > 0
    ensures var r := AfterClicks(s, cs);
            Total(r) == |cs| &&
            (r.choicesDisabled <==> |cs| >= s.roundsToPlay)
  {
    SessionCounts(s, cs);
  }

  /** From a zero count, the next rock click reaches five exactly when the
      trailing rock clicks before it are one short of a multiple of five. */
  lemma NextRockPopup(cs: seq<Click>)
    ensures Popup(StreakAfter(0, cs), Rock) <==> (TrailingRocks(cs) + 1) % 5 == 0
  {
    StreakCountsTrailingRocks(0, cs);
  }

  /** The popup shows on a rock click exactly when it completes a run of rock
      clicks whose length is a multiple of five, counting from a fresh streak. */
  lemma {:induction false} PopupEveryFifthRock(s: GameState, cs: seq<Click>)
    requires s.rockOutCount == 0 && ValidClicks(cs) && cs != []
    requires cs[|cs| - 1].choice == Rock
    ensures Popup(AfterClicks(s, cs[..|cs| - 1]).rockOutCount, Rock) <==> TrailingRocks(cs) % 5 == 0
  {
    var init := cs[..|cs| - 1];
    InitValid(cs);
    SessionStreak(s, init);
    NextRockPopup(init);
    var before := AfterClicks(s, init).rockOutCount;
    assert before == StreakAfter(0, init);
    assert Popup(before, Rock) <==> (TrailingRocks(init) + 1) % 5 == 0;
    assert TrailingRocks(cs) == TrailingRocks(init) + 1;
  }
}
