/**
 * The match state machine: the `gameState` record, the three commands that the
 * buttons trigger, and the scoring and win-by-two rule of one ball update.
 */
module Match {
  import opened Common

  /** A snapshot of `gameState`; `winner` is null in game.js until someone wins. */
  datatype MatchState = MatchState(
    playing: bool,
    paused: bool,
    playerScore: nat,
    aiScore: nat,
    winner: Option<Side>)

  const WinningScore: nat := 11
  const WinningLead: int := 2

  /** The record as the page loads it. */
  const Initial: MatchState := MatchState(true, false, 0, 0, None)

  /** The invariant of `gameState`: a winner is declared only once play has stopped. */
  predicate Consistent(m: MatchState) {
    m.winner.Some? ==> !m.playing
  }

  /** The ball is in play: updateBall goes past its opening guard. */
  predicate InPlay(m: MatchState) {
    m.playing && !m.paused
  }

  /** togglePause */
  function TogglePause(m: MatchState): MatchState {
    m.(paused := !m.paused)
  }

  /** The match-state half of newGame (the ball half is BallPhysics.Respotted). */
  function NewGame(m: MatchState): MatchState {
    m.(winner := None, playing := true, paused := false)
  }

  /** The match-state half of resetScore: zero both scores, then newGame. */
  function ResetScore(m: MatchState): MatchState {
    NewGame(m.(playerScore := 0, aiScore := 0))
  }

  /**
   * Which side, if any, has won the point once the ball is at height ballY: it has
   * left the canvas past the player's end (AI point) or past the AI's end (player point).
   */
  function Scorer(ballY: real, canvasHeight: real): Option<Side> {
    if ballY > canvasHeight + 50.0 then Some(AI)
    else if ballY < -50.0 then Some(Player)
    else None
  }

  /** Credit the point, if there is one. */
  function AddPoint(m: MatchState, s: Option<Side>): MatchState {
    match s
    case None => m
    case Some(Player) => m.(playerScore := m.playerScore + 1)
    case Some(AI) => m.(aiScore := m.aiScore + 1)
  }

  /** The win-by-two rule for one side. */
  predicate Leads(mine: nat, theirs: nat) {
    mine >= WinningScore && mine - theirs >= WinningLead
  }

  /** The winner check at the end of updateBall; the player is checked first. */
  function CheckWinner(m: MatchState): MatchState {
    if Leads(m.playerScore, m.aiScore) then m.(winner := Some(Player), playing := false)
    else if Leads(m.aiScore, m.playerScore) then m.(winner := Some(AI), playing := false)
    else m
  }

  /** What one call of updateBall does to the match state, given who (if anyone) scored. */
  function UpdateScore(m: MatchState, s: Option<Side>): MatchState {
    if !InPlay(m) then m else CheckWinner(AddPoint(m, s))
  }

  /** The inputs that can change the match state: the three buttons and an animation frame. */
  datatype Command = NewGameCmd | TogglePauseCmd | ResetScoreCmd | Frame(scorer: Option<Side>)

  function Apply(m: MatchState, c: Command): MatchState {
    match c
    case NewGameCmd => NewGame(m)
    case TogglePauseCmd => TogglePause(m)
    case ResetScoreCmd => ResetScore(m)
    case Frame(s) => UpdateScore(m, s)
  }

  function Run(m: MatchState, cs: seq<Command>): MatchState
    decreases |cs|
  {
    if cs == [] then m else Run(Apply(m, cs[0]), cs[1..])
  }

  function FramesOnly(ss: seq<Option<Side>>): seq<Command> {
    seq(|ss|, i requires 0 <= i < |ss| => Frame(ss[i]))
  }

  // ---------------------------------------------------------------------------
  // Properties of the commands

  /** Pausing twice is the identity, and a toggle touches nothing but `paused`. */
  lemma TogglePauseTwice(m: MatchState)
    ensures TogglePause(TogglePause(m)) == m
    ensures TogglePause(m).paused == !m.paused
    ensures TogglePause(m).(paused := m.paused) == m
  {
  }

  /** newGame keeps both scores and reopens play; resetScore first zeroes the scores. */
  lemma RestartCommands(m: MatchState)
    ensures var r := NewGame(m);
      r.playerScore == m.playerScore && r.aiScore == m.aiScore
      && r.winner == None && r.playing && !r.paused
    ensures var r := ResetScore(m);
      r.playerScore == 0 && r.aiScore == 0 && r.winner == None && r.playing && !r.paused
  {
  }

  /**
   * One ball update changes at most one score, by exactly one: the AI's when the ball
   * went out past the player's end, otherwise the player's when it went out past the
   * AI's end, otherwise neither.
   */
  lemma AtMostOnePointPerUpdate(m: MatchState, ballY: real, canvasHeight: real)
    requires InPlay(m)
    ensures var r := UpdateScore(m, Scorer(ballY, canvasHeight));
      if ballY > canvasHeight + 50.0 then
        r.aiScore == m.aiScore + 1 && r.playerScore == m.playerScore
      else if ballY < -50.0 then
        r.playerScore == m.playerScore + 1 && r.aiScore == m.aiScore
      else
        r.playerScore == m.playerScore && r.aiScore == m.aiScore
  {
  }

  /** The two sides' win conditions exclude each other. */
  lemma LeadsExclusive(a: nat, b: nat)
    ensures !(Leads(a, b) && Leads(b, a))
  {
  }

  /**
   * From a consistent live state, an update declares the player winner exactly when
   * the player then has at least 11 and leads by two, the AI exactly when the AI does,
   * and play stops exactly when one of them does; otherwise winner and playing are kept.
   */
  lemma WinByTwo(m: MatchState, s: Option<Side>)
    requires Consistent(m) && InPlay(m)
    ensures var r := UpdateScore(m, s);
      && (r.winner == Some(Player) <==> Leads(r.playerScore, r.aiScore))
      && (r.winner == Some(AI) <==> Leads(r.aiScore, r.playerScore))
      && (!r.playing <==> Leads(r.playerScore, r.aiScore) || Leads(r.aiScore, r.playerScore))
      && (r.winner == None <==> r.playing)
  {
    LeadsExclusive(AddPoint(m, s).playerScore, AddPoint(m, s).aiScore);
  }

  /** Every command keeps "a winner only when play has stopped". */
  lemma {:induction false} ConsistentAlways(m: MatchState, cs: seq<Command>)
    requires Consistent(m)
    ensures Consistent(Run(m, cs))
    decreases |cs|
  {
    if cs != [] {
      ConsistentAlways(Apply(m, cs[0]), cs[1..]);
    }
  }

  /** Without resetScore, no sequence of commands ever lowers a score. */
  lemma {:induction false} ScoresNeverDecrease(m: MatchState, cs: seq<Command>)
    requires forall i :: 0 <= i < |cs| ==> cs[i] != ResetScoreCmd
    ensures Run(m, cs).playerScore >= m.playerScore
    ensures Run(m, cs).aiScore >= m.aiScore
    decreases |cs|
  {
    if cs != [] {
      ScoresNeverDecrease(Apply(m, cs[0]), cs[1..]);
    }
  }

  /**
   * Once a match is over (or paused), no number of animation frames changes anything:
   * the scores stay frozen until newGame, resetScore or (for a pause) togglePause.
   */
  lemma {:induction false} FrozenUntilRestart(m: MatchState, ss: seq<Option<Side>>)
    requires !InPlay(m)
    ensures Run(m, FramesOnly(ss)) == m
    decreases |ss|
  {
    if ss != [] {
      assert FramesOnly(ss)[1..] == FramesOnly(ss[1..]);
      FrozenUntilRestart(m, ss[1..]);
    }
  }

  /**
   * A finished match stays finished, with the same scores and winner, through any run of
   * frames and pause toggles: only newGame or resetScore can change it. Only `paused` may
   * differ, because togglePause still flips it on a finished match.
   */
  lemma {:induction false} FinishedStaysFinished(m: MatchState, cs: seq<Command>)
    requires !m.playing
    requires forall i :: 0 <= i < |cs| ==> cs[i] != NewGameCmd && cs[i] != ResetScoreCmd
    ensures Run(m, cs).(paused := m.paused) == m
    decreases |cs|
  {
    if cs != [] {
      var m1 := Apply(m, cs[0]);
      assert m1.(paused := m.paused) == m;
      FinishedStaysFinished(m1, cs[1..]);
    }
  }

  /**
   * A finished match carries its final scores into newGame, so the first frame after
   * "New Game" declares the same winner again, with no point played.
   */
  lemma NewGameAfterWinEndsAtOnce(m: MatchState)
    requires m.winner == Some(Player) && Leads(m.playerScore, m.aiScore)
    ensures var r := Run(m, [NewGameCmd, Frame(None)]);
      r.winner == Some(Player) && !r.playing
      && r.playerScore == m.playerScore && r.aiScore == m.aiScore
  {
    assert [NewGameCmd, Frame(None)][1..] == [Frame(None)];
  }

  /** The live `gameState` record; the buttons and updateBall write its fields. */
  class GameState {
    var playing: bool
    var paused: bool
    var playerScore: nat
    var aiScore: nat
    var winner: Option<Side>

    function Snapshot(): MatchState
      reads this
    {
      MatchState(playing, paused, playerScore, aiScore, winner)
    }

    constructor ()
      ensures Snapshot() == Initial
    {
      playing, paused := true, false;
      playerScore, aiScore := 0, 0;
      winner := None;
    }
  }
}
