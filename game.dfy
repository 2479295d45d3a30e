/** The game session: the character's facing, the score, the window of steps
    and the two terminal states, driven by "turn" and "forward" moves. */
module Game {
  import opened Lane
  import opened Window

  /** The direction the character faces. */
  datatype Dir = Left | Right

  /** The two player actions: turn around and step, or step straight on. */
  datatype Action = Turn | Forward

  /** The direction the player means to step in: a turn reverses the facing,
      a forward step keeps it. */
  function Intended(facing: Dir, action: Action): (d: Dir)
    ensures d != facing <==> action == Turn
  {
    if action == Turn then (if facing == Right then Left else Right) else facing
  }

  /** The direction the next step actually lies in: right exactly when its
      column is greater than the current one. On a lane, where the columns
      are one apart, that is the side of the next column. */
  function Required(current: int, next: int): (d: Dir)
    ensures next == current + 1 ==> d == Right
    ensures next == current - 1 ==> d == Left
  {
    if next > current then Right else Left
  }

  /** One playthrough. `failed` stands for the game-over overlay being shown. */
  class Session {
    const cfg: Config
    var steps: seq<Step>
    var score: nat
    var dir: Dir
    var stepsCreated: nat
    var gameFinished: bool
    var failed: bool

    /** The session invariant: the window holds the ordinals from `score` on
        (the character stands on the step whose ordinal is the score), the game
        is finished exactly when a move has brought the score to the goal, and a
        fall only happens in an unfinished game. */
    ghost predicate Valid()
      reads this
    {
      && cfg.Ok()
      && WindowOK(cfg, steps, score, stepsCreated)
      && (gameFinished <==> 0 < score == cfg.goalSteps)
      && (failed ==> !gameFinished)
    }

    /** The state right after a reset with first column `first` and draws `draws`. */
    ghost predicate IsNewGame(first: int, draws: seq<bool>)
      reads this
      requires |draws| >= cfg.stepsVisible
    {
      && score == 0 && !failed && !gameFinished && dir == Right
      && steps == InitialWindow(cfg, first, draws, InitialLength(cfg))
      && stepsCreated == |steps|
    }

    /** A session as the page load starts it: configured, then reset. */
    constructor (columns: int, stepsVisible: nat, goalSteps: nat, stepGap: int, baseY: int,
                 first: int, draws: seq<bool>)
      requires Config(columns, stepsVisible, goalSteps, stepGap, baseY).Ok()
      requires 0 <= first < columns && |draws| >= stepsVisible
      ensures cfg == Config(columns, stepsVisible, goalSteps, stepGap, baseY)
      ensures Valid() && IsNewGame(first, draws)
    {
      cfg := Config(columns, stepsVisible, goalSteps, stepGap, baseY);
      steps, score, dir, stepsCreated := [], 0, Right, 0;
      gameFinished, failed := false, false;
      new;
      ResetGame(first, draws);
    }

    /** Builds the step with the next ordinal; it is the goal step exactly when
        that ordinal is the goal ordinal. */
    method CreateStep(colIndex: int, y: int) returns (step: Step)
      modifies this`stepsCreated
      ensures step.col == colIndex && step.y == y
      ensures step.isGoal <==> old(stepsCreated) == cfg.goalSteps
      ensures stepsCreated == old(stepsCreated) + 1
      ensures step == NewStep(cfg, old(stepsCreated), colIndex, y)
    {
      var stepNumber := stepsCreated;
      var isGoal := stepNumber == cfg.goalSteps;
      step := Step(colIndex, y, isGoal);
      stepsCreated := stepsCreated + 1;
    }

    /** Builds the initial window: from column `first` at `baseY` upwards, one
        step per draw, until `stepsVisible` steps exist or the goal step has been
        built. */
    method ResetSteps(first: int, draws: seq<bool>)
      requires cfg.Ok() && 0 <= first < cfg.columns && |draws| >= cfg.stepsVisible
      modifies this`steps, this`stepsCreated, this`dir
      ensures steps == InitialWindow(cfg, first, draws, InitialLength(cfg))
      ensures stepsCreated == |steps| == InitialLength(cfg) && dir == Right
      ensures WindowOK(cfg, steps, 0, stepsCreated)
    {
      steps := [];
      stepsCreated := 0;
      var y := cfg.baseY;
      var colIndex := first;
      var i := 0;
      while i < cfg.stepsVisible && stepsCreated <= cfg.goalSteps
        invariant i <= cfg.stepsVisible && stepsCreated == i <= cfg.goalSteps + 1
        invariant y == Height(cfg, i) && colIndex == ColumnAt(cfg.columns, first, draws, i)
        invariant steps == InitialWindow(cfg, first, draws, i)
      {
        var step := CreateStep(colIndex, y);
        steps := steps + [step];
        y := y - cfg.stepGap;
        colIndex := NextColumn(cfg.columns, colIndex, draws[i]);
        i := i + 1;
      }
      dir := Right;
      InitialWindowOK(cfg, first, draws);
    }

    /** Moves every step one gap down, in place. */
    method RaiseSteps()
      modifies this`steps
      ensures steps == Raise(old(steps), cfg.stepGap)
    {
      var i := 0;
      while i < |steps|
        invariant 0 <= i <= |steps| == |old(steps)|
        invariant forall k :: 0 <= k < i ==> steps[k] == old(steps)[k].(y := old(steps)[k].y + cfg.stepGap)
        invariant forall k :: i <= k < |steps| ==> steps[k] == old(steps)[k]
      {
        steps := steps[i := steps[i].(y := steps[i].y + cfg.stepGap)];
        i := i + 1;
      }
      forall k | 0 <= k < |steps| ensures steps[k] == Raise(old(steps), cfg.stepGap)[k] {
        RaiseAt(old(steps), cfg.stepGap, k);
      }
    }

    /** Moves every step one gap down, drops the front step once it is a gap
        below `baseY`, and adds a step above the top while the goal has not been
        generated. On a valid window the front step is always dropped, so the
        window then starts at the ordinal after the score (`ShiftKeepsWindow`). */
    method ShiftSteps(rightward: bool)
      requires |steps| >= 2
      modifies this`steps, this`stepsCreated
      ensures steps == Shifted(cfg, old(steps), old(stepsCreated), rightward)
      ensures stepsCreated == CreatedAfterShift(cfg, old(stepsCreated))
    {
      RaiseSteps();
      EvictFront();
      AppendStep(rightward);
    }

    /** Drops the front step once it is at least one gap below `baseY`. */
    method EvictFront()
      requires |steps| > 0
      modifies this`steps
      ensures steps == Evicted(cfg, old(steps))
    {
      var first := steps[0];
      if first.y >= cfg.baseY + cfg.stepGap {
        steps := steps[1..];
      }
    }

    /** Adds a step one gap above the topmost step and one column from the last
        one, unless the goal step has been generated already. */
    method AppendStep(rightward: bool)
      requires |steps| > 0
      modifies this`steps, this`stepsCreated
      ensures steps == Appended(cfg, old(steps), old(stepsCreated), rightward)
      ensures stepsCreated == CreatedAfterShift(cfg, old(stepsCreated))
    {
      var topY := MinY(steps);
      var lastIndex := steps[|steps| - 1].col;
      var newIndex := NextColumn(cfg.columns, lastIndex, rightward);
      if stepsCreated <= cfg.goalSteps {
        var newStep := CreateStep(newIndex, topY - cfg.stepGap);
        steps := steps + [newStep];
      }
    }

    /** One player move. Nothing happens once the game is over (finished or
        fallen) or when there is no next step. Otherwise the move is checked
        against the side the next step lies on: a wrong move turns the
        character the way it tried to go and ends the game as a fall; a right
        move turns it the required way, shifts the window and scores a point,
        and the game is finished when the score reaches the goal. */
    method Move(action: Action, rightward: bool)
      requires Valid()
      modifies this`steps, this`stepsCreated, this`dir, this`score, this`gameFinished, this`failed
      ensures Valid()
      ensures old(gameFinished || failed || |steps| < 2) ==> unchanged(this)
      ensures !old(gameFinished || failed || |steps| < 2) ==>
                var intended := Intended(old(dir), action);
                var required := Required(old(steps)[0].col, old(steps)[1].col);
                if intended != required then
                  && failed && !gameFinished && dir == intended
                  && score == old(score) && steps == old(steps) && stepsCreated == old(stepsCreated)
                else
                  && !failed && dir == required && score == old(score) + 1
                  && steps == Shifted(cfg, old(steps), old(stepsCreated), rightward)
                  && stepsCreated == CreatedAfterShift(cfg, old(stepsCreated))
                  && (gameFinished <==> score == cfg.goalSteps)
      ensures old(score) <= score <= cfg.goalSteps
      ensures !old(gameFinished) && gameFinished ==> |steps| == 1 && steps[0].isGoal
      ensures score < cfg.goalSteps && cfg.stepsVisible >= 2 ==> |steps| >= 2
    {
      if gameFinished || failed {
        return;
      }
      if |steps| < 2 {
        return;
      }
      var currentStep := steps[0];
      var nextStep := steps[1];
      var intendedDir := Intended(dir, action);
      var requiredDir := Required(currentStep.col, nextStep.col);
      if intendedDir != requiredDir {
        dir := intendedDir;
        failed := true;
        return;
      }
      dir := requiredDir;
      var nextScore := score + 1;
      ShiftKeepsWindow(cfg, steps, score, stepsCreated, rightward);
      ShiftSteps(rightward);
      score := nextScore;
      if score == cfg.goalSteps {
        gameFinished := true;
      }
    }

    /** Starts a new playthrough from any state. */
    method ResetGame(first: int, draws: seq<bool>)
      requires cfg.Ok() && 0 <= first < cfg.columns && |draws| >= cfg.stepsVisible
      modifies this`steps, this`stepsCreated, this`dir, this`score, this`gameFinished, this`failed
      ensures Valid() && IsNewGame(first, draws)
      ensures cfg.stepsVisible >= 2 && 0 < cfg.goalSteps ==> |steps| >= 2
    {
      score := 0;
      failed := false;
      gameFinished := false;
      dir := Right;
      ResetSteps(first, draws);
    }
  }

  /** The shipped configuration, first column 3 and every draw rightward: a
      forward move from the start is a jump, a turn is a fall. */
  method FirstMoveScenarios()
  {
    var draws := seq(9, _ => true);
    var c := Shipped;
    var g := new Session(c.columns, c.stepsVisible, c.goalSteps, c.stepGap, c.baseY, 3, draws);
    InitialWindowAt(g.cfg, 3, draws, 9, 0);
    InitialWindowAt(g.cfg, 3, draws, 9, 1);
    assert g.steps[0].col == 3 && g.steps[1].col == 4;
    g.Move(Forward, true);
    assert g.score == 1 && g.dir == Right && !g.failed && !g.gameFinished;

    var h := new Session(c.columns, c.stepsVisible, c.goalSteps, c.stepGap, c.baseY, 3, draws);
    InitialWindowAt(h.cfg, 3, draws, 9, 0);
    InitialWindowAt(h.cfg, 3, draws, 9, 1);
    h.Move(Turn, true);
    assert h.score == 0 && h.dir == Left && h.failed;
  }
}
