/** The sliding window of visible steps: the step records, the game's fixed
    configuration, the window built at reset and the window after one shift,
    and the invariant that both keep. */
module Window {
  import opened Lane

  /** A step of the staircase: its column, its vertical position (smaller is
      higher on screen) and whether it is the goal step. */
  datatype Step = Step(col: int, y: int, isGoal: bool)

  /** The game's constants: track width, steps built at reset, ordinal of the
      goal step, vertical distance between steps, and the position of the step
      the character stands on. */
  datatype Config = Config(columns: int, stepsVisible: nat, goalSteps: nat, stepGap: int, baseY: int)
  {
    /** A track needs two columns for a one-column move to exist, and steps
        must climb upwards on screen. */
    predicate Ok() { columns >= 2 && stepGap > 0 }
  }

  /** The constants of the shipped game. */
  const Shipped: Config := Config(7, 9, 30, 56, 560)

  /** The step that `createStep` builds when `created` steps exist already:
      it is the goal exactly when its ordinal is the goal ordinal. */
  function NewStep(cfg: Config, created: nat, col: int, y: int): Step
  {
    Step(col, y, created == cfg.goalSteps)
  }

  /** The window of a game whose current step has ordinal `front` and of which
      `created` steps were generated: it holds the ordinals `front ..
      created - 1`, as many as fit in `stepsVisible` without passing the goal,
      laid out as `Laid` says. */
  ghost predicate WindowOK(cfg: Config, s: seq<Step>, front: nat, created: nat)
  {
    && front <= cfg.goalSteps
    && created == front + |s|
    && |s| == Min(cfg.stepsVisible, cfg.goalSteps + 1 - front)
    && Laid(cfg, s, front)
  }

  /** The steps of a window whose first step has ordinal `front`: the first
      is at `baseY` and each later one `stepGap` higher; all columns are on the
      track and one apart; exactly the goal ordinal is marked as goal. */
  ghost predicate Laid(cfg: Config, s: seq<Step>, front: nat)
  {
    && (forall i :: 0 <= i < |s| ==> s[i].y == Height(cfg, i))
    && (forall i :: 0 <= i < |s| ==> 0 <= s[i].col < cfg.columns)
    && (forall i :: 0 < i < |s| ==> Adjacent(s[i - 1].col, s[i].col))
    && (forall i :: 0 <= i < |s| ==> (s[i].isGoal <==> front + i == cfg.goalSteps))
  }

  /** Number of steps `resetSteps` builds: `stepsVisible`, but never past the goal. */
  function InitialLength(cfg: Config): (n: nat)
    ensures n <= cfg.stepsVisible && n <= cfg.goalSteps + 1
    ensures n == cfg.stepsVisible || n == cfg.goalSteps + 1
  {
    if cfg.stepsVisible <= cfg.goalSteps + 1 then cfg.stepsVisible else cfg.goalSteps + 1
  }

  /** The step with ordinal `i` that `resetSteps` builds from first column `first`. */
  function InitialStep(cfg: Config, first: int, draws: seq<bool>, i: nat): Step
    requires i <= |draws|
  {
    NewStep(cfg, i, ColumnAt(cfg.columns, first, draws, i), Height(cfg, i))
  }

  /** The first `n` steps that `resetSteps` builds from first column `first`. */
  function InitialWindow(cfg: Config, first: int, draws: seq<bool>, n: nat): (s: seq<Step>)
    requires n <= |draws| + 1
    ensures |s| == n
  {
    if n == 0 then [] else InitialWindow(cfg, first, draws, n - 1) + [InitialStep(cfg, first, draws, n - 1)]
  }

  lemma {:induction false} InitialWindowAt(cfg: Config, first: int, draws: seq<bool>, n: nat, i: nat)
    requires n <= |draws| + 1 && i < n
    ensures InitialWindow(cfg, first, draws, n)[i] == InitialStep(cfg, first, draws, i)
  {
    if i < n - 1 {
      InitialWindowAt(cfg, first, draws, n - 1, i);
    }
  }

  /** The window built at reset has the invariant with the current step at
      ordinal 0. */
  lemma InitialWindowOK(cfg: Config, first: int, draws: seq<bool>)
    requires cfg.Ok() && 0 <= first < cfg.columns && |draws| >= cfg.stepsVisible
    ensures var s := InitialWindow(cfg, first, draws, InitialLength(cfg));
            WindowOK(cfg, s, 0, |s|) && |s| == InitialLength(cfg)
  {
    var n := InitialLength(cfg);
    var s := InitialWindow(cfg, first, draws, n);
    forall i | 0 <= i < n
      ensures s[i].y == Height(cfg, i) && 0 <= s[i].col < cfg.columns
      ensures s[i].isGoal <==> i == cfg.goalSteps
      ensures 0 < i ==> Adjacent(s[i - 1].col, s[i].col)
    {
      InitialWindowAt(cfg, first, draws, n, i);
      if 0 < i {
        InitialWindowAt(cfg, first, draws, n, i - 1);
      }
    }
  }

  /** The smallest `y` of a non-empty window (the topmost step). */
  function MinY(s: seq<Step>): int
    requires |s| > 0
  {
    if |s| == 1 then s[0].y else Min(s[0].y, MinY(s[1..]))
  }

  /** `MinY` is a lower bound of every step's `y` and is the `y` of some step. */
  lemma {:induction false} MinYIsMinimum(s: seq<Step>)
    requires |s| > 0
    ensures forall i :: 0 <= i < |s| ==> MinY(s) <= s[i].y
    ensures exists i :: 0 <= i < |s| && MinY(s) == s[i].y
  {
    if |s| > 1 {
      MinYIsMinimum(s[1..]);
      var j :| 0 <= j < |s| - 1 && MinY(s[1..]) == s[1..][j].y;
      assert s[1..][j] == s[j + 1];
      if s[0].y > MinY(s[1..]) {
        assert MinY(s) == s[j + 1].y;
      } else {
        assert MinY(s) == s[0].y;
      }
      forall i | 0 < i < |s| ensures MinY(s) <= s[i].y {
        assert s[i] == s[1..][i - 1];
      }
    } else {
      assert MinY(s) == s[0].y;
    }
  }

  /** Every step moved `gap` down the screen. */
  function Raise(s: seq<Step>, gap: int): (r: seq<Step>)
    ensures |r| == |s|
  {
    if s == [] then [] else [s[0].(y := s[0].y + gap)] + Raise(s[1..], gap)
  }

  lemma {:induction false} RaiseAt(s: seq<Step>, gap: int, i: nat)
    requires i < |s|
    ensures Raise(s, gap)[i] == s[i].(y := s[i].y + gap)
  {
    if i > 0 {
      RaiseAt(s[1..], gap, i - 1);
    }
  }

  /** The window after `shiftSteps`: all steps are moved one gap down, the
      front step is dropped if it is now at least one gap below `baseY`, and a
      step is added as `Appended` says. */
  function Shifted(cfg: Config, s: seq<Step>, created: nat, rightward: bool): seq<Step>
    requires |s| >= 2
  {
    Appended(cfg, Evicted(cfg, Raise(s, cfg.stepGap)), created, rightward)
  }

  /** The window without its front step if that step is at least one gap
      below `baseY`. */
  function Evicted(cfg: Config, s: seq<Step>): (r: seq<Step>)
    requires |s| > 0
    ensures r == s || r == s[1..]
    ensures |r| < |s| <==> s[0].y >= cfg.baseY + cfg.stepGap
  {
    if s[0].y >= cfg.baseY + cfg.stepGap then s[1..] else s
  }

  /** The window with a new step one gap above its topmost step and one column
      from its last step, if the goal step has not been generated yet. */
  function Appended(cfg: Config, s: seq<Step>, created: nat, rightward: bool): (r: seq<Step>)
    requires |s| > 0
    ensures s <= r && |r| == |s| + (if created <= cfg.goalSteps then 1 else 0)
    ensures |r| > |s| && cfg.columns >= 2 && 0 <= s[|s| - 1].col < cfg.columns ==>
              0 <= r[|s|].col < cfg.columns && Adjacent(s[|s| - 1].col, r[|s|].col)
  {
    var col := NextColumn(cfg.columns, s[|s| - 1].col, rightward);
    if created <= cfg.goalSteps then s + [NewStep(cfg, created, col, MinY(s) - cfg.stepGap)] else s
  }

  /** How many steps exist after a shift: one more exactly when the goal step
      had not been generated. */
  function CreatedAfterShift(cfg: Config, created: nat): nat
  {
    if created <= cfg.goalSteps then created + 1 else created
  }

  /** Height of the step `i` places above the current one: `baseY - i * stepGap`. */
  function Height(cfg: Config, i: nat): int
  {
    if i == 0 then cfg.baseY else Height(cfg, i - 1) - cfg.stepGap
  }

  /** `Height` is the closed form the reset loop's `y -= stepGap` yields. */
  lemma {:induction false} HeightClosed(cfg: Config, i: nat)
    ensures Height(cfg, i) == cfg.baseY - i * cfg.stepGap
  {
    if i > 0 {
      HeightClosed(cfg, i - 1);
    }
  }

  /** Steps further up the window are higher on screen. */
  lemma {:induction false} HeightDecreases(cfg: Config, i: nat, j: nat)
    requires cfg.Ok() && i <= j
    ensures Height(cfg, j) <= Height(cfg, i)
    decreases j
  {
    if i < j {
      HeightDecreases(cfg, i, j - 1);
    }
  }

  /** In a window with the invariant, the topmost step is the last one. */
  lemma TopIsLast(cfg: Config, s: seq<Step>)
    requires cfg.Ok() && |s| > 0
    requires forall i :: 0 <= i < |s| ==> s[i].y == Height(cfg, i)
    ensures MinY(s) == s[|s| - 1].y
  {
    MinYIsMinimum(s);
    var j :| 0 <= j < |s| && MinY(s) == s[j].y;
    HeightDecreases(cfg, j, |s| - 1);
  }

  /** Moving a laid-out window one gap down always drops its front step (it
      sat at `baseY`); what stays is laid out again from the next ordinal on. */
  lemma EvictionDropsFront(cfg: Config, s: seq<Step>, front: nat)
    requires cfg.Ok() && Laid(cfg, s, front) && |s| >= 2
    ensures var r := Evicted(cfg, Raise(s, cfg.stepGap));
            && r == Raise(s, cfg.stepGap)[1..]
            && (forall i :: 0 <= i < |r| ==> r[i] == s[i + 1].(y := s[i + 1].y + cfg.stepGap))
            && Laid(cfg, r, front + 1)
  {
    var raised := Raise(s, cfg.stepGap);
    RaiseAt(s, cfg.stepGap, 0);
    var r := raised[1..];
    forall i | 0 <= i < |r|
      ensures r[i] == s[i + 1].(y := s[i + 1].y + cfg.stepGap) && r[i].y == Height(cfg, i)
    {
      RaiseAt(s, cfg.stepGap, i + 1);
    }
  }

  /** Appending the next step keeps a window laid out. */
  lemma AppendKeepsLaid(cfg: Config, s: seq<Step>, front: nat, rightward: bool)
    requires cfg.Ok() && Laid(cfg, s, front) && |s| > 0
    ensures var r := Appended(cfg, s, front + |s|, rightward);
            && Laid(cfg, r, front)
            && s <= r
            && (|r| == |s| + 1 <==> front + |s| <= cfg.goalSteps)
            && (|r| == |s| <==> front + |s| > cfg.goalSteps)
  {
    TopIsLast(cfg, s);
    var created := front + |s|;
    var last := s[|s| - 1];
    var step := NewStep(cfg, created, NextColumn(cfg.columns, last.col, rightward), last.y - cfg.stepGap);
    var r := Appended(cfg, s, created, rightward);
    if created <= cfg.goalSteps {
      assert r == s + [step];
      forall i | 0 <= i < |r|
        ensures r[i].y == Height(cfg, i) && 0 <= r[i].col < cfg.columns
        ensures r[i].isGoal <==> front + i == cfg.goalSteps
        ensures 0 < i ==> Adjacent(r[i - 1].col, r[i].col)
      {
        if i == |s| {
          assert r[i] == step;
        } else {
          assert r[i] == s[i];
        }
      }
    }
  }

  /** What a shift of a window `s` of at least two steps leaves, as `r`: each
      step that stays is one gap lower; only the front step can go, exactly when
      it is then at least one gap below `baseY`; one step is added, in column
      `NextColumn` of the last step's and one gap above the topmost kept step,
      exactly when the goal has not been generated. */
  ghost predicate ShiftOutcome(cfg: Config, s: seq<Step>, created: nat, rightward: bool, r: seq<Step>)
    requires |s| >= 2
  {
    var d := if s[0].y + cfg.stepGap >= cfg.baseY + cfg.stepGap then 1 else 0;
    var n := |s| - d;
    var add := created <= cfg.goalSteps;
    && |r| == (if add then n + 1 else n)
    && (forall i :: 0 <= i < n ==> r[i] == s[i + d].(y := s[i + d].y + cfg.stepGap))
    && (add ==> r[n] == NewStep(cfg, created, NextColumn(cfg.columns, s[|s| - 1].col, rightward),
                                MinY(r[..n]) - cfg.stepGap))
  }

  /** `shiftSteps` on any window of at least two steps does what
      `ShiftOutcome` says. */
  lemma {:induction false} ShiftedShape(cfg: Config, s: seq<Step>, created: nat, rightward: bool)
    requires |s| >= 2
    ensures ShiftOutcome(cfg, s, created, rightward, Shifted(cfg, s, created, rightward))
  {
    var d := if s[0].y + cfg.stepGap >= cfg.baseY + cfg.stepGap then 1 else 0;
    KeptShape(cfg, s, d);
    ShiftedPrefix(cfg, s, created, rightward);
    ShapeFromParts(cfg, s, created, rightward, d, Evicted(cfg, Raise(s, cfg.stepGap)), Shifted(cfg, s, created, rightward));
  }

  /** The outcome of a shift, from the window `kept` left by eviction and the
      window `r` that appends to it. It follows from its preconditions alone;
      it is stated apart so that this step is checked without the definitions
      of `Raise`, `Evicted` and `Appended` in view. */
  lemma {:induction false} ShapeFromParts(cfg: Config, s: seq<Step>, created: nat, rightward: bool, d: nat,
                                          kept: seq<Step>, r: seq<Step>)
    requires |s| >= 2 && d == (if s[0].y + cfg.stepGap >= cfg.baseY + cfg.stepGap then 1 else 0)
    requires |kept| == |s| - d && kept[|kept| - 1].col == s[|s| - 1].col
    requires forall i :: 0 <= i < |s| - d ==> kept[i] == s[i + d].(y := s[i + d].y + cfg.stepGap)
    requires |r| == |kept| + (if created <= cfg.goalSteps then 1 else 0) && r[..|kept|] == kept
    requires created <= cfg.goalSteps ==>
               r[|kept|] == NewStep(cfg, created, NextColumn(cfg.columns, kept[|kept| - 1].col, rightward),
                                    MinY(kept) - cfg.stepGap)
    ensures ShiftOutcome(cfg, s, created, rightward, r)
  {
  }

  /** The part of a shift before the append: the steps from `d` on, one gap
      lower, where `d` is 1 exactly when the front step is evicted. */
  lemma {:induction false} KeptShape(cfg: Config, s: seq<Step>, d: nat)
    requires |s| >= 2
    requires d == if s[0].y + cfg.stepGap >= cfg.baseY + cfg.stepGap then 1 else 0
    ensures var kept := Evicted(cfg, Raise(s, cfg.stepGap));
            && |kept| == |s| - d
            && (forall i :: 0 <= i < |s| - d ==> kept[i] == s[i + d].(y := s[i + d].y + cfg.stepGap))
            && kept[|kept| - 1].col == s[|s| - 1].col
  {
    var raised := Raise(s, cfg.stepGap);
    RaiseAt(s, cfg.stepGap, 0);
    RaiseAt(s, cfg.stepGap, |s| - 1);
    var kept := Evicted(cfg, raised);
    assert kept == raised[d..];
    forall i | 0 <= i < |s| - d ensures kept[i] == s[i + d].(y := s[i + d].y + cfg.stepGap) {
      RaiseAt(s, cfg.stepGap, i + d);
    }
  }

  /** A shift appends to what eviction keeps. It follows from the definitions
      alone; it is stated as a lemma so that `ShiftedShape` needs only this fact,
      `KeptShape` and `ShapeFromParts`, which keeps that proof small on every
      solver seed. */
  lemma {:induction false} ShiftedPrefix(cfg: Config, s: seq<Step>, created: nat, rightward: bool)
    requires |s| >= 2
    ensures var kept := Evicted(cfg, Raise(s, cfg.stepGap));
            var r := Shifted(cfg, s, created, rightward);
            && |r| == |kept| + (if created <= cfg.goalSteps then 1 else 0)
            && r[..|kept|] == kept
            && (created <= cfg.goalSteps ==>
                  r[|kept|] == NewStep(cfg, created, NextColumn(cfg.columns, kept[|kept| - 1].col, rightward),
                                        MinY(kept) - cfg.stepGap))
  {
  }

  /** A shift of a window with at least two steps drops the front step and
      moves the others one gap down; a step is added exactly when the goal had
      not been generated. */
  lemma ShiftMovesSteps(cfg: Config, s: seq<Step>, front: nat, created: nat, rightward: bool)
    requires cfg.Ok() && WindowOK(cfg, s, front, created) && |s| >= 2
    ensures var r := Shifted(cfg, s, created, rightward);
            && (forall i :: 0 <= i < |s| - 1 ==> r[i] == s[i + 1].(y := s[i + 1].y + cfg.stepGap))
            && |r| == (if created <= cfg.goalSteps then |s| else |s| - 1)
  {
    EvictionDropsFront(cfg, s, front);
    var kept := Evicted(cfg, Raise(s, cfg.stepGap));
    AppendKeepsLaid(cfg, kept, front + 1, rightward);
  }

  /** After a shift the invariant holds again with the current step one
      ordinal further on. */
  lemma ShiftKeepsWindow(cfg: Config, s: seq<Step>, front: nat, created: nat, rightward: bool)
    requires cfg.Ok() && WindowOK(cfg, s, front, created) && |s| >= 2
    ensures WindowOK(cfg, Shifted(cfg, s, created, rightward), front + 1, CreatedAfterShift(cfg, created))
  {
    EvictionDropsFront(cfg, s, front);
    var kept := Evicted(cfg, Raise(s, cfg.stepGap));
    AppendKeepsLaid(cfg, kept, front + 1, rightward);
  }
}
