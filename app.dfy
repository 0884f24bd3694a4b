/**
 * The session: one step of `App::handle_events` over the state
 * (warning, showExit, cancelled), the `App::run` loop that feeds it the
 * bus one event at a time, and `App::new`, which queues the first route.
 */
module App {
  import opened Wrappers
  import opened Keys

  /** The routes the session can ask the route stack to open. */
  datatype Route = SelectNovel(path: string) | OtherRoute(name: string)

  /** The bus events the session looks at; `OtherEvent` covers the variants it ignores. */
  datatype AppEvent =
    | KeyEvent(key: Key)
    | Render
    | Error(msg: string)
    | PushRoute(route: Route)
    | Tick
    | OtherEvent

  /** The part of `App` that `handle_events` changes; `cancelled` is the cancellation token. */
  datatype SessionState = SessionState(warning: Option<string>, showExit: bool, cancelled: bool)

  /**
   * What the collaborators answer for the event at position `n` of the
   * stream: the route stack's `handle_events`, the page drawing inside the
   * terminal's draw closure, and `terminal.draw` itself.
   */
  datatype Collaborators = Collaborators(
    routes: (nat, AppEvent) -> Outcome,
    draw: nat -> Outcome,
    terminal: nat -> Outcome)

  datatype StepResult = StepResult(state: SessionState, result: Outcome)

  datatype RunResult = RunResult(state: SessionState, remaining: seq<AppEvent>, taken: nat)

  const INITIAL_STATE := SessionState(None, false, false)

  /** The session's own invariant: the token is cancelled exactly when the exit flag is up. */
  predicate Consistent(s: SessionState) {
    s.cancelled == s.showExit
  }

  /** Cancelling the token and raising the exit flag, as both quit keys do. */
  function Quit(s: SessionState): SessionState {
    s.(cancelled := true, showExit := true)
  }

  /** The global key rules, applied after the route stack has accepted the key. */
  function KeyRule(s: SessionState, key: Key): SessionState {
    if key.kind != Press then s
    else if s.warning.Some? then
      (if key.code == Esc then s.(warning := None) else s)
    else if key.code == Char('q') then Quit(s)
    else if key.code == Char('c') && key.ctrl then Quit(s)
    else s
  }

  /**
   * `App::handle_events` for the event taken from the bus (`None`: the bus
   * yielded nothing). `route` is consulted only when no warning is up;
   * `draw` and `terminal` only on `Render`.
   */
  function Step(s: SessionState, ev: Option<AppEvent>, route: Outcome, draw: Outcome, terminal: Outcome): (r: StepResult)
    ensures s.showExit ==> r.state.showExit
    ensures s.cancelled ==> r.state.cancelled
    ensures Consistent(s) ==> Consistent(r.state)
  {
    match ev
    case None => StepResult(s, Ok)
    case Some(e) =>
      if s.warning.None? && route.Err? then StepResult(s, route)
      else
        match e
        case KeyEvent(key) => StepResult(KeyRule(s, key), Ok)
        case Render =>
          var drawn := if draw.Err? then s.(warning := Some(draw.msg)) else s;
          StepResult(drawn, terminal)
        case Error(msg) => StepResult(s.(warning := Some(msg)), Ok)
        case _ => StepResult(s, Ok)
  }

  /** `Step` with the collaborators' answers for the event at stream position `taken`. */
  function StepWith(s: SessionState, ev: Option<AppEvent>, c: Collaborators, taken: nat): StepResult {
    match ev
    case None => Step(s, None, Ok, Ok, Ok)
    case Some(e) => Step(s, ev, c.routes(taken, e), c.draw(taken), c.terminal(taken))
  }

  /** The body of `App::run`'s loop: an error returned by the step becomes the warning. */
  function Absorb(r: StepResult): (s: SessionState)
    ensures s.showExit == r.state.showExit && s.cancelled == r.state.cancelled
    ensures r.result.Err? ==> s.warning == Some(r.result.msg)
    ensures r.result.Ok? ==> s == r.state
  {
    if r.result.Err? then r.state.(warning := Some(r.result.msg)) else r.state
  }

  /**
   * `App::run` over the events queued on the bus: one step per event, in
   * queue order, until the exit flag is up or the queue is drained.
   */
  function RunSpec(s: SessionState, bus: seq<AppEvent>, c: Collaborators, taken: nat): (r: RunResult)
    ensures |r.remaining| <= |bus|
    ensures r.taken == taken + (|bus| - |r.remaining|)
    ensures r.state.showExit || r.remaining == []
    ensures s.showExit ==> r == RunResult(s, bus, taken)
    ensures s.showExit ==> r.state.showExit
    ensures Consistent(s) ==> Consistent(r.state)
    decreases |bus|
  {
    if s.showExit || bus == [] then RunResult(s, bus, taken)
    else RunSpec(Absorb(StepWith(s, Some(bus[0]), c, taken)), bus[1..], c, taken + 1)
  }

  class App {
    var warning: Option<string>
    var showExit: bool
    var cancelled: bool
    /** The events sent on the bus and not yet received, oldest first. */
    var bus: seq<AppEvent>
    /** How many events have been received so far. */
    var taken: nat

    function State(): SessionState
      reads this
    {
      SessionState(warning, showExit, cancelled)
    }

    ghost predicate Valid()
      reads this
    {
      Consistent(State())
    }

    /** The session as `App::new` builds it once the history is loaded. */
    constructor Create(path: string)
      ensures Valid()
      ensures State() == INITIAL_STATE
      ensures bus == [PushRoute(SelectNovel(path))] && taken == 0
    {
      warning := None;
      showExit := false;
      cancelled := false;
      bus := [PushRoute(SelectNovel(path))];
      taken := 0;
    }

    /** `App::new`: `historyLoad` is the result of reading the history file. */
    static method New(path: string, historyLoad: Outcome) returns (r: Result<App>)
      ensures r.Failure? <==> historyLoad.Err?
      ensures r.Failure? ==> r.msg == historyLoad.msg
      ensures r.Success? ==> fresh(r.value) && r.value.Valid()
      ensures r.Success? ==> r.value.State() == INITIAL_STATE && r.value.taken == 0
      ensures r.Success? ==> r.value.bus == [PushRoute(SelectNovel(path))]
    {
      if historyLoad.Err? {
        return Failure(historyLoad.msg);
      }
      var app := new App.Create(path);
      return Success(app);
    }

    /** `App::handle_events`: takes the oldest event off the bus and performs `Step` on it. */
    method HandleEvents(c: Collaborators) returns (r: Outcome)
      modifies this
      ensures old(bus) == [] ==> bus == [] && taken == old(taken)
      ensures old(bus) != [] ==> bus == old(bus)[1..] && taken == old(taken) + 1
      ensures StepResult(State(), r) ==
        StepWith(old(State()), if old(bus) == [] then None else Some(old(bus)[0]), c, old(taken))
    {
      if bus == [] {
        return Ok;
      }
      var event := bus[0];
      var n := taken;
      bus := bus[1..];
      taken := taken + 1;

      if warning.None? {
        var routed := c.routes(n, event);
        if routed.Err? {
          return routed;
        }
      }

      match event {
        case KeyEvent(key) =>
          if key.kind == Press {
            if warning.Some? {
              if key.code == Esc {
                warning := None;
              }
            } else {
              if key.code == Char('q') {
                cancelled := true;
                showExit := true;
              } else if key.code == Char('c') {
                if key.ctrl {
                  cancelled := true;
                  showExit := true;
                }
              }
            }
          }
        case Render =>
          var drawn := c.draw(n);
          if drawn.Err? {
            warning := Some(drawn.msg);
          }
          var flushed := c.terminal(n);
          if flushed.Err? {
            return flushed;
          }
        case Error(msg) =>
          warning := Some(msg);
        case _ =>
      }
      return Ok;
    }

    /** One turn of `App::run`'s loop: a step whose error becomes the warning. */
    method Turn(c: Collaborators)
      requires !showExit && bus != []
      modifies this
      ensures bus == old(bus)[1..] && taken == old(taken) + 1
      ensures State() == Absorb(StepWith(old(State()), Some(old(bus)[0]), c, old(taken)))
    {
      var r := HandleEvents(c);
      if r.Err? {
        warning := Some(r.msg);
      }
    }

    /** `App::run`: steps until the exit flag is up; an error from a step becomes the warning. */
    method Run(c: Collaborators)
      modifies this
      ensures RunResult(State(), bus, taken) == RunSpec(old(State()), old(bus), c, old(taken))
      ensures showExit || bus == []
      ensures bus == old(bus)[|old(bus)| - |bus|..]
      ensures old(Valid()) ==> Valid()
    {
      ghost var goal := RunSpec(State(), bus, c, taken);
      ghost var start := State();
      RunLeavesSuffix(start, bus, c, taken);
      while !showExit && bus != []
        invariant RunSpec(State(), bus, c, taken) == goal
        decreases |bus|
      {
        RunSpecUnfold(State(), bus, c, taken);
        Turn(c);
      }
      RunSpecStops(State(), bus, c, taken);
      assert RunResult(State(), bus, taken) == goal;
    }
  }

  /** One turn of the loop, when it takes an event. */
  lemma RunSpecUnfold(s: SessionState, bus: seq<AppEvent>, c: Collaborators, taken: nat)
    requires !s.showExit && bus != []
    ensures RunSpec(s, bus, c, taken) ==
      RunSpec(Absorb(StepWith(s, Some(bus[0]), c, taken)), bus[1..], c, taken + 1)
  {
  }

  /** The loop's exit: nothing more is taken. */
  lemma RunSpecStops(s: SessionState, bus: seq<AppEvent>, c: Collaborators, taken: nat)
    requires s.showExit || bus == []
    ensures RunSpec(s, bus, c, taken) == RunResult(s, bus, taken)
  {
  }

  // ---------------------------------------------------------------------
  // Properties of one step

  /** A bus that yields nothing leaves the session untouched. */
  lemma NoEventChangesNothing(s: SessionState, route: Outcome, draw: Outcome, terminal: Outcome)
    ensures Step(s, None, route, draw, terminal) == StepResult(s, Ok)
  {
  }

  /** While a warning is up the route stack does not see the event: its answer cannot matter. */
  lemma RoutesGatedByWarning(s: SessionState, e: AppEvent, route1: Outcome, route2: Outcome, draw: Outcome, terminal: Outcome)
    requires s.warning.Some?
    ensures Step(s, Some(e), route1, draw, terminal) == Step(s, Some(e), route2, draw, terminal)
  {
  }

  /** With no warning up the route stack's answer is used: an error is returned before any global rule. */
  lemma RouteErrorShortCircuits(s: SessionState, e: AppEvent, msg: string, draw: Outcome, terminal: Outcome)
    requires s.warning.None?
    ensures Step(s, Some(e), Err(msg), draw, terminal) == StepResult(s, Err(msg))
    ensures Absorb(Step(s, Some(e), Err(msg), draw, terminal)) == s.(warning := Some(msg))
  {
  }

  /** With no warning up, `q` and Ctrl+C quit; a plain `c` does not. */
  lemma QuitKeys(s: SessionState, ctrl: bool, draw: Outcome, terminal: Outcome)
    requires s.warning.None?
    ensures Step(s, Some(KeyEvent(Key(Char('q'), ctrl, Press))), Ok, draw, terminal).state == Quit(s)
    ensures Step(s, Some(KeyEvent(Key(Char('c'), true, Press))), Ok, draw, terminal).state == Quit(s)
    ensures Step(s, Some(KeyEvent(Key(Char('c'), false, Press))), Ok, draw, terminal) == StepResult(s, Ok)
  {
  }

  /** While a warning is up, Esc dismisses it and no key can quit. */
  lemma WarningKeys(s: SessionState, key: Key, route: Outcome, draw: Outcome, terminal: Outcome)
    requires s.warning.Some?
    ensures var r := Step(s, Some(KeyEvent(key)), route, draw, terminal);
      r.result == Ok && r.state.showExit == s.showExit && r.state.cancelled == s.cancelled
    ensures key.kind == Press && key.code == Esc ==>
      Step(s, Some(KeyEvent(key)), route, draw, terminal).state == s.(warning := None)
    ensures key.code != Esc ==>
      Step(s, Some(KeyEvent(key)), route, draw, terminal).state == s
  {
  }

  /** A key that is not a press changes none of the three fields, whatever the routes answer. */
  lemma NonPressChangesNothing(s: SessionState, key: Key, route: Outcome, draw: Outcome, terminal: Outcome)
    requires key.kind != Press
    ensures Step(s, Some(KeyEvent(key)), route, draw, terminal).state == s
  {
  }

  /** An `Error` event that reaches the global handling installs its text, replacing any warning. */
  lemma ErrorInstallsWarning(s: SessionState, msg: string, route: Outcome, draw: Outcome, terminal: Outcome)
    requires s.warning.None? ==> route.Ok?
    ensures Step(s, Some(Error(msg)), route, draw, terminal) ==
      StepResult(s.(warning := Some(msg)), Ok)
  {
  }

  /** `Render`: a failed page draw becomes the warning; a terminal failure is the step's error. */
  lemma RenderOutcome(s: SessionState, route: Outcome, draw: Outcome, terminal: Outcome)
    requires s.warning.None? ==> route.Ok?
    ensures var r := Step(s, Some(Render), route, draw, terminal);
      r.result == terminal && r.state.showExit == s.showExit && r.state.cancelled == s.cancelled
      && r.state.warning == (if draw.Err? then Some(draw.msg) else s.warning)
  {
  }

  // ---------------------------------------------------------------------
  // Properties of the loop

  /** A quit key pressed with no warning up is the last event the loop takes. */
  lemma {:induction false} QuitEndsRun(s: SessionState, bus: seq<AppEvent>, c: Collaborators, taken: nat, ctrl: bool)
    requires !s.showExit && s.warning.None?
    requires |bus| > 0 && bus[0] == KeyEvent(Key(Char('q'), ctrl, Press))
    requires c.routes(taken, bus[0]).Ok?
    ensures RunSpec(s, bus, c, taken) == RunResult(Quit(s), bus[1..], taken + 1)
  {
    var next := Absorb(StepWith(s, Some(bus[0]), c, taken));
    assert next == Quit(s);
    assert RunSpec(next, bus[1..], c, taken + 1) == RunResult(next, bus[1..], taken + 1);
  }

  /**
   * The loop ends with the state reached after the events it took, and
   * every one of those events but the last found the exit flag down: it
   * stops at the first event that raises the flag.
   */
  lemma {:induction false} RunStopsAtFirstExit(s: SessionState, bus: seq<AppEvent>, c: Collaborators, taken: nat, j: nat)
    ensures var n := |bus| - |RunSpec(s, bus, c, taken).remaining|;
      RunSpec(s, bus, c, taken).state == RunPrefix(s, bus, c, taken, n)
      && (j < n ==> !RunPrefix(s, bus, c, taken, j).showExit)
    decreases |bus|
  {
    if s.showExit || bus == [] {
    } else {
      var next := Absorb(StepWith(s, Some(bus[0]), c, taken));
      var rest := RunSpec(next, bus[1..], c, taken + 1);
      assert RunSpec(s, bus, c, taken) == rest;
      var n' := |bus[1..]| - |rest.remaining|;
      RunStopsAtFirstExit(next, bus[1..], c, taken + 1, if j == 0 then 0 else j - 1);
      assert RunPrefix(s, bus, c, taken, n' + 1) == RunPrefix(next, bus[1..], c, taken + 1, n');
      if 0 < j < n' + 1 {
        assert RunPrefix(s, bus, c, taken, j) == RunPrefix(next, bus[1..], c, taken + 1, j - 1);
      }
    }
  }

  /** The loop takes events only from the front of the queue: what is left is a suffix of it. */
  lemma {:induction false} RunLeavesSuffix(s: SessionState, bus: seq<AppEvent>, c: Collaborators, taken: nat)
    ensures var rest := RunSpec(s, bus, c, taken).remaining;
      rest == bus[|bus| - |rest|..]
    decreases |bus|
  {
    if !s.showExit && bus != [] {
      var next := Absorb(StepWith(s, Some(bus[0]), c, taken));
      RunLeavesSuffix(next, bus[1..], c, taken + 1);
      var rest := RunSpec(next, bus[1..], c, taken + 1).remaining;
      assert bus[1..][|bus[1..]| - |rest|..] == bus[|bus| - |rest|..];
    }
  }

  /** The state after the loop has taken the first `k` events of `bus`. */
  ghost function RunPrefix(s: SessionState, bus: seq<AppEvent>, c: Collaborators, taken: nat, k: nat): SessionState
    requires k <= |bus|
    decreases k
  {
    if k == 0 then s
    else RunPrefix(Absorb(StepWith(s, Some(bus[0]), c, taken)), bus[1..], c, taken + 1, k - 1)
  }
}
