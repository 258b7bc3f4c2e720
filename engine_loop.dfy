/**
 * The frame-stage state machine of the engine loop.
 *
 * Each advance looks at the PREVIOUS stage (`currentStage`), performs the side
 * effects that belong to entering the next stage, records the next stage's
 * discriminant and yields it.  The collaborators (window, fixed-timestep clock,
 * mailbox to the render thread, barrier and render thread) are not modelled:
 * what they answer is an `Env` value supplied per advance, and what is done to
 * them is appended to an effect log.
 */
module EngineLoop {
  import opened Results

  datatype Polling = Poll | Wait

  /** A window message; `NoMessage` is the value the framework starts with. */
  datatype WindowMessage = NoMessage | WindowEvent(event: nat)

  /** The render thread's answer to a `RenderData` request. */
  datatype RenderResponse = RenderResponse(payload: nat)

  /** The mailbox peer has gone away. */
  datatype MailboxError = Disconnected

  /** The discriminants of the stages; the tag the machine keeps between advances. */
  datatype StageKind =
    | Initialize | Start | BeginFrame | EarlyUpdate | FixedUpdate
    | Update | EndFrame | Exiting | ExitLoop

  /** The stage values handed to the caller, with the data they carry. */
  datatype Stage =
    | Start
    | BeginFrame(message: WindowMessage)
    | EarlyUpdate(message: WindowMessage)
    | FixedUpdate
    | Update(message: WindowMessage)
    | EndFrame(message: WindowMessage, renderResponse: RenderResponse)
    | Exiting
    | ExitLoop

  /** What an advance does to the collaborators, in the order it does it. */
  datatype Effect =
    | RenderThreadRun
    | WindowPoll
    | WindowWait
    | BarrierWait
    | ClockUpdate
    | ClockTick
    | SendRenderData
    | SendExit
    | RenderThreadJoin

  /** What the collaborators answer during one advance; each advance consults at most one field. */
  datatype Env = Env(
    polled: Option<WindowMessage>,              // the window's `next()`
    waited: Option<WindowMessage>,              // the window's `wait()`
    shouldTick: bool,                           // the clock's `should_do_tick()`
    renderReply: Result<RenderResponse, MailboxError>,  // `send_and_wait(RenderData)`
    exitSent: Result<Unit, MailboxError>)       // `send(Exit)`, whose failure is ignored

  /** The part of the framework the transition table reads and writes. */
  datatype Machine = Machine(stage: StageKind, message: WindowMessage, polling: Polling)

  datatype StepResult = StepResult(yielded: Option<Stage>, next: Machine, effects: seq<Effect>)

  function Discriminant(s: Stage): StageKind
  {
    match s
    case Start => StageKind.Start
    case BeginFrame(_) => StageKind.BeginFrame
    case EarlyUpdate(_) => StageKind.EarlyUpdate
    case FixedUpdate => StageKind.FixedUpdate
    case Update(_) => StageKind.Update
    case EndFrame(_, _) => StageKind.EndFrame
    case Exiting => StageKind.Exiting
    case ExitLoop => StageKind.ExitLoop
  }

  /** The state `Framework::new` builds. */
  function Initial(polling: Polling): Machine
  {
    Machine(StageKind.Initialize, NoMessage, polling)
  }

  /** The window call `next_window_message` makes under a polling strategy. */
  function WindowQuery(polling: Polling): Effect
  {
    if polling == Wait then WindowWait else WindowPoll
  }

  /** The answer `next_window_message` gets under a polling strategy. */
  function WindowAnswer(polling: Polling, env: Env): Option<WindowMessage>
  {
    if polling == Wait then env.waited else env.polled
  }

  /** Enter `s`, having done `effects`: the discriminant of `s` becomes the current stage. */
  function Enter(m: Machine, s: Stage, effects: seq<Effect>): StepResult
  {
    StepResult(Some(s), m.(stage := Discriminant(s)), effects)
  }

  /** Leaving `Start` or `EndFrame`: begin a frame with the next window message, or exit when there is none. */
  function FrameOrExit(m: Machine, env: Env): StepResult
  {
    match WindowAnswer(m.polling, env)
    case Some(message) => Enter(m.(message := message), Stage.BeginFrame(message), [WindowQuery(m.polling)])
    case None => Enter(m, Stage.Exiting, [WindowQuery(m.polling)])
  }

  /** Leaving `EarlyUpdate` or `FixedUpdate`: consume a tick if one is due, otherwise go on to `Update`. */
  function TickOrUpdate(m: Machine, env: Env): StepResult
  {
    if env.shouldTick then Enter(m, Stage.FixedUpdate, [ClockTick])
    else Enter(m, Stage.Update(m.message), [])
  }

  /** The transition table of `next_state`, keyed on the previous stage. */
  function Step(m: Machine, env: Env): (r: StepResult)
    ensures r.next.polling == m.polling
    ensures r.yielded.None? <==> m.stage == StageKind.ExitLoop
    ensures r.yielded.Some? ==> r.next.stage == Discriminant(r.yielded.value)
    ensures r.yielded.None? ==> r.next == m && r.effects == []
    ensures r.next.stage != StageKind.Initialize
  {
    match m.stage
    case Initialize => Enter(m, Stage.Start, [RenderThreadRun])
    case Start => FrameOrExit(m, env)
    case EndFrame => FrameOrExit(m, env)
    case BeginFrame => Enter(m, Stage.EarlyUpdate(m.message), [BarrierWait, ClockUpdate])
    case EarlyUpdate => TickOrUpdate(m, env)
    case FixedUpdate => TickOrUpdate(m, env)
    case Update =>
      (match env.renderReply
       case Ok(response) => Enter(m, Stage.EndFrame(m.message, response), [SendRenderData])
       case Err(_) => Enter(m, Stage.Exiting, [SendRenderData]))
    case Exiting => Enter(m, Stage.ExitLoop, [SendExit, BarrierWait, RenderThreadJoin])
    case ExitLoop => StepResult(None, m, [])
  }

  /** The stages that may follow each stage in the frame order of `next_state`: the frame cycle and the ways out to `Exiting`. */
  function Successors(k: StageKind): set<StageKind>
  {
    match k
    case Initialize => {StageKind.Start}
    case Start => {StageKind.BeginFrame, StageKind.Exiting}
    case BeginFrame => {StageKind.EarlyUpdate}
    case EarlyUpdate => {StageKind.FixedUpdate, StageKind.Update}
    case FixedUpdate => {StageKind.FixedUpdate, StageKind.Update}
    case Update => {StageKind.EndFrame, StageKind.Exiting}
    case EndFrame => {StageKind.BeginFrame, StageKind.Exiting}
    case Exiting => {StageKind.ExitLoop}
    case ExitLoop => {StageKind.ExitLoop}
  }

  lemma StepFollowsTable(m: Machine, env: Env)
    ensures Step(m, env).next.stage in Successors(m.stage)
  {
  }

  /** The first advance yields `Start` and runs the render thread, and nothing else. */
  lemma InitializeStep(polling: Polling, env: Env)
    ensures Step(Initial(polling), env) == StepResult(Some(Stage.Start), Initial(polling).(stage := StageKind.Start), [RenderThreadRun])
  {
  }

  /** From `Start` or `EndFrame`: a window message starts a frame and is stored; none means exiting. */
  lemma FrameOrExitStep(m: Machine, env: Env)
    requires m.stage == StageKind.Start || m.stage == StageKind.EndFrame
    ensures var r := Step(m, env);
      && r.effects == [WindowQuery(m.polling)]
      && match WindowAnswer(m.polling, env)
         case Some(message) => r.yielded == Some(Stage.BeginFrame(message)) && r.next.message == message
         case None => r.yielded == Some(Stage.Exiting) && r.next.message == m.message
  {
  }

  /** `BeginFrame` always leads to `EarlyUpdate`: one barrier wait, then one clock update. */
  lemma BeginFrameStep(m: Machine, env: Env)
    requires m.stage == StageKind.BeginFrame
    ensures var r := Step(m, env);
      r.yielded == Some(Stage.EarlyUpdate(m.message)) && r.effects == [BarrierWait, ClockUpdate]
  {
  }

  /** From `EarlyUpdate` or `FixedUpdate`: a tick is consumed exactly when the next stage is `FixedUpdate`. */
  lemma TickStep(m: Machine, env: Env)
    requires m.stage == StageKind.EarlyUpdate || m.stage == StageKind.FixedUpdate
    ensures var r := Step(m, env);
      && (r.next.stage == StageKind.FixedUpdate <==> env.shouldTick)
      && (ClockTick in r.effects <==> env.shouldTick)
      && (env.shouldTick ==> r.yielded == Some(Stage.FixedUpdate) && r.effects == [ClockTick])
      && (!env.shouldTick ==> r.yielded == Some(Stage.Update(m.message)) && r.effects == [])
  {
  }

  /** `Update` ends the frame with the render response, or exits when the mailbox request fails. */
  lemma UpdateStep(m: Machine, env: Env)
    requires m.stage == StageKind.Update
    ensures var r := Step(m, env);
      && r.effects == [SendRenderData]
      && match env.renderReply
         case Ok(response) => r.yielded == Some(Stage.EndFrame(m.message, response))
         case Err(_) => r.yielded == Some(Stage.Exiting)
  {
  }

  /** `Exiting` sends `Exit`, waits on the barrier and joins the render thread, in that order, whatever the send returns. */
  lemma ExitingStep(m: Machine, env: Env)
    requires m.stage == StageKind.Exiting
    ensures var r := Step(m, env);
      r.yielded == Some(Stage.ExitLoop) && r.effects == [SendExit, BarrierWait, RenderThreadJoin]
    ensures forall sent :: Step(m, env.(exitSent := sent)) == Step(m, env)
  {
  }

  /** How many times an effect occurs in a log. */
  function Occurrences(effects: seq<Effect>, e: Effect): nat
  {
    if effects == [] then 0 else (if effects[0] == e then 1 else 0) + Occurrences(effects[1..], e)
  }

  lemma OccurrencesAppend(a: seq<Effect>, b: seq<Effect>, e: Effect)
    ensures Occurrences(a + b, e) == Occurrences(a, e) + Occurrences(b, e)
  {
    if a == [] {
      assert a + b == b;
    } else {
      assert (a + b)[0] == a[0];
      assert (a + b)[1..] == a[1..] + b;
      OccurrencesAppend(a[1..], b, e);
    }
  }

  /** 1 when `y` is a yielded stage of kind `k`, otherwise 0. */
  function EntryCount(y: Option<Stage>, k: StageKind): nat
  {
    if y.Some? && Discriminant(y.value) == k then 1 else 0
  }

  /**
   * The effects of one advance, counted by the stage it enters: a barrier wait
   * exactly on entry to `EarlyUpdate` or `ExitLoop`, a clock update on entry to
   * `EarlyUpdate`, a tick on entry to `FixedUpdate`, the render thread started on
   * entry to `Start` and joined on entry to `ExitLoop`.
   */
  predicate CountsMatch(r: StepResult)
  {
    && Occurrences(r.effects, BarrierWait) == EntryCount(r.yielded, StageKind.EarlyUpdate) + EntryCount(r.yielded, StageKind.ExitLoop)
    && Occurrences(r.effects, ClockUpdate) == EntryCount(r.yielded, StageKind.EarlyUpdate)
    && Occurrences(r.effects, ClockTick) == EntryCount(r.yielded, StageKind.FixedUpdate)
    && Occurrences(r.effects, RenderThreadRun) == EntryCount(r.yielded, StageKind.Start)
    && Occurrences(r.effects, RenderThreadJoin) == EntryCount(r.yielded, StageKind.ExitLoop)
  }

  lemma StepEffectCounts(m: Machine, env: Env)
    ensures CountsMatch(Step(m, env))
  {
    match m.stage
    case Initialize => StartupStepCounts(m, env);
    case Start => WindowStepCounts(m, env);
    case EndFrame => WindowStepCounts(m, env);
    case BeginFrame => StartupStepCounts(m, env);
    case EarlyUpdate => TickStepCounts(m, env);
    case FixedUpdate => TickStepCounts(m, env);
    case Update => UpdateStepCounts(m, env);
    case Exiting => ShutdownStepCounts(m, env);
    case ExitLoop => ShutdownStepCounts(m, env);
  }

  /** Initialization and the start of a frame, which do not consult the environment. */
  lemma StartupStepCounts(m: Machine, env: Env)
    requires m.stage == StageKind.Initialize || m.stage == StageKind.BeginFrame
    ensures CountsMatch(Step(m, env))
  {
    if m.stage == StageKind.Initialize {
      OccurrencesOfOne(RenderThreadRun);
    } else {
      OccurrencesOfTwo(BarrierWait, ClockUpdate);
    }
  }

  /** Exiting and the final stage, which do not consult the environment. */
  lemma ShutdownStepCounts(m: Machine, env: Env)
    requires m.stage == StageKind.Exiting || m.stage == StageKind.ExitLoop
    ensures CountsMatch(Step(m, env))
  {
    if m.stage == StageKind.Exiting {
      var r := Step(m, env);
      assert r.effects == [SendExit, BarrierWait, RenderThreadJoin];
      assert r.yielded == Some(Stage.ExitLoop);
      OccurrencesOfThree(SendExit, BarrierWait, RenderThreadJoin);
    }
  }

  lemma WindowStepCounts(m: Machine, env: Env)
    requires m.stage == StageKind.Start || m.stage == StageKind.EndFrame
    ensures CountsMatch(Step(m, env))
  {
    OccurrencesOfOne(WindowQuery(m.polling));
  }

  lemma TickStepCounts(m: Machine, env: Env)
    requires m.stage == StageKind.EarlyUpdate || m.stage == StageKind.FixedUpdate
    ensures CountsMatch(Step(m, env))
  {
    OccurrencesOfOne(ClockTick);
  }

  lemma UpdateStepCounts(m: Machine, env: Env)
    requires m.stage == StageKind.Update
    ensures CountsMatch(Step(m, env))
  {
    OccurrencesOfOne(SendRenderData);
  }

  lemma OccurrencesOfOne(a: Effect)
    ensures forall e :: Occurrences([a], e) == if a == e then 1 else 0
  {
    assert [a][1..] == [];
  }

  lemma OccurrencesOfTwo(a: Effect, b: Effect)
    ensures forall e :: Occurrences([a, b], e) == (if a == e then 1 else 0) + (if b == e then 1 else 0)
  {
    assert [a, b][1..] == [b];
    OccurrencesOfOne(b);
  }

  lemma OccurrencesOfThree(a: Effect, b: Effect, c: Effect)
    ensures forall e ::
      Occurrences([a, b, c], e) == (if a == e then 1 else 0) + (if b == e then 1 else 0) + (if c == e then 1 else 0)
  {
    assert [a, b, c][1..] == [b, c];
    OccurrencesOfTwo(b, c);
  }

  // ---------------------------------------------------------------------------
  // Runs: a sequence of advances, one environment answer per advance.

  datatype Trace = Trace(final: Machine, yielded: seq<Option<Stage>>, effects: seq<Effect>)

  function Run(m: Machine, envs: seq<Env>): (t: Trace)
    ensures |t.yielded| == |envs|
    ensures t.final.polling == m.polling
    decreases |envs|
  {
    if envs == [] then Trace(m, [], [])
    else
      var r := Step(m, envs[0]);
      var t := Run(r.next, envs[1..]);
      Trace(t.final, [r.yielded] + t.yielded, r.effects + t.effects)
  }

  /** How many of the yielded stages have kind `k`. */
  function Entries(yielded: seq<Option<Stage>>, k: StageKind): nat
  {
    if yielded == [] then 0 else EntryCount(yielded[0], k) + Entries(yielded[1..], k)
  }

  /** Unfolding a run by its first advance. */
  lemma RunCons(m: Machine, envs: seq<Env>, k: StageKind, e: Effect)
    requires envs != []
    ensures var r := Step(m, envs[0]);
      var rest := Run(r.next, envs[1..]);
      var t := Run(m, envs);
      && t.final == rest.final
      && Entries(t.yielded, k) == EntryCount(r.yielded, k) + Entries(rest.yielded, k)
      && Occurrences(t.effects, e) == Occurrences(r.effects, e) + Occurrences(rest.effects, e)
  {
    var r := Step(m, envs[0]);
    var rest := Run(r.next, envs[1..]);
    var t := Run(m, envs);
    assert t.yielded == [r.yielded] + rest.yielded;
    assert t.yielded[1..] == rest.yielded;
    OccurrencesAppend(r.effects, rest.effects, e);
  }

  /** Once `ExitLoop` has been yielded, every further advance yields nothing and changes nothing. */
  lemma {:induction false} AfterExitLoop(m: Machine, envs: seq<Env>)
    requires m.stage == StageKind.ExitLoop
    ensures Run(m, envs) == Trace(m, seq(|envs|, _ => None), [])
    decreases |envs|
  {
    if envs != [] {
      AfterExitLoop(m, envs[1..]);
      var none: Option<Stage> := None;
      assert [none] + seq(|envs| - 1, _ => none) == seq(|envs|, _ => none);
    }
  }

  /**
   * Over any run, barrier waits match entries into `EarlyUpdate` and `ExitLoop`,
   * clock updates match entries into `EarlyUpdate`, and ticks match entries into `FixedUpdate`.
   */
  lemma {:induction false} EffectCountsMatchEntries(m: Machine, envs: seq<Env>)
    ensures var t := Run(m, envs);
      && Occurrences(t.effects, BarrierWait) == Entries(t.yielded, StageKind.EarlyUpdate) + Entries(t.yielded, StageKind.ExitLoop)
      && Occurrences(t.effects, ClockUpdate) == Entries(t.yielded, StageKind.EarlyUpdate)
      && Occurrences(t.effects, ClockTick) == Entries(t.yielded, StageKind.FixedUpdate)
    decreases |envs|
  {
    if envs != [] {
      var r := Step(m, envs[0]);
      EffectCountsMatchEntries(r.next, envs[1..]);
      StepEffectCounts(m, envs[0]);
      RunCons(m, envs, StageKind.EarlyUpdate, BarrierWait);
      RunCons(m, envs, StageKind.ExitLoop, ClockUpdate);
      RunCons(m, envs, StageKind.FixedUpdate, ClockTick);
    }
  }

  /** `Start` is entered only from `Initialize`, and `ExitLoop` only from `Exiting`. */
  lemma StartAndExitLoopEntries(m: Machine, env: Env)
    ensures EntryCount(Step(m, env).yielded, StageKind.Start) == if m.stage == StageKind.Initialize then 1 else 0
    ensures EntryCount(Step(m, env).yielded, StageKind.ExitLoop) == if m.stage == StageKind.Exiting then 1 else 0
  {
  }

  /** Over any run the render thread is started once, on leaving `Initialize`, and never again. */
  lemma {:induction false} RenderThreadStartedOnce(m: Machine, envs: seq<Env>)
    ensures Occurrences(Run(m, envs).effects, RenderThreadRun) ==
      if m.stage == StageKind.Initialize && envs != [] then 1 else 0
    decreases |envs|
  {
    if envs != [] {
      var r := Step(m, envs[0]);
      RenderThreadStartedOnce(r.next, envs[1..]);
      StepEffectCounts(m, envs[0]);
      StartAndExitLoopEntries(m, envs[0]);
      RunCons(m, envs, StageKind.Start, RenderThreadRun);
    }
  }

  /** Over any run the render thread is joined once, on reaching `ExitLoop`, and never otherwise. */
  lemma {:induction false} RenderThreadJoinedOnce(m: Machine, envs: seq<Env>)
    ensures var t := Run(m, envs);
      Occurrences(t.effects, RenderThreadJoin) ==
        if m.stage != StageKind.ExitLoop && t.final.stage == StageKind.ExitLoop then 1 else 0
    decreases |envs|
  {
    if envs != [] {
      var r := Step(m, envs[0]);
      RenderThreadJoinedOnce(r.next, envs[1..]);
      StepEffectCounts(m, envs[0]);
      StartAndExitLoopEntries(m, envs[0]);
      RunCons(m, envs, StageKind.ExitLoop, RenderThreadJoin);
      if r.next.stage == StageKind.ExitLoop {
        AfterExitLoop(r.next, envs[1..]);
      }
    }
  }

  /** From the initial state, the very first effect is starting the render thread. */
  lemma RunStartsRenderThreadFirst(polling: Polling, envs: seq<Env>)
    requires envs != []
    ensures var t := Run(Initial(polling), envs);
      t.yielded[0] == Some(Stage.Start) && t.effects != [] && t.effects[0] == RenderThreadRun
  {
  }

  /**
   * Once a `Start`/`EndFrame` advance finds the window closed, the next advance
   * yields `ExitLoop` after sending `Exit`, waiting on the barrier and joining the
   * render thread, and every advance after that yields nothing.
   */
  lemma ExitWithinTwoAdvances(m: Machine, envs: seq<Env>)
    requires m.stage == StageKind.Start || m.stage == StageKind.EndFrame
    requires |envs| >= 2 && WindowAnswer(m.polling, envs[0]).None?
    ensures var t := Run(m, envs);
      && t.yielded[0] == Some(Stage.Exiting)
      && t.yielded[1] == Some(Stage.ExitLoop)
      && (forall i :: 2 <= i < |envs| ==> t.yielded[i].None?)
      && t.final.stage == StageKind.ExitLoop
      && t.effects == [WindowQuery(m.polling), SendExit, BarrierWait, RenderThreadJoin]
  {
    var r0 := Step(m, envs[0]);
    var r1 := Step(r0.next, envs[1]);
    AfterExitLoop(r1.next, envs[2..]);
    assert envs[1..][1..] == envs[2..];
  }

  // ---------------------------------------------------------------------------
  // The framework object.

  class Framework {
    const pollingStrategy: Polling
    var currentStage: StageKind
    var currentMessage: WindowMessage
    /** Everything done to the collaborators so far. */
    var effects: seq<Effect>

    function State(): Machine
      reads this
    {
      Machine(currentStage, currentMessage, pollingStrategy)
    }

    /** `Framework::new`, after the window, renderer, barrier, mailbox and render thread exist. */
    constructor (polling: Polling)
      ensures State() == Initial(polling) && effects == []
    {
      pollingStrategy := polling;
      currentStage := StageKind.Initialize;
      currentMessage := NoMessage;
      effects := [];
    }

    method NextWindowMessage(env: Env) returns (message: Option<WindowMessage>)
      modifies this`effects
      ensures message == WindowAnswer(pollingStrategy, env)
      ensures effects == old(effects) + [WindowQuery(pollingStrategy)]
    {
      if pollingStrategy == Wait {
        effects := effects + [WindowWait];
        message := env.waited;
      } else {
        effects := effects + [WindowPoll];
        message := env.polled;
      }
    }

    /** One advance of the machine. */
    method NextState(env: Env) returns (stage: Option<Stage>)
      modifies this
      ensures var r := Step(old(State()), env);
        stage == r.yielded && State() == r.next && effects == old(effects) + r.effects
      ensures stage.Some? ==> currentStage == Discriminant(stage.value)
      ensures stage.None? ==> old(currentStage) == currentStage == StageKind.ExitLoop
    {
      var newState: Stage;
      match currentStage {
        case Initialize =>
          effects := effects + [RenderThreadRun];
          newState := Stage.Start;
        case Start =>
          var next := NextWindowMessage(env);
          if next.Some? {
            currentMessage := next.value;
            newState := Stage.BeginFrame(currentMessage);
          } else {
            newState := Stage.Exiting;
          }
        case BeginFrame =>
          effects := effects + [BarrierWait];
          effects := effects + [ClockUpdate];
          newState := Stage.EarlyUpdate(currentMessage);
        case EarlyUpdate =>
          if env.shouldTick {
            effects := effects + [ClockTick];
            newState := Stage.FixedUpdate;
          } else {
            newState := Stage.Update(currentMessage);
          }
        case FixedUpdate =>
          if env.shouldTick {
            effects := effects + [ClockTick];
            newState := Stage.FixedUpdate;
          } else {
            newState := Stage.Update(currentMessage);
          }
        case Update =>
          effects := effects + [SendRenderData];
          match env.renderReply {
            case Ok(response) => newState := Stage.EndFrame(currentMessage, response);
            case Err(_) => newState := Stage.Exiting;
          }
        case EndFrame =>
          var next := NextWindowMessage(env);
          if next.Some? {
            currentMessage := next.value;
            newState := Stage.BeginFrame(currentMessage);
          } else {
            newState := Stage.Exiting;
          }
        case Exiting =>
          effects := effects + [SendExit];
          effects := effects + [BarrierWait];
          effects := effects + [RenderThreadJoin];
          newState := Stage.ExitLoop;
        case ExitLoop =>
          return None;
      }
      currentStage := Discriminant(newState);
      stage := Some(newState);
    }
  }
}
