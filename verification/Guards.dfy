/** Lifecycle decisions: what an action may do to a model in a given state. */
module Guards {
  import opened Common
  import opened Messages
  import opened Queue

  datatype ModelView = ModelView(
    model: nat,
    state: ModelState,
    step: nat,
    maxSteps: nat,
    source: Option<Source>,
    physical: bool,
    configured: bool)

  datatype LifecycleDecision = LifecycleDecision(
    next: ModelState,
    target: nat,
    steps: seq<nat>,
    clearQueues: bool,
    safeOutputs: bool,
    revokeControl: bool,
    newSession: bool,
    restoreInitial: bool)
  {
    /** The step the model must stand at once the action is applied. */
    function Boundary(): nat
    {
      if restoreInitial then 0 else if steps != [] then steps[|steps| - 1] else target
    }
  }

  function Transition(action: Action, state: ModelState): Option<ModelState>
  {
    match (action, state)
    case (Start, IsConfigured) => Some(IsRunning)
    case (Pause, IsRunning) => Some(IsPaused)
    case (Resume, IsPaused) => Some(IsRunning)
    case (Stop, IsConfigured) => Some(IsStopped)
    case (Stop, IsRunning) => Some(IsStopped)
    case (Stop, IsPaused) => Some(IsStopped)
    case (Reset, IsPaused) => Some(IsConfigured)
    case (Reset, IsStopped) => Some(IsConfigured)
    case (Step, IsPaused) => Some(IsPaused)
    case _ => None
  }

  /** The step an action names: ahead of a running model, exactly at a frozen one. */
  function Target(maxAhead: nat, target: nat, view: ModelView): Result<nat>
  {
    if target > view.maxSteps then Err(Range)
    else if view.state.IsRunning? then
      if target <= view.step then Err(Late)
      else if target - view.step > maxAhead then Err(Range)
      else Ok(target)
    else if target != view.step then Err(State)
    else Ok(target)
  }

  /** from + 1, …, from + count. */
  function Following(from: nat, count: nat): (r: seq<nat>)
    ensures |r| == count
    ensures forall i :: 0 <= i < count ==> r[i] == from + 1 + i
  {
    seq(count, i => from + 1 + i)
  }

  function Decide(maxAhead: nat, m: Message, view: ModelView): Result<LifecycleDecision>
    requires m.body.LifecycleBody?
  {
    var action := m.body.action;
    var next := Transition(action, view.state);
    if m.body.expected != view.state || next.None? then Err(State)
    else if (action.Start? || action.Resume? || action.Reset? || action.Step?) && !view.configured then Err(State)
    else
      var target :- Target(maxAhead, m.header.targetStep, view);
      if action.Step? && view.physical then Err(Unsupported)
      else if action.Step? && view.source.Some? then Err(ControlOwner)
      else if action.Step? && view.step + m.body.stepCount > view.maxSteps then Err(Range)
      else
        var steps := if action.Step? then Following(view.step, m.body.stepCount) else [];
        Ok(LifecycleDecision(next.value, target, steps, !action.Start?, !action.Start?, !action.Start?,
                             action.Reset? || action.Resume?, action.Reset?))
  }

  /** Where each action leaves the model, and which of them empty the queues or end the sessions. */
  lemma DecisionBoundary(maxAhead: nat, m: Message, view: ModelView)
    requires m.body.LifecycleBody? && view.step <= view.maxSteps && Decide(maxAhead, m, view).Ok?
    ensures var d := Decide(maxAhead, m, view).value;
      && d.Boundary() <= view.maxSteps
      && (m.body.action.Start? || m.body.action.Resume? ==> d.Boundary() == view.step)
      && (m.body.action.Step? ==> d.Boundary() == view.step + m.body.stepCount)
      && (m.body.action.Pause? ==> view.step < d.Boundary() <= view.step + maxAhead)
      && (m.body.action.Stop? ==> view.step <= d.Boundary() <= view.step + maxAhead)
      && (m.body.action.Reset? ==> d.Boundary() == 0)
      && (d.clearQueues <==> !m.body.action.Start?)
      && (d.newSession <==> m.body.action.Reset? || m.body.action.Resume?)
      && (d.newSession ==> d.clearQueues)
      && Transition(m.body.action, view.state) == Some(d.next)
  {
  }
}
