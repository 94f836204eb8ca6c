/** The installer's navigation state machine (gui/src/installer/mod.rs): a fixed list of steps,
    the index of the current one, the shared context and daemon configuration the steps fill
    in, and the exit flag. The steps themselves are not part of this model: their behaviour is
    the `StepBehaviour` record, whose functions may be anything. */
module Installer {
  import opened Wrappers
  import opened Paths
  import Daemon
  import Finalization

  datatype StepKind = Welcome | DefineDescriptor | DefineBitcoind | Final

  /** The order in which the installer lays its steps out. */
  const StepOrder: seq<StepKind> := [Welcome, DefineDescriptor, DefineBitcoind, Final]

  /** One step: which screen it is and its own interaction state. */
  datatype Step<S> = Step(kind: StepKind, state: S)

  /** The messages the installer handles; `Forward` stands for every other event (other window
      events, step-local input), all of which go to the current step. */
  datatype Message<M> =
    | Next
    | Previous
    | Install
    | Installed(result: Result<Path, Finalization.Error>)
    | CloseRequested
    | Forward(event: M)

  /** What `Step::apply` leaves behind: whether it accepted the input, and the step's, the
      context's and the configuration's new values (all three are mutable borrows). */
  datatype Applied<S, C, B> = Applied(ok: bool, state: S, context: C, config: Daemon.Config<B>)

  /** The steps' own behaviour and the context's constructor, none of which is shown. Only
      `Welcome::new` takes the network; the other steps' `new` take nothing. */
  datatype StepBehaviour<!S, !C, !B, !M> = StepBehaviour(
    newWelcome: Daemon.Network -> S,
    newStep: StepKind -> S,
    newContext: Daemon.Network -> C,
    apply: (StepKind, S, C, Daemon.Config<B>) -> Applied<S, C, B>,
    skip: (StepKind, S, C) -> bool,
    loadContext: (StepKind, S, C) -> S,
    update: (StepKind, S, Message<M>) -> S)

  datatype Installer<S, C, B> = Installer(
    shouldExit: bool,
    current: nat,
    steps: seq<Step<S>>,
    context: C,
    config: Daemon.Config<B>)
  {
    /** The current index always names a step. */
    predicate Valid()
    {
      current < |steps|
    }

    /** `should_exit`: whether the installer has been asked to close. */
    function ShouldExit(): (r: bool)
      ensures r <==> shouldExit
    {
      shouldExit
    }
  }

  /** The command `update` hands back to the event loop: nothing, or `install` run on copies of
      the context and configuration. */
  datatype Command<C, B> = NoCommand | PerformInstall(context: C, config: Daemon.Config<B>)

  /** The outcome of `update`: the new installer and its command, or `Hangs` when the skip loop
      never exits. */
  datatype Reply<S, C, B> = Reply(installer: Installer<S, C, B>, command: Command<C, B>) | Hangs

  /** Two step lists with the same screens in the same order. */
  predicate SameKinds<S>(a: seq<Step<S>>, b: seq<Step<S>>)
  {
    |a| == |b| && forall i :: 0 <= i < |a| ==> a[i].kind == b[i].kind
  }

  /** `next`: one step forward, except at the last step. (`len - 1` is unsigned, so the source
      needs at least one step.) */
  function GoNext<S, C, B>(inst: Installer<S, C, B>): (r: Installer<S, C, B>)
    requires |inst.steps| > 0
    ensures r == inst.(current := r.current)
    ensures inst.current < |inst.steps| - 1 ==> r.current == inst.current + 1
    ensures inst.current >= |inst.steps| - 1 ==> r.current == inst.current
    ensures inst.Valid() ==> r.Valid()
  {
    if inst.current < |inst.steps| - 1 then inst.(current := inst.current + 1) else inst
  }

  /** `previous`: one step back, except at the first step. */
  function GoPrevious<S, C, B>(inst: Installer<S, C, B>): (r: Installer<S, C, B>)
    ensures r == inst.(current := r.current)
    ensures inst.current > 0 ==> r.current == inst.current - 1
    ensures inst.current == 0 ==> r == inst
    ensures inst.Valid() ==> r.Valid()
  {
    if inst.current > 0 then inst.(current := inst.current - 1) else inst
  }

  /** `stop`: raise the exit flag and change nothing else. */
  function Stop<S, C, B>(inst: Installer<S, C, B>): (r: Installer<S, C, B>)
    ensures r.ShouldExit()
    ensures r == inst.(shouldExit := r.shouldExit)
  {
    inst.(shouldExit := true)
  }

  /** `Installer::new`: the four steps in order, the first one current, not exiting, and the
      daemon configuration (`blank` is `DaemonConfig::new()`) pointed at `destination`. */
  function New<S, C, B, M>(behaviour: StepBehaviour<S, C, B, M>, destination: Path,
                           network: Daemon.Network, blank: Daemon.Config<B>): (r: Installer<S, C, B>)
    ensures r.Valid() && r.current == 0 && !r.ShouldExit()
    ensures |r.steps| == 4
    ensures forall i :: 0 <= i < 4 ==> r.steps[i].kind == StepOrder[i]
    ensures r.steps[0].state == behaviour.newWelcome(network)
    ensures forall i :: 1 <= i < 4 ==> r.steps[i].state == behaviour.newStep(StepOrder[i])
    ensures r.config == blank.(dataDir := Some(destination))
    ensures r.context == behaviour.newContext(network)
  {
    Installer(
      false, 0,
      [Step(Welcome, behaviour.newWelcome(network))]
        + seq(3, i requires 0 <= i < 3 => Step(StepOrder[i + 1], behaviour.newStep(StepOrder[i + 1]))),
      behaviour.newContext(network),
      blank.(dataDir := Some(destination)))
  }

  /** Whether `step` asks to be passed over in `context`. */
  predicate Skips<S, C, B, M>(behaviour: StepBehaviour<S, C, B, M>, step: Step<S>, context: C)
  {
    behaviour.skip(step.kind, step.state, context)
  }

  /** Where the skip loop, entered at index `i`, stops: the first index from `i` on whose step
      does not skip, or `None` when every step from `i` to the end skips — the loop then spins
      at the last step forever, since `next` cannot move past it. */
  function Settle<S, C, B, M>(behaviour: StepBehaviour<S, C, B, M>, steps: seq<Step<S>>,
                              context: C, i: nat): (r: Option<nat>)
    requires i < |steps|
    ensures r.Some? ==> i <= r.value < |steps| && !Skips(behaviour, steps[r.value], context)
    ensures r.Some? ==> forall j :: i <= j < r.value ==> Skips(behaviour, steps[j], context)
    ensures r.None? <==> forall j :: i <= j < |steps| ==> Skips(behaviour, steps[j], context)
    decreases |steps| - i
  {
    if !Skips(behaviour, steps[i], context) then Some(i)
    else if i == |steps| - 1 then None
    else Settle(behaviour, steps, context, i + 1)
  }

  /** The skip loop of `update` as written, for a step list whose last step does not skip; it
      stops where `Settle` says. */
  method SkipLoop<S, C, B, M>(behaviour: StepBehaviour<S, C, B, M>, steps: seq<Step<S>>,
                              context: C, start: nat) returns (current: nat)
    requires start < |steps|
    requires !Skips(behaviour, steps[|steps| - 1], context)
    ensures start <= current < |steps| && !Skips(behaviour, steps[current], context)
    ensures forall j :: start <= j < current ==> Skips(behaviour, steps[j], context)
    ensures Settle(behaviour, steps, context, start) == Some(current)
  {
    current := start;
    while Skips(behaviour, steps[current], context)
      invariant start <= current < |steps|
      invariant forall j :: start <= j < current ==> Skips(behaviour, steps[j], context)
      invariant Settle(behaviour, steps, context, start) == Settle(behaviour, steps, context, current)
      decreases |steps| - current
    {
      if current < |steps| - 1 {
        current := current + 1;
      }
    }
  }

  /** The installer right after the current step's `apply`, and whether it accepted. */
  function ApplyCurrent<S, C, B, M>(behaviour: StepBehaviour<S, C, B, M>,
                                    inst: Installer<S, C, B>): (r: (bool, Installer<S, C, B>))
    requires inst.Valid()
    ensures r.1 == inst.(steps := r.1.steps, context := r.1.context, config := r.1.config)
    ensures SameKinds(r.1.steps, inst.steps)
    ensures forall j :: 0 <= j < |inst.steps| && j != inst.current ==> r.1.steps[j] == inst.steps[j]
    ensures var s := inst.steps[inst.current];
            var a := behaviour.apply(s.kind, s.state, inst.context, inst.config);
            && r.0 == a.ok
            && r.1.steps[inst.current] == Step(s.kind, a.state)
            && r.1.context == a.context
            && r.1.config == a.config
  {
    var step := inst.steps[inst.current];
    var a := behaviour.apply(step.kind, step.state, inst.context, inst.config);
    (a.ok, inst.(steps := inst.steps[inst.current := Step(step.kind, a.state)],
                 context := a.context, config := a.config))
  }

  /** Hand `msg` to the current step's own `update`. */
  function ForwardToStep<S, C, B, M>(behaviour: StepBehaviour<S, C, B, M>,
                                     inst: Installer<S, C, B>, msg: Message<M>): (r: Installer<S, C, B>)
    requires inst.Valid()
    ensures r == inst.(steps := r.steps)
    ensures SameKinds(r.steps, inst.steps)
    ensures forall j :: 0 <= j < |inst.steps| && j != inst.current ==> r.steps[j] == inst.steps[j]
    ensures r.steps[inst.current]
              == Step(inst.steps[inst.current].kind,
                      behaviour.update(inst.steps[inst.current].kind, inst.steps[inst.current].state, msg))
  {
    var step := inst.steps[inst.current];
    inst.(steps := inst.steps[inst.current := Step(step.kind, behaviour.update(step.kind, step.state, msg))])
  }

  /** `update`: route one message. */
  function Update<S, C, B, M>(behaviour: StepBehaviour<S, C, B, M>, inst: Installer<S, C, B>,
                              msg: Message<M>): (r: Reply<S, C, B>)
    requires inst.Valid()
    ensures r.Reply? ==> r.installer.Valid() && SameKinds(r.installer.steps, inst.steps)
    ensures r.Reply? && inst.ShouldExit() ==> r.installer.ShouldExit()
    ensures r.Hangs? ==> msg.Next?
    ensures r.Reply? && r.command.PerformInstall? ==> msg.Install?
    ensures !msg.Next? && !msg.Previous? ==> r.Reply? && r.installer.current == inst.current
    ensures msg.Previous? ==> r == Reply(GoPrevious(inst), NoCommand)
    ensures msg.CloseRequested? ==> r == Reply(Stop(inst), NoCommand)
    ensures msg.Install? ==>
              r.Reply? && r.command == PerformInstall(inst.context, inst.config)
              && r.installer == inst.(steps := r.installer.steps)
    ensures msg.Install? || msg.Installed? || msg.Forward? ==>
              r.Reply? && r.installer == ForwardToStep(behaviour, inst, msg)
    ensures msg.Installed? || msg.Forward? ==>
              r.Reply? && r.command.NoCommand? && r.installer == inst.(steps := r.installer.steps)
  {
    match msg
    case Next =>
      var (ok, applied) := ApplyCurrent(behaviour, inst);
      if !ok then Reply(applied, NoCommand)
      else
        var moved := GoNext(applied);
        (match Settle(behaviour, moved.steps, moved.context, moved.current)
         case None => Hangs
         case Some(k) =>
           var landing := moved.steps[k];
           var loaded := Step(landing.kind, behaviour.loadContext(landing.kind, landing.state, moved.context));
           Reply(moved.(current := k, steps := moved.steps[k := loaded]), NoCommand))
    case Previous => Reply(GoPrevious(inst), NoCommand)
    case Install =>
      Reply(ForwardToStep(behaviour, inst, msg), PerformInstall(inst.context, inst.config))
    case CloseRequested => Reply(Stop(inst), NoCommand)
    case Installed(_) => Reply(ForwardToStep(behaviour, inst, msg), NoCommand)
    case Forward(_) => Reply(ForwardToStep(behaviour, inst, msg), NoCommand)
  }

  /** The index `Next` lands on from `i` in a list of `len` steps. */
  function NextIndex(len: nat, i: nat): nat
  {
    if i < len - 1 then i + 1 else i
  }

  /** A rejected `Next` keeps the current index and calls no `load_context`: only the current
      step (through `apply`), the context and the configuration may change. */
  lemma NextRejected<S, C, B, M>(behaviour: StepBehaviour<S, C, B, M>, inst: Installer<S, C, B>)
    requires inst.Valid() && !ApplyCurrent(behaviour, inst).0
    ensures Update(behaviour, inst, Next) == Reply(ApplyCurrent(behaviour, inst).1, NoCommand)
    ensures Update(behaviour, inst, Next).installer.current == inst.current
    ensures forall j :: 0 <= j < |inst.steps| && j != inst.current ==>
              Update(behaviour, inst, Next).installer.steps[j] == inst.steps[j]
  {
  }

  /** An accepted `Next` either hangs — exactly when every step from one past the current one
      (clamped to the last) skips — or lands on the first step from there that does not skip,
      having passed over only skipping steps, and calls `load_context` once, on the landing
      step, with the context `apply` left. */
  lemma NextAccepted<S, C, B, M>(behaviour: StepBehaviour<S, C, B, M>, inst: Installer<S, C, B>)
    requires inst.Valid() && ApplyCurrent(behaviour, inst).0
    ensures
      var applied := ApplyCurrent(behaviour, inst).1;
      var start := NextIndex(|inst.steps|, inst.current);
      var r := Update(behaviour, inst, Next);
      && (r.Hangs? <==> forall j :: start <= j < |inst.steps| ==> Skips(behaviour, applied.steps[j], applied.context))
      && (r.Reply? ==>
            var k := r.installer.current;
            && r.command.NoCommand?
            && start <= k < |inst.steps|
            && !Skips(behaviour, applied.steps[k], applied.context)
            && (forall j :: start <= j < k ==> Skips(behaviour, applied.steps[j], applied.context))
            && r.installer.context == applied.context
            && r.installer.config == applied.config
            && r.installer.shouldExit == inst.shouldExit
            && r.installer.steps[k].state
                 == behaviour.loadContext(applied.steps[k].kind, applied.steps[k].state, applied.context)
            && (forall j :: 0 <= j < |inst.steps| && j != k ==> r.installer.steps[j] == applied.steps[j]))
  {
  }

  /** The skip loop always exits when the last step does not skip in the context `apply` left. */
  lemma NextTerminates<S, C, B, M>(behaviour: StepBehaviour<S, C, B, M>, inst: Installer<S, C, B>)
    requires inst.Valid()
    requires var applied := ApplyCurrent(behaviour, inst).1;
             !Skips(behaviour, applied.steps[|applied.steps| - 1], applied.context)
    ensures Update(behaviour, inst, Next).Reply?
  {
    if ApplyCurrent(behaviour, inst).0 {
      NextAccepted(behaviour, inst);
    }
  }

  /** Process `msgs` in order; `None` when some `Next` hangs. */
  function Run<S, C, B, M>(behaviour: StepBehaviour<S, C, B, M>, inst: Installer<S, C, B>,
                           msgs: seq<Message<M>>): (r: Option<Installer<S, C, B>>)
    requires inst.Valid()
    ensures r.Some? ==> r.value.Valid() && SameKinds(r.value.steps, inst.steps)
    ensures r.Some? && inst.ShouldExit() ==> r.value.ShouldExit()
    ensures (forall i :: 0 <= i < |msgs| ==> !msgs[i].Next?) ==> r.Some?
    decreases |msgs|
  {
    if |msgs| == 0 then Some(inst)
    else
      match Update(behaviour, inst, msgs[0])
      case Hangs => None
      case Reply(after, _) => Run(behaviour, after, msgs[1..])
  }

  /** Once a close request has been handled the installer stays exiting, whatever follows. */
  lemma {:induction false} CloseIsFinal<S, C, B, M>(behaviour: StepBehaviour<S, C, B, M>,
                                                  inst: Installer<S, C, B>, msgs: seq<Message<M>>, i: nat)
    requires inst.Valid() && i < |msgs| && msgs[i].CloseRequested?
    ensures Run(behaviour, inst, msgs).Some? ==> Run(behaviour, inst, msgs).value.ShouldExit()
    decreases |msgs|
  {
    match Update(behaviour, inst, msgs[0])
    case Hangs =>
    case Reply(after, _) =>
      if i > 0 {
        CloseIsFinal(behaviour, after, msgs[1..], i - 1);
      }
  }
}
