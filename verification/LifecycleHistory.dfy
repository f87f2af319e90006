/** What each command does, over every run: no container is removed, started, overwritten or killed
    unless the command that does it was asked to and has read what allows it, and every change of
    a state record is one that the container's life allows. */
module LifecycleHistory {
  import opened Base
  import opened Leases
  import opened Lifecycle
  import opened LifecycleProof
  import opened RegistryProof

  // ---------------------------------------------------------------- commands and their places

  /** The two states agree on a process. */
  predicate SameProcess(s: State, t: State, cli: Cli) {
    At(t, cli) == At(s, cli) && CommandOf(t, cli) == CommandOf(s, cli) && Own(t, cli) == Own(s, cli)
  }

  lemma SessionLeavesOthers(s: State, step: SessionStep, cli: Cli)
    requires SessionEnabled(s, step) && step.cli != cli
    ensures SameProcess(s, AfterSession(s, step), cli)
  {}

  lemma TargetLeavesOthers(s: State, step: TargetStep, cli: Cli)
    requires TargetEnabled(s, step) && step.cli != cli
    ensures SameProcess(s, AfterTarget(s, step), cli)
  {}

  lemma CreationLeavesOthers(s: State, step: CreationStep, cli: Cli)
    requires CreationEnabled(s, step) && step.cli != cli
    ensures SameProcess(s, AfterCreation(s, step), cli)
  {}

  lemma KernelLeavesAll(s: State, step: KernelStep, cli: Cli)
    requires KernelEnabled(s, step)
    ensures SameProcess(s, AfterKernel(s, step), cli)
  {}

  lemma OthersKeepProcess(s: State, step: Step, cli: Cli)
    requires Enabled(s, step) && Actor(step) != Some(cli)
    ensures SameProcess(s, Next(s, step), cli)
  {
    match step
    case Session(session) => SessionLeavesOthers(s, session, cli);
    case Target(target) => TargetLeavesOthers(s, target, cli);
    case Creation(creation) => CreationLeavesOthers(s, creation, cli);
    case Kernel(kernel) => KernelLeavesAll(s, kernel, cli);
  }

  /** A process is where its command can be, and the id it uses is one it generated. */
  predicate RoleOk(s: State, cli: Cli) {
    var command := CommandOf(s, cli);
    && (Own(s, cli).Some? ==> command.Create? && Own(s, cli).value in s.issued && s.issued[Own(s, cli).value] == cli)
    && match At(s, cli)
       case Startable(id) => command == Start(id)
       case Launching(id, _) => command == Start(id)
       case Killing(id) => command == Remove(id, true)
       case Removing(id) =>
         || command == Remove(id, true) || command == Remove(id, false)
         || (command.Create? && id in s.issued && s.issued[id] == cli)
       case Allocated(config, _) => command.Create? && config == command.config.(ipv4Host := config.ipv4Host)
       case Vetted(config, _) => command.Create? && config == command.config.(ipv4Host := config.ipv4Host)
       case Saved => command.Create?
       case Unlaunched => command.Create? && !command.keep
       case _ => true
  }

  lemma InvokeKeepsRole(s: State, step: SessionStep, cli: Cli)
    requires RoleOk(s, cli) && SessionEnabled(s, step) && (step.Invoke? || step.Acquire?)
    ensures RoleOk(AfterSession(s, step), cli)
  {}

  lemma OtherSessionKeepsRole(s: State, step: SessionStep, cli: Cli)
    requires RoleOk(s, cli) && SessionEnabled(s, step) && !step.Invoke? && !step.Acquire?
    ensures RoleOk(AfterSession(s, step), cli)
  {}

  lemma SessionKeepsRole(s: State, step: SessionStep, cli: Cli)
    requires RoleOk(s, cli) && SessionEnabled(s, step)
    ensures RoleOk(AfterSession(s, step), cli)
  {
    if step.Invoke? || step.Acquire? {
      InvokeKeepsRole(s, step, cli);
    } else {
      OtherSessionKeepsRole(s, step, cli);
    }
  }

  lemma TargetKeepsRole(s: State, step: TargetStep, cli: Cli)
    requires RoleOk(s, cli) && TargetEnabled(s, step)
    ensures RoleOk(AfterTarget(s, step), cli)
  {}

  lemma ScanKeepsRole(s: State, step: CreationStep, cli: Cli)
    requires RoleOk(s, cli) && CreationEnabled(s, step) && (step.Allocate? || step.Vet?)
    ensures RoleOk(AfterCreation(s, step), cli)
  {}

  lemma LaterKeepsRole(s: State, step: CreationStep, cli: Cli)
    requires RoleOk(s, cli) && CreationEnabled(s, step) && !step.Allocate? && !step.Vet?
    ensures RoleOk(AfterCreation(s, step), cli)
  {}

  lemma CreationKeepsRole(s: State, step: CreationStep, cli: Cli)
    requires RoleOk(s, cli) && CreationEnabled(s, step)
    ensures RoleOk(AfterCreation(s, step), cli)
  {
    if step.Allocate? || step.Vet? {
      ScanKeepsRole(s, step, cli);
    } else {
      LaterKeepsRole(s, step, cli);
    }
  }

  lemma KernelKeepsRole(s: State, step: KernelStep, cli: Cli)
    requires RoleOk(s, cli) && KernelEnabled(s, step)
    ensures RoleOk(AfterKernel(s, step), cli)
  {}

  lemma {:induction false} RunKeepsRole(states: seq<State>, steps: seq<Step>, k: nat, cli: Cli)
    requires IsRun(states, steps) && k < |states|
    ensures RoleOk(states[k], cli)
  {
    if k > 0 {
      RunKeepsRole(states, steps, k - 1, cli);
      assert Follows(states[k - 1], steps[k - 1], states[k]);
      match steps[k - 1]
      case Session(session) => SessionKeepsRole(states[k - 1], session, cli);
      case Target(target) => TargetKeepsRole(states[k - 1], target, cli);
      case Creation(creation) => CreationKeepsRole(states[k - 1], creation, cli);
      case Kernel(kernel) => KernelKeepsRole(states[k - 1], kernel, cli);
    }
  }

  // ---------------------------------------------------------------- what has been read

  /** The step by which a process comes to a place, and what it has seen then. */
  ghost predicate Arrives(s: State, step: Step, cli: Cli, pc: Pc) {
    match pc
    case Inspecting(id, shim) =>
      step == Session(ReadRunning(cli, id)) && id in s.records && s.records[id] == Record(Running, shim)
    case Condemned(id, shim) =>
      && step == Session(JudgeShim(cli)) && At(s, cli) == Inspecting(id, shim)
      && !(shim.pid > 0 && shim.start > 0 && shim.pid in s.procs && s.procs[shim.pid] == shim.start)
    case Startable(id) =>
      && step == Target(ReadStartable(cli)) && CommandOf(s, cli) == Start(id) && id in s.configs && id in s.records
      && (s.records[id].status == Created || s.records[id].status == Stopped)
    case Launching(id, shim) => step == Target(Launch(cli, shim)) && At(s, cli) == Startable(id)
    case Killing(id) =>
      && step == Target(ReadRemovable(cli)) && CommandOf(s, cli) == Remove(id, true)
      && id in s.records && s.records[id].status == Running
    case Removing(id) =>
      || (&& step == Target(ReadRemovable(cli)) && CommandOf(s, cli).Remove? && CommandOf(s, cli).id == id
          && id in s.records && s.records[id].status != Running)
      || (step == Target(PollStopped(cli)) && At(s, cli) == Killing(id) && id in s.records &&
          s.records[id].status != Running)
      || (Actor(step) == Some(cli) && step.Creation? && CommandOf(s, cli).Create?)
    case _ => true
  }

  lemma SessionArrives(s: State, step: SessionStep)
    requires SessionEnabled(s, step)
    ensures var pc := At(AfterSession(s, step), step.cli);
            pc == At(s, step.cli) || Arrives(s, Session(step), step.cli, pc)
  {}

  lemma TargetArrives(s: State, step: TargetStep)
    requires TargetEnabled(s, step)
    ensures var pc := At(AfterTarget(s, step), step.cli);
            pc == At(s, step.cli) || Arrives(s, Target(step), step.cli, pc)
  {}

  lemma CreationArrives(s: State, step: CreationStep)
    requires RoleOk(s, step.cli) && CreationEnabled(s, step)
    ensures var pc := At(AfterCreation(s, step), step.cli);
            pc == At(s, step.cli) || Arrives(s, Creation(step), step.cli, pc)
  {}

  lemma StepArrives(s: State, step: Step, cli: Cli)
    requires RoleOk(s, cli) && Enabled(s, step)
    ensures At(Next(s, step), cli) == At(s, cli) || Arrives(s, step, cli, At(Next(s, step), cli))
  {
    if Actor(step) != Some(cli) {
      OthersKeepProcess(s, step, cli);
    } else {
      match step
      case Session(session) => SessionArrives(s, session);
      case Target(target) => TargetArrives(s, target);
      case Creation(creation) => CreationArrives(s, creation);
    }
  }

  /** The process has come to its place before, by a step that saw what is needed there. */
  ghost predicate Arrived(states: seq<State>, steps: seq<Step>, k: nat, cli: Cli, pc: Pc)
    requires k <= |steps| < |states|
  {
    exists i :: 0 <= i < k && Arrives(states[i], steps[i], cli, pc)
  }

  lemma {:induction false} EveryPlaceIsReached(states: seq<State>, steps: seq<Step>, k: nat, cli: Cli)
    requires IsRun(states, steps) && k < |states|
    ensures var pc := At(states[k], cli); pc == Gone || pc == Waiting || Arrived(states, steps, k, cli, pc)
  {
    if k > 0 {
      EveryPlaceIsReached(states, steps, k - 1, cli);
      RunKeepsRole(states, steps, k - 1, cli);
      assert Follows(states[k - 1], steps[k - 1], states[k]);
      StepArrives(states[k - 1], steps[k - 1], cli);
      var pc := At(states[k], cli);
      if pc != At(states[k - 1], cli) {
        assert Arrives(states[k - 1], steps[k - 1], cli, pc);
      } else if Arrived(states, steps, k - 1, cli, pc) {
        var i :| 0 <= i < k - 1 && Arrives(states[i], steps[i], cli, pc);
      }
    }
  }

  // ---------------------------------------------------------------- what commands may do

  lemma StepKeepsCommand(s: State, step: Step, cli: Cli)
    requires Enabled(s, step) && cli in s.clis
    ensures cli in Next(s, step).clis && CommandOf(Next(s, step), cli) == CommandOf(s, cli)
  {
    match step
    case Session(session) => SessionKeepsCommand(s, session, cli);
    case Target(target) => TargetKeepsCommand(s, target, cli);
    case Creation(creation) => CreationKeepsCommand(s, creation, cli);
    case Kernel(kernel) => KernelLeavesClis(s, kernel);
  }

  lemma SessionKeepsCommand(s: State, step: SessionStep, cli: Cli)
    requires SessionEnabled(s, step) && cli in s.clis
    ensures cli in AfterSession(s, step).clis && CommandOf(AfterSession(s, step), cli) == CommandOf(s, cli)
  {}

  lemma TargetKeepsCommand(s: State, step: TargetStep, cli: Cli)
    requires TargetEnabled(s, step) && cli in s.clis
    ensures cli in AfterTarget(s, step).clis && CommandOf(AfterTarget(s, step), cli) == CommandOf(s, cli)
  {}

  lemma CreationKeepsCommand(s: State, step: CreationStep, cli: Cli)
    requires CreationEnabled(s, step) && cli in s.clis
    ensures cli in AfterCreation(s, step).clis && CommandOf(AfterCreation(s, step), cli) == CommandOf(s, cli)
  {}

  lemma KernelLeavesClis(s: State, step: KernelStep)
    requires KernelEnabled(s, step)
    ensures AfterKernel(s, step).clis == s.clis
  {}

  /** A process has one command for life. */
  lemma {:induction false} CommandIsConstant(states: seq<State>, steps: seq<Step>, i: nat, k: nat, cli: Cli)
    requires IsRun(states, steps) && i <= k < |states| && cli in states[i].clis
    ensures cli in states[k].clis && CommandOf(states[k], cli) == CommandOf(states[i], cli)
    decreases k
  {
    if i < k {
      CommandIsConstant(states, steps, i, k - 1, cli);
      assert Follows(states[k - 1], steps[k - 1], states[k]);
      StepKeepsCommand(states[k - 1], steps[k - 1], cli);
    }
  }

  /** `step` was made before, when the record said what `allowed` says. */
  ghost predicate Saw(states: seq<State>, steps: seq<Step>, k: nat, step: Step, id: Id, allowed: set<Status>)
    requires k <= |steps| < |states|
  {
    exists i :: 0 <= i < k && steps[i] == step && id in states[i].records && states[i].records[id].status in allowed
  }

  /** `rm` without --force goes on only if it reads a record that does not say running. */
  lemma RemoveNeedsForce(states: seq<State>, steps: seq<Step>, k: nat, cli: Cli, id: Id)
    requires IsRun(states, steps) && k < |steps| && steps[k] == Target(ReadRemovable(cli))
    requires CommandOf(states[k], cli) == Remove(id, false)
    ensures id in states[k].records && states[k].records[id].status in {Created, Stopped, Failed}
    ensures At(states[k + 1], cli) == Removing(id)
  {
    assert Follows(states[k], steps[k], states[k + 1]);
  }

  /** A container is killed only by an `rm --force` of it that has read that it runs. */
  lemma KillingIsForced(states: seq<State>, steps: seq<Step>, k: nat, cli: Cli, id: Id)
    requires IsRun(states, steps) && k < |states| && At(states[k], cli) == Killing(id)
    ensures CommandOf(states[k], cli) == Remove(id, true)
    ensures Saw(states, steps, k, Target(ReadRemovable(cli)), id, {Running})
  {
    RunKeepsRole(states, steps, k, cli);
    EveryPlaceIsReached(states, steps, k, cli);
    var i :| 0 <= i < k && Arrives(states[i], steps[i], cli, Killing(id));
    assert states[i].records[id].status in {Running};
  }

  lemma RemovalIsJustified(states: seq<State>, steps: seq<Step>, i: nat, cli: Cli, id: Id)
    requires IsRun(states, steps) && i < |steps| && Arrives(states[i], steps[i], cli, Removing(id))
    requires CommandOf(states[i], cli).Remove?
    ensures || Saw(states, steps, i + 1, Target(ReadRemovable(cli)), id, {Created, Stopped, Failed})
            || (&& CommandOf(states[i], cli) == Remove(id, true)
                && Saw(states, steps, i + 1, Target(ReadRemovable(cli)), id, {Running})
                && Saw(states, steps, i + 1, Target(PollStopped(cli)), id, {Created, Stopped, Failed}))
  {
    assert states[i].records[id].status in {Created, Stopped, Failed};
    if steps[i] == Target(PollStopped(cli)) {
      KillingIsForced(states, steps, i, cli, id);
      SawLonger(states, steps, i, i + 1, Target(ReadRemovable(cli)), id, {Running});
    }
  }

  lemma SawLonger(states: seq<State>, steps: seq<Step>, i: nat, k: nat, step: Step, id: Id, allowed: set<Status>)
    requires i <= k <= |steps| < |states| && Saw(states, steps, i, step, id, allowed)
    ensures Saw(states, steps, k, step, id, allowed)
  {
    var j :| 0 <= j < i && steps[j] == step && id in states[j].records && states[j].records[id].status in allowed;
  }

  /** A container's directory is deleted only by the creation that failed to complete it, or by an
      `rm` of it that read a status other than running, or by an `rm --force` that read running and
      then waited for another status. */
  lemma DeleteIsJustified(states: seq<State>, steps: seq<Step>, k: nat, cli: Cli, id: Id)
    requires IsRun(states, steps) && k < |states| && At(states[k], cli) == Removing(id)
    ensures match CommandOf(states[k], cli)
            case Create(_, _) => id in states[k].issued && states[k].issued[id] == cli
            case Remove(target, force) =>
              && target == id
              && (|| Saw(states, steps, k, Target(ReadRemovable(cli)), id, {Created, Stopped, Failed})
                  || (&& force && Saw(states, steps, k, Target(ReadRemovable(cli)), id, {Running})
                      && Saw(states, steps, k, Target(PollStopped(cli)), id, {Created, Stopped, Failed})))
            case _ => false
  {
    RunKeepsRole(states, steps, k, cli);
    EveryPlaceIsReached(states, steps, k, cli);
    var i :| 0 <= i < k && Arrives(states[i], steps[i], cli, Removing(id));
    CommandWasKnown(states, steps, i, k, cli);
    if CommandOf(states[k], cli).Remove? {
      RemovalIsJustified(states, steps, i, cli, id);
      forall step, allowed | Saw(states, steps, i + 1, step, id, allowed)
        ensures Saw(states, steps, k, step, id, allowed)
      {
        SawLonger(states, steps, i + 1, k, step, id, allowed);
      }
    }
  }

  lemma CommandWasKnown(states: seq<State>, steps: seq<Step>, i: nat, k: nat, cli: Cli)
    requires IsRun(states, steps) && i < k < |states| && Actor(steps[i]) == Some(cli)
    requires !(steps[i].Session? && steps[i].session.Invoke?)
    ensures CommandOf(states[k], cli) == CommandOf(states[i], cli)
  {
    assert Follows(states[i], steps[i], states[i + 1]);
    ActorIsKnown(states[i], steps[i], cli);
    CommandIsConstant(states, steps, i, k, cli);
  }

  lemma ActorIsKnown(s: State, step: Step, cli: Cli)
    requires Enabled(s, step) && Actor(step) == Some(cli) && !(step.Session? && step.session.Invoke?)
    ensures cli in s.clis
  {
    match step
    case Session(session) =>
    case Target(target) =>
    case Creation(creation) =>
  }

  /** A shim is launched under the lock only by a `start` of its container that has read a stored
      configuration and a created or stopped record. */
  lemma LaunchIsJustified(states: seq<State>, steps: seq<Step>, k: nat, cli: Cli, shim: Identity)
    requires IsRun(states, steps) && k < |steps| && steps[k] == Target(Launch(cli, shim))
    ensures CommandOf(states[k], cli).Start?
    ensures var id := CommandOf(states[k], cli).id;
            && Saw(states, steps, k, Target(ReadStartable(cli)), id, {Created, Stopped})
            && shim in states[k + 1].shims && states[k + 1].shims[shim] == Shim(id, Launched)
            && At(states[k + 1], cli) == Launching(id, shim)
  {
    assert Follows(states[k], steps[k], states[k + 1]);
    RunKeepsRole(states, steps, k, cli);
    EveryPlaceIsReached(states, steps, k, cli);
    var id := At(states[k], cli).id;
    var i :| 0 <= i < k && Arrives(states[i], steps[i], cli, Startable(id));
    assert states[i].records[id].status in {Created, Stopped};
  }

  /** Reconciliation rewrites only a record that it has read as running with the identity of a shim,
      and that it has found missing in the process table after that. */
  lemma OverwriteIsJustified(states: seq<State>, steps: seq<Step>, k: nat, cli: Cli, outcome: Outcome)
    requires IsRun(states, steps) && k < |steps| && steps[k] == Session(Overwrite(cli, outcome))
    ensures exists id, shim, i, j ::
              && 0 <= i < j < k && steps[i] == Session(ReadRunning(cli, id)) && id in states[i].records
              && states[i].records[id] == Record(Running, shim) && steps[j] == Session(JudgeShim(cli))
              && !(shim.pid > 0 && shim.start > 0 && shim.pid in states[j].procs &&
                   states[j].procs[shim.pid] == shim.start)
              && states[k + 1].records == (if outcome == Unchanged then states[k].records
                                           else states[k].records[id := Record(Stopped, Identity(0, shim.start))])
  {
    assert Follows(states[k], steps[k], states[k + 1]);
    EveryPlaceIsReached(states, steps, k, cli);
    var Condemned(id, shim) := At(states[k], cli);
    var j :| 0 <= j < k && Arrives(states[j], steps[j], cli, Condemned(id, shim));
    EveryPlaceIsReached(states, steps, j, cli);
    var i :| 0 <= i < j && Arrives(states[i], steps[i], cli, Inspecting(id, shim));
    assert steps[i] == Session(ReadRunning(cli, id)) && steps[j] == Session(JudgeShim(cli));
  }

  // ---------------------------------------------------------------- the life of a container

  function RecordOf(s: State, id: Id): Option<Record> {
    if id in s.records then Some(s.records[id]) else None
  }

  predicate Says(record: Option<Record>, statuses: set<Status>) {
    record.Some? && record.value.status in statuses
  }

  /** The record may come to be as it is: by the creation of the container, by its shim's first or
      last write, by reconciliation, or by removal. */
  ghost predicate Lawful(s: State, step: Step, id: Id, after: Option<Record>) {
    var before := RecordOf(s, id);
    match step
    case Creation(creation) =>
      && creation.MarkCreated? && Keeps(CommandOf(s, creation.cli)) && Own(s, creation.cli) == Some(id)
      && before == None && after == Some(Record(Created, Identity(0, 0)))
    case Session(session) =>
      && session.Overwrite? && NoActiveShim(s, id) && Says(before, {Running, Stopped, Failed})
      && Says(after, {Stopped}) && after.value.shim.pid == 0
    case Target(target) =>
      && target.Delete? && NoActiveShim(s, id) && At(s, target.cli) == Removing(id)
      && Says(before, {Created, Stopped, Failed}) && after == None
    case Kernel(kernel) =>
      match kernel
      case ShimRecords(shim) =>
        && shim in s.shims && s.shims[shim].id == id && (before == None || Says(before, {Created, Stopped}))
        && after == Some(Record(Running, shim))
      case ShimEnds(shim, status, _) =>
        && shim in s.shims && s.shims[shim].id == id
        && (before == None || Says(before, {Created, Stopped}) || before == Some(Record(Running, shim)))
        && status in {Stopped, Failed} && after == Some(Record(status, shim))
      case _ => false
  }

  lemma SessionIsLawful(s: State, step: SessionStep, id: Id)
    requires ProtocolInv(s) && SessionEnabled(s, step)
    ensures var after := RecordOf(AfterSession(s, step), id);
            after == RecordOf(s, id) || Lawful(s, Session(step), id, after)
  {}

  lemma TargetIsLawful(s: State, step: TargetStep, id: Id)
    requires ProtocolInv(s) && TargetEnabled(s, step)
    ensures var after := RecordOf(AfterTarget(s, step), id);
            after == RecordOf(s, id) || Lawful(s, Target(step), id, after)
  {}

  lemma CreationIsLawful(s: State, step: CreationStep, id: Id)
    requires ProtocolInv(s) && CreationEnabled(s, step)
    ensures var after := RecordOf(AfterCreation(s, step), id);
            after == RecordOf(s, id) || Lawful(s, Creation(step), id, after)
  {}

  lemma KernelIsLawful(s: State, step: KernelStep, id: Id)
    requires ProtocolInv(s) && KernelEnabled(s, step)
    ensures var after := RecordOf(AfterKernel(s, step), id);
            after == RecordOf(s, id) || Lawful(s, Kernel(step), id, after)
  {}

  /** In every run without the one perilous death, every change of a container's record is lawful. */
  lemma RecordsChangeLawfully(states: seq<State>, steps: seq<Step>, k: nat, id: Id)
    requires IsOrderlyRun(states, steps) && k < |steps|
    ensures var after := RecordOf(states[k + 1], id);
            after == RecordOf(states[k], id) || Lawful(states[k], steps[k], id, after)
  {
    RunKeepsProtocol(states, steps, k);
    assert Follows(states[k], steps[k], states[k + 1]);
    match steps[k]
    case Session(session) => SessionIsLawful(states[k], session, id);
    case Target(target) => TargetIsLawful(states[k], target, id);
    case Creation(creation) => CreationIsLawful(states[k], creation, id);
    case Kernel(kernel) => KernelIsLawful(states[k], kernel, id);
  }

  /** So a container that runs neither vanishes nor is created again, a failed one never runs
      again, and a running one is run by the shim its record names. */
  lemma StatusFollowsGraph(states: seq<State>, steps: seq<Step>, k: nat, id: Id)
    requires IsOrderlyRun(states, steps) && k < |steps|
    requires RecordOf(states[k + 1], id) != RecordOf(states[k], id)
    ensures var before, after := RecordOf(states[k], id), RecordOf(states[k + 1], id);
            match after
            case None => Says(before, {Created, Stopped, Failed})
            case Some(Record(status, _)) =>
              match status
              case Created => before == None
              case Running => before == None || Says(before, {Created, Stopped})
              case Stopped => true
              case Failed => before == None || Says(before, {Created, Running, Stopped})
  {
    RecordsChangeLawfully(states, steps, k, id);
  }

  /** Stored configurations come from creations, as requested but for the address, and go with the
      container's directory. */
  lemma ConfigsChangeLawfully(states: seq<State>, steps: seq<Step>, k: nat, id: Id)
    requires IsRun(states, steps) && k < |steps|
    ensures var s, t := states[k], states[k + 1];
            || ((id in s.configs <==> id in t.configs) && (id in s.configs ==> t.configs[id] == s.configs[id]))
            || (&& steps[k].Creation? && Own(s, steps[k].creation.cli) == Some(id) && id in t.configs
                && CommandOf(s, steps[k].creation.cli).Create?
                && t.configs[id] ==
                     CommandOf(s, steps[k].creation.cli).config.(ipv4Host := t.configs[id].ipv4Host))
            || (steps[k].Target? && At(s, steps[k].target.cli) == Removing(id) && id !in t.configs)
  {
    var s, t := states[k], states[k + 1];
    assert Follows(s, steps[k], t);
    match steps[k]
    case Session(session) => SessionLeavesConfigs(s, session);
    case Target(target) => DeleteTakesConfig(s, target, id);
    case Creation(creation) =>
      RunKeepsRole(states, steps, k, creation.cli);
      SaveStoresConfig(s, creation, id);
    case Kernel(kernel) => KernelLeavesRegistry(s, kernel);
  }

  lemma DeleteTakesConfig(s: State, step: TargetStep, id: Id)
    requires TargetEnabled(s, step)
    ensures var t := AfterTarget(s, step);
            || ((id in s.configs <==> id in t.configs) && (id in s.configs ==> t.configs[id] == s.configs[id]))
            || (At(s, step.cli) == Removing(id) && id !in t.configs)
  {}

  lemma SaveStoresConfig(s: State, step: CreationStep, id: Id)
    requires CreationEnabled(s, step) && RoleOk(s, step.cli)
    ensures var t := AfterCreation(s, step);
            || ((id in s.configs <==> id in t.configs) && (id in s.configs ==> t.configs[id] == s.configs[id]))
            || (&& Own(s, step.cli) == Some(id) && CommandOf(s, step.cli).Create? && id in t.configs
                && t.configs[id] == CommandOf(s, step.cli).config.(ipv4Host := t.configs[id].ipv4Host))
  {}

  /** A creation that has saved its configuration finds it there. */
  ghost predicate StoredOk(s: State, cli: Cli) {
    At(s, cli) == Saved || At(s, cli) == Unlaunched ==> Own(s, cli).Some? && Own(s, cli).value in s.configs
  }

  lemma SessionKeepsStored(s: State, step: SessionStep, cli: Cli)
    requires StoredOk(s, cli) && SessionEnabled(s, step)
    ensures StoredOk(AfterSession(s, step), cli)
  {}

  lemma TargetKeepsStored(s: State, step: TargetStep, cli: Cli)
    requires ProtocolInv(s) && StoredOk(s, cli) && TargetEnabled(s, step)
    ensures StoredOk(AfterTarget(s, step), cli)
  {}

  lemma CreationKeepsStored(s: State, step: CreationStep, cli: Cli)
    requires StoredOk(s, cli) && CreationEnabled(s, step)
    ensures StoredOk(AfterCreation(s, step), cli)
  {}

  lemma KernelKeepsStored(s: State, step: KernelStep, cli: Cli)
    requires StoredOk(s, cli) && KernelEnabled(s, step)
    ensures StoredOk(AfterKernel(s, step), cli)
  {}

  lemma StepKeepsStored(s: State, step: Step, t: State, cli: Cli)
    requires ProtocolInv(s) && StoredOk(s, cli) && Follows(s, step, t)
    ensures StoredOk(t, cli)
  {
    match step
    case Session(session) => SessionKeepsStored(s, session, cli);
    case Target(target) => TargetKeepsStored(s, target, cli);
    case Creation(creation) => CreationKeepsStored(s, creation, cli);
    case Kernel(kernel) => KernelKeepsStored(s, kernel, cli);
  }

  lemma StoredStep(states: seq<State>, steps: seq<Step>, k: nat, l: nat, cli: Cli)
    requires IsOrderlyRun(states, steps) && k < |steps| && l == k + 1 && StoredOk(states[k], cli)
    ensures StoredOk(states[l], cli)
  {
    RunKeepsProtocol(states, steps, k);
    assert Follows(states[k], steps[k], states[l]);
    StepKeepsStored(states[k], steps[k], states[l], cli);
  }

  lemma {:induction false} StoredAlong(states: seq<State>, k: nat, cli: Cli)
    requires k < |states| && StoredOk(states[0], cli)
    requires forall i, j :: 0 <= i < |states| - 1 && j == i + 1 && StoredOk(states[i], cli) ==> StoredOk(states[j], cli)
    ensures StoredOk(states[k], cli)
  {
    if k > 0 {
      StoredAlong(states, k - 1, cli);
    }
  }

  lemma RunKeepsStored(states: seq<State>, steps: seq<Step>, k: nat, cli: Cli)
    requires IsOrderlyRun(states, steps) && k < |states|
    ensures StoredOk(states[k], cli)
  {
    forall i, j | 0 <= i < |states| - 1 && j == i + 1 && StoredOk(states[i], cli) ensures StoredOk(states[j], cli) {
      StoredStep(states, steps, i, j, cli);
    }
    StoredAlong(states, k, cli);
  }

  /** No container is marked created, and none is launched by `run`, whose configuration is not in
      the registry, whatever write has failed. */
  lemma CreationIsConfigured(states: seq<State>, steps: seq<Step>, k: nat)
    requires IsOrderlyRun(states, steps) && k < |steps| && steps[k].Creation?
    requires steps[k].creation.MarkCreated? || steps[k].creation.LaunchRun?
    ensures Own(states[k], steps[k].creation.cli).Some?
    ensures Own(states[k], steps[k].creation.cli).value in states[k].configs
  {
    RunKeepsStored(states, steps, k, steps[k].creation.cli);
    assert Follows(states[k], steps[k], states[k + 1]);
  }

  /** A creation that fails at any point goes on to remove what there is of its container. */
  lemma FailedCreationIsRemoved(states: seq<State>, steps: seq<Step>, k: nat)
    requires IsRun(states, steps) && k < |steps| && steps[k].Creation?
    ensures var step := steps[k].creation;
            var failed := match step
                          case Allocate(_, _, address) => address == None
                          case Vet(_, _, _, conflict) => conflict
                          case Save(_, outcome) => outcome != Written
                          case MarkCreated(_, outcome) => outcome != Written
                          case _ => false;
            failed ==>
              && Own(states[k], step.cli).Some? && Own(states[k + 1], step.cli) == None
              && At(states[k + 1], step.cli) == Removing(Own(states[k], step.cli).value)
  {
    assert Follows(states[k], steps[k], states[k + 1]);
  }

  /** A command whose reconciliation cannot write a record does nothing more. */
  lemma FailedOverwriteEnds(states: seq<State>, steps: seq<Step>, k: nat, cli: Cli, outcome: Outcome)
    requires IsRun(states, steps) && k < |steps| && steps[k] == Session(Overwrite(cli, outcome))
    ensures At(states[k + 1], cli) == if outcome == Written then Holding else Finishing
  {
    assert Follows(states[k], steps[k], states[k + 1]);
  }
}
