/** The registry and lifecycle protocol: short-lived command processes that serialise on one
    registry lock, shims that rewrite their container's state record without any lock, and a
    process table in which pids come back but (pid, start time) pairs do not.

    Every transition is one system call's worth of effect. A command may fail or be killed, and
    a shim may die, between any two transitions. `kill` and `stop` take the lock and write nothing, so
    they are the runs of `gc` that inspect no entry; what their signal brings about is a shim
    transition. */
module Lifecycle {
  import opened Base
  import opened Leases
  import Processes

  type Id = nat
  type Cli = nat

  /** Start times of real processes are positive; a pid or start time of 0 in a record means
      that it names no process. */
  datatype Identity = Identity(pid: nat, start: nat)

  datatype Status = Created | Running | Stopped | Failed

  datatype Record = Record(status: Status, shim: Identity)

  /** A live shim has written nothing yet, has written its running record, or is past its
      final state write (successful or not) and will write no more. */
  datatype Phase = Launched | Recorded | Finished

  datatype Shim = Shim(id: Id, phase: Phase)

  datatype Command =
    | Gc
    | Start(id: Id)
    | Remove(id: Id, force: bool)
    | Create(config: Config, keep: bool) // `create` when keep, else `run`

  /** Program counter of a command process. */
  datatype Pc =
    | Waiting                            // before the registry lock
    | Holding                            // reconciling, between two entries
    | Inspecting(id: Id, shim: Identity) // has read a running record
    | Condemned(id: Id, shim: Identity)  // found its shim dead
    | Startable(id: Id)                  // `start` read created or stopped
    | Launching(id: Id, shim: Identity)  // `start` waits for ready or exit
    | Killing(id: Id)                    // `rm --force` polls the status
    | Removing(id: Id)                   // about to delete the directory
    | Allocated(config: Config, missed: Missed<Id>)
    | Vetted(config: Config, missed: Missed<Id>)
    | Saved
    | Finishing                          // still holds the lock
    | Unlaunched                         // `run` released it, no shim yet
    | Gone

  /** A command process: what it was asked to do, where it is, and the container id it generated
      for as long as no other process can have seen that id in use. */
  datatype Process = Process(command: Command, pc: Pc, own: Option<Id>)

  /** An atomic write either completes, fails with the old file in place, or fails after the
      rename has already made the new file visible. */
  datatype Outcome = Written | Unchanged | WrittenButFailed

  datatype State = State(
    procs: map<nat, nat>,        // pid -> start time, zombies included
    spent: set<Identity>,        // every identity ever given out
    lock: Option<Cli>,
    clis: map<Cli, Process>,
    configs: map<Id, Config>,    // config.json files
    records: map<Id, Record>,    // state.json files
    shims: map<Identity, Shim>,  // live shims
    told: set<Identity>,         // shims that wrote their ready byte
    issued: map<Id, Cli>,        // ids ever generated, and by which command
    latest: map<Id, Identity>)   // the shim launched last for each container

  datatype Step =
    | Session(session: SessionStep)
    | Target(target: TargetStep)
    | Creation(creation: CreationStep)
    | Kernel(kernel: KernelStep)

  /** Locking and reconciliation, common to all commands. */
  datatype SessionStep =
    | Invoke(cli: Cli, command: Command, id: Id)
    | Acquire(cli: Cli)
    | ReadRunning(cli: Cli, id: Id)
    | JudgeShim(cli: Cli)
    | Overwrite(cli: Cli, outcome: Outcome)
    | Abort(cli: Cli)
    | Release(cli: Cli)
    | Die(cli: Cli)

  /** `start` and `rm`. */
  datatype TargetStep =
    | ReadStartable(cli: Cli)
    | Launch(cli: Cli, shim: Identity)
    | LaunchReturns(cli: Cli)
    | ReadRemovable(cli: Cli)
    | PollStopped(cli: Cli)
    | Delete(cli: Cli, dropConfig: bool, dropRecord: bool)

  /** `create` and `run`. */
  datatype CreationStep =
    | Allocate(cli: Cli, unread: set<Id>, address: Option<nat>)
    | Vet(cli: Cli, unreadNames: set<Id>, unreadPorts: set<Id>, conflict: bool)
    | Save(cli: Cli, outcome: Outcome)
    | MarkCreated(cli: Cli, outcome: Outcome)
    | ReleaseForRun(cli: Cli)
    | LaunchRun(cli: Cli, shim: Identity)

  /** Shims and unrelated processes. */
  datatype KernelStep =
    | ShimRecords(shim: Identity)
    | ShimTells(shim: Identity)
    | ShimEnds(shim: Identity, status: Status, outcome: Outcome)
    | ShimExits(shim: Identity)
    | Reap(pid: nat)
    | Fork(process: Identity)

  // ---------------------------------------------------------------- reading the state

  function At(s: State, cli: Cli): Pc {
    if cli in s.clis then s.clis[cli].pc else Gone
  }

  function Own(s: State, cli: Cli): Option<Id> {
    if cli in s.clis then s.clis[cli].own else None
  }

  function CommandOf(s: State, cli: Cli): Command {
    if cli in s.clis then s.clis[cli].command else Gc
  }

  predicate HoldsLock(pc: Pc) {
    !pc.Waiting? && !pc.Unlaunched? && !pc.Gone?
  }

  predicate LooksAlive(s: State, shim: Identity) {
    Processes.Alive(s.procs, shim.pid, shim.start)
  }

  predicate FreshProcess(s: State, process: Identity) {
    process.pid > 0 && process.start > 0 && process.pid !in s.procs && process !in s.spent
  }

  // ---------------------------------------------------------------- when a step can happen

  predicate SessionEnabled(s: State, step: SessionStep) {
    match step
    case Invoke(cli, command, id) =>
      cli !in s.clis && (command.Create? ==> id !in s.issued && Requested(command.config))
    case Acquire(cli) => At(s, cli).Waiting? && s.lock == None
    case ReadRunning(cli, id) => At(s, cli).Holding? && id in s.records && s.records[id].status == Running
    case JudgeShim(cli) => At(s, cli).Inspecting?
    case Overwrite(cli, _) => At(s, cli).Condemned?
    case Abort(cli) =>
      HoldsLock(At(s, cli)) && !At(s, cli).Launching? && !At(s, cli).Removing? && !At(s, cli).Saved?
    case Release(cli) => At(s, cli).Finishing?
    case Die(cli) => cli in s.clis
  }

  predicate TargetEnabled(s: State, step: TargetStep) {
    match step
    case ReadStartable(cli) =>
      At(s, cli).Holding? && CommandOf(s, cli).Start? && MayStart(s, CommandOf(s, cli).id)
    case Launch(cli, shim) => At(s, cli).Startable? && FreshProcess(s, shim)
    case LaunchReturns(cli) =>
      At(s, cli).Launching? && (At(s, cli).shim in s.told || At(s, cli).shim !in s.shims)
    case ReadRemovable(cli) =>
      && At(s, cli).Holding? && CommandOf(s, cli).Remove?
      && var command := CommandOf(s, cli);
      && command.id in s.records
      && (s.records[command.id].status == Running ==> command.force)
    case PollStopped(cli) =>
      && At(s, cli).Killing?
      && At(s, cli).id in s.records && s.records[At(s, cli).id].status != Running
    case Delete(cli, _, _) => At(s, cli).Removing?
  }

  /** `create`, which leaves the container to a later `start`. */
  predicate Keeps(command: Command) {
    command.Create? && command.keep
  }

  predicate CreationEnabled(s: State, step: CreationStep) {
    match step
    case Allocate(cli, _, _) => At(s, cli).Holding? && CommandOf(s, cli).Create? && Own(s, cli).Some?
    case Vet(cli, _, _, _) => At(s, cli).Allocated? && Own(s, cli).Some?
    case Save(cli, _) => At(s, cli).Vetted? && Own(s, cli).Some?
    case MarkCreated(cli, _) => At(s, cli).Saved? && Keeps(CommandOf(s, cli)) && Own(s, cli).Some?
    case ReleaseForRun(cli) => At(s, cli).Saved? && !Keeps(CommandOf(s, cli))
    case LaunchRun(cli, shim) => At(s, cli).Unlaunched? && Own(s, cli).Some? && FreshProcess(s, shim)
  }

  /** The results of the scans that `create` and `run` make of the stored configurations. A scan
      passes over a configuration that it cannot read; one that cannot list the directory at all
      refuses, as does a host port that is in use. */
  ghost predicate ScansAgree(s: State, step: CreationStep)
    requires CreationEnabled(s, step)
  {
    match step
    case Allocate(cli, unread, address) =>
      address == if CommandOf(s, cli).config.bridge then LeastFreeAddress(s.configs - unread) else Some(0)
    case Vet(cli, unreadNames, unreadPorts, conflict) =>
      var id, config := Own(s, cli).value, At(s, cli).config;
      || conflict
      || (!NameTaken(s.configs - unreadNames, id, config.name) &&
          !PortTaken(s.configs - unreadPorts, id, config.publishes))
    case _ => true
  }

  predicate KernelEnabled(s: State, step: KernelStep) {
    match step
    case ShimRecords(shim) => shim in s.shims && s.shims[shim].phase == Launched
    case ShimTells(shim) => shim in s.shims && s.shims[shim].phase == Recorded
    case ShimEnds(shim, status, _) =>
      shim in s.shims && s.shims[shim].phase != Finished && (status == Stopped || status == Failed)
    case ShimExits(shim) => shim in s.shims
    case Reap(pid) => pid in s.procs && Identity(pid, s.procs[pid]) !in s.shims
    case Fork(process) => FreshProcess(s, process)
  }

  // ---------------------------------------------------------------- what a step does

  function Goto(s: State, cli: Cli, pc: Pc): State {
    s.(clis := s.clis[cli := Process(CommandOf(s, cli), pc, Own(s, cli))])
  }

  /** Moves on and gives up the private id: other commands may meet it from now on. */
  function Disown(s: State, cli: Cli, pc: Pc): State {
    s.(clis := s.clis[cli := Process(CommandOf(s, cli), pc, None)])
  }

  /** Goes on to `pc`, or to removing what there is of the new container after a failure. */
  function Proceed(s: State, cli: Cli, ok: bool, pc: Pc): State
    requires Own(s, cli).Some?
  {
    var command, id := CommandOf(s, cli), Own(s, cli).value;
    s.(clis := s.clis[cli := if ok then Process(command, pc, Some(id)) else Process(command, Removing(id), None)])
  }

  function WithAddress(config: Config, address: nat): Config {
    Config(config.name, config.bridge, address, config.publishes)
  }

  function WriteRecord(s: State, id: Id, record: Record, outcome: Outcome): State {
    s.(records := if outcome == Unchanged then s.records else s.records[id := record])
  }

  function Spawn(s: State, process: Identity): State {
    s.(procs := s.procs[process.pid := process.start], spent := s.spent + {process})
  }

  function Begin(s: State, id: Id, shim: Identity): State {
    Spawn(s, shim).(shims := s.shims[shim := Shim(id, Launched)], latest := s.latest[id := shim])
  }

  function AfterSession(s: State, step: SessionStep): State
    requires SessionEnabled(s, step)
  {
    match step
    case Invoke(cli, command, id) =>
      s.(clis := s.clis[cli := Process(command, Waiting, if command.Create? then Some(id) else None)],
         issued := if command.Create? then s.issued[id := cli] else s.issued)
    case Acquire(cli) => Goto(s, cli, Holding).(lock := Some(cli))
    case ReadRunning(cli, id) => Goto(s, cli, Inspecting(id, s.records[id].shim))
    case JudgeShim(cli) =>
      var Inspecting(id, shim) := At(s, cli);
      Goto(s, cli, if LooksAlive(s, shim) then Holding else Condemned(id, shim))
    case Overwrite(cli, outcome) =>
      var Condemned(id, shim) := At(s, cli);
      Goto(WriteRecord(s, id, Record(Stopped, Identity(0, shim.start)), outcome), cli,
           if outcome == Written then Holding else Finishing)
    case Abort(cli) => Goto(s, cli, Finishing)
    case Release(cli) => Goto(s, cli, Gone).(lock := None)
    case Die(cli) => // the kernel drops its flock
      Goto(s, cli, Gone).(lock := if s.lock == Some(cli) then None else s.lock)
  }

  function AfterTarget(s: State, step: TargetStep): State
    requires TargetEnabled(s, step)
  {
    match step
    case ReadStartable(cli) => Goto(s, cli, Startable(CommandOf(s, cli).id))
    case Launch(cli, shim) => Begin(Goto(s, cli, Launching(At(s, cli).id, shim)), At(s, cli).id, shim)
    case LaunchReturns(cli) => Goto(s, cli, Finishing)
    case ReadRemovable(cli) =>
      var id := CommandOf(s, cli).id;
      Goto(s, cli, if s.records[id].status == Running then Killing(id) else Removing(id))
    case PollStopped(cli) => Goto(s, cli, Removing(At(s, cli).id))
    case Delete(cli, dropConfig, dropRecord) =>
      var id := At(s, cli).id;
      Goto(s, cli, Finishing).(
        configs := if dropConfig then s.configs - {id} else s.configs,
        records := if dropRecord then s.records - {id} else s.records)
  }

  function AfterCreation(s: State, step: CreationStep): State
    requires CreationEnabled(s, step)
  {
    match step
    case Allocate(cli, unread, address) =>
      var config := CommandOf(s, cli).config;
      Proceed(s, cli, address.Some?,
              Allocated(if address.Some? then WithAddress(config, address.value) else config, Missed(unread, {}, {})))
    case Vet(cli, unreadNames, unreadPorts, conflict) =>
      var Allocated(config, missed) := At(s, cli);
      Proceed(s, cli, !conflict, Vetted(config, Missed(missed.addresses, unreadNames, unreadPorts)))
    case Save(cli, outcome) =>
      var configs := s.configs[Own(s, cli).value := At(s, cli).config];
      Proceed(s, cli, outcome == Written, Saved).(
        configs := if outcome == Unchanged then s.configs else configs)
    case MarkCreated(cli, outcome) =>
      Disown(WriteRecord(s, Own(s, cli).value, Record(Created, Identity(0, 0)), outcome), cli,
             if outcome == Written then Finishing else Removing(Own(s, cli).value))
    case ReleaseForRun(cli) => Goto(s, cli, Unlaunched).(lock := None)
    case LaunchRun(cli, shim) => Begin(Disown(s, cli, Gone), Own(s, cli).value, shim)
  }

  function AfterKernel(s: State, step: KernelStep): State
    requires KernelEnabled(s, step)
  {
    match step
    case ShimRecords(shim) =>
      var id := s.shims[shim].id;
      s.(records := s.records[id := Record(Running, shim)], shims := s.shims[shim := Shim(id, Recorded)])
    case ShimTells(shim) => s.(told := s.told + {shim})
    case ShimEnds(shim, status, outcome) =>
      var id := s.shims[shim].id;
      WriteRecord(s, id, Record(status, shim), outcome).(shims := s.shims[shim := Shim(id, Finished)])
    case ShimExits(shim) => s.(shims := s.shims - {shim})
    case Reap(pid) => s.(procs := s.procs - {pid})
    case Fork(process) => Spawn(s, process)
  }

  ghost predicate Enabled(s: State, step: Step) {
    match step
    case Session(session) => SessionEnabled(s, session)
    case Target(target) => TargetEnabled(s, target)
    case Creation(creation) => CreationEnabled(s, creation) && ScansAgree(s, creation)
    case Kernel(kernel) => KernelEnabled(s, kernel)
  }

  ghost function Next(s: State, step: Step): State
    requires Enabled(s, step)
  {
    match step
    case Session(session) => AfterSession(s, session)
    case Target(target) => AfterTarget(s, target)
    case Creation(creation) => AfterCreation(s, creation)
    case Kernel(kernel) => AfterKernel(s, kernel)
  }

  // ---------------------------------------------------------------- runs

  const INITIAL_STATE := State(map[], {}, None, map[], map[], map[], map[], {}, map[], map[])

  ghost predicate Follows(s: State, step: Step, t: State) {
    Enabled(s, step) && t == Next(s, step)
  }

  ghost predicate IsRun(states: seq<State>, steps: seq<Step>) {
    && |states| == |steps| + 1
    && states[0] == INITIAL_STATE
    && forall k, l :: 0 <= k < |steps| && l == k + 1 ==> Follows(states[k], steps[k], states[l])
  }

  /** The one death that matters: a `start` whose shim has not yet written its running record. */
  predicate Perilous(s: State, cli: Cli) {
    && At(s, cli).Launching?
    && At(s, cli).shim in s.shims && s.shims[At(s, cli).shim].phase == Launched
  }

  predicate Harmless(s: State, step: Step) {
    step.Session? && step.session.Die? ==> !Perilous(s, step.session.cli)
  }

  /** A run in which commands may die at any point but that one. */
  ghost predicate IsOrderlyRun(states: seq<State>, steps: seq<Step>) {
    IsRun(states, steps) && forall k :: 0 <= k < |steps| ==> Harmless(states[k], steps[k])
  }

  /** The scans of this step, if it is one, read every stored configuration. */
  predicate Thorough(s: State, step: Step) {
    step.Creation? ==>
      match step.creation
      case Allocate(_, unread, _) => unread !! s.configs.Keys
      case Vet(_, unreadNames, unreadPorts, _) => unreadNames !! s.configs.Keys && unreadPorts !! s.configs.Keys
      case _ => true
  }

  /** A run in which no scan misses a stored configuration, whatever command dies at whatever
      point. */
  ghost predicate IsThoroughRun(states: seq<State>, steps: seq<Step>) {
    IsRun(states, steps) && forall k :: 0 <= k < |steps| ==> Thorough(states[k], steps[k])
  }

  /** The process whose call the step is; shims and the kernel have none. */
  function Actor(step: Step): Option<Cli> {
    match step
    case Session(session) => Some(session.cli)
    case Target(target) => Some(target.cli)
    case Creation(creation) => Some(creation.cli)
    case Kernel(_) => None
  }

  // ---------------------------------------------------------------- the invariant

  /** A shim is active from its launch until its final state write or its death. */
  predicate Active(s: State, shim: Identity) {
    shim in s.shims && s.shims[shim].phase != Finished
  }

  ghost predicate NoActiveShim(s: State, id: Id) {
    forall shim :: shim in s.shims && s.shims[shim].id == id ==> s.shims[shim].phase == Finished
  }

  ghost predicate LockOk(s: State) {
    && (s.lock.Some? ==> s.lock.value in s.clis)
    && forall cli :: cli in s.clis ==> (HoldsLock(s.clis[cli].pc) <==> s.lock == Some(cli))
  }

  ghost predicate ProcessesOk(s: State) {
    && (forall pid :: pid in s.procs ==> Identity(pid, s.procs[pid]) in s.spent)
    && (forall shim :: shim in s.shims ==> LooksAlive(s, shim) && shim in s.spent)
    && s.told <= s.spent
  }

  ghost predicate Unborn(s: State, id: Id) {
    id !in s.records && forall shim :: shim in s.shims ==> s.shims[shim].id != id
  }

  ghost predicate Unowned(s: State, id: Id) {
    forall cli :: cli in s.clis ==> s.clis[cli].own != Some(id)
  }

  ghost predicate IdsOk(s: State) {
    && s.records.Keys <= s.issued.Keys
    && (forall shim :: shim in s.shims ==> s.shims[shim].id in s.issued)
    && (forall cli :: cli in s.clis && s.clis[cli].own.Some? ==>
          var id := s.clis[cli].own.value; Unborn(s, id) && id in s.issued && s.issued[id] == cli)
  }

  /** A shim that has written its running record still owns it; one that has not is either
      awaited by the `start` that holds the lock, or has no record at all. */
  ghost predicate RecordsOk(s: State) {
    && (forall shim :: shim in s.shims && s.shims[shim].phase == Recorded ==>
          s.shims[shim].id in s.records && s.records[s.shims[shim].id] == Record(Running, shim))
    && (forall shim :: shim in s.shims && s.shims[shim].phase == Launched && s.shims[shim].id in s.records ==>
          && s.records[s.shims[shim].id].status != Running
          && s.lock.Some? && At(s, s.lock.value) == Launching(s.shims[shim].id, shim))
    && (forall shim :: shim in s.told && shim in s.shims ==> s.shims[shim].phase != Launched)
    && (forall shim :: Active(s, shim) ==> s.shims[shim].id in s.latest && s.latest[s.shims[shim].id] == shim)
  }

  /** What `start` reads before it launches a shim. */
  predicate MayStart(s: State, id: Id) {
    && id in s.configs && id in s.records
    && (s.records[id].status == Created || s.records[id].status == Stopped)
  }

  /** What the lock holder's program counter remembers stays true while it holds the lock. */
  ghost predicate HolderOk(s: State) {
    s.lock.Some? ==>
      match At(s, s.lock.value)
      case Inspecting(id, shim) =>
        && id in s.records && s.records[id].status != Created
        && forall a :: Active(s, a) && s.shims[a].id == id ==> a == shim && s.shims[a].phase == Recorded
      case Condemned(id, _) => id in s.records && s.records[id].status != Created && NoActiveShim(s, id)
      case Startable(id) => MayStart(s, id) && NoActiveShim(s, id)
      case Launching(id, shim) =>
        && id in s.records && shim in s.spent && (shim in s.shims ==> s.shims[shim].id == id)
        && (shim in s.shims && s.shims[shim].phase == Launched ==> MayStart(s, id))
        && forall a :: Active(s, a) && s.shims[a].id == id ==> a == shim
      case Killing(id) => id in s.records
      case Removing(id) =>
        && id in s.issued && NoActiveShim(s, id) && Unowned(s, id)
        && (id in s.records ==> s.records[id].status != Running)
      case _ => true
  }

  ghost predicate ProtocolInv(s: State) {
    LockOk(s) && ProcessesOk(s) && IdsOk(s) && RecordsOk(s) && HolderOk(s)
  }

  /** The creating command's memory of what its scans found stays true until it has saved. */
  ghost predicate MemoryOk(s: State) {
    && (forall cli :: cli in s.clis && s.clis[cli].command.Create? ==> Requested(s.clis[cli].command.config))
    && (forall cli :: cli in s.clis ==>
          match s.clis[cli].pc
          case Allocated(config, missed) => Fits(s.configs - missed.addresses, config)
          case Vetted(config, missed) =>
            s.clis[cli].own.Some? && Admissible(s.configs, s.clis[cli].own.value, config, missed)
          case _ => true)
  }
}
