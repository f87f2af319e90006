/** Safety of the lifecycle protocol over every run.

    The invariants are proved one transition at a time; the theorems at the end speak of whole
    runs: every interleaving of lock-holding commands, unlocked `run` launches, shim writes,
    shim deaths and pid reuse, with commands killed at any point but one: a `start` whose shim
    has not yet written its running record. */
module LifecycleProof {
  import opened Base
  import opened Lifecycle

  // ---------------------------------------------------------------- preservation

  lemma SessionKeepsLock(s: State, step: SessionStep)
    requires LockOk(s) && SessionEnabled(s, step)
    ensures LockOk(AfterSession(s, step))
  {}

  lemma SessionKeepsProcesses(s: State, step: SessionStep)
    requires ProcessesOk(s) && SessionEnabled(s, step)
    ensures ProcessesOk(AfterSession(s, step))
  {}

  lemma SessionKeepsIds(s: State, step: SessionStep)
    requires LockOk(s) && IdsOk(s) && HolderOk(s) && SessionEnabled(s, step)
    ensures IdsOk(AfterSession(s, step))
  {}

  lemma InvokeKeepsRecords(s: State, cli: Cli, command: Command, id: Id)
    requires ProtocolInv(s) && SessionEnabled(s, Invoke(cli, command, id))
    ensures RecordsOk(AfterSession(s, Invoke(cli, command, id))) && HolderOk(AfterSession(s, Invoke(cli, command, id)))
  {}

  lemma AcquireKeepsRecords(s: State, cli: Cli)
    requires ProtocolInv(s) && SessionEnabled(s, Acquire(cli))
    ensures RecordsOk(AfterSession(s, Acquire(cli))) && HolderOk(AfterSession(s, Acquire(cli)))
  {}

  lemma ReadRunningKeepsRecords(s: State, cli: Cli, id: Id)
    requires ProtocolInv(s) && SessionEnabled(s, ReadRunning(cli, id))
    ensures RecordsOk(AfterSession(s, ReadRunning(cli, id))) && HolderOk(AfterSession(s, ReadRunning(cli, id)))
  {}

  lemma JudgeShimKeepsRecords(s: State, cli: Cli)
    requires ProtocolInv(s) && SessionEnabled(s, JudgeShim(cli))
    ensures RecordsOk(AfterSession(s, JudgeShim(cli))) && HolderOk(AfterSession(s, JudgeShim(cli)))
  {}

  lemma OverwriteKeepsRecords(s: State, cli: Cli, outcome: Outcome)
    requires ProtocolInv(s) && SessionEnabled(s, Overwrite(cli, outcome))
    ensures RecordsOk(AfterSession(s, Overwrite(cli, outcome))) && HolderOk(AfterSession(s, Overwrite(cli, outcome)))
  {}

  lemma AbortKeepsRecords(s: State, cli: Cli)
    requires ProtocolInv(s) && SessionEnabled(s, Abort(cli))
    ensures RecordsOk(AfterSession(s, Abort(cli))) && HolderOk(AfterSession(s, Abort(cli)))
  {}

  lemma ReleaseKeepsRecords(s: State, cli: Cli)
    requires ProtocolInv(s) && SessionEnabled(s, Release(cli))
    ensures RecordsOk(AfterSession(s, Release(cli))) && HolderOk(AfterSession(s, Release(cli)))
  {}

  lemma DieKeepsRecords(s: State, cli: Cli)
    requires ProtocolInv(s) && SessionEnabled(s, Die(cli)) && !Perilous(s, cli)
    ensures RecordsOk(AfterSession(s, Die(cli))) && HolderOk(AfterSession(s, Die(cli)))
  {}

  lemma SessionKeepsProtocol(s: State, step: SessionStep)
    requires ProtocolInv(s) && SessionEnabled(s, step) && Harmless(s, Session(step))
    ensures ProtocolInv(AfterSession(s, step))
  {
    SessionKeepsLock(s, step);
    SessionKeepsProcesses(s, step);
    SessionKeepsIds(s, step);
    match step
    case Invoke(cli, command, id) => InvokeKeepsRecords(s, cli, command, id);
    case Acquire(cli) => AcquireKeepsRecords(s, cli);
    case ReadRunning(cli, id) => ReadRunningKeepsRecords(s, cli, id);
    case JudgeShim(cli) => JudgeShimKeepsRecords(s, cli);
    case Overwrite(cli, outcome) => OverwriteKeepsRecords(s, cli, outcome);
    case Abort(cli) => AbortKeepsRecords(s, cli);
    case Release(cli) => ReleaseKeepsRecords(s, cli);
    case Die(cli) => DieKeepsRecords(s, cli);
  }

  lemma TargetKeepsLock(s: State, step: TargetStep)
    requires LockOk(s) && TargetEnabled(s, step)
    ensures LockOk(AfterTarget(s, step))
  {}

  lemma TargetKeepsProcesses(s: State, step: TargetStep)
    requires ProcessesOk(s) && TargetEnabled(s, step)
    ensures ProcessesOk(AfterTarget(s, step))
  {}

  lemma TargetKeepsIds(s: State, step: TargetStep)
    requires LockOk(s) && IdsOk(s) && HolderOk(s) && TargetEnabled(s, step)
    ensures IdsOk(AfterTarget(s, step))
  {}

  lemma ReadStartableKeepsRecords(s: State, cli: Cli)
    requires ProtocolInv(s) && TargetEnabled(s, ReadStartable(cli))
    ensures RecordsOk(AfterTarget(s, ReadStartable(cli))) && HolderOk(AfterTarget(s, ReadStartable(cli)))
  {}

  lemma LaunchKeepsRecords(s: State, cli: Cli, shim: Identity)
    requires ProtocolInv(s) && TargetEnabled(s, Launch(cli, shim))
    ensures RecordsOk(AfterTarget(s, Launch(cli, shim)))
  {}

  lemma LaunchKeepsHolder(s: State, cli: Cli, shim: Identity)
    requires ProtocolInv(s) && TargetEnabled(s, Launch(cli, shim))
    ensures HolderOk(AfterTarget(s, Launch(cli, shim)))
  {}

  lemma LaunchReturnsKeepsRecords(s: State, cli: Cli)
    requires ProtocolInv(s) && TargetEnabled(s, LaunchReturns(cli))
    ensures RecordsOk(AfterTarget(s, LaunchReturns(cli))) && HolderOk(AfterTarget(s, LaunchReturns(cli)))
  {}

  lemma ReadRemovableKeepsRecords(s: State, cli: Cli)
    requires ProtocolInv(s) && TargetEnabled(s, ReadRemovable(cli))
    ensures RecordsOk(AfterTarget(s, ReadRemovable(cli))) && HolderOk(AfterTarget(s, ReadRemovable(cli)))
  {}

  lemma PollStoppedKeepsRecords(s: State, cli: Cli)
    requires ProtocolInv(s) && TargetEnabled(s, PollStopped(cli))
    ensures RecordsOk(AfterTarget(s, PollStopped(cli))) && HolderOk(AfterTarget(s, PollStopped(cli)))
  {}

  lemma DeleteKeepsRecords(s: State, cli: Cli, dropConfig: bool, dropRecord: bool)
    requires ProtocolInv(s) && TargetEnabled(s, Delete(cli, dropConfig, dropRecord))
    ensures RecordsOk(AfterTarget(s, Delete(cli, dropConfig, dropRecord)))
    ensures HolderOk(AfterTarget(s, Delete(cli, dropConfig, dropRecord)))
  {}

  lemma TargetKeepsProtocol(s: State, step: TargetStep)
    requires ProtocolInv(s) && TargetEnabled(s, step)
    ensures ProtocolInv(AfterTarget(s, step))
  {
    TargetKeepsLock(s, step);
    TargetKeepsProcesses(s, step);
    TargetKeepsIds(s, step);
    match step
    case ReadStartable(cli) => ReadStartableKeepsRecords(s, cli);
    case Launch(cli, shim) => LaunchKeepsRecords(s, cli, shim); LaunchKeepsHolder(s, cli, shim);
    case LaunchReturns(cli) => LaunchReturnsKeepsRecords(s, cli);
    case ReadRemovable(cli) => ReadRemovableKeepsRecords(s, cli);
    case PollStopped(cli) => PollStoppedKeepsRecords(s, cli);
    case Delete(cli, dropConfig, dropRecord) => DeleteKeepsRecords(s, cli, dropConfig, dropRecord);
  }

  lemma CreationKeepsLock(s: State, step: CreationStep)
    requires LockOk(s) && CreationEnabled(s, step)
    ensures LockOk(AfterCreation(s, step))
  {}

  lemma CreationKeepsProcesses(s: State, step: CreationStep)
    requires ProcessesOk(s) && CreationEnabled(s, step)
    ensures ProcessesOk(AfterCreation(s, step))
  {}

  lemma CreationKeepsIds(s: State, step: CreationStep)
    requires LockOk(s) && IdsOk(s) && HolderOk(s) && CreationEnabled(s, step)
    ensures IdsOk(AfterCreation(s, step))
  {}

  lemma AllocateKeepsRecords(s: State, cli: Cli, unread: set<Id>, address: Option<nat>)
    requires ProtocolInv(s) && CreationEnabled(s, Allocate(cli, unread, address))
    ensures RecordsOk(AfterCreation(s, Allocate(cli, unread, address)))
    ensures HolderOk(AfterCreation(s, Allocate(cli, unread, address)))
  {}

  lemma VetKeepsRecords(s: State, cli: Cli, unreadNames: set<Id>, unreadPorts: set<Id>, conflict: bool)
    requires ProtocolInv(s) && CreationEnabled(s, Vet(cli, unreadNames, unreadPorts, conflict))
    ensures RecordsOk(AfterCreation(s, Vet(cli, unreadNames, unreadPorts, conflict)))
    ensures HolderOk(AfterCreation(s, Vet(cli, unreadNames, unreadPorts, conflict)))
  {}

  lemma SaveKeepsRecords(s: State, cli: Cli, outcome: Outcome)
    requires ProtocolInv(s) && CreationEnabled(s, Save(cli, outcome))
    ensures RecordsOk(AfterCreation(s, Save(cli, outcome))) && HolderOk(AfterCreation(s, Save(cli, outcome)))
  {}

  lemma MarkCreatedKeepsRecords(s: State, cli: Cli, outcome: Outcome)
    requires ProtocolInv(s) && CreationEnabled(s, MarkCreated(cli, outcome))
    ensures RecordsOk(AfterCreation(s, MarkCreated(cli, outcome)))
    ensures HolderOk(AfterCreation(s, MarkCreated(cli, outcome)))
  {}

  lemma ReleaseForRunKeepsRecords(s: State, cli: Cli)
    requires ProtocolInv(s) && CreationEnabled(s, ReleaseForRun(cli))
    ensures RecordsOk(AfterCreation(s, ReleaseForRun(cli))) && HolderOk(AfterCreation(s, ReleaseForRun(cli)))
  {}

  lemma LaunchRunKeepsRecords(s: State, cli: Cli, shim: Identity)
    requires ProtocolInv(s) && CreationEnabled(s, LaunchRun(cli, shim))
    ensures RecordsOk(AfterCreation(s, LaunchRun(cli, shim)))
  {}

  lemma LaunchRunKeepsHolder(s: State, cli: Cli, shim: Identity)
    requires ProtocolInv(s) && CreationEnabled(s, LaunchRun(cli, shim))
    ensures HolderOk(AfterCreation(s, LaunchRun(cli, shim)))
  {}

  lemma CreationKeepsProtocol(s: State, step: CreationStep)
    requires ProtocolInv(s) && CreationEnabled(s, step)
    ensures ProtocolInv(AfterCreation(s, step))
  {
    CreationKeepsLock(s, step);
    CreationKeepsProcesses(s, step);
    CreationKeepsIds(s, step);
    match step
    case Allocate(cli, unread, address) => AllocateKeepsRecords(s, cli, unread, address);
    case Vet(cli, unreadNames, unreadPorts, conflict) =>
      VetKeepsRecords(s, cli, unreadNames, unreadPorts, conflict);
    case Save(cli, outcome) => SaveKeepsRecords(s, cli, outcome);
    case MarkCreated(cli, outcome) => MarkCreatedKeepsRecords(s, cli, outcome);
    case ReleaseForRun(cli) => ReleaseForRunKeepsRecords(s, cli);
    case LaunchRun(cli, shim) => LaunchRunKeepsRecords(s, cli, shim); LaunchRunKeepsHolder(s, cli, shim);
  }

  lemma KernelKeepsLock(s: State, step: KernelStep)
    requires LockOk(s) && KernelEnabled(s, step)
    ensures LockOk(AfterKernel(s, step))
  {}

  lemma KernelKeepsProcesses(s: State, step: KernelStep)
    requires ProcessesOk(s) && KernelEnabled(s, step)
    ensures ProcessesOk(AfterKernel(s, step))
  {}

  lemma KernelKeepsIds(s: State, step: KernelStep)
    requires LockOk(s) && IdsOk(s) && HolderOk(s) && KernelEnabled(s, step)
    ensures IdsOk(AfterKernel(s, step))
  {}

  lemma ShimRecordsKeepsRecords(s: State, shim: Identity)
    requires ProtocolInv(s) && KernelEnabled(s, ShimRecords(shim))
    ensures RecordsOk(AfterKernel(s, ShimRecords(shim))) && HolderOk(AfterKernel(s, ShimRecords(shim)))
  {}

  lemma ShimTellsKeepsRecords(s: State, shim: Identity)
    requires ProtocolInv(s) && KernelEnabled(s, ShimTells(shim))
    ensures RecordsOk(AfterKernel(s, ShimTells(shim))) && HolderOk(AfterKernel(s, ShimTells(shim)))
  {}

  lemma ShimEndsKeepsRecords(s: State, shim: Identity, status: Status, outcome: Outcome)
    requires ProtocolInv(s) && KernelEnabled(s, ShimEnds(shim, status, outcome))
    ensures RecordsOk(AfterKernel(s, ShimEnds(shim, status, outcome)))
  {}

  lemma ShimEndsKeepsHolder(s: State, shim: Identity, status: Status, outcome: Outcome)
    requires ProtocolInv(s) && KernelEnabled(s, ShimEnds(shim, status, outcome))
    ensures HolderOk(AfterKernel(s, ShimEnds(shim, status, outcome)))
  {}

  lemma ShimExitsKeepsRecords(s: State, shim: Identity)
    requires ProtocolInv(s) && KernelEnabled(s, ShimExits(shim))
    ensures RecordsOk(AfterKernel(s, ShimExits(shim))) && HolderOk(AfterKernel(s, ShimExits(shim)))
  {}

  lemma ReapKeepsRecords(s: State, pid: nat)
    requires ProtocolInv(s) && KernelEnabled(s, Reap(pid))
    ensures RecordsOk(AfterKernel(s, Reap(pid))) && HolderOk(AfterKernel(s, Reap(pid)))
  {}

  lemma ForkKeepsRecords(s: State, process: Identity)
    requires ProtocolInv(s) && KernelEnabled(s, Fork(process))
    ensures RecordsOk(AfterKernel(s, Fork(process))) && HolderOk(AfterKernel(s, Fork(process)))
  {}

  lemma KernelKeepsProtocol(s: State, step: KernelStep)
    requires ProtocolInv(s) && KernelEnabled(s, step)
    ensures ProtocolInv(AfterKernel(s, step))
  {
    KernelKeepsLock(s, step);
    KernelKeepsProcesses(s, step);
    KernelKeepsIds(s, step);
    match step
    case ShimRecords(shim) => ShimRecordsKeepsRecords(s, shim);
    case ShimTells(shim) => ShimTellsKeepsRecords(s, shim);
    case ShimEnds(shim, status, outcome) =>
      ShimEndsKeepsRecords(s, shim, status, outcome);
      ShimEndsKeepsHolder(s, shim, status, outcome);
    case ShimExits(shim) => ShimExitsKeepsRecords(s, shim);
    case Reap(pid) => ReapKeepsRecords(s, pid);
    case Fork(process) => ForkKeepsRecords(s, process);
  }

  lemma StepKeepsProtocol(s: State, step: Step)
    requires ProtocolInv(s) && Enabled(s, step) && Harmless(s, step)
    ensures ProtocolInv(Next(s, step))
  {
    match step
    case Session(session) => SessionKeepsProtocol(s, session);
    case Target(target) => TargetKeepsProtocol(s, target);
    case Creation(creation) => CreationKeepsProtocol(s, creation);
    case Kernel(kernel) => KernelKeepsProtocol(s, kernel);
  }

  lemma {:induction false} RunKeepsProtocol(states: seq<State>, steps: seq<Step>, k: nat)
    requires IsOrderlyRun(states, steps) && k < |states|
    ensures ProtocolInv(states[k])
  {
    if k > 0 {
      RunKeepsProtocol(states, steps, k - 1);
      assert Follows(states[k - 1], steps[k - 1], states[k]);
      StepKeepsProtocol(states[k - 1], steps[k - 1]);
    }
  }

  // ---------------------------------------------------------------- theorems over runs

  /** Each container has at most one shim between launch and final state write. */
  lemma AtMostOneActiveShim(states: seq<State>, steps: seq<Step>, k: nat, a: Identity, b: Identity)
    requires IsOrderlyRun(states, steps) && k < |states|
    requires Active(states[k], a) && Active(states[k], b) && states[k].shims[a].id == states[k].shims[b].id
    ensures a == b
  {
    RunKeepsProtocol(states, steps, k);
  }

  /** `rm`, and the cleanup after a failed `create` or `run`, delete only containers that have
      no active shim. */
  lemma DeleteFindsNoActiveShim(states: seq<State>, steps: seq<Step>, k: nat)
    requires IsOrderlyRun(states, steps) && k < |steps|
    requires steps[k].Target? && steps[k].target.Delete?
    ensures At(states[k], steps[k].target.cli).Removing?
    ensures NoActiveShim(states[k], At(states[k], steps[k].target.cli).id)
  {
    RunKeepsProtocol(states, steps, k);
    assert Follows(states[k], steps[k], states[k + 1]);
  }

  /** Reconciliation never overwrites the record of a container with an active shim, although
      it reads the record, asks for the start time and writes in three separate steps. */
  lemma OverwriteFindsNoActiveShim(states: seq<State>, steps: seq<Step>, k: nat)
    requires IsOrderlyRun(states, steps) && k < |steps|
    requires steps[k].Session? && steps[k].session.Overwrite?
    ensures At(states[k], steps[k].session.cli).Condemned?
    ensures NoActiveShim(states[k], At(states[k], steps[k].session.cli).id)
  {
    RunKeepsProtocol(states, steps, k);
    assert Follows(states[k], steps[k], states[k + 1]);
  }

  /** While no command holds the lock, a record that says created, stopped or failed tells the
      truth, and an active shim that has recorded itself is the one its record names. */
  lemma RecordsTellTheTruth(states: seq<State>, steps: seq<Step>, k: nat, id: Id)
    requires IsOrderlyRun(states, steps) && k < |states|
    requires states[k].lock == None && id in states[k].records
    ensures states[k].records[id].status != Running ==> NoActiveShim(states[k], id)
    ensures forall shim :: Active(states[k], shim) && states[k].shims[shim].id == id ==>
                             states[k].records[id] == Record(Running, shim)
  {
    RunKeepsProtocol(states, steps, k);
  }
}
