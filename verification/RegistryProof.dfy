/** Names, bridge addresses and published ports over every run of the lifecycle protocol, with
    commands killed at any point and scans that may pass over configurations they cannot read.

    A creation compares its configuration with the stored ones in three scans and saves it last.
    The registry stays consistent exactly as long as no configuration is saved beside one that
    clashes with it and that the scan in question could not read. */
module RegistryProof {
  import opened Base
  import opened Leases
  import opened Lifecycle
  import opened LifecycleProof

  // ---------------------------------------------------------------- who writes configurations

  lemma SessionLeavesConfigs(s: State, step: SessionStep)
    requires SessionEnabled(s, step)
    ensures AfterSession(s, step).configs == s.configs
  {}

  lemma KernelLeavesRegistry(s: State, step: KernelStep)
    requires KernelEnabled(s, step)
    ensures AfterKernel(s, step).configs == s.configs && AfterKernel(s, step).lock == s.lock
  {}

  lemma TargetWritesLocked(s: State, step: TargetStep)
    requires LockOk(s) && TargetEnabled(s, step)
    ensures AfterTarget(s, step).configs == s.configs || s.lock == Some(step.cli)
    ensures AfterTarget(s, step).lock == s.lock
  {}

  lemma CreationWritesLocked(s: State, step: CreationStep)
    requires LockOk(s) && CreationEnabled(s, step)
    ensures AfterCreation(s, step).configs == s.configs || s.lock == Some(step.cli)
  {}

  /** Only the command that holds the registry lock changes the stored configurations. */
  lemma OnlyHolderWritesConfigs(s: State, step: Step)
    requires LockOk(s) && Enabled(s, step)
    ensures Next(s, step).configs == s.configs || (Actor(step).Some? && Actor(step) == s.lock)
  {
    match step
    case Session(session) => SessionLeavesConfigs(s, session);
    case Target(target) => TargetWritesLocked(s, target);
    case Creation(creation) => CreationWritesLocked(s, creation);
    case Kernel(kernel) => KernelLeavesRegistry(s, kernel);
  }

  // ---------------------------------------------------------------- what a creation remembers

  lemma SessionKeepsMemory(s: State, step: SessionStep)
    requires LockOk(s) && MemoryOk(s) && SessionEnabled(s, step)
    ensures MemoryOk(AfterSession(s, step))
  {}

  lemma TargetKeepsMemory(s: State, step: TargetStep)
    requires LockOk(s) && MemoryOk(s) && TargetEnabled(s, step)
    ensures MemoryOk(AfterTarget(s, step))
  {}

  lemma KernelKeepsMemory(s: State, step: KernelStep)
    requires MemoryOk(s) && KernelEnabled(s, step)
    ensures MemoryOk(AfterKernel(s, step))
  {}

  lemma AllocationFits(configs: map<Id, Config>, config: Config, address: nat)
    requires Some(address) == if config.bridge then LeastFreeAddress(configs) else Some(0)
    requires Requested(config)
    ensures Fits(configs, WithAddress(config, address))
  {
    if config.bridge {
      LeastFreeAddressMeaning(configs);
    }
  }

  lemma AllocateKeepsMemory(s: State, cli: Cli, unread: set<Id>, address: Option<nat>)
    requires LockOk(s) && MemoryOk(s) && CreationEnabled(s, Allocate(cli, unread, address))
    requires address.Some? ==> Fits(s.configs - unread, WithAddress(CommandOf(s, cli).config, address.value))
    ensures MemoryOk(AfterCreation(s, Allocate(cli, unread, address)))
  {}

  lemma VetKeepsMemory(s: State, cli: Cli, unreadNames: set<Id>, unreadPorts: set<Id>, conflict: bool)
    requires LockOk(s) && MemoryOk(s) && CreationEnabled(s, Vet(cli, unreadNames, unreadPorts, conflict))
    requires ScansAgree(s, Vet(cli, unreadNames, unreadPorts, conflict))
    ensures MemoryOk(AfterCreation(s, Vet(cli, unreadNames, unreadPorts, conflict)))
  {}

  lemma LaterKeepsMemory(s: State, step: CreationStep)
    requires LockOk(s) && MemoryOk(s) && CreationEnabled(s, step) && !step.Allocate? && !step.Vet?
    ensures MemoryOk(AfterCreation(s, step))
  {}

  lemma CreationKeepsMemory(s: State, step: CreationStep)
    requires LockOk(s) && MemoryOk(s) && CreationEnabled(s, step) && ScansAgree(s, step)
    ensures MemoryOk(AfterCreation(s, step))
  {
    match step
    case Allocate(cli, unread, address) =>
      if address.Some? {
        AllocationFits(s.configs - unread, CommandOf(s, cli).config, address.value);
      }
      AllocateKeepsMemory(s, cli, unread, address);
    case Vet(cli, unreadNames, unreadPorts, conflict) => VetKeepsMemory(s, cli, unreadNames, unreadPorts, conflict);
    case _ => LaterKeepsMemory(s, step);
  }

  lemma StepKeepsLock(s: State, step: Step)
    requires LockOk(s) && Enabled(s, step)
    ensures LockOk(Next(s, step))
  {
    match step
    case Session(session) => SessionKeepsLock(s, session);
    case Target(target) => TargetKeepsLock(s, target);
    case Creation(creation) => CreationKeepsLock(s, creation);
    case Kernel(kernel) => KernelKeepsLock(s, kernel);
  }

  lemma StepKeepsMemory(s: State, step: Step)
    requires LockOk(s) && MemoryOk(s) && Enabled(s, step)
    ensures MemoryOk(Next(s, step))
  {
    match step
    case Session(session) => SessionKeepsMemory(s, session);
    case Target(target) => TargetKeepsMemory(s, target);
    case Creation(creation) => CreationKeepsMemory(s, creation);
    case Kernel(kernel) => KernelKeepsMemory(s, kernel);
  }

  lemma {:induction false} RunKeepsLock(states: seq<State>, steps: seq<Step>, k: nat)
    requires IsRun(states, steps) && k < |states|
    ensures LockOk(states[k])
  {
    if k > 0 {
      RunKeepsLock(states, steps, k - 1);
      assert Follows(states[k - 1], steps[k - 1], states[k]);
      StepKeepsLock(states[k - 1], steps[k - 1]);
    }
  }

  lemma {:induction false} RunKeepsMemory(states: seq<State>, steps: seq<Step>, k: nat)
    requires IsRun(states, steps) && k < |states|
    ensures LockOk(states[k]) && MemoryOk(states[k])
  {
    RunKeepsLock(states, steps, k);
    if k > 0 {
      RunKeepsMemory(states, steps, k - 1);
      assert Follows(states[k - 1], steps[k - 1], states[k]);
      StepKeepsMemory(states[k - 1], steps[k - 1]);
    }
  }

  lemma OtherSessionLeavesLock(s: State, step: SessionStep, cli: Cli)
    requires LockOk(s) && SessionEnabled(s, step) && s.lock == Some(cli) && step.cli != cli
    ensures AfterSession(s, step).lock == Some(cli)
  {}

  lemma OtherCreationLeavesLock(s: State, step: CreationStep, cli: Cli)
    requires LockOk(s) && CreationEnabled(s, step) && s.lock == Some(cli) && step.cli != cli
    ensures AfterCreation(s, step).lock == Some(cli)
  {}

  lemma OthersLeaveLock(s: State, step: Step, cli: Cli)
    requires LockOk(s) && Enabled(s, step) && s.lock == Some(cli) && Actor(step) != Some(cli)
    ensures Next(s, step).lock == Some(cli)
  {
    match step
    case Session(session) => OtherSessionLeavesLock(s, session, cli);
    case Target(target) => TargetWritesLocked(s, target);
    case Creation(creation) => OtherCreationLeavesLock(s, creation, cli);
    case Kernel(kernel) => KernelLeavesRegistry(s, kernel);
  }

  lemma OthersStep(states: seq<State>, steps: seq<Step>, k: nat, l: nat, cli: Cli)
    requires IsRun(states, steps) && k < |steps| && l == k + 1
    requires states[k].lock == Some(cli) && Actor(steps[k]) != Some(cli)
    ensures states[l].lock == Some(cli) && states[l].configs == states[k].configs
  {
    RunKeepsLock(states, steps, k);
    assert Follows(states[k], steps[k], states[l]);
    OnlyHolderWritesConfigs(states[k], steps[k]);
    OthersLeaveLock(states[k], steps[k], cli);
  }

  /** What a scan reads file by file is one registry: from the moment a command holds the lock,
      nothing changes a stored configuration before that command's next step. */
  lemma {:induction false} ScansSeeOneRegistry(states: seq<State>, steps: seq<Step>, i: nat, j: nat, cli: Cli)
    requires IsRun(states, steps) && i <= j < |states| && states[i].lock == Some(cli)
    requires forall k :: i <= k < j ==> Actor(steps[k]) != Some(cli)
    ensures states[j].lock == Some(cli) && states[j].configs == states[i].configs
    decreases j
  {
    if i < j {
      ScansSeeOneRegistry(states, steps, i, j - 1, cli);
      OthersStep(states, steps, j - 1, j, cli);
    }
  }

  // ---------------------------------------------------------------- consistency, exactly

  /** The step makes a configuration visible beside one that clashes with it in just what the
      creation's scan could not read. */
  ghost predicate Oversight(s: State, step: Step) {
    && step.Creation? && step.creation.Save? && step.creation.outcome != Unchanged
    && var cli := step.creation.cli;
    && At(s, cli).Vetted? && Own(s, cli).Some?
    && SomeClashUnread(s.configs, Own(s, cli).value, At(s, cli).config, At(s, cli).missed)
  }

  lemma TargetKeepsRegistry(s: State, step: TargetStep)
    requires RegistryOk(s.configs) && TargetEnabled(s, step)
    ensures RegistryOk(AfterTarget(s, step).configs)
  {
    if step.Delete? {
      RemovalKeepsRegistry(s.configs, At(s, step.cli).id);
    }
  }

  lemma CreationIsExact(s: State, step: CreationStep)
    requires LockOk(s) && MemoryOk(s) && RegistryOk(s.configs) && CreationEnabled(s, step)
    ensures RegistryOk(AfterCreation(s, step).configs) <==> !Oversight(s, Creation(step))
  {
    if step.Save? {
      var Vetted(config, missed) := At(s, step.cli);
      AdmissionIsExact(s.configs, Own(s, step.cli).value, config, missed);
    }
  }

  /** From a consistent registry every step but an oversight leads to a consistent one. */
  lemma StepIsExact(s: State, step: Step)
    requires LockOk(s) && MemoryOk(s) && RegistryOk(s.configs) && Enabled(s, step)
    ensures RegistryOk(Next(s, step).configs) <==> !Oversight(s, step)
  {
    match step
    case Session(session) => SessionLeavesConfigs(s, session);
    case Target(target) => TargetKeepsRegistry(s, target);
    case Creation(creation) => CreationIsExact(s, creation);
    case Kernel(kernel) => KernelLeavesRegistry(s, kernel);
  }

  /** A run, whatever its deaths and its unreadable files, keeps the registry consistent
      throughout if and only if it commits no oversight. */
  lemma ConsistentExactly(states: seq<State>, steps: seq<Step>)
    requires IsRun(states, steps)
    ensures (forall k :: 0 <= k < |states| ==> RegistryOk(states[k].configs)) <==>
            (forall k :: 0 <= k < |steps| ==> !Oversight(states[k], steps[k]))
  {
    if forall k :: 0 <= k < |states| ==> RegistryOk(states[k].configs) {
      forall k | 0 <= k < |steps| ensures !Oversight(states[k], steps[k]) {
        RunKeepsMemory(states, steps, k);
        assert Follows(states[k], steps[k], states[k + 1]);
        assert RegistryOk(states[k + 1].configs);
        StepIsExact(states[k], steps[k]);
      }
    }
    if forall k :: 0 <= k < |steps| ==> !Oversight(states[k], steps[k]) {
      forall k: nat | k < |states| ensures RegistryOk(states[k].configs) {
        CarefulRunIsConsistent(states, steps, k);
      }
    }
  }

  lemma {:induction false} CarefulRunIsConsistent(states: seq<State>, steps: seq<Step>, k: nat)
    requires IsRun(states, steps) && k < |states|
    requires forall i :: 0 <= i < k ==> !Oversight(states[i], steps[i])
    ensures RegistryOk(states[k].configs)
  {
    if k > 0 {
      CarefulRunIsConsistent(states, steps, k - 1);
      RunKeepsMemory(states, steps, k - 1);
      assert Follows(states[k - 1], steps[k - 1], states[k]);
      StepIsExact(states[k - 1], steps[k - 1]);
    }
  }

  // ---------------------------------------------------------------- runs that read everything

  /** The scans of every creation under way have read all that is stored. */
  ghost predicate ReadAll(s: State) {
    forall cli :: cli in s.clis && (s.clis[cli].pc.Allocated? || s.clis[cli].pc.Vetted?) ==>
                    Complete(s.configs, s.clis[cli].pc.missed)
  }

  lemma SessionKeepsReadAll(s: State, step: SessionStep)
    requires ReadAll(s) && SessionEnabled(s, step)
    ensures ReadAll(AfterSession(s, step))
  {}

  lemma TargetKeepsReadAll(s: State, step: TargetStep)
    requires ReadAll(s) && TargetEnabled(s, step)
    ensures ReadAll(AfterTarget(s, step))
  {}

  lemma CreationKeepsReadAll(s: State, step: CreationStep)
    requires LockOk(s) && ReadAll(s) && CreationEnabled(s, step) && Thorough(s, Creation(step))
    ensures ReadAll(AfterCreation(s, step))
  {}

  lemma KernelKeepsReadAll(s: State, step: KernelStep)
    requires ReadAll(s) && KernelEnabled(s, step)
    ensures ReadAll(AfterKernel(s, step))
  {}

  lemma StepKeepsReadAll(s: State, step: Step)
    requires LockOk(s) && ReadAll(s) && Enabled(s, step) && Thorough(s, step)
    ensures ReadAll(Next(s, step))
  {
    match step
    case Session(session) => SessionKeepsReadAll(s, session);
    case Target(target) => TargetKeepsReadAll(s, target);
    case Creation(creation) => CreationKeepsReadAll(s, creation);
    case Kernel(kernel) => KernelKeepsReadAll(s, kernel);
  }

  lemma ThoroughStep(states: seq<State>, steps: seq<Step>, k: nat, l: nat)
    requires IsThoroughRun(states, steps) && k < |steps| && l == k + 1 && ReadAll(states[k])
    ensures ReadAll(states[l])
  {
    RunKeepsLock(states, steps, k);
    assert Follows(states[k], steps[k], states[l]);
    StepKeepsReadAll(states[k], steps[k]);
  }

  lemma {:induction false} ThoroughRunReadsAll(states: seq<State>, steps: seq<Step>, k: nat)
    requires IsThoroughRun(states, steps) && k < |states|
    ensures ReadAll(states[k])
  {
    if k > 0 {
      ThoroughRunReadsAll(states, steps, k - 1);
      ThoroughStep(states, steps, k - 1, k);
    }
  }

  /** Names, bridge addresses and published ports never clash in any registry that a run reaches
      in which every scan reads every stored configuration. */
  lemma RegistryStaysConsistent(states: seq<State>, steps: seq<Step>, k: nat)
    requires IsThoroughRun(states, steps) && k < |states|
    ensures RegistryOk(states[k].configs)
  {
    forall i: nat | i < k ensures !Oversight(states[i], steps[i]) {
      ThoroughRunReadsAll(states, steps, i);
    }
    CarefulRunIsConsistent(states, steps, k);
  }

  /** A stored container outside the bridge has no address and publishes nothing, and one on it has an
      address of the pool. */
  lemma StoredAddresses(states: seq<State>, steps: seq<Step>, k: nat, id: Id)
    requires IsThoroughRun(states, steps) && k < |states| && id in states[k].configs
    ensures var config := states[k].configs[id];
            if config.bridge then 0x0a2c_0002 <= config.ipv4Host <= 0x0a2c_00fe
            else config.ipv4Host == 0 && config.publishes == []
  {
    RegistryStaysConsistent(states, steps, k);
    assert Requested(states[k].configs[id]) && Addressed(states[k].configs[id]);
  }

  /** What an allocation that reads `configs` must do: take the least address that none of them
      holds, or give up when they hold all 253. */
  ghost predicate TakesLeastFree(configs: map<Id, Config>, after: Pc) {
    match after
    case Allocated(config, _) =>
      && POOL + FIRST_HOST <= config.ipv4Host <= POOL + LAST_HOST && !Holds(configs, config.ipv4Host)
      && forall lower :: POOL + FIRST_HOST <= lower < config.ipv4Host ==> Holds(configs, lower)
    case Removing(_) => forall host :: POOL + FIRST_HOST <= host <= POOL + LAST_HOST ==> Holds(configs, host)
    case _ => false
  }

  /** Every allocation in a run takes the least address that no configuration it could read
      holds, and gives up only when all 253 are held; where it read everything, the least address
      that no stored configuration holds. */
  lemma AllocationsAreLeastFree(states: seq<State>, steps: seq<Step>, k: nat)
    requires IsRun(states, steps) && k < |steps|
    requires steps[k].Creation? && steps[k].creation.Allocate?
    requires At(states[k], steps[k].creation.cli).Holding? && CommandOf(states[k], steps[k].creation.cli).Create?
    requires CommandOf(states[k], steps[k].creation.cli).config.bridge
    ensures TakesLeastFree(states[k].configs - steps[k].creation.unread, At(states[k + 1], steps[k].creation.cli))
    ensures Thorough(states[k], steps[k]) ==>
              TakesLeastFree(states[k].configs, At(states[k + 1], steps[k].creation.cli))
  {
    assert Follows(states[k], steps[k], states[k + 1]);
    var unread := steps[k].creation.unread;
    LeastFreeAddressMeaning(states[k].configs - unread);
    assert unread !! states[k].configs.Keys ==> states[k].configs - unread == states[k].configs;
  }

  /** In every registry that such a run reaches, at most one stored publish has a rule that
      selects a packet. */
  lemma AtMostOneRuleSelects(states: seq<State>, steps: seq<Step>, k: nat, packet: Packet, isLocal: nat -> bool,
                             a: Id, i: nat, b: Id, j: nat)
    requires IsThoroughRun(states, steps) && k < |states|
    requires a in states[k].configs && i < |states[k].configs[a].publishes|
    requires b in states[k].configs && j < |states[k].configs[b].publishes|
    requires var p, q := states[k].configs[a].publishes[i], states[k].configs[b].publishes[j];
             || (PreroutingSelects(p, packet) && PreroutingSelects(q, packet))
             || (OutputSelects(p, packet, isLocal) && OutputSelects(q, packet, isLocal))
    ensures a == b && i == j
  {
    RegistryStaysConsistent(states, steps, k);
    DnatRulesNeverCompete(states[k].configs, packet, isLocal, a, i, b, j);
  }
}
