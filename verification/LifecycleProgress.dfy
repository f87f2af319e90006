/** What each command does when nothing disturbs it: from every state in which the registry lock is
    free, the state it leads to. */
module LifecycleProgress {
  import opened Base
  import opened Leases
  import opened Lifecycle

  ghost predicate Spans(trace: seq<State>, steps: seq<Step>, s: State, t: State) {
    && |trace| == |steps| + 1 && trace[0] == s && trace[|steps|] == t
    && forall k, l :: 0 <= k < |steps| && l == k + 1 ==> Follows(trace[k], steps[k], trace[l])
  }

  /** Some steps take `s` to `t`. */
  ghost predicate Reaches(s: State, t: State) {
    exists trace, steps :: Spans(trace, steps, s, t)
  }

  lemma Onward(s: State, t: State, u: State)
    requires Reaches(s, t) && Reaches(t, u)
    ensures Reaches(s, u)
  {
    var first, a :| Spans(first, a, s, t);
    var second, b :| Spans(second, b, t, u);
    var trace, steps := first[..|a|] + second, a + b;
    forall k, l | 0 <= k < |steps| && l == k + 1 ensures Follows(trace[k], steps[k], trace[l]) {
      if k < |a| {
        assert trace[k] == first[k] && trace[l] == first[l] && steps[k] == a[k];
      } else {
        var i, j := k - |a|, l - |a|;
        assert trace[k] == second[i] && trace[l] == second[j] && steps[k] == b[i];
        assert Follows(second[i], b[i], second[j]);
      }
    }
    assert Spans(trace, steps, s, u);
  }

  lemma OneStep(s: State, step: Step, t: State)
    requires Follows(s, step, t)
    ensures Reaches(s, t)
  {
    assert Spans([s, t], [step], s, t);
  }

  lemma FurtherStep(s: State, t: State, step: Step, u: State)
    requires Reaches(s, t) && Follows(t, step, u)
    ensures Reaches(s, u)
  {
    OneStep(t, step, u);
    Onward(s, t, u);
  }

  /** A process with its command at some place. */
  function With(s: State, cli: Cli, command: Command, pc: Pc, own: Option<Id>): State {
    s.(clis := s.clis[cli := Process(command, pc, own)])
  }

  lemma WithTwice(s: State, cli: Cli, command: Command, pc: Pc, own: Option<Id>, pc': Pc, own': Option<Id>)
    ensures With(With(s, cli, command, pc, own), cli, command, pc', own') == With(s, cli, command, pc', own')
  {
    assert s.clis[cli := Process(command, pc, own)][cli := Process(command, pc', own')] ==
           s.clis[cli := Process(command, pc', own')];
  }

  /** A command, other than a creation, that holds the lock. */
  function Opened(s: State, cli: Cli, command: Command): State {
    With(s, cli, command, Holding, None).(lock := Some(cli))
  }

  lemma Opens(s: State, cli: Cli, command: Command)
    requires s.lock == None && cli !in s.clis && !command.Create?
    ensures Reaches(s, Opened(s, cli, command))
  {
    var s1 := With(s, cli, command, Waiting, None);
    OneStep(s, Session(Invoke(cli, command, 0)), s1);
    WithTwice(s, cli, command, Waiting, None, Holding, None);
    FurtherStep(s, s1, Session(Acquire(cli)), Opened(s, cli, command));
  }

  /** The lock holder about to finish does finish. */
  lemma Closes(s: State, cli: Cli, command: Command)
    requires s.lock == Some(cli)
    ensures Reaches(With(s, cli, command, Finishing, None), With(s, cli, command, Gone, None).(lock := None))
  {
    WithTwice(s, cli, command, Finishing, None, Gone, None);
    OneStep(With(s, cli, command, Finishing, None), Session(Release(cli)),
            With(s, cli, command, Gone, None).(lock := None));
  }

  // ---------------------------------------------------------------- rm

  /** The state without a container. */
  function Without(s: State, id: Id): State {
    s.(configs := s.configs - {id}, records := s.records - {id})
  }

  lemma Deletes(s: State, cli: Cli, command: Command, id: Id)
    requires s.lock == Some(cli)
    ensures Reaches(With(s, cli, command, Removing(id), None),
                    With(Without(s, id), cli, command, Gone, None).(lock := None))
  {
    var here := With(s, cli, command, Removing(id), None);
    var there := With(Without(s, id), cli, command, Finishing, None);
    WithTwice(s, cli, command, Removing(id), None, Finishing, None);
    OneStep(here, Target(Delete(cli, true, true)), there);
    Closes(Without(s, id), cli, command);
    Onward(here, there, With(Without(s, id), cli, command, Gone, None).(lock := None));
  }

  /** A deletion that fails halfway leaves what it has not got to. */
  lemma DeletesInPart(s: State, cli: Cli, command: Command, id: Id, dropConfig: bool, dropRecord: bool)
    ensures var here := With(s, cli, command, Removing(id), None);
            var there := Next(here, Target(Delete(cli, dropConfig, dropRecord)));
            && (id in there.configs <==> id in s.configs && !dropConfig)
            && (id in there.records <==> id in s.records && !dropRecord)
            && there.configs - {id} == s.configs - {id} && there.records - {id} == s.records - {id}
  {
  }

  /** `rm` of a container that does not run deletes its configuration and record and nothing else. */
  lemma RemoveCompletes(s: State, cli: Cli, id: Id, force: bool)
    requires s.lock == None && cli !in s.clis && id in s.records && s.records[id].status != Running
    ensures Reaches(s, With(Without(s, id), cli, Remove(id, force), Gone, None))
  {
    var command, locked := Remove(id, force), s.(lock := Some(cli));
    var removing := With(locked, cli, command, Removing(id), None);
    Opens(s, cli, command);
    WithTwice(locked, cli, command, Holding, None, Removing(id), None);
    FurtherStep(s, Opened(s, cli, command), Target(ReadRemovable(cli)), removing);
    Deletes(locked, cli, command, id);
    Onward(s, removing, With(Without(s, id), cli, command, Gone, None));
  }

  /** The container's shim has made its final write. */
  function Ended(s: State, id: Id, shim: Identity, status: Status): State {
    s.(records := s.records[id := Record(status, shim)], shims := s.shims[shim := Shim(id, Finished)])
  }

  lemma KillsAndPolls(s: State, cli: Cli, id: Id, shim: Identity, status: Status)
    requires s.lock == Some(cli) && shim in s.shims && s.shims[shim] == Shim(id, Recorded)
    requires status == Stopped || status == Failed
    ensures Reaches(With(s, cli, Remove(id, true), Killing(id), None),
                    With(Ended(s, id, shim, status), cli, Remove(id, true), Removing(id), None))
  {
    var command, ended := Remove(id, true), Ended(s, id, shim, status);
    var here, there := With(s, cli, command, Killing(id), None), With(ended, cli, command, Killing(id), None);
    OneStep(here, Kernel(ShimEnds(shim, status, Written)), there);
    WithTwice(ended, cli, command, Killing(id), None, Removing(id), None);
    FurtherStep(here, there, Target(PollStopped(cli)), With(ended, cli, command, Removing(id), None));
  }

  lemma OpensAndKills(s: State, cli: Cli, id: Id)
    requires s.lock == None && cli !in s.clis && id in s.records && s.records[id].status == Running
    ensures Reaches(s, With(s.(lock := Some(cli)), cli, Remove(id, true), Killing(id), None))
  {
    var command, locked := Remove(id, true), s.(lock := Some(cli));
    Opens(s, cli, command);
    WithTwice(locked, cli, command, Holding, None, Killing(id), None);
    FurtherStep(s, Opened(s, cli, command), Target(ReadRemovable(cli)),
                With(locked, cli, command, Killing(id), None));
  }

  /** `rm --force` of a running container does the same once its shim has made its final write. */
  lemma ForcedRemoveCompletes(s: State, cli: Cli, id: Id, shim: Identity, status: Status)
    requires s.lock == None && cli !in s.clis && id in s.records && s.records[id].status == Running
    requires shim in s.shims && s.shims[shim] == Shim(id, Recorded) && (status == Stopped || status == Failed)
    ensures Reaches(s, With(Without(s, id), cli, Remove(id, true), Gone, None).(
                         shims := s.shims[shim := Shim(id, Finished)]))
  {
    var command, locked := Remove(id, true), s.(lock := Some(cli));
    var killing, ended := With(locked, cli, command, Killing(id), None), Ended(locked, id, shim, status);
    var removing := With(ended, cli, command, Removing(id), None);
    OpensAndKills(s, cli, id);
    KillsAndPolls(locked, cli, id, shim, status);
    Onward(s, killing, removing);
    Deletes(ended, cli, command, id);
    assert ended.records - {id} == s.records - {id};
    Onward(s, removing, With(Without(ended, id), cli, command, Gone, None).(lock := None));
  }

  // ---------------------------------------------------------------- start

  lemma LaunchesShim(s: State, cli: Cli, id: Id, shim: Identity)
    requires FreshProcess(s, shim) && s.lock == Some(cli)
    ensures Reaches(With(s, cli, Start(id), Startable(id), None),
                    With(Begin(s, id, shim), cli, Start(id), Launching(id, shim), None))
  {
    var here := With(s, cli, Start(id), Startable(id), None);
    WithTwice(s, cli, Start(id), Startable(id), None, Launching(id, shim), None);
    OneStep(here, Target(Launch(cli, shim)), With(Begin(s, id, shim), cli, Start(id), Launching(id, shim), None));
  }

  /** The shim has written its running record and its ready byte. */
  function Up(s: State, id: Id, shim: Identity): State {
    s.(shims := s.shims[shim := Shim(id, Recorded)], records := s.records[id := Record(Running, shim)],
       told := s.told + {shim})
  }

  /** A launched shim records that it runs and says so. */
  lemma ShimComesUp(s: State, id: Id, shim: Identity)
    requires shim in s.shims && s.shims[shim] == Shim(id, Launched)
    ensures Reaches(s, Up(s, id, shim))
  {
    var s1 := s.(shims := s.shims[shim := Shim(id, Recorded)],
                 records := s.records[id := Record(Running, shim)]);
    OneStep(s, Kernel(ShimRecords(shim)), s1);
    FurtherStep(s, s1, Kernel(ShimTells(shim)), Up(s, id, shim));
  }

  /** `start` of a created or stopped container ends with a new shim that its record names. */
  lemma StartCompletes(s: State, cli: Cli, id: Id, shim: Identity)
    requires s.lock == None && cli !in s.clis && MayStart(s, id) && FreshProcess(s, shim)
    ensures Reaches(s, With(Up(Begin(s, id, shim), id, shim), cli, Start(id), Gone, None))
  {
    var command, locked := Start(id), s.(lock := Some(cli));
    var startable := With(locked, cli, command, Startable(id), None);
    Opens(s, cli, command);
    WithTwice(locked, cli, command, Holding, None, Startable(id), None);
    FurtherStep(s, Opened(s, cli, command), Target(ReadStartable(cli)), startable);
    LaunchesShim(locked, cli, id, shim);
    var launched := Begin(locked, id, shim);
    Onward(s, startable, With(launched, cli, command, Launching(id, shim), None));
    StartReturns(launched, cli, id, shim);
    assert Up(launched, id, shim).(lock := None) == Up(Begin(s, id, shim), id, shim);
    Onward(s, With(launched, cli, command, Launching(id, shim), None),
           With(Up(launched, id, shim), cli, command, Gone, None).(lock := None));
  }

  lemma StartReturns(s: State, cli: Cli, id: Id, shim: Identity)
    requires s.lock == Some(cli) && shim in s.shims && s.shims[shim] == Shim(id, Launched)
    ensures Reaches(With(s, cli, Start(id), Launching(id, shim), None),
                    With(Up(s, id, shim), cli, Start(id), Gone, None).(lock := None))
  {
    var here, up := With(s, cli, Start(id), Launching(id, shim), None), Up(s, id, shim);
    ShimComesUp(here, id, shim);
    var waiting := With(up, cli, Start(id), Launching(id, shim), None);
    assert Up(here, id, shim) == waiting;
    WithTwice(up, cli, Start(id), Launching(id, shim), None, Finishing, None);
    FurtherStep(here, waiting, Target(LaunchReturns(cli)), With(up, cli, Start(id), Finishing, None));
    Closes(up, cli, Start(id));
    Onward(here, With(up, cli, Start(id), Finishing, None), With(up, cli, Start(id), Gone, None).(lock := None));
  }

  // ---------------------------------------------------------------- reconciliation

  lemma Inspects(s: State, cli: Cli, command: Command, id: Id, shim: Identity)
    requires s.lock == Some(cli) && id in s.records && s.records[id] == Record(Running, shim)
    ensures Reaches(With(s, cli, command, Holding, None),
                    With(s, cli, command, if LooksAlive(s, shim) then Holding else Condemned(id, shim), None))
  {
    var here, inspecting := With(s, cli, command, Holding, None), With(s, cli, command, Inspecting(id, shim), None);
    var pc := if LooksAlive(s, shim) then Holding else Condemned(id, shim);
    WithTwice(s, cli, command, Holding, None, Inspecting(id, shim), None);
    OneStep(here, Session(ReadRunning(cli, id)), inspecting);
    WithTwice(s, cli, command, Inspecting(id, shim), None, pc, None);
    FurtherStep(here, inspecting, Session(JudgeShim(cli)), With(s, cli, command, pc, None));
  }

  lemma Reconciles(s: State, cli: Cli, command: Command, id: Id, shim: Identity)
    requires s.lock == Some(cli) && id in s.records && s.records[id] == Record(Running, shim)
    ensures Reaches(With(s, cli, command, Holding, None),
                    With(if LooksAlive(s, shim) then s
                         else s.(records := s.records[id := Record(Stopped, Identity(0, shim.start))]),
                         cli, command, Holding, None))
  {
    Inspects(s, cli, command, id, shim);
    if !LooksAlive(s, shim) {
      var condemned := With(s, cli, command, Condemned(id, shim), None);
      WithTwice(s, cli, command, Condemned(id, shim), None, Holding, None);
      FurtherStep(With(s, cli, command, Holding, None), condemned, Session(Overwrite(cli, Written)),
                  With(s.(records := s.records[id := Record(Stopped, Identity(0, shim.start))]),
                       cli, command, Holding, None));
    }
  }

  /** `gc` stops the record of a container whose shim is not in the process table, and leaves the
      record of a live one alone. */
  lemma GcCompletes(s: State, cli: Cli, id: Id, shim: Identity)
    requires s.lock == None && cli !in s.clis && id in s.records && s.records[id] == Record(Running, shim)
    ensures var alive := shim.pid > 0 && shim.start > 0 && shim.pid in s.procs && s.procs[shim.pid] == shim.start;
            Reaches(s, With(s, cli, Gc, Gone, None).(
                         records := if alive then s.records
                                    else s.records[id := Record(Stopped, Identity(0, shim.start))]))
  {
    var locked := s.(lock := Some(cli));
    var after := if LooksAlive(locked, shim) then locked
                 else locked.(records := s.records[id := Record(Stopped, Identity(0, shim.start))]);
    Opens(s, cli, Gc);
    Reconciles(locked, cli, Gc, id, shim);
    Onward(s, Opened(s, cli, Gc), With(after, cli, Gc, Holding, None));
    WithTwice(after, cli, Gc, Holding, None, Finishing, None);
    FurtherStep(s, With(after, cli, Gc, Holding, None), Session(Abort(cli)), With(after, cli, Gc, Finishing, None));
    Closes(after, cli, Gc);
    Onward(s, With(after, cli, Gc, Finishing, None), With(after, cli, Gc, Gone, None).(lock := None));
  }

  // ---------------------------------------------------------------- create and run

  /** A creation that nothing in the registry stands in the way of, with the address it gets. */
  ghost predicate Creatable(s: State, id: Id, config: Config, address: nat) {
    && id !in s.issued && Requested(config)
    && Some(address) == (if config.bridge then LeastFreeAddress(s.configs) else Some(0))
    && !NameTaken(s.configs, id, config.name) && !PortTaken(s.configs, id, config.publishes)
  }

  function Stored(s: State, cli: Cli, id: Id, config: Config): State {
    s.(configs := s.configs[id := config], issued := s.issued[id := cli])
  }

  lemma OpensCreation(s: State, cli: Cli, id: Id, command: Command)
    requires s.lock == None && cli !in s.clis && command.Create? && id !in s.issued && Requested(command.config)
    ensures Reaches(s, With(s, cli, command, Holding, Some(id)).(lock := Some(cli), issued := s.issued[id := cli]))
  {
    var issued := s.(issued := s.issued[id := cli]);
    var waiting := With(issued, cli, command, Waiting, Some(id));
    OneStep(s, Session(Invoke(cli, command, id)), waiting);
    WithTwice(issued, cli, command, Waiting, Some(id), Holding, Some(id));
    FurtherStep(s, waiting, Session(Acquire(cli)), With(issued, cli, command, Holding, Some(id)).(lock := Some(cli)));
  }

  lemma Allocates(s: State, cli: Cli, id: Id, command: Command, address: nat)
    requires command.Create?
    requires Some(address) == if command.config.bridge then LeastFreeAddress(s.configs) else Some(0)
    ensures var pc := Allocated(WithAddress(command.config, address), Missed({}, {}, {}));
            Reaches(With(s, cli, command, Holding, Some(id)), With(s, cli, command, pc, Some(id)))
  {
    var pc := Allocated(WithAddress(command.config, address), Missed({}, {}, {}));
    assert s.configs - {} == s.configs;
    WithTwice(s, cli, command, Holding, Some(id), pc, Some(id));
    OneStep(With(s, cli, command, Holding, Some(id)), Creation(Allocate(cli, {}, Some(address))),
            With(s, cli, command, pc, Some(id)));
  }

  lemma StoresConfig(s: State, cli: Cli, id: Id, config: Config, keep: bool, address: nat)
    requires s.lock == None && cli !in s.clis && Creatable(s, id, config, address)
    ensures var stored := Stored(s, cli, id, WithAddress(config, address));
            Reaches(s, With(stored, cli, Create(config, keep), Saved, Some(id)).(lock := Some(cli)))
  {
    var command, locked := Create(config, keep), s.(lock := Some(cli), issued := s.issued[id := cli]);
    var saved := WithAddress(config, address);
    var holding := With(locked, cli, command, Holding, Some(id));
    var leased := With(locked, cli, command, Allocated(saved, Missed({}, {}, {})), Some(id));
    OpensCreation(s, cli, id, command);
    Allocates(locked, cli, id, command, address);
    Onward(s, holding, leased);
    Vets(locked, cli, id, command, saved);
    Onward(s, leased, With(locked, cli, command, Vetted(saved, Missed({}, {}, {})), Some(id)));
    Saves(locked, cli, id, command, saved);
    Onward(s, With(locked, cli, command, Vetted(saved, Missed({}, {}, {})), Some(id)),
           With(locked.(configs := s.configs[id := saved]), cli, command, Saved, Some(id)));
  }

  lemma Vets(s: State, cli: Cli, id: Id, command: Command, config: Config)
    requires !NameTaken(s.configs, id, config.name) && !PortTaken(s.configs, id, config.publishes)
    ensures Reaches(With(s, cli, command, Allocated(config, Missed({}, {}, {})), Some(id)),
                    With(s, cli, command, Vetted(config, Missed({}, {}, {})), Some(id)))
  {
    var before, after := Allocated(config, Missed({}, {}, {})), Vetted(config, Missed({}, {}, {}));
    assert s.configs - {} == s.configs;
    WithTwice(s, cli, command, before, Some(id), after, Some(id));
    OneStep(With(s, cli, command, before, Some(id)), Creation(Vet(cli, {}, {}, false)),
            With(s, cli, command, after, Some(id)));
  }

  lemma Saves(s: State, cli: Cli, id: Id, command: Command, config: Config)
    ensures Reaches(With(s, cli, command, Vetted(config, Missed({}, {}, {})), Some(id)),
                    With(s.(configs := s.configs[id := config]), cli, command, Saved, Some(id)))
  {
    WithTwice(s, cli, command, Vetted(config, Missed({}, {}, {})), Some(id), Saved, Some(id));
    OneStep(With(s, cli, command, Vetted(config, Missed({}, {}, {})), Some(id)), Creation(Save(cli, Written)),
            With(s.(configs := s.configs[id := config]), cli, command, Saved, Some(id)));
  }

  /** `create` stores the configuration with the least free address and a record that says created. */
  lemma CreateCompletes(s: State, cli: Cli, id: Id, config: Config, address: nat)
    requires s.lock == None && cli !in s.clis && Creatable(s, id, config, address)
    ensures var stored := Stored(s, cli, id, WithAddress(config, address));
            Reaches(s, With(stored, cli, Create(config, true), Gone, None).(
                         records := s.records[id := Record(Created, Identity(0, 0))]))
  {
    var command, stored := Create(config, true), Stored(s, cli, id, WithAddress(config, address)).(lock := Some(cli));
    var marked := stored.(records := s.records[id := Record(Created, Identity(0, 0))]);
    StoresConfig(s, cli, id, config, true, address);
    WithTwice(stored, cli, command, Saved, Some(id), Finishing, None);
    FurtherStep(s, With(stored, cli, command, Saved, Some(id)), Creation(MarkCreated(cli, Written)),
                With(marked, cli, command, Finishing, None));
    Closes(marked, cli, command);
    Onward(s, With(marked, cli, command, Finishing, None), With(marked, cli, command, Gone, None).(lock := None));
  }

  lemma ReleasesForRun(s: State, cli: Cli, id: Id, command: Command)
    requires !Keeps(command)
    ensures Reaches(With(s, cli, command, Saved, Some(id)).(lock := Some(cli)),
                    With(s, cli, command, Unlaunched, Some(id)).(lock := None))
  {
    WithTwice(s, cli, command, Saved, Some(id), Unlaunched, Some(id));
    OneStep(With(s, cli, command, Saved, Some(id)).(lock := Some(cli)), Creation(ReleaseForRun(cli)),
            With(s, cli, command, Unlaunched, Some(id)).(lock := None));
  }

  lemma LaunchesUnlocked(s: State, cli: Cli, id: Id, command: Command, shim: Identity)
    requires FreshProcess(s, shim)
    ensures Reaches(With(s, cli, command, Unlaunched, Some(id)), With(Begin(s, id, shim), cli, command, Gone, None))
  {
    WithTwice(s, cli, command, Unlaunched, Some(id), Gone, None);
    OneStep(With(s, cli, command, Unlaunched, Some(id)), Creation(LaunchRun(cli, shim)),
            With(Begin(s, id, shim), cli, command, Gone, None));
  }

  /** `run` stores the configuration likewise and ends with a shim that its record names. */
  lemma RunCompletes(s: State, cli: Cli, id: Id, config: Config, address: nat, shim: Identity)
    requires s.lock == None && cli !in s.clis && Creatable(s, id, config, address) && FreshProcess(s, shim)
    ensures var stored := Stored(s, cli, id, WithAddress(config, address));
            Reaches(s, With(Up(Begin(stored, id, shim), id, shim), cli, Create(config, false), Gone, None))
  {
    var command, stored := Create(config, false), Stored(s, cli, id, WithAddress(config, address));
    var launched := With(Begin(stored, id, shim), cli, command, Gone, None);
    StoresConfig(s, cli, id, config, false, address);
    ReleasesForRun(stored, cli, id, command);
    LaunchesUnlocked(stored, cli, id, command, shim);
    Onward(s, With(stored, cli, command, Saved, Some(id)).(lock := Some(cli)),
           With(stored, cli, command, Unlaunched, Some(id)));
    Onward(s, With(stored, cli, command, Unlaunched, Some(id)), launched);
    ShimComesUp(launched, id, shim);
    assert Up(launched, id, shim) == With(Up(Begin(stored, id, shim), id, shim), cli, command, Gone, None);
    Onward(s, launched, Up(launched, id, shim));
  }
}
