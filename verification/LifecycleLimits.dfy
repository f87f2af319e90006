/** Which death of a command breaks the lifecycle theorems: exactly that of a `start` whose shim
    has not yet written its running record. From every state that an orderly run reaches, that
    death can be continued to two active shims of one container, and no other death can. */
module LifecycleLimits {
  import opened Base
  import opened Leases
  import opened Lifecycle
  import opened LifecycleProof

  // ---------------------------------------------------------------- continuations

  /** `steps` take `s` to `t` without another perilous death. */
  ghost predicate Leads(s: State, steps: seq<Step>, t: State)
    decreases |steps|
  {
    if steps == [] then s == t
    else Enabled(s, steps[0]) && Harmless(s, steps[0]) && Leads(Next(s, steps[0]), steps[1..], t)
  }

  ghost predicate Clash(s: State, a: Identity, b: Identity) {
    a != b && Active(s, a) && Active(s, b) && s.shims[a].id == s.shims[b].id
  }

  /** Some continuation ends with two active shims of one container. */
  ghost predicate Endangered(s: State) {
    exists steps, t, a, b :: Leads(s, steps, t) && Clash(t, a, b)
  }

  lemma {:induction false} LeadsKeepsProtocol(s: State, steps: seq<Step>, t: State)
    requires ProtocolInv(s) && Leads(s, steps, t)
    ensures ProtocolInv(t)
    decreases |steps|
  {
    if steps != [] {
      StepKeepsProtocol(s, steps[0]);
      LeadsKeepsProtocol(Next(s, steps[0]), steps[1..], t);
    }
  }

  lemma SafeStateIsNotEndangered(s: State)
    requires ProtocolInv(s)
    ensures !Endangered(s)
  {
    forall steps, t, a, b | Leads(s, steps, t) ensures !Clash(t, a, b) {
      LeadsKeepsProtocol(s, steps, t);
    }
  }

  // ---------------------------------------------------------------- the second start

  lemma {:induction false} Bound(numbers: set<nat>) returns (n: nat)
    ensures forall x :: x in numbers ==> x < n
  {
    if numbers == {} {
      n := 0;
    } else {
      var x :| x in numbers;
      var rest := Bound(numbers - {x});
      n := if x < rest then rest else x + 1;
      assert forall y :: y in numbers ==> y == x || y in numbers - {x};
    }
  }

  lemma FreshIdentity(s: State) returns (process: Identity)
    ensures FreshProcess(s, process)
  {
    var pid := Bound(s.procs.Keys);
    var starts := set identity | identity in s.spent :: identity.start;
    var start := Bound(starts);
    process := Identity(pid + 1, start + 1);
    assert pid + 1 !in s.procs.Keys;
    assert start + 1 !in starts;
  }

  /** With the lock free, a container that may be started gets a shim in four steps. */
  lemma SecondStart(s: State, id: Id, cli: Cli, shim: Identity) returns (steps: seq<Step>, t: State)
    requires s.lock == None && MayStart(s, id) && cli !in s.clis && FreshProcess(s, shim)
    ensures Leads(s, steps, t) && t.shims == s.shims[shim := Shim(id, Launched)]
  {
    var invoke, acquire := Session(Invoke(cli, Start(id), 0)), Session(Acquire(cli));
    var read, launch := Target(ReadStartable(cli)), Target(Launch(cli, shim));
    var s1 := Next(s, invoke);
    var s2 := Next(s1, acquire);
    var s3 := Next(s2, read);
    t := Next(s3, launch);
    steps := [invoke, acquire, read, launch];
    LeadsFour(s, invoke, s1, acquire, s2, read, s3, launch, t);
  }

  lemma LeadsFour(s: State, a: Step, s1: State, b: Step, s2: State, c: Step, s3: State, d: Step, t: State)
    requires Enabled(s, a) && s1 == Next(s, a) && Enabled(s1, b) && s2 == Next(s1, b)
    requires Enabled(s2, c) && s3 == Next(s2, c) && Enabled(s3, d) && t == Next(s3, d)
    requires Harmless(s, a) && Harmless(s1, b) && Harmless(s2, c) && Harmless(s3, d)
    ensures Leads(s, [a, b, c, d], t)
  {
    assert [d][1..] == [] && [c, d][1..] == [d] && [b, c, d][1..] == [c, d] && [a, b, c, d][1..] == [b, c, d];
    assert Leads(s3, [d], t);
    assert Leads(s2, [c, d], t);
    assert Leads(s1, [b, c, d], t);
  }

  lemma PerilousDeathEndangers(s: State, cli: Cli)
    requires ProtocolInv(s) && cli in s.clis && Perilous(s, cli)
    ensures Endangered(Next(s, Session(Die(cli))))
  {
    var dead := Next(s, Session(Die(cli)));
    var id, first := At(s, cli).id, At(s, cli).shim;
    assert s.lock == Some(cli) && MayStart(s, id) && s.shims[first].id == id;
    var other := Bound(dead.clis.Keys);
    var second := FreshIdentity(dead);
    var steps, t := SecondStart(dead, id, other, second);
    assert Clash(t, first, second);
  }

  /** After any orderly run, killing a command puts a container in danger of two active shims if
      and only if it is a `start` that waits for a shim which has recorded nothing. */
  lemma DeathIsExact(states: seq<State>, steps: seq<Step>, cli: Cli)
    requires IsOrderlyRun(states, steps) && cli in states[|steps|].clis
    ensures Endangered(Next(states[|steps|], Session(Die(cli)))) <==> Perilous(states[|steps|], cli)
  {
    var s := states[|steps|];
    RunKeepsProtocol(states, steps, |steps|);
    if Perilous(s, cli) {
      PerilousDeathEndangers(s, cli);
    } else {
      StepKeepsProtocol(s, Session(Die(cli)));
      SafeStateIsNotEndangered(Next(s, Session(Die(cli))));
    }
  }

  // ---------------------------------------------------------------- a witness

  ghost predicate Reachable(s: State) {
    exists states, steps :: IsOrderlyRun(states, steps) && states[|steps|] == s
  }

  lemma Extend(s: State, step: Step)
    requires Reachable(s) && Enabled(s, step) && Harmless(s, step)
    ensures Reachable(Next(s, step))
  {
    var states, steps :| IsOrderlyRun(states, steps) && states[|steps|] == s;
    var longer := states + [Next(s, step)];
    assert Follows(s, step, Next(s, step));
    assert IsOrderlyRun(longer, steps + [step]);
    assert longer[|steps + [step]|] == Next(s, step);
  }

  lemma Take(s: State, step: Step) returns (next: State)
    requires Reachable(s) && Enabled(s, step) && Harmless(s, step)
    ensures next == Next(s, step) && Reachable(next)
  {
    Extend(s, step);
    next := Next(s, step);
  }

  /** The state of a registry in which command 0 is creating container 7. */
  function Creating(config: Config, pc: Pc, own: Option<Id>, lock: Option<Cli>, configs: map<Id, Config>,
                    records: map<Id, Record>): State
  {
    State(map[], {}, lock, map[0 := Process(Create(config, true), pc, own)], configs,
          records, map[], {}, map[7 := 0], map[])
  }

  const FRESH_RECORD := Record(Created, Identity(0, 0))
  const ALL_READ: Missed<Id> := Missed({}, {}, {})

  /** The configuration as the first container in the registry stores it. */
  function AsFirst(config: Config): Config {
    WithAddress(config, if config.bridge then POOL + FIRST_HOST else 0)
  }

  lemma AllocatingContainer(config: Config) returns (s: State)
    requires Requested(config)
    ensures Reachable(s) && s == Creating(config, Holding, Some(7), Some(0), map[], map[])
  {
    assert IsOrderlyRun([INITIAL_STATE], []);
    assert Reachable(INITIAL_STATE);
    s := Take(INITIAL_STATE, Session(Invoke(0, Create(config, true), 7)));
    assert s == Creating(config, Waiting, Some(7), None, map[], map[]);
    s := Take(s, Session(Acquire(0)));
  }

  lemma FirstAddress(configs: map<Id, Config>)
    requires configs == map[]
    ensures LeastFreeAddress(configs) == Some(POOL + FIRST_HOST)
  {
    LeastFreeAddressMeaning(configs);
    assert !Holds(configs, POOL + FIRST_HOST);
  }

  lemma AllocatedContainer(config: Config) returns (s: State)
    requires Requested(config)
    ensures Reachable(s)
    ensures s == Creating(config, Allocated(AsFirst(config), ALL_READ), Some(7), Some(0), map[], map[])
  {
    s := AllocatingContainer(config);
    FirstAddress(s.configs - {});
    s := Take(s, Creation(Allocate(0, {}, Some(AsFirst(config).ipv4Host))));
  }

  lemma ConfiguredContainer(config: Config) returns (s: State)
    requires Requested(config)
    ensures Reachable(s) && s == Creating(config, Saved, Some(7), Some(0), map[7 := AsFirst(config)], map[])
  {
    s := AllocatedContainer(config);
    s := Take(s, Creation(Vet(0, {}, {}, false)));
    assert s == Creating(config, Vetted(AsFirst(config), ALL_READ), Some(7), Some(0), map[], map[]);
    s := Take(s, Creation(Save(0, Written)));
  }

  /** Container 7 was created and never started, and the lock is free. */
  lemma CreatedContainer(config: Config) returns (s: State)
    requires Requested(config)
    ensures Reachable(s)
    ensures s == Creating(config, Gone, None, None, map[7 := AsFirst(config)], map[7 := FRESH_RECORD])
  {
    s := ConfiguredContainer(config);
    s := Take(s, Creation(MarkCreated(0, Written)));
    assert s == Creating(config, Finishing, None, Some(0), map[7 := AsFirst(config)], map[7 := FRESH_RECORD]);
    s := Take(s, Session(Release(0)));
  }

  const PLAIN := Config(None, false, 0, [])
  const FIRST_SHIM := Identity(100, 1)
  const ONE_SHIM := map[FIRST_SHIM := Shim(7, Launched)]

  /** Commands 1 and 2 both start container 7, for which no shim has been launched. */
  function Racing(one: Pc, two: Pc, lock: Option<Cli>): State {
    State(map[], {}, lock,
          map[0 := Process(Create(PLAIN, true), Gone, None), 1 := Process(Start(7), one, None),
              2 := Process(Start(7), two, None)],
          map[7 := PLAIN], map[7 := FRESH_RECORD], map[], {}, map[7 := 0], map[])
  }

  /** The same once command 1 has launched a shim that has written nothing yet. */
  function Raced(one: Pc, two: Pc, lock: Option<Cli>): State {
    Racing(one, two, lock).(procs := map[100 := 1], spent := {FIRST_SHIM}, shims := ONE_SHIM,
                            latest := map[7 := FIRST_SHIM])
  }

  lemma WaitingStarts() returns (s: State)
    ensures Reachable(s) && s == Racing(Waiting, Waiting, None)
  {
    s := CreatedContainer(PLAIN);
    s := Take(s, Session(Invoke(1, Start(7), 0)));
    s := Take(s, Session(Invoke(2, Start(7), 0)));
  }

  lemma StartableStart() returns (s: State)
    ensures Reachable(s) && s == Racing(Startable(7), Waiting, Some(1))
  {
    s := WaitingStarts();
    s := Take(s, Session(Acquire(1)));
    assert s == Racing(Holding, Waiting, Some(1));
    s := Take(s, Target(ReadStartable(1)));
  }

  lemma LaunchingStart() returns (s: State)
    ensures Reachable(s) && s == Raced(Launching(7, FIRST_SHIM), Waiting, Some(1))
  {
    s := StartableStart();
    s := Take(s, Target(Launch(1, FIRST_SHIM)));
  }

  /** Perilous deaths do happen: two `start`s race, and the first is killed while it waits. */
  lemma PerilousDeathIsReachable() returns (s: State)
    ensures Reachable(s) && 1 in s.clis && Perilous(s, 1) && Endangered(Next(s, Session(Die(1))))
  {
    s := LaunchingStart();
    var states, steps :| IsOrderlyRun(states, steps) && states[|steps|] == s;
    DeathIsExact(states, steps, 1);
  }
}
