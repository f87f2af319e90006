/** Where the registry theorems need their scans: a creation whose scans cannot read the stored
    configurations can store a second container with the name, the ports or the address of an
    existing one. */
module RegistryLimits {
  import opened Base
  import opened Leases
  import opened Lifecycle
  import opened LifecycleLimits

  /** A creation that is about to allocate, and what it will store under which id. */
  ghost predicate MayAllocate(s: State, cli: Cli, id: Id, config: Config) {
    && At(s, cli).Holding? && CommandOf(s, cli).Create? && CommandOf(s, cli).config == config
    && Own(s, cli) == Some(id)
  }

  lemma LeadsThree(s: State, a: Step, s1: State, b: Step, s2: State, c: Step, t: State)
    requires Enabled(s, a) && s1 == Next(s, a) && Enabled(s1, b) && s2 == Next(s1, b)
    requires Enabled(s2, c) && t == Next(s2, c)
    requires Harmless(s, a) && Harmless(s1, b) && Harmless(s2, c)
    ensures Leads(s, [a, b, c], t)
  {
    assert [c][1..] == [] && [b, c][1..] == [c] && [a, b, c][1..] == [b, c];
    assert Leads(s2, [c], t);
    assert Leads(s1, [b, c], t);
  }

  /** A creation whose name and port scans can read nothing stores whatever it was given. */
  lemma StoresUnread(s: State, cli: Cli, id: Id, config: Config, unread: set<Id>, address: nat)
    returns (steps: seq<Step>, t: State)
    requires MayAllocate(s, cli, id, config)
    requires Some(address) == if config.bridge then LeastFreeAddress(s.configs - unread) else Some(0)
    ensures Leads(s, steps, t) && t.configs == s.configs[id := WithAddress(config, address)]
  {
    var all := s.configs.Keys;
    var allocate, vet := Creation(Allocate(cli, unread, Some(address))), Creation(Vet(cli, all, all, false));
    var save := Creation(Save(cli, Written));
    var s1 := Next(s, allocate);
    assert s1.configs - all == map[];
    var s2 := Next(s1, vet);
    t := Next(s2, save);
    steps := [allocate, vet, save];
    LeadsThree(s, allocate, s1, vet, s2, save, t);
  }

  /** The new configuration would clash with a stored one: by name, by port, or because the
      stored address is the least one left to a scan that passes over it. */
  ghost predicate Contests(configs: map<Id, Config>, other: Id, config: Config)
    requires other in configs
  {
    var stored := configs[other];
    || (config.name.Some? && stored.name == config.name)
    || Collides(stored.publishes, config.publishes)
    || (config.bridge && stored.bridge &&
        forall lower :: POOL + FIRST_HOST <= lower < stored.ipv4Host ==> Holds(configs, lower))
  }

  lemma HeldByAnother(configs: map<Id, Config>, other: Id, address: nat)
    requires other in configs && Holds(configs, address) && configs[other].ipv4Host != address
    ensures Holds(configs - {other}, address)
  {
    var id :| id in configs && configs[id].ipv4Host == address;
    assert id in configs - {other};
  }

  lemma AddressIsFreed(configs: map<Id, Config>, other: Id)
    requires RegistryOk(configs) && other in configs && configs[other].bridge
    ensures !Holds(configs - {other}, configs[other].ipv4Host)
  {
    assert Addressed(configs[other]);
    forall id | id in configs - {other} ensures configs[id].ipv4Host != configs[other].ipv4Host {
      assert Addressed(configs[id]);
    }
  }

  lemma PassedOverAddress(configs: map<Id, Config>, other: Id)
    requires RegistryOk(configs) && other in configs && configs[other].bridge
    requires forall lower :: POOL + FIRST_HOST <= lower < configs[other].ipv4Host ==> Holds(configs, lower)
    ensures LeastFreeAddress(configs - {other}) == Some(configs[other].ipv4Host)
  {
    var rest, address := configs - {other}, configs[other].ipv4Host;
    assert Addressed(configs[other]);
    AddressIsFreed(configs, other);
    LeastFreeAddressMeaning(rest);
    var least := LeastFreeAddress(rest).value;
    if least < address {
      HeldByAnother(configs, other, least);
    }
  }

  /** A creation that contests no stored container is consistent whatever its scans cannot read. */
  lemma UncontestedIsSafe(configs: map<Id, Config>, id: Id, config: Config, missed: Missed<Id>, address: nat)
    requires RegistryOk(configs) && Admissible(configs, id, WithAddress(config, address), missed)
    requires Some(address) == if config.bridge then LeastFreeAddress(configs - missed.addresses) else Some(0)
    requires forall other :: other in configs && other != id ==> !Contests(configs, other, config)
    ensures RegistryOk(configs[id := WithAddress(config, address)])
  {
    var saved := WithAddress(config, address);
    forall other | other in configs && other != id ensures !ClashesUnread(missed, other, configs[other], saved) {
      if config.bridge {
        LeastFreeAddressMeaning(configs - missed.addresses);
        HeldByMore(configs, missed.addresses, address);
      }
      assert !Contests(configs, other, config);
    }
    AdmissionIsExact(configs, id, saved, missed);
  }

  lemma HeldByMore(configs: map<Id, Config>, unread: set<Id>, address: nat)
    requires forall lower :: POOL + FIRST_HOST <= lower < address ==> Holds(configs - unread, lower)
    ensures forall lower :: POOL + FIRST_HOST <= lower < address ==> Holds(configs, lower)
  {
    forall lower: nat | POOL + FIRST_HOST <= lower < address ensures Holds(configs, lower) {
      assert Holds(configs - unread, lower);
    }
  }

  /** From every consistent state in which a creation contests a stored container, unreadable
      files lead to an inconsistent registry in three steps. */
  lemma UnreadFilesEndanger(s: State, cli: Cli, id: Id, config: Config, other: Id)
    returns (steps: seq<Step>, t: State)
    requires RegistryOk(s.configs) && MayAllocate(s, cli, id, config)
    requires other in s.configs && other != id && Contests(s.configs, other, config)
    ensures Leads(s, steps, t) && !RegistryOk(t.configs)
  {
    var stored := s.configs[other];
    var unread := if config.bridge && stored.bridge && LeastFreeAddress(s.configs - {other}) == Some(stored.ipv4Host)
                  then {other} else s.configs.Keys;
    if config.bridge && stored.bridge && forall lower :: POOL + FIRST_HOST <= lower < stored.ipv4Host ==>
                                                           Holds(s.configs, lower) {
      PassedOverAddress(s.configs, other);
    }
    FirstAddress(s.configs - s.configs.Keys);
    var address := if config.bridge then LeastFreeAddress(s.configs - unread).value else 0;
    steps, t := StoresUnread(s, cli, id, config, unread, address);
    assert t.configs[other] == stored && t.configs[id] == WithAddress(config, address);
  }

  // ---------------------------------------------------------------- a witness

  lemma {:induction false} ReachableLeads(s: State, steps: seq<Step>, t: State)
    requires Reachable(s) && Leads(s, steps, t)
    ensures Reachable(t)
    decreases |steps|
  {
    if steps != [] {
      Extend(s, steps[0]);
      ReachableLeads(Next(s, steps[0]), steps[1..], t);
    }
  }

  const WEB := Config(Some("web"), true, 0, [])

  lemma SecondCreation() returns (s: State)
    ensures Reachable(s) && MayAllocate(s, 1, 8, WEB) && s.configs == map[7 := AsFirst(WEB)]
  {
    s := CreatedContainer(WEB);
    s := Take(s, Session(Invoke(1, Create(WEB, true), 8)));
    s := Take(s, Session(Acquire(1)));
  }

  /** Two containers with one name and one address: the second was created while the first one's
      config.json could not be read. */
  lemma UnreadClashIsReachable() returns (t: State)
    ensures Reachable(t) && t.configs == map[7 := AsFirst(WEB), 8 := AsFirst(WEB)] && !RegistryOk(t.configs)
  {
    var s := SecondCreation();
    FirstAddress(s.configs - {7});
    var steps;
    steps, t := StoresUnread(s, 1, 8, WEB, {7}, POOL + FIRST_HOST);
    ReachableLeads(s, steps, t);
    assert 7 in t.configs && 8 in t.configs && t.configs[7].name == t.configs[8].name;
  }
}
