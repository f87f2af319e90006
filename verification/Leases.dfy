/** The three allocators of src/state/store.c: container names, bridge addresses and
    published ports, together with the packets that the generated nftables rules select.

    A registry is a map from container id to stored configuration. The scanning code walks
    a directory listing `order`, in whatever order readdir returns it; the specification
    functions never mention the order. Each scan passes over the configurations that it cannot
    read at that moment, the set `unread`, as if they were not there. */
module Leases {
  import opened Base

  const TCP := 6
  const UDP := 17
  const POOL := 0x0a2c_0000
  const FIRST_HOST := 2
  const LAST_HOST := 254

  datatype Publish = Publish(hostIpv4: nat, hostPort: nat, containerPort: nat, protocol: nat)

  datatype Config = Config(name: Option<string>, bridge: bool, ipv4Host: nat, publishes: seq<Publish>)

  datatype Packet = Packet(destination: nat, port: nat, protocol: nat)

  // ---------------------------------------------------------------- published ports

  /** What mc_parse_publish guarantees of a parsed --publish value. */
  predicate WellFormedPublish(p: Publish) {
    && p.hostIpv4 < 0x1_0000_0000
    && 0 < p.hostPort < 0x1_0000
    && 0 < p.containerPort < 0x1_0000
    && (p.protocol == TCP || p.protocol == UDP)
  }

  /** The conflict test used both inside one command line and across stored configurations. */
  predicate Overlaps(a: Publish, b: Publish) {
    && a.protocol == b.protocol
    && a.hostPort == b.hostPort
    && (a.hostIpv4 == 0 || b.hostIpv4 == 0 || a.hostIpv4 == b.hostIpv4)
  }

  /** The packets selected by the prerouting rule generated for `p`: the rule text names tcp
      for protocol 6 and udp otherwise, and omits the address clause for 0.0.0.0. */
  predicate PreroutingSelects(p: Publish, packet: Packet) {
    && packet.protocol == (if p.protocol == TCP then TCP else UDP)
    && packet.port == p.hostPort
    && (p.hostIpv4 == 0 || packet.destination == p.hostIpv4)
  }

  /** The packets selected by the output rule: a wildcard publish only matches local addresses. */
  predicate OutputSelects(p: Publish, packet: Packet, isLocal: nat -> bool) {
    && packet.protocol == (if p.protocol == TCP then TCP else UDP)
    && packet.port == p.hostPort
    && (if p.hostIpv4 == 0 then isLocal(packet.destination) else packet.destination == p.hostIpv4)
  }

  /** Both rules of a publish select by protocol, port and address; the output rule of a wildcard
      publish selects only what goes to an address of the host. */
  lemma OutputIsLocalPrerouting(p: Publish, packet: Packet, isLocal: nat -> bool)
    requires WellFormedPublish(p)
    ensures PreroutingSelects(p, packet) <==>
            packet.protocol == p.protocol && packet.port == p.hostPort && p.hostIpv4 in {0, packet.destination}
    ensures OutputSelects(p, packet, isLocal) <==>
            PreroutingSelects(p, packet) && (p.hostIpv4 == 0 ==> isLocal(packet.destination))
  {}

  /** The textual conflict test is exact: two publishes conflict precisely when some packet
      would be selected by the rules of both. */
  lemma OverlapIsSharedPacket(a: Publish, b: Publish)
    requires WellFormedPublish(a) && WellFormedPublish(b)
    ensures Overlaps(a, b) <==> exists packet :: PreroutingSelects(a, packet) && PreroutingSelects(b, packet)
  {
    if Overlaps(a, b) {
      var packet := Packet(if a.hostIpv4 == 0 then b.hostIpv4 else a.hostIpv4, a.hostPort, a.protocol);
      assert PreroutingSelects(a, packet) && PreroutingSelects(b, packet);
    }
  }

  predicate PairwiseDisjoint(publishes: seq<Publish>) {
    forall i, j :: 0 <= i < j < |publishes| ==> !Overlaps(publishes[i], publishes[j])
  }

  predicate Collides(a: seq<Publish>, b: seq<Publish>) {
    exists i, j :: 0 <= i < |a| && 0 <= j < |b| && Overlaps(a[i], b[j])
  }

  /** The --publish part of the argument loop: a value is refused as soon as it overlaps
      one collected earlier. */
  method CollectPublishes(parsed: seq<Publish>) returns (ok: bool, publishes: seq<Publish>)
    ensures ok <==> PairwiseDisjoint(parsed)
    ensures ok ==> publishes == parsed
  {
    publishes := [];
    for index := 0 to |parsed|
      invariant publishes == parsed[..index]
      invariant PairwiseDisjoint(publishes)
    {
      for existing := 0 to |publishes|
        invariant forall k :: 0 <= k < existing ==> !Overlaps(publishes[k], parsed[index])
      {
        if Overlaps(publishes[existing], parsed[index]) {
          assert parsed[existing] == publishes[existing];
          return false, publishes;
        }
      }
      publishes := publishes + [parsed[index]];
    }
    return true, publishes;
  }

  // ---------------------------------------------------------------- what a scan must find

  ghost predicate NameTaken<K>(configs: map<K, Config>, own: K, name: Option<string>) {
    name.Some? && exists id :: id in configs && id != own && configs[id].name == name
  }

  ghost predicate PortTaken<K>(configs: map<K, Config>, own: K, publishes: seq<Publish>) {
    exists id :: id in configs && id != own && Collides(configs[id].publishes, publishes)
  }

  predicate InPool(address: nat) {
    address / 256 == POOL / 256
  }

  /** The last octets that stored configurations lease from 10.44.0.0/24. */
  ghost function Leased<K>(configs: map<K, Config>): set<nat> {
    set id | id in configs && InPool(configs[id].ipv4Host) :: configs[id].ipv4Host % 256
  }

  /** First-fit search from `candidate` to 254. */
  ghost function FirstFit(used: set<nat>, candidate: nat): (r: Option<nat>)
    ensures r.Some? ==> candidate <= r.value <= LAST_HOST && r.value !in used
    ensures r.Some? ==> forall k :: candidate <= k < r.value ==> k in used
    ensures r.None? ==> forall k :: candidate <= k <= LAST_HOST ==> k in used
    decreases LAST_HOST + 1 - candidate
  {
    if candidate > LAST_HOST then None
    else if candidate !in used then Some(candidate)
    else FirstFit(used, candidate + 1)
  }

  ghost function LeastFreeAddress<K>(configs: map<K, Config>): Option<nat> {
    match FirstFit(Leased(configs), FIRST_HOST)
    case Some(host) => Some(POOL + host)
    case None => None
  }

  /** Allocation refuses exactly when all 253 host addresses are leased, and otherwise
      returns the least one that no configuration holds. */
  lemma LeastFreeAddressMeaning<K>(configs: map<K, Config>)
    ensures LeastFreeAddress(configs).None? <==>
            forall address :: POOL + FIRST_HOST <= address <= POOL + LAST_HOST ==> Holds(configs, address)
    ensures var r := LeastFreeAddress(configs);
            r.Some? ==>
              && POOL + FIRST_HOST <= r.value <= POOL + LAST_HOST
              && !Holds(configs, r.value)
              && forall lower :: POOL + FIRST_HOST <= lower < r.value ==> Holds(configs, lower)
  {
    var fit := FirstFit(Leased(configs), FIRST_HOST);
    forall host: nat | FIRST_HOST <= host <= LAST_HOST
      ensures host in Leased(configs) <==> Holds(configs, POOL + host)
    {
      LeasedIsHeld(configs, host);
    }
    if fit.Some? {
      forall lower: nat | POOL + FIRST_HOST <= lower < POOL + fit.value ensures Holds(configs, lower) {
        assert lower - POOL in Leased(configs);
        assert POOL + (lower - POOL) == lower;
      }
    } else {
      forall address: nat | POOL + FIRST_HOST <= address <= POOL + LAST_HOST ensures Holds(configs, address) {
        assert address - POOL in Leased(configs);
        assert POOL + (address - POOL) == address;
      }
    }
  }

  ghost predicate Holds<K>(configs: map<K, Config>, address: nat) {
    exists id :: id in configs && configs[id].ipv4Host == address
  }

  lemma LeasedIsHeld<K>(configs: map<K, Config>, host: nat)
    requires host < 256
    ensures host in Leased(configs) <==> Holds(configs, POOL + host)
  {
    if host in Leased(configs) {
      var id :| id in configs && InPool(configs[id].ipv4Host) && configs[id].ipv4Host % 256 == host;
      assert configs[id].ipv4Host == POOL + host;
    }
    if Holds(configs, POOL + host) {
      var id :| id in configs && configs[id].ipv4Host == POOL + host;
      assert InPool(configs[id].ipv4Host) && configs[id].ipv4Host % 256 == host;
    }
  }

  // ---------------------------------------------------------------- the scanning loops

  /** `order` is a readdir listing of the containers directory: it names every container and
      may name other entries too, "." and ".." among them. */
  predicate Lists(order: seq<string>, configs: map<string, Config>) {
    forall id :: id in configs ==> id in order && id != [] && id[0] != '.'
  }

  /** The configuration that reading the entry's config.json gives, if it can be read. */
  function Read(configs: map<string, Config>, unread: set<string>, entry: string): (root: Option<Config>)
    ensures root.Some? <==> entry in configs - unread
    ensures root.Some? ==> root.value == (configs - unread)[entry]
  {
    if entry in configs && entry !in unread then Some(configs[entry]) else None
  }

  method NameIsTaken(order: seq<string>, configs: map<string, Config>, unread: set<string>,
                     name: Option<string>, own: string)
    returns (taken: bool)
    requires Lists(order, configs)
    ensures taken <==> NameTaken(configs - unread, own, name)
  {
    if name.None? { return false; }
    for index := 0 to |order|
      invariant forall k :: 0 <= k < index && order[k] in configs - unread && order[k] != own ==>
                              configs[order[k]].name != name
    {
      var entry := order[index];
      if entry == [] || entry[0] == '.' || entry == own { continue; }
      var root := Read(configs, unread, entry);
      if root.Some? && root.value.name == name { return true; }
    }
    return false;
  }

  method PublishedPortIsTaken(order: seq<string>, configs: map<string, Config>, unread: set<string>,
                              requested: seq<Publish>, own: string)
    returns (taken: bool)
    requires Lists(order, configs)
    ensures taken <==> PortTaken(configs - unread, own, requested)
  {
    if |requested| == 0 { return false; }
    for index := 0 to |order|
      invariant forall k :: 0 <= k < index && order[k] in configs - unread && order[k] != own ==>
                              !Collides(configs[order[k]].publishes, requested)
    {
      var entry := order[index];
      if entry == [] || entry[0] == '.' || entry == own { continue; }
      var root := Read(configs, unread, entry);
      if root.None? { continue; }
      var stored := root.value.publishes;
      for existing := 0 to |stored|
        invariant forall i, j :: 0 <= i < existing && 0 <= j < |requested| ==> !Overlaps(stored[i], requested[j])
      {
        for wanted := 0 to |requested|
          invariant forall j :: 0 <= j < wanted ==> !Overlaps(stored[existing], requested[j])
        {
          if Overlaps(stored[existing], requested[wanted]) { return true; }
        }
      }
    }
    return false;
  }

  /** The directory loop of mc_state_allocate_ip, which marks the leased octets. */
  method MarkLeased(order: seq<string>, configs: map<string, Config>, unread: set<string>)
    returns (used: array<bool>)
    requires Lists(order, configs)
    ensures fresh(used) && used.Length == 256
    ensures forall host :: 0 <= host < 256 ==> (used[host] <==> host in Leased(configs - unread))
  {
    used := new bool[256](_ => false);
    for index := 0 to |order|
      invariant forall host :: 0 <= host < 256 && used[host] ==> host in Leased(configs - unread)
      invariant forall k :: 0 <= k < index && order[k] in configs - unread && InPool(configs[order[k]].ipv4Host) ==>
                              used[configs[order[k]].ipv4Host % 256]
    {
      var entry := order[index];
      if entry == [] || entry[0] == '.' { continue; }
      var root := Read(configs, unread, entry);
      if root.Some? && InPool(root.value.ipv4Host) {
        assert (configs - unread)[entry] == root.value;
        used[root.value.ipv4Host % 256] := true;
      }
    }
  }

  /** mc_state_allocate_ip: mark the leased octets, then take the first unmarked one. */
  method AllocateIp(order: seq<string>, configs: map<string, Config>, unread: set<string>)
    returns (address: Option<nat>)
    requires Lists(order, configs)
    ensures address == LeastFreeAddress(configs - unread)
  {
    var used := MarkLeased(order, configs, unread);
    ghost var leased := Leased(configs - unread);
    for index := 0 to 253
      invariant FirstFit(leased, FIRST_HOST) == FirstFit(leased, FIRST_HOST + index)
    {
      var candidate := FIRST_HOST + index;
      if !used[candidate] { return Some(POOL + candidate); }
    }
    return None;
  }

  // ---------------------------------------------------------------- the registry invariant

  ghost predicate DistinctNames<K>(configs: map<K, Config>) {
    forall a, b :: a in configs && b in configs && a != b && configs[a].name.Some? ==>
                     configs[a].name != configs[b].name
  }

  ghost predicate DistinctAddresses<K>(configs: map<K, Config>) {
    forall a, b :: a in configs && b in configs && a != b && configs[a].bridge && configs[b].bridge ==>
                     configs[a].ipv4Host != configs[b].ipv4Host
  }

  ghost predicate DisjointPublishes<K>(configs: map<K, Config>) {
    forall a, b :: a in configs && b in configs && a != b ==> !Collides(configs[a].publishes, configs[b].publishes)
  }

  /** What the command line guarantees of the configuration it builds, address aside. */
  predicate Requested(config: Config) {
    && PairwiseDisjoint(config.publishes)
    && (forall k :: 0 <= k < |config.publishes| ==> WellFormedPublish(config.publishes[k]))
    && (!config.bridge ==> config.publishes == [])
  }

  predicate Addressed(config: Config) {
    if config.bridge then POOL + FIRST_HOST <= config.ipv4Host <= POOL + LAST_HOST else config.ipv4Host == 0
  }

  ghost predicate RegistryOk<K>(configs: map<K, Config>) {
    && DistinctNames(configs)
    && DistinctAddresses(configs)
    && DisjointPublishes(configs)
    && forall id :: id in configs ==> Requested(configs[id]) && Addressed(configs[id])
  }

  /** The allocated configuration fits the registry, its name and ports still to be checked. */
  ghost predicate Fits<K>(configs: map<K, Config>, config: Config) {
    Requested(config) && Addressed(config) && (config.bridge ==> !Holds(configs, config.ipv4Host))
  }

  /** The configurations that each of the three scans of one creation could not read. */
  datatype Missed<K(==)> = Missed(addresses: set<K>, names: set<K>, ports: set<K>)

  ghost predicate Complete<K>(configs: map<K, Config>, missed: Missed<K>) {
    missed.addresses !! configs.Keys && missed.names !! configs.Keys && missed.ports !! configs.Keys
  }

  /** What the scans have established when mc_state_save_config writes config.json. */
  ghost predicate Admissible<K>(configs: map<K, Config>, id: K, config: Config, missed: Missed<K>) {
    && Fits(configs - missed.addresses, config)
    && !NameTaken(configs - missed.names, id, config.name)
    && !PortTaken(configs - missed.ports, id, config.publishes)
  }

  /** The stored configuration of `other` clashes with the new one in just what its scan could
      not read. */
  ghost predicate ClashesUnread<K>(missed: Missed<K>, other: K, stored: Config, config: Config) {
    || (other in missed.addresses && config.bridge && stored.bridge && stored.ipv4Host == config.ipv4Host)
    || (other in missed.names && config.name.Some? && stored.name == config.name)
    || (other in missed.ports && Collides(stored.publishes, config.publishes))
  }

  ghost predicate SomeClashUnread<K>(configs: map<K, Config>, id: K, config: Config, missed: Missed<K>) {
    exists other :: other in configs && other != id && ClashesUnread(missed, other, configs[other], config)
  }

  lemma OverlapsSymmetric(a: seq<Publish>, b: seq<Publish>)
    requires Collides(a, b)
    ensures Collides(b, a)
  {
    var i, j :| 0 <= i < |a| && 0 <= j < |b| && Overlaps(a[i], b[j]);
    assert Overlaps(b[j], a[i]);
  }

  /** The scans rule out every clash but the unread ones. */
  lemma ReadIsCompatible<K>(configs: map<K, Config>, id: K, config: Config, missed: Missed<K>, other: K)
    requires Admissible(configs, id, config, missed) && other in configs && other != id
    requires !ClashesUnread(missed, other, configs[other], config)
    ensures config.name.Some? ==> configs[other].name != config.name
    ensures config.bridge && configs[other].bridge ==> configs[other].ipv4Host != config.ipv4Host
    ensures !Collides(configs[other].publishes, config.publishes)
    ensures !Collides(config.publishes, configs[other].publishes)
  {
    assert other !in missed.names ==> other in configs - missed.names;
    assert other !in missed.addresses ==> other in configs - missed.addresses;
    assert other !in missed.ports ==> other in configs - missed.ports;
    if Collides(config.publishes, configs[other].publishes) {
      OverlapsSymmetric(config.publishes, configs[other].publishes);
    }
  }

  /** Saving a configuration that passed the three scans keeps the registry consistent if and
      only if it does not clash with one that a scan could not read. */
  lemma AdmissionIsExact<K>(configs: map<K, Config>, id: K, config: Config, missed: Missed<K>)
    requires RegistryOk(configs) && Admissible(configs, id, config, missed)
    ensures RegistryOk(configs[id := config]) <==> !SomeClashUnread(configs, id, config, missed)
  {
    var after := configs[id := config];
    if SomeClashUnread(configs, id, config, missed) {
      var other :| other in configs && other != id && ClashesUnread(missed, other, configs[other], config);
      assert other in after && id in after && after[other] == configs[other] && after[id] == config;
    } else {
      forall other | other in configs && other != id
        ensures config.name.Some? ==> configs[other].name != config.name
        ensures config.bridge && configs[other].bridge ==> configs[other].ipv4Host != config.ipv4Host
        ensures !Collides(configs[other].publishes, config.publishes)
        ensures !Collides(config.publishes, configs[other].publishes)
      {
        ReadIsCompatible(configs, id, config, missed, other);
      }
    }
  }

  lemma RemovalKeepsRegistry<K>(configs: map<K, Config>, id: K)
    requires RegistryOk(configs)
    ensures RegistryOk(configs - {id})
  {}

  /** DNAT rules never compete: for any packet, at most one stored publish of one container
      has a prerouting rule that selects it, and the same holds of the output rules. */
  lemma DnatRulesNeverCompete<K>(configs: map<K, Config>, packet: Packet, isLocal: nat -> bool,
                                 a: K, i: nat, b: K, j: nat)
    requires RegistryOk(configs)
    requires a in configs && i < |configs[a].publishes|
    requires b in configs && j < |configs[b].publishes|
    requires var p, q := configs[a].publishes[i], configs[b].publishes[j];
             || (PreroutingSelects(p, packet) && PreroutingSelects(q, packet))
             || (OutputSelects(p, packet, isLocal) && OutputSelects(q, packet, isLocal))
    ensures a == b && i == j
  {
    var p, q := configs[a].publishes[i], configs[b].publishes[j];
    assert WellFormedPublish(p) && WellFormedPublish(q);
    assert Overlaps(p, q) && Overlaps(q, p);
    if a != b {
      assert Collides(configs[a].publishes, configs[b].publishes);
    }
  }
}
