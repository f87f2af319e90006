/** The stored configuration: config_json, load_arrays and mc_state_load_config of
    src/state/store.c, with a JSON document as a tree. */
module Stored {
  import opened Base
  import opened Capabilities
  import opened Launch
  import opened Mounts
  import opened Numerals
  import opened Transport
  import Delivery
  import Leases

  const U16_LIMIT := 0x1_0000
  const U8_LIMIT := 0x100
  const BIND := 1 // MC_MOUNT_BIND
  const TMPFS := 2

  /** The member names that are read back. */
  datatype Key =
    | IdKey | NameKey | RootfsKey | HostnameKey | WorkdirKey | UserKey | GroupKey | MaskKey | ReadonlyRootKey
    | NetworkKey | Ipv4Key | ResourcesKey | EnvironmentKey | CommandKey | PublishesKey | MountsKey | DeniesKey
    | MemoryKey | SwapKey | CpuKey | PidsKey
    | HostIpv4Key | HostPortKey | ContainerPortKey | ProtocolKey
    | TypeKey | SourceKey | TargetKey | SizeKey | ReadonlyKey

  datatype Json =
    | Number(n: nat)
    | Bool(b: bool)
    | Text(s: string)
    | Array(items: seq<Json>)
    | Object(members: map<Key, Json>)

  // ---------------------------------------------------------------- saving

  function SavedTexts(texts: seq<string>): Json {
    Array(seq(|texts|, k requires 0 <= k < |texts| => Text(texts[k])))
  }

  function SavedPublish(p: Leases.Publish): Json {
    Object(map[HostIpv4Key := Number(p.hostIpv4), HostPortKey := Number(p.hostPort),
               ContainerPortKey := Number(p.containerPort), ProtocolKey := Number(p.protocol)])
  }

  function SavedMount(m: Mount): Json {
    match m
    case Bind(source, target, readonly) =>
      Object(map[TypeKey := Number(BIND), SourceKey := Text(source), TargetKey := Text(target), SizeKey := Number(0),
                 ReadonlyKey := Bool(readonly)])
    case Tmpfs(target, size) =>
      Object(map[TypeKey := Number(TMPFS), TargetKey := Text(target), SizeKey := Number(size),
                 ReadonlyKey := Bool(false)])
  }

  function SavedResources(c: Config): Json {
    Object(map[MemoryKey := Number(c.memoryMax), SwapKey := Number(c.swapMax), CpuKey := Number(c.cpuQuota),
               PidsKey := Number(c.pidsMax)])
  }

  function Saved(c: Config): Json {
    var named := if c.name.Some? then map[NameKey := Text(c.name.value)] else map[];
    Object(named + map[
      IdKey := Text(c.id), RootfsKey := Text(c.rootfs), HostnameKey := Text(c.hostname), WorkdirKey := Text(c.workdir),
      UserKey := Number(c.user), GroupKey := Number(c.group), MaskKey := Number(c.capabilityMask),
      ReadonlyRootKey := Bool(c.readonlyRoot), NetworkKey := Text(if c.bridge then "bridge" else "none"),
      Ipv4Key := Number(c.ipv4Host), ResourcesKey := SavedResources(c),
      EnvironmentKey := SavedTexts(c.environment), CommandKey := SavedTexts(c.command),
      PublishesKey := Array(seq(|c.publishes|, k requires 0 <= k < |c.publishes| => SavedPublish(c.publishes[k]))),
      MountsKey := Array(seq(|c.mounts|, k requires 0 <= k < |c.mounts| => SavedMount(c.mounts[k]))),
      DeniesKey := SavedTexts(c.denies)])
  }

  // ---------------------------------------------------------------- loading

  function Member(o: Json, key: Key): Option<Json> {
    if o.Object? && key in o.members then Some(o.members[key]) else None
  }

  /** copy_string: None when the member is missing or no string. */
  function TextMember(o: Json, key: Key): Option<string> {
    match Member(o, key) case Some(Text(s)) => Some(s) case _ => None
  }

  /** The numeric, truth and text values of a tree that has the expected type. */
  function NumberIn(value: Json, limit: nat): nat
    requires limit > 0
  {
    if value.Number? then value.n % limit else 0
  }

  function NumberMember(o: Json, key: Key, limit: nat): Option<nat>
    requires limit > 0
  {
    match Member(o, key) case None => None case Some(value) => Some(NumberIn(value, limit))
  }

  function TextIn(value: Json): string {
    if value.Text? then value.s else ""
  }

  function BoolIn(value: Json): bool {
    value.Bool? && value.b
  }

  function LoadedTexts(o: Json, key: Key): Option<seq<string>> {
    match Member(o, key)
    case Some(Array(items)) => Some(seq(|items|, k requires 0 <= k < |items| => TextIn(items[k])))
    case _ => None
  }

  function LoadedPublish(o: Json): Option<Leases.Publish> {
    var hostIpv4, hostPort := NumberMember(o, HostIpv4Key, U32_LIMIT), NumberMember(o, HostPortKey, U16_LIMIT);
    var port, protocol := NumberMember(o, ContainerPortKey, U16_LIMIT), NumberMember(o, ProtocolKey, U8_LIMIT);
    if hostIpv4.None? || hostPort.None? || port.None? || protocol.None? then None
    else Some(Leases.Publish(hostIpv4.value, hostPort.value, port.value, protocol.value))
  }

  function LoadedMount(o: Json): Option<Mount> {
    var kind, size := NumberMember(o, TypeKey, U32_LIMIT), NumberMember(o, SizeKey, U64_LIMIT);
    var source, target, readonly := TextMember(o, SourceKey), TextMember(o, TargetKey), Member(o, ReadonlyKey);
    if kind.None? || size.None? || target.None? || readonly.None? || (kind.value == BIND && source.None?) then None
    else if kind.value == BIND then Some(Bind(source.value, target.value, BoolIn(readonly.value)))
    else Some(Tmpfs(target.value, size.value))
  }

  /** A list of which every item can be read. */
  function LoadedAll<T>(read: Json -> Option<T>, items: seq<Json>): Option<seq<T>> {
    if items == [] then Some([])
    else
      var first, rest := read(items[0]), LoadedAll(read, items[1..]);
      if first.None? || rest.None? then None else Some([first.value] + rest.value)
  }

  /** The loops of load_arrays, which give up at the first item that cannot be read. */
  method LoadAll<T>(read: Json -> Option<T>, items: seq<Json>) returns (loaded: Option<seq<T>>)
    ensures loaded == LoadedAll(read, items)
  {
    var done, index := [], 0;
    ghost var all := LoadedAll(read, items);
    assert items[0..] == items && (all.Some? ==> [] + all.value == all.value);
    while index < |items|
      invariant index <= |items| && Extends(done, LoadedAll(read, items[index..])) == LoadedAll(read, items)
    {
      var item := read(items[index]);
      assert items[index..][1..] == items[index + 1..];
      if item.None? {
        return None;
      }
      ghost var rest := LoadedAll(read, items[index + 1..]);
      assert rest.Some? ==> done + ([item.value] + rest.value) == done + [item.value] + rest.value;
      done, index := done + [item.value], index + 1;
    }
    assert items[index..] == [] && done + [] == done;
    return Some(done);
  }

  function Extends<T>(done: seq<T>, rest: Option<seq<T>>): Option<seq<T>> {
    if rest.None? then None else Some(done + rest.value)
  }

  function ListMember<T>(read: Json -> Option<T>, o: Json, key: Key): Option<seq<T>> {
    match Member(o, key)
    case Some(Array(items)) => LoadedAll(read, items)
    case _ => None
  }

  /** Documents without mounts are accepted, and then have no denied system calls either. */
  function LoadedMounts(root: Json): Option<(seq<Mount>, seq<string>)> {
    if Member(root, MountsKey).None? then Some(([], []))
    else
      var mounts := ListMember(LoadedMount, root, MountsKey);
      var denies := if Member(root, DeniesKey).None? then Some([]) else LoadedTexts(root, DeniesKey);
      if mounts.None? || denies.None? then None else Some((mounts.value, denies.value))
  }

  function Limits(o: Json): Option<(nat, nat, nat, nat)> {
    var memory, swap := NumberMember(o, MemoryKey, U64_LIMIT), NumberMember(o, SwapKey, U64_LIMIT);
    var cpu, pids := NumberMember(o, CpuKey, U64_LIMIT), NumberMember(o, PidsKey, U64_LIMIT);
    if memory.None? || swap.None? || cpu.None? || pids.None? then None
    else Some((memory.value, swap.value, cpu.value, pids.value))
  }

  /** The members that are not lists; the lists are left empty. */
  function LoadedScalars(root: Json): Option<Config> {
    var id, rootfs := TextMember(root, IdKey), TextMember(root, RootfsKey);
    var hostname, workdir := TextMember(root, HostnameKey), TextMember(root, WorkdirKey);
    var user, group := NumberMember(root, UserKey, U32_LIMIT), NumberMember(root, GroupKey, U32_LIMIT);
    var mask, readonly := NumberMember(root, MaskKey, U64_LIMIT), Member(root, ReadonlyRootKey);
    var network, ipv4 := Member(root, NetworkKey), NumberMember(root, Ipv4Key, U32_LIMIT);
    var limits := match Member(root, ResourcesKey) case None => None case Some(o) => Limits(o);
    if id.None? || rootfs.None? || hostname.None? || workdir.None? || user.None? || group.None? || network.None? ||
       ipv4.None? || limits.None?
    then None
    else Some(Config(id.value, TextMember(root, NameKey), rootfs.value, hostname.value, workdir.value,
                     user.value, group.value, [], false, None,
                     limits.value.0, limits.value.1, limits.value.2, limits.value.3,
                     if mask.Some? then mask.value else 0, readonly.Some? && BoolIn(readonly.value), [], [],
                     TextIn(network.value) == "bridge", ipv4.value, [], []))
  }

  /** mc_state_load_config. */
  function Loaded(root: Json): Option<Config> {
    var scalars, mounts := LoadedScalars(root), LoadedMounts(root);
    var environment, command := LoadedTexts(root, EnvironmentKey), LoadedTexts(root, CommandKey);
    var publishes := ListMember(LoadedPublish, root, PublishesKey);
    if scalars.None? || environment.None? || command.None? || command.value == [] || publishes.None? || mounts.None?
    then None
    else Some(scalars.value.(environment := environment.value, command := command.value, publishes := publishes.value,
                             mounts := mounts.value.0, denies := mounts.value.1))
  }

  // ---------------------------------------------------------------- round trip

  /** The values fit the integers they are stored in. */
  predicate Storable(c: Config) {
    && c.command != [] && c.user < U32_LIMIT && c.group < U32_LIMIT && c.ipv4Host < U32_LIMIT
    && c.memoryMax < U64_LIMIT && c.swapMax < U64_LIMIT && c.cpuQuota < U64_LIMIT && c.pidsMax < U64_LIMIT
    && c.capabilityMask < U64_LIMIT
    && (forall k :: 0 <= k < |c.publishes| ==> Leases.WellFormedPublish(c.publishes[k]))
    && (forall k :: 0 <= k < |c.mounts| ==> c.mounts[k].Tmpfs? ==> c.mounts[k].size < U64_LIMIT)
  }

  lemma {:induction false} LoadedEach<T>(read: Json -> Option<T>, items: seq<Json>, values: seq<T>)
    requires |items| == |values| && forall k :: 0 <= k < |items| ==> read(items[k]) == Some(values[k])
    ensures LoadedAll(read, items) == Some(values)
  {
    if items != [] {
      LoadedEach(read, items[1..], values[1..]);
      assert [values[0]] + values[1..] == values;
    }
  }

  lemma PublishIsStored(p: Leases.Publish)
    requires Leases.WellFormedPublish(p)
    ensures LoadedPublish(SavedPublish(p)) == Some(p)
  {
  }

  lemma MountIsStored(m: Mount)
    requires m.Tmpfs? ==> m.size < U64_LIMIT
    ensures LoadedMount(SavedMount(m)) == Some(m)
  {
  }

  lemma TextsAreStored(texts: seq<string>, o: Json, key: Key)
    requires Member(o, key) == Some(SavedTexts(texts))
    ensures LoadedTexts(o, key) == Some(texts)
  {
    assert LoadedTexts(o, key).value == texts;
  }

  lemma ListsAreStored(c: Config)
    requires Storable(c)
    ensures ListMember(LoadedPublish, Saved(c), PublishesKey) == Some(c.publishes)
    ensures LoadedMounts(Saved(c)) == Some((c.mounts, c.denies))
  {
    var publishes := seq(|c.publishes|, k requires 0 <= k < |c.publishes| => SavedPublish(c.publishes[k]));
    forall k | 0 <= k < |publishes| ensures LoadedPublish(publishes[k]) == Some(c.publishes[k]) {
      PublishIsStored(c.publishes[k]);
    }
    LoadedEach(LoadedPublish, publishes, c.publishes);
    var mounts := seq(|c.mounts|, k requires 0 <= k < |c.mounts| => SavedMount(c.mounts[k]));
    forall k | 0 <= k < |mounts| ensures LoadedMount(mounts[k]) == Some(c.mounts[k]) {
      MountIsStored(c.mounts[k]);
    }
    LoadedEach(LoadedMount, mounts, c.mounts);
    TextsAreStored(c.denies, Saved(c), DeniesKey);
  }

  lemma TextMembers(c: Config)
    ensures var root := Saved(c);
            && TextMember(root, IdKey) == Some(c.id) && TextMember(root, NameKey) == c.name
            && TextMember(root, RootfsKey) == Some(c.rootfs) && TextMember(root, HostnameKey) == Some(c.hostname)
            && TextMember(root, WorkdirKey) == Some(c.workdir)
  {
  }

  lemma NumberMembers(c: Config)
    requires Storable(c)
    ensures var root := Saved(c);
            && NumberMember(root, UserKey, U32_LIMIT) == Some(c.user)
            && NumberMember(root, GroupKey, U32_LIMIT) == Some(c.group)
            && NumberMember(root, MaskKey, U64_LIMIT) == Some(c.capabilityMask)
            && NumberMember(root, Ipv4Key, U32_LIMIT) == Some(c.ipv4Host)
  {
  }

  lemma LimitMembers(c: Config)
    requires Storable(c)
    ensures Limits(SavedResources(c)) == Some((c.memoryMax, c.swapMax, c.cpuQuota, c.pidsMax))
  {
  }

  lemma OtherMembers(c: Config)
    ensures var root := Saved(c);
            && Member(root, ReadonlyRootKey) == Some(Bool(c.readonlyRoot))
            && Member(root, NetworkKey) == Some(Text(if c.bridge then "bridge" else "none"))
            && Member(root, ResourcesKey) == Some(SavedResources(c))
            && Member(root, EnvironmentKey) == Some(SavedTexts(c.environment))
            && Member(root, CommandKey) == Some(SavedTexts(c.command))
  {
  }

  lemma ScalarsAreStored(c: Config)
    requires Storable(c)
    ensures LoadedScalars(Saved(c)) ==
            Some(c.(environment := [], detach := false, readyFd := None, mounts := [], denies := [], publishes := [],
                    command := []))
  {
    TextMembers(c);
    NumberMembers(c);
    LimitMembers(c);
    OtherMembers(c);
    assert "bridge" != "none";
    ScalarsFromMembers(Saved(c), c);
  }

  lemma ScalarsFromMembers(root: Json, c: Config)
    requires TextMember(root, IdKey) == Some(c.id) && TextMember(root, NameKey) == c.name
    requires TextMember(root, RootfsKey) == Some(c.rootfs) && TextMember(root, HostnameKey) == Some(c.hostname)
    requires TextMember(root, WorkdirKey) == Some(c.workdir)
    requires NumberMember(root, UserKey, U32_LIMIT) == Some(c.user)
    requires NumberMember(root, GroupKey, U32_LIMIT) == Some(c.group)
    requires NumberMember(root, MaskKey, U64_LIMIT) == Some(c.capabilityMask)
    requires NumberMember(root, Ipv4Key, U32_LIMIT) == Some(c.ipv4Host)
    requires Member(root, ReadonlyRootKey) == Some(Bool(c.readonlyRoot))
    requires Member(root, NetworkKey) == Some(Text(if c.bridge then "bridge" else "none"))
    requires Member(root, ResourcesKey).Some?
    requires Limits(Member(root, ResourcesKey).value) == Some((c.memoryMax, c.swapMax, c.cpuQuota, c.pidsMax))
    ensures LoadedScalars(root) ==
            Some(c.(environment := [], detach := false, readyFd := None, mounts := [], denies := [], publishes := [],
                    command := []))
  {
    assert "bridge" != "none";
  }

  /** A stored configuration is loaded as it was, except that it is neither detached nor has a
      readiness descriptor. */
  lemma LoadUndoesSave(c: Config)
    requires Storable(c)
    ensures Loaded(Saved(c)) == Some(c.(detach := false, readyFd := None))
  {
    ScalarsAreStored(c);
    ListsAreStored(c);
    OtherMembers(c);
    TextsAreStored(c.environment, Saved(c), EnvironmentKey);
    TextsAreStored(c.command, Saved(c), CommandKey);
  }

  predicate Required(key: Key) {
    key in {IdKey, RootfsKey, HostnameKey, WorkdirKey, UserKey, GroupKey, NetworkKey, Ipv4Key, ResourcesKey,
            EnvironmentKey, CommandKey, PublishesKey}
  }

  /** No document without one of these members, or with an empty command, is loaded. */
  lemma RequiredMembers(root: Json, key: Key)
    requires Required(key) && (Member(root, key) == None || (key == CommandKey && Member(root, key) == Some(Array([]))))
    ensures Loaded(root) == None
  {
    if key in {EnvironmentKey, CommandKey, PublishesKey} {
      assert LoadedTexts(root, CommandKey).Some? && key == CommandKey ==> LoadedTexts(root, CommandKey).value == [];
    } else {
      RequiredScalars(root, key);
    }
  }

  lemma RequiredScalars(root: Json, key: Key)
    requires key in {IdKey, RootfsKey, HostnameKey, WorkdirKey, UserKey, GroupKey, NetworkKey, Ipv4Key, ResourcesKey}
    requires Member(root, key) == None
    ensures LoadedScalars(root) == None
  {
  }

  /** The others have defaults, and without mounts there are no denied system calls either. */
  lemma OptionalMembers(root: Json)
    requires Loaded(root).Some?
    ensures var c := Loaded(root).value;
            && (Member(root, NameKey) == None ==> c.name == None)
            && (Member(root, MaskKey) == None ==> c.capabilityMask == 0)
            && (Member(root, ReadonlyRootKey) == None ==> !c.readonlyRoot)
            && (Member(root, MountsKey) == None ==> c.mounts == [] && c.denies == [])
            && (Member(root, DeniesKey) == None ==> c.denies == [])
  {
  }

  function Lacking(root: Json, key: Key): Json {
    if root.Object? then Object(root.members - {key}) else root
  }

  /** The documents have the same required members. */
  ghost predicate Agree(root: Json, less: Json) {
    forall key :: Required(key) ==> Member(less, key) == Member(root, key)
  }

  lemma ScalarsSuffice(root: Json, less: Json)
    requires Agree(root, less) && LoadedScalars(root).Some?
    ensures LoadedScalars(less).Some?
  {
    assert Required(IdKey) && Required(RootfsKey) && Required(HostnameKey) && Required(WorkdirKey);
    assert Required(UserKey) && Required(GroupKey) && Required(NetworkKey) && Required(Ipv4Key);
    assert Required(ResourcesKey);
  }

  lemma ListsSuffice(root: Json, less: Json)
    requires Agree(root, less)
    ensures LoadedTexts(less, EnvironmentKey) == LoadedTexts(root, EnvironmentKey)
    ensures LoadedTexts(less, CommandKey) == LoadedTexts(root, CommandKey)
    ensures ListMember(LoadedPublish, less, PublishesKey) == ListMember(LoadedPublish, root, PublishesKey)
  {
    assert Required(EnvironmentKey) && Required(CommandKey) && Required(PublishesKey);
  }

  /** A document that can be loaded still can without one of them. */
  lemma OptionalMembersMayBeMissing(root: Json, key: Key)
    requires Loaded(root).Some? && key in {NameKey, MaskKey, ReadonlyRootKey, MountsKey, DeniesKey}
    ensures Loaded(Lacking(root, key)).Some?
  {
    var less := Lacking(root, key);
    forall k | Required(k) ensures Member(less, k) == Member(root, k) {
    }
    ScalarsSuffice(root, less);
    ListsSuffice(root, less);
    MountsSuffice(root, key);
  }

  lemma MountsSuffice(root: Json, key: Key)
    requires LoadedMounts(root).Some? && key in {NameKey, MaskKey, ReadonlyRootKey, MountsKey, DeniesKey}
    ensures LoadedMounts(Lacking(root, key)).Some?
  {
    var less := Lacking(root, key);
    assert key != MountsKey ==> Member(less, MountsKey) == Member(root, MountsKey);
    assert Member(less, DeniesKey) == if key == DeniesKey then None else Member(root, DeniesKey);
  }

  lemma BuildableIsStorable(host: Host, c: Config)
    requires Delivery.Buildable(host, c)
    ensures Storable(c)
  {
    NamedMasksFit(c.capabilityMask);
  }

  /** `create` and then `start` hand the shim the very arguments of `run --detach`, so it ends up
      with the same configuration. */
  lemma CreateThenStartIsRun(host: Host, path: string, c: Config, fd: nat)
    requires Storable(c)
    ensures Loaded(Saved(c)).Some?
    ensures var started := Loaded(Saved(c)).value.(detach := true);
            && Arguments(host, path, started, fd) == Arguments(host, path, c.(detach := true), fd)
            && Received(host, Arguments(host, path, started, fd)) ==
               Received(host, Arguments(host, path, c.(detach := true), fd))
  {
    LoadUndoesSave(c);
    var started, run := Loaded(Saved(c)).value.(detach := true), c.(detach := true);
    assert Head(started) == Head(run) && Tail(started, fd) == Tail(run, fd);
    assert Settings(started, fd) == Settings(run, fd);
  }
}
