/** The argument vector of mc_launch_shim in src/runtime/launch.c, and what the shim makes of it. */
module Launch {
  import opened Base
  import opened Capabilities
  import opened Mounts
  import opened Numerals
  import opened Transport
  import Leases

  // ---------------------------------------------------------------- printing one setting

  function FlagFor(s: Setting): Flag {
    match s
    case SetId(_) => Id
    case SetRootfs(_) => Rootfs
    case SetHostname(_) => Hostname
    case SetWorkdir(_) => Workdir
    case SetUser(_, _) => User
    case AddEnvironment(_) => Env
    case SetReadyFd(_) => ReadyFd
    case SetMemory(_) => Memory
    case SetSwap(_) => MemorySwap
    case SetCpu(_) => CpuQuota
    case SetPids(_) => PidsLimit
    case SetBridge(_) => Network
    case SetIpv4(_) => Ipv4Host
    case AddPublish(_) => PublishPort
    case AddCapability(_) => CapAdd
    case AddMount(m) => if m.Bind? then BindMount else TmpfsMount
    case AddDeny(_) => SeccompDeny
    case SetDetach => Detach
    case SetReadOnly => ReadOnly
  }

  function ValueOf(host: Host, s: Setting): string {
    match s
    case SetId(text) => text
    case SetRootfs(text) => text
    case SetHostname(text) => text
    case SetWorkdir(text) => text
    case SetUser(user, group) => UserText(user, group)
    case AddEnvironment(text) => text
    case SetReadyFd(n) => Decimal(n)
    case SetMemory(n) => Decimal(n)
    case SetSwap(n) => Decimal(n)
    case SetCpu(n) => Decimal(n)
    case SetPids(n) => Decimal(n)
    case SetBridge(on) => if on then "bridge" else "none"
    case SetIpv4(n) => Decimal(n)
    case AddPublish(p) => PublishText(p)
    case AddCapability(n) => CapabilityName(host.capabilities, n)
    case AddMount(m) => MountText(m)
    case AddDeny(text) => text
    case SetDetach => ""
    case SetReadOnly => ""
  }

  /** What the command line parser lets into a configuration. */
  predicate SettingOk(host: Host, s: Setting) {
    match s
    case SetId(_) => true
    case SetRootfs(_) => true
    case SetHostname(_) => true
    case SetWorkdir(text) => true
    case SetUser(user, group) => user <= 65_535 && group <= 65_535
    case AddEnvironment(text) => ValidEnvironment(text)
    case SetReadyFd(n) => n <= 1_048_576
    case SetMemory(n) => 0 < n < 0x1_0000_0000_0000_0000
    case SetSwap(n) => n < 0x1_0000_0000_0000_0000
    case SetCpu(n) => 0 < n <= 102_400_000
    case SetPids(n) => 0 < n <= 4_194_304
    case SetBridge(on) => true
    case SetIpv4(n) => n < 0x1_0000_0000
    case AddPublish(p) => Leases.WellFormedPublish(p)
    case AddCapability(n) => n < 41
    case AddMount(m) => MountOk(host, m)
    case AddDeny(text) => text != [] && host.syscall(text)
    case SetDetach => true
    case SetReadOnly => true
  }

  /** The shim's reading of a printed setting. */
  function Reread(host: Host, s: Setting): Option<Setting> {
    ParseSetting(host, FlagFor(s), ValueOf(host, s))
  }

  lemma RereadNumber(host: Host, s: Setting)
    requires s.SetReadyFd? || s.SetMemory? || s.SetSwap? || s.SetCpu? || s.SetPids? || s.SetIpv4?
    ensures Reread(host, s) == if SettingOk(host, s) then Some(s) else None
  {
    RereadPlainNumber(s);
    RereadPositiveNumber(s);
  }

  lemma RereadPlainNumber(s: Setting)
    ensures s.SetReadyFd? ==> NumberSetting(ReadyFd, Decimal(s.n)) == if s.n <= 1_048_576 then Some(s) else None
    ensures s.SetSwap? ==>
              NumberSetting(MemorySwap, Decimal(s.n)) == if s.n < 0x1_0000_0000_0000_0000 then Some(s) else None
    ensures s.SetIpv4? ==> NumberSetting(Ipv4Host, Decimal(s.n)) == if s.n < 0x1_0000_0000 then Some(s) else None
  {
    if s.SetReadyFd? || s.SetSwap? || s.SetIpv4? {
      ParseOfDecimal(s.n, FD_MAX);
      ParseOfDecimal(s.n, U64_LIMIT - 1);
      ParseOfDecimal(s.n, U32_LIMIT - 1);
    }
  }

  lemma PositiveOfDecimal(n: nat, maximum: nat)
    ensures ParsePositive(Decimal(n), maximum) == if 0 < n < U64_LIMIT && n <= maximum then Some(n) else None
  {
    ParseOfDecimal(n, maximum);
  }

  lemma RereadPositiveNumber(s: Setting)
    ensures s.SetMemory? ==>
              NumberSetting(Memory, Decimal(s.n)) == if 0 < s.n < 0x1_0000_0000_0000_0000 then Some(s) else None
    ensures s.SetCpu? ==> NumberSetting(CpuQuota, Decimal(s.n)) == if 0 < s.n <= 102_400_000 then Some(s) else None
    ensures s.SetPids? ==> NumberSetting(PidsLimit, Decimal(s.n)) == if 0 < s.n <= 4_194_304 then Some(s) else None
  {
    if s.SetMemory? || s.SetCpu? || s.SetPids? {
      PositiveOfDecimal(s.n, U64_LIMIT - 1);
      PositiveOfDecimal(s.n, CPU_MAX);
      PositiveOfDecimal(s.n, PIDS_MAX);
    }
  }

  lemma RereadMount(host: Host, m: Mount)
    requires MountOk(host, m)
    ensures Reread(host, AddMount(m)) == Some(AddMount(m)) <==> Portable(m)
    ensures Reread(host, AddMount(m)).Some? ==> Reread(host, AddMount(m)).value.AddMount?
  {
    MountRoundTrip(host, m);
    RereadIsWrapped(host, m);
    Wrapped(ParseMount(host, m.Bind?, MountText(m)), m);
  }

  lemma RereadIsWrapped(host: Host, m: Mount)
    ensures Reread(host, AddMount(m)) == Wrap(ParseMount(host, m.Bind?, MountText(m)))
  {
    if m.Bind? {
      ReadBind(host, MountText(m));
    } else {
      ReadTmpfs(host, MountText(m));
    }
  }

  function Wrap(parsed: Option<Mount>): Option<Setting> {
    match parsed case None => None case Some(m) => Some(AddMount(m))
  }

  lemma Wrapped(parsed: Option<Mount>, m: Mount)
    ensures Wrap(parsed) == Some(AddMount(m)) <==> parsed == Some(m)
    ensures Wrap(parsed).Some? ==> Wrap(parsed).value.AddMount?
  {
  }

  lemma ReadBind(host: Host, text: string)
    ensures ParseSetting(host, BindMount, text) == Wrap(ParseBind(host, text))
  {
  }

  lemma ReadTmpfs(host: Host, text: string)
    ensures ParseSetting(host, TmpfsMount, text) == Wrap(ParseTmpfs(text))
  {
  }

  lemma RereadUser(host: Host, user: nat, group: nat)
    ensures Reread(host, SetUser(user, group)) ==
            if user <= 65_535 && group <= 65_535 then Some(SetUser(user, group)) else None
  {
    CutAt(Decimal(user), ':', Decimal(group));
    ParseOfDecimal(user, ID_MAX);
    ParseOfDecimal(group, ID_MAX);
  }

  lemma RereadPublish(host: Host, p: Leases.Publish)
    requires Leases.WellFormedPublish(p)
    ensures Reread(host, AddPublish(p)) == Some(AddPublish(p))
  {
    PublishRoundTrip(p);
    RereadPublishText(host, PublishText(p), p);
  }

  lemma RereadPublishText(host: Host, value: string, p: Leases.Publish)
    requires ParsePublish(value) == Some(p)
    ensures ParseSetting(host, PublishPort, value) == Some(AddPublish(p))
  {
  }

  lemma RereadCapability(host: Host, n: nat)
    requires TableOk(host.capabilities)
    ensures Reread(host, AddCapability(n)) == if n < 41 then Some(AddCapability(n)) else None
  {
    if n < NAMED {
      NameIsParsedBack(host.capabilities, n);
    } else {
      FindFails(host.capabilities, "");
    }
  }

  lemma RereadText(host: Host, s: Setting)
    requires s.SetId? || s.SetRootfs? || s.SetHostname? || s.SetWorkdir? || s.AddEnvironment? || s.SetBridge? ||
             s.AddDeny? || s.SetDetach? || s.SetReadOnly?
    ensures Reread(host, s) == if SettingOk(host, s) then Some(s) else None
  {
    assert s.SetBridge? ==> "bridge" != "none";
  }

  /** Every setting but some mounts is read back as it was printed, and one that is none of those
      the command line lets through is refused. */
  lemma RereadSetting(host: Host, s: Setting)
    requires TableOk(host.capabilities) && !s.AddMount?
    requires s.AddPublish? ==> SettingOk(host, s)
    ensures Reread(host, s) == if SettingOk(host, s) then Some(s) else None
  {
    if s.SetReadyFd? || s.SetMemory? || s.SetSwap? || s.SetCpu? || s.SetPids? || s.SetIpv4? {
      RereadNumber(host, s);
    } else if s.SetUser? {
      RereadUser(host, s.user, s.group);
    } else if s.AddPublish? {
      RereadPublish(host, s.p);
    } else if s.AddCapability? {
      RereadCapability(host, s.n);
    } else {
      RereadText(host, s);
    }
  }

  // ---------------------------------------------------------------- lists of options

  datatype Item = Item(flag: Flag, value: string)

  function ItemOf(host: Host, s: Setting): Item {
    Item(FlagFor(s), ValueOf(host, s))
  }

  /** Switches stand alone, other options are followed by their value. */
  function Printed(item: Item): seq<string> {
    if IsSwitch(item.flag) then [FlagText(item.flag)] else [FlagText(item.flag), item.value]
  }

  function Flatten(items: seq<Item>): seq<string> {
    if items == [] then [] else Printed(items[0]) + Flatten(items[1..])
  }

  function UpdateAll(d: Draft, settings: seq<Setting>): Draft
    decreases |settings|
  {
    if settings == [] then d else UpdateAll(Update(d, settings[0]), settings[1..])
  }

  predicate Plain(item: Item) {
    item.flag != Separator && (IsSwitch(item.flag) ==> item.value == "")
  }

  lemma ParsePrinted(read: Reader, d: Draft, item: Item, rest: seq<string>)
    requires Plain(item)
    ensures Parse(read, d, Printed(item) + rest) ==
            match read(item.flag, item.value) case None => None case Some(t) => Parse(read, Update(d, t), rest)
  {
    FlagIsRead(item.flag);
    FlagIsRead(Separator);
    assert FlagText(item.flag) != "--";
    assert (Printed(item) + rest)[|Printed(item)|..] == rest;
  }

  lemma ParseSeparator(read: Reader, d: Draft, command: seq<string>)
    ensures Parse(read, d, ["--"] + command) == Some(d.(command := Some(command)))
  {
    assert (["--"] + command)[1..] == command;
  }

  lemma FlattenFirst(items: seq<Item>, rest: seq<string>)
    requires items != []
    ensures Flatten(items) + rest == Printed(items[0]) + (Flatten(items[1..]) + rest)
  {
  }

  /** Options are taken off one by one; values and commands are taken by position, so they may
      look like options themselves. */
  lemma {:induction false} ParseFlattened(read: Reader, d: Draft, items: seq<Item>, back: seq<Setting>,
                                          command: seq<string>)
    requires |back| == |items|
    requires forall k :: 0 <= k < |items| ==> Plain(items[k]) && read(items[k].flag, items[k].value) == Some(back[k])
    ensures Parse(read, d, Flatten(items) + (["--"] + command)) == Some(UpdateAll(d, back).(command := Some(command)))
    decreases |items|
  {
    var tail := ["--"] + command;
    if items == [] {
      assert Flatten(items) + tail == tail;
      ParseSeparator(read, d, command);
    } else {
      FlattenFirst(items, tail);
      ParsePrinted(read, d, items[0], Flatten(items[1..]) + tail);
      ParseFlattened(read, Update(d, back[0]), items[1..], back[1..], command);
    }
  }

  /** One refused option refuses the whole vector. */
  lemma {:induction false} ParseRefused(read: Reader, d: Draft, items: seq<Item>, rest: seq<string>, bad: nat)
    requires forall k :: 0 <= k < |items| ==> Plain(items[k])
    requires bad < |items| && read(items[bad].flag, items[bad].value) == None
    ensures Parse(read, d, Flatten(items) + rest) == None
    decreases |items|
  {
    FlattenFirst(items, rest);
    ParsePrinted(read, d, items[0], Flatten(items[1..]) + rest);
    var first := read(items[0].flag, items[0].value);
    if bad > 0 && first.Some? {
      ParseRefused(read, Update(d, first.value), items[1..], rest, bad - 1);
    }
  }

  // ---------------------------------------------------------------- the settings of a configuration

  function NameSettings(c: Config): seq<Setting> {
    [SetId(c.id), SetRootfs(c.rootfs), SetHostname(c.hostname), SetWorkdir(c.workdir), SetUser(c.user, c.group)]
  }

  function EnvironmentSettings(environment: seq<string>): seq<Setting> {
    seq(|environment|, k requires 0 <= k < |environment| => AddEnvironment(environment[k]))
  }

  function LimitSettings(c: Config): seq<Setting> {
    [SetMemory(c.memoryMax), SetSwap(c.swapMax), SetCpu(c.cpuQuota), SetPids(c.pidsMax)]
  }

  function NetworkSettings(c: Config): seq<Setting> {
    [SetBridge(c.bridge), SetIpv4(c.ipv4Host)]
  }

  function PublishSettings(publishes: seq<Leases.Publish>): seq<Setting> {
    seq(|publishes|, k requires 0 <= k < |publishes| => AddPublish(publishes[k]))
  }

  function CapabilitySettings(mask: nat, from: nat): seq<Setting>
    requires from <= BITS
    decreases BITS - from, mask
  {
    if from == BITS then []
    else (if Bit(mask, from) then [AddCapability(from)] else []) + CapabilitySettings(mask, from + 1)
  }

  function MountSettings(mounts: seq<Mount>): seq<Setting> {
    seq(|mounts|, k requires 0 <= k < |mounts| => AddMount(mounts[k]))
  }

  function DenySettings(denies: seq<string>): seq<Setting> {
    seq(|denies|, k requires 0 <= k < |denies| => AddDeny(denies[k]))
  }

  function Switch(on: bool, settings: seq<Setting>): seq<Setting> {
    if on then settings else []
  }

  /** What is printed before the mounts, and after them. */
  function Front(c: Config): seq<Setting> {
    NameSettings(c) + EnvironmentSettings(c.environment) + LimitSettings(c) + NetworkSettings(c)
  }

  function Head(c: Config): seq<Setting> {
    Front(c) + PublishSettings(c.publishes) + CapabilitySettings(c.capabilityMask, 0) +
    Switch(c.readonlyRoot, [SetReadOnly])
  }

  function Tail(c: Config, fd: nat): seq<Setting> {
    DenySettings(c.denies) + Switch(c.detach, [SetDetach, SetReadyFd(fd)])
  }

  function Settings(c: Config, fd: nat): seq<Setting> {
    Head(c) + MountSettings(c.mounts) + Tail(c, fd)
  }

  function Items(host: Host, settings: seq<Setting>): seq<Item> {
    seq(|settings|, k requires 0 <= k < |settings| => ItemOf(host, settings[k]))
  }

  /** The vector without its terminating NULL. */
  function Arguments(host: Host, path: string, c: Config, fd: nat): seq<string> {
    [path] + (Flatten(Items(host, Settings(c, fd))) + (["--"] + c.command))
  }
}
