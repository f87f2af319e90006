/** How a configuration reaches the shim: the argument vector that mc_launch_shim of
    src/runtime/launch.c builds and the parser of src/runtime/shim_main.c. */
module Transport {
  import opened Base
  import opened Capabilities
  import opened Mounts
  import opened Numerals
  import Leases

  const CPU_MAX := 102_400_000
  const PIDS_MAX := 4_194_304
  const FD_MAX := 1_048_576
  const ID_MAX := 65_535

  datatype Config = Config(
    id: string, name: Option<string>, rootfs: string, hostname: string, workdir: string, user: nat, group: nat,
    environment: seq<string>, detach: bool, readyFd: Option<nat>,
    memoryMax: nat, swapMax: nat, cpuQuota: nat, pidsMax: nat,
    capabilityMask: nat, readonlyRoot: bool, mounts: seq<Mount>, denies: seq<string>,
    bridge: bool, ipv4Host: nat, publishes: seq<Leases.Publish>, command: seq<string>)

  // ---------------------------------------------------------------- options

  datatype Flag =
    | Id | Rootfs | Hostname | Workdir | User | Env | ReadyFd | Memory | MemorySwap | CpuQuota | PidsLimit
    | Network | Ipv4Host | PublishPort | CapAdd | BindMount | TmpfsMount | SeccompDeny
    | Detach | ReadOnly | Separator | Unknown

  function FlagText(flag: Flag): string {
    match flag
    case Id => "--id"
    case Rootfs => "--rootfs"
    case Hostname => "--hostname"
    case Workdir => "--workdir"
    case User => "--user"
    case Env => "--env"
    case ReadyFd => "--ready-fd"
    case Memory => "--memory"
    case MemorySwap => "--memory-swap"
    case CpuQuota => "--cpu-quota"
    case PidsLimit => "--pids-limit"
    case Network => "--network"
    case Ipv4Host => "--ipv4-host"
    case PublishPort => "--publish"
    case CapAdd => "--cap-add"
    case BindMount => "--bind"
    case TmpfsMount => "--tmpfs"
    case SeccompDeny => "--seccomp-deny"
    case Detach => "--detach"
    case ReadOnly => "--read-only"
    case Separator => "--"
    case Unknown => ""
  }

  function FlagOf(text: string): Flag {
    if text == "--" then Separator
    else if text == "--detach" then Detach
    else if text == "--read-only" then ReadOnly
    else if text == "--id" then Id
    else if text == "--rootfs" then Rootfs
    else if text == "--hostname" then Hostname
    else if text == "--workdir" then Workdir
    else if text == "--user" then User
    else if text == "--env" then Env
    else if text == "--ready-fd" then ReadyFd
    else if text == "--memory" then Memory
    else if text == "--memory-swap" then MemorySwap
    else if text == "--cpu-quota" then CpuQuota
    else if text == "--pids-limit" then PidsLimit
    else if text == "--network" then Network
    else if text == "--ipv4-host" then Ipv4Host
    else if text == "--publish" then PublishPort
    else if text == "--cap-add" then CapAdd
    else if text == "--bind" then BindMount
    else if text == "--tmpfs" then TmpfsMount
    else if text == "--seccomp-deny" then SeccompDeny
    else Unknown
  }

  /** Text by text, which keeps each chain of comparisons short for the verifier. */
  lemma FlagIsRead(flag: Flag)
    ensures FlagOf(FlagText(flag)) == flag
  {
    match flag {
      case Id =>
      case Rootfs =>
      case Hostname =>
      case Workdir =>
      case User =>
      case Env =>
      case ReadyFd =>
      case Memory =>
      case MemorySwap =>
      case CpuQuota =>
      case PidsLimit =>
      case Network =>
      case Ipv4Host =>
      case PublishPort =>
      case CapAdd =>
      case BindMount =>
      case TmpfsMount =>
      case SeccompDeny =>
      case Detach =>
      case ReadOnly =>
      case Separator =>
      case Unknown =>
    }
  }

  // ---------------------------------------------------------------- option values

  /** mc_parse_user: one number, or two with a colon between them. */
  function ParseUser(value: string): Option<(nat, nat)> {
    var user := ParseUnsigned(Before(value, ':'), ID_MAX);
    var group := match After(value, ':') case None => user case Some(text) => ParseUnsigned(text, ID_MAX);
    if user.None? || group.None? then None else Some((user.value, group.value))
  }

  function UserText(user: nat, group: nat): string {
    Decimal(user) + [':'] + Decimal(group)
  }

  lemma UserRoundTrip(user: nat, group: nat)
    requires user <= ID_MAX && group <= ID_MAX
    ensures ParseUser(UserText(user, group)) == Some((user, group))
  {
    CutAt(Decimal(user), ':', Decimal(group));
    ParseOfDecimal(user, ID_MAX);
    ParseOfDecimal(group, ID_MAX);
  }

  function ParsePositive(value: string, maximum: nat): Option<nat> {
    var number := ParseUnsigned(value, maximum);
    if number == Some(0) then None else number
  }

  /** A number that %u has scanned: saturated at 64 bits, then cut to 32. */
  function Scanned(text: string): nat
    requires Digits(text)
  {
    if Value(text) < U64_LIMIT then Value(text) % U32_LIMIT else U32_LIMIT - 1
  }

  function Fields(text: string, separator: char): (fields: seq<string>)
    ensures fields != []
    decreases |text|
  {
    match After(text, separator)
    case None => [text]
    case Some(rest) => [Before(text, separator)] + Fields(rest, separator)
  }

  lemma FieldsCons(head: string, separator: char, tail: string)
    requires separator !in head
    ensures Fields(head + [separator] + tail, separator) == [head] + Fields(tail, separator)
  {
    CutAt(head, separator, tail);
  }

  /** sscanf with "%u,%u,%u,%u%c" succeeding four times, and the checks that follow. */
  function ParsePublish(value: string): Option<Leases.Publish> {
    var f := Fields(value, ',');
    if |f| != 4 || exists k :: 0 <= k < 4 && (f[k] == [] || !Digits(f[k])) then None
    else
      var p := Leases.Publish(Scanned(f[0]), Scanned(f[1]), Scanned(f[2]), Scanned(f[3]));
      if 0 < p.hostPort < 0x1_0000 && 0 < p.containerPort < 0x1_0000 && p.protocol in [Leases.TCP, Leases.UDP]
      then Some(p) else None
  }

  function PublishText(p: Leases.Publish): string {
    Decimal(p.hostIpv4) + [','] + (Decimal(p.hostPort) + [','] +
      (Decimal(p.containerPort) + [','] + Decimal(p.protocol)))
  }

  lemma PublishFields(p: Leases.Publish)
    ensures Fields(PublishText(p), ',') ==
            [Decimal(p.hostIpv4), Decimal(p.hostPort), Decimal(p.containerPort), Decimal(p.protocol)]
  {
    var last := Decimal(p.protocol);
    var third := Decimal(p.containerPort) + [','] + last;
    var second := Decimal(p.hostPort) + [','] + third;
    NoCut(last, ',');
    assert Fields(last, ',') == [last];
    FieldsCons(Decimal(p.containerPort), ',', last);
    assert Fields(third, ',') == [Decimal(p.containerPort), last];
    FieldsCons(Decimal(p.hostPort), ',', third);
    assert Fields(second, ',') == [Decimal(p.hostPort), Decimal(p.containerPort), last];
    FieldsCons(Decimal(p.hostIpv4), ',', second);
  }

  lemma ScannedDecimal(n: nat)
    requires n < U32_LIMIT
    ensures Scanned(Decimal(n)) == n
  {
    ValueOfDecimal(n);
  }

  lemma PublishRoundTrip(p: Leases.Publish)
    requires Leases.WellFormedPublish(p)
    ensures ParsePublish(PublishText(p)) == Some(p)
  {
    PublishFields(p);
    ScannedDecimal(p.hostIpv4);
    ScannedDecimal(p.hostPort);
    ScannedDecimal(p.containerPort);
    ScannedDecimal(p.protocol);
  }

  predicate IsLetter(c: char) { 'a' <= c <= 'z' || 'A' <= c <= 'Z' || c == '_' }

  /** mc_valid_environment: an identifier, an equals sign, and no line breaks after it. */
  predicate ValidEnvironment(assignment: string) {
    var name, value := Before(assignment, '='), After(assignment, '=');
    && value.Some? && name != [] && IsLetter(name[0])
    && (forall k :: 0 < k < |name| ==> IsLetter(name[k]) || IsDigit(name[k]))
    && '\n' !in value.value && '\r' !in value.value
  }

  method IsValidEnvironment(assignment: string) returns (valid: bool)
    ensures valid <==> ValidEnvironment(assignment)
  {
    var name, value := Before(assignment, '='), After(assignment, '=');
    if value.None? || name == [] || !IsLetter(name[0]) {
      return false;
    }
    var cursor := 1;
    while cursor < |name|
      invariant 1 <= cursor <= |name| && forall k :: 0 < k < cursor ==> IsLetter(name[k]) || IsDigit(name[k])
    {
      if !IsLetter(name[cursor]) && !IsDigit(name[cursor]) {
        return false;
      }
      cursor := cursor + 1;
    }
    return '\n' !in value.value && '\r' !in value.value;
  }

  // ---------------------------------------------------------------- settings

  /** What one option says. */
  datatype Setting =
    | SetId(text: string) | SetRootfs(text: string) | SetHostname(text: string) | SetWorkdir(text: string)
    | SetUser(user: nat, group: nat) | AddEnvironment(text: string) | SetReadyFd(n: nat)
    | SetMemory(n: nat) | SetSwap(n: nat) | SetCpu(n: nat) | SetPids(n: nat)
    | SetBridge(on: bool) | SetIpv4(n: nat) | AddPublish(p: Leases.Publish) | AddCapability(n: nat)
    | AddMount(m: Mount) | AddDeny(text: string) | SetDetach | SetReadOnly

  function NumberSetting(flag: Flag, value: string): Option<Setting> {
    match flag
    case ReadyFd => (match ParseUnsigned(value, FD_MAX) case None => None case Some(n) => Some(SetReadyFd(n)))
    case Memory => (match ParsePositive(value, U64_LIMIT - 1) case None => None case Some(n) => Some(SetMemory(n)))
    case MemorySwap => (match ParseUnsigned(value, U64_LIMIT - 1) case None => None case Some(n) => Some(SetSwap(n)))
    case CpuQuota => (match ParsePositive(value, CPU_MAX) case None => None case Some(n) => Some(SetCpu(n)))
    case PidsLimit => (match ParsePositive(value, PIDS_MAX) case None => None case Some(n) => Some(SetPids(n)))
    case Ipv4Host => (match ParseUnsigned(value, U32_LIMIT - 1) case None => None case Some(n) => Some(SetIpv4(n)))
    case _ => None
  }

  function ListSetting(host: Host, flag: Flag, value: string): Option<Setting> {
    match flag
    case PublishPort => (match ParsePublish(value) case None => None case Some(p) => Some(AddPublish(p)))
    case CapAdd =>
      (match CapabilityNumber(host.capabilities, value)
       case None => None
       case Some(n) => if n < BITS then Some(AddCapability(n)) else None)
    case BindMount => (match ParseBind(host, value) case None => None case Some(m) => Some(AddMount(m)))
    case TmpfsMount => (match ParseTmpfs(value) case None => None case Some(m) => Some(AddMount(m)))
    case _ => None
  }

  /** An option with its value; None when the option is unknown or the value refused. */
  function ParseSetting(host: Host, flag: Flag, value: string): Option<Setting> {
    match flag
    case Id => Some(SetId(value))
    case Rootfs => Some(SetRootfs(value))
    case Hostname => Some(SetHostname(value))
    case Workdir => Some(SetWorkdir(value))
    case User => (match ParseUser(value) case None => None case Some((u, g)) => Some(SetUser(u, g)))
    case Env => if ValidEnvironment(value) then Some(AddEnvironment(value)) else None
    case Network => if value in ["bridge", "none"] then Some(SetBridge(value == "bridge")) else None
    case SeccompDeny => if value != [] && host.syscall(value) then Some(AddDeny(value)) else None
    case Detach => Some(SetDetach)
    case ReadOnly => Some(SetReadOnly)
    case ReadyFd => NumberSetting(flag, value)
    case Memory => NumberSetting(flag, value)
    case MemorySwap => NumberSetting(flag, value)
    case CpuQuota => NumberSetting(flag, value)
    case PidsLimit => NumberSetting(flag, value)
    case Ipv4Host => NumberSetting(flag, value)
    case PublishPort => ListSetting(host, flag, value)
    case CapAdd => ListSetting(host, flag, value)
    case BindMount => ListSetting(host, flag, value)
    case TmpfsMount => ListSetting(host, flag, value)
    case _ => None
  }

  // ---------------------------------------------------------------- the shim's parser

  /** The shim's configuration while it is being filled; None stands for NULL. */
  datatype Draft = Draft(
    id: Option<string>, rootfs: Option<string>, hostname: Option<string>, workdir: Option<string>,
    user: nat, group: nat,
    environment: seq<string>, detach: bool, readyFd: Option<nat>,
    memoryMax: nat, swapMax: nat, cpuQuota: nat, pidsMax: nat,
    capabilityMask: nat, readonlyRoot: bool, mounts: seq<Mount>, denies: seq<string>,
    bridge: bool, ipv4Host: nat, publishes: seq<Leases.Publish>, command: Option<seq<string>>)

  const BLANK := Draft(None, None, None, None, 0, 0, [], false, None, 0, 0, 0, 0, 0, false, [], [], false, 0, [], None)

  function Update(d: Draft, s: Setting): Draft {
    match s
    case SetId(text) => d.(id := Some(text))
    case SetRootfs(text) => d.(rootfs := Some(text))
    case SetHostname(text) => d.(hostname := Some(text))
    case SetWorkdir(text) => d.(workdir := Some(text))
    case SetUser(user, group) => d.(user := user, group := group)
    case AddEnvironment(text) => d.(environment := d.environment + [text])
    case SetReadyFd(n) => d.(readyFd := Some(n))
    case SetMemory(n) => d.(memoryMax := n)
    case SetSwap(n) => d.(swapMax := n)
    case SetCpu(n) => d.(cpuQuota := n)
    case SetPids(n) => d.(pidsMax := n)
    case SetBridge(on) => d.(bridge := on)
    case SetIpv4(n) => d.(ipv4Host := n)
    case AddPublish(p) => d.(publishes := d.publishes + [p])
    case AddCapability(n) => d.(capabilityMask := WithBit(d.capabilityMask, n))
    case AddMount(m) => d.(mounts := d.mounts + [m])
    case AddDeny(text) => d.(denies := d.denies + [text])
    case SetDetach => d.(detach := true)
    case SetReadOnly => d.(readonlyRoot := true)
  }

  predicate IsSwitch(flag: Flag) {
    flag == Detach || flag == ReadOnly
  }

  type Reader = (Flag, string) -> Option<Setting>

  function ReaderOf(host: Host): Reader {
    (flag, value) => ParseSetting(host, flag, value)
  }

  /** The meaning of the arguments from some position on, with `d` filled so far, when options
      are read by `read`. */
  function Parse(read: Reader, d: Draft, args: seq<string>): Option<Draft>
    decreases |args|
  {
    if args == [] then None
    else if args[0] == "--" then Some(d.(command := Some(args[1..])))
    else
      var flag := FlagOf(args[0]);
      var width := if IsSwitch(flag) then 1 else 2;
      if |args| < width then None
      else match read(flag, if width == 1 then "" else args[1])
        case None => None
        case Some(s) => Parse(read, Update(d, s), args[width..])
  }

  /** The checks after the loop. */
  function Finish(d: Draft): Option<Config> {
    if d.id.None? || d.rootfs.None? || d.hostname.None? || d.workdir.None? || d.workdir.value == [] ||
       d.workdir.value[0] != '/' || d.command.None? || d.command.value == [] || (d.detach && d.readyFd.None?) ||
       d.memoryMax == 0 || d.cpuQuota == 0 || d.pidsMax == 0
    then None
    else Some(Config(d.id.value, None, d.rootfs.value, d.hostname.value, d.workdir.value, d.user, d.group,
                     d.environment, d.detach, d.readyFd, d.memoryMax, d.swapMax, d.cpuQuota, d.pidsMax,
                     d.capabilityMask, d.readonlyRoot, d.mounts, d.denies, d.bridge, d.ipv4Host, d.publishes,
                     d.command.value))
  }

  /** What the shim makes of its arguments. */
  function Received(host: Host, argv: seq<string>): Option<Config>
    requires argv != []
  {
    match Parse(ReaderOf(host), BLANK, argv[1..])
    case None => None
    case Some(d) => Finish(d)
  }

  datatype Turn = Done(draft: Draft) | Refused | More(draft: Draft, width: nat)

  /** One turn of the argument loop, at the front of what is left. */
  method ParseOne(read: Reader, draft: Draft, args: seq<string>) returns (turn: Turn)
    requires args != []
    ensures match turn
            case Done(d) => Parse(read, draft, args) == Some(d)
            case Refused => Parse(read, draft, args) == None
            case More(d, width) => 0 < width <= |args| && Parse(read, draft, args) == Parse(read, d, args[width..])
  {
    if args[0] == "--" {
      return Done(draft.(command := Some(args[1..])));
    }
    var flag := FlagOf(args[0]);
    var width := if IsSwitch(flag) then 1 else 2;
    if |args| < width {
      return Refused;
    }
    var setting := read(flag, if width == 1 then "" else args[1]);
    turn := if setting.None? then Refused else More(Update(draft, setting.value), width);
  }

  /** The argument loop of the shim; `rest` holds the arguments from the current one on. */
  method ParseLoop(read: Reader, args: seq<string>) returns (draft: Option<Draft>)
    ensures draft == Parse(read, BLANK, args)
  {
    var filled, rest := BLANK, args;
    while rest != []
      invariant Parse(read, BLANK, args) == Parse(read, filled, rest)
      decreases |rest|
    {
      var turn := ParseOne(read, filled, rest);
      match turn {
        case Done(d) => return Some(d);
        case Refused => return None;
        case More(d, width) => filled, rest := d, rest[width..];
      }
    }
    return None;
  }

  /** The loop and the checks after it. */
  method ParseArguments(host: Host, argv: seq<string>) returns (config: Option<Config>)
    requires argv != []
    ensures config == Received(host, argv)
  {
    var draft := ParseLoop(ReaderOf(host), argv[1..]);
    config := if draft.None? then None else Finish(draft.value);
  }
}
