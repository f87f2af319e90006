/** The options of `run` and `create`: the argument loop of src/cli/main.c, and the parsers that
    only it uses. Whatever it accepts is a configuration that reaches the shim and that the registry
    admits. */
module CommandLine {
  import opened Base
  import opened Capabilities
  import opened Delivery
  import opened Mounts
  import opened Numerals
  import opened Transport
  import Launch
  import Leases
  import Quota

  /** What the command looks up: the host, the deny list in a seccomp profile, the root file system
      of an image, and the id it generates. */
  datatype Machine = Machine(host: Host, profile: string -> Option<seq<string>>, image: string -> Option<string>,
                             id: Option<string>)

  /** The configuration so far, with what is put into it at the end. */
  datatype Options = Options(image: Option<string>, hostname: Option<string>, profiled: bool, config: Config)

  const DEFAULTS := Options(None, None, false,
    Config("", None, "", "", "/", 0, 0, [], false, None, 0x800_0000, 0, 50_000, 128, 0, false, [], [], true, 0, [], []))

  // ---------------------------------------------------------------- option values

  predicate IsOctet(text: string) {
    1 <= |text| <= 3 && Digits(text) && Value(text) <= 255 && (|text| > 1 ==> text[0] != '0')
  }

  /** inet_pton for IPv4. */
  function ParseAddress(text: string): (address: Option<nat>)
    ensures address.Some? ==> address.value < U32_LIMIT
  {
    var f := Fields(text, '.');
    if |f| == 4 && IsOctet(f[0]) && IsOctet(f[1]) && IsOctet(f[2]) && IsOctet(f[3])
    then Some(((Value(f[0]) * 256 + Value(f[1])) * 256 + Value(f[2])) * 256 + Value(f[3]))
    else None
  }

  function ProtocolOf(text: string): Option<nat> {
    if text == "tcp" then Some(Leases.TCP) else if text == "udp" then Some(Leases.UDP) else None
  }

  function ParsePort(text: string): Option<nat> {
    if text == [] || !Digits(text) || !(0 < Scanned(text) < 0x1_0000) then None else Some(Scanned(text))
  }

  /** mc_parse_publish: ADDRESS:HOST_PORT:CONTAINER_PORT/PROTOCOL. */
  function ParsePublication(value: string): (publish: Option<Leases.Publish>)
    ensures publish.Some? ==> Leases.WellFormedPublish(publish.value)
  {
    match After(value, ':')
    case None => None
    case Some(ports) =>
      match After(ports, ':')
      case None => None
      case Some(rest) =>
        match After(rest, '/')
        case None => None
        case Some(text) =>
          var address, protocol := ParseAddress(Before(value, ':')), ProtocolOf(text);
          var hostPort, containerPort := ParsePort(Before(ports, ':')), ParsePort(Before(rest, '/'));
          if address.None? || protocol.None? || hostPort.None? || containerPort.None? then None
          else Some(Leases.Publish(address.value, hostPort.value, containerPort.value, protocol.value))
  }

  predicate IsNameCharacter(c: char) {
    'a' <= c <= 'z' || IsDigit(c) || c == '.' || c == '_' || c == '-'
  }

  /** mc_valid_name. */
  predicate ValidName(name: string) {
    && 1 <= |name| <= 64 && ('a' <= name[0] <= 'z' || IsDigit(name[0]))
    && (forall k :: 0 <= k < |name| ==> IsNameCharacter(name[k]))
    && (forall k :: 0 <= k < |name| ==> !DotsAt(name, k))
  }

  /** mc_valid_name: the loop over the characters and the search for two dots. */
  method IsValidName(name: string) returns (valid: bool)
    ensures valid <==> ValidName(name)
  {
    if name == [] || |name| > 64 || !IsAlphanumeric(name[0]) {
      return false;
    }
    for index := 0 to |name|
      invariant forall k :: 0 <= k < index ==> IsNameCharacter(name[k])
    {
      if !('a' <= name[index] <= 'z' || IsDigit(name[index]) || name[index] in "._-") {
        return false;
      }
    }
    var dots := FindDots(name, 0);
    return dots == |name|;
  }

  /** isalnum. */
  predicate IsAlphanumeric(c: char) {
    'a' <= c <= 'z' || 'A' <= c <= 'Z' || '0' <= c <= '9'
  }

  predicate DistinctTexts(texts: seq<string>) {
    forall i, j :: 0 <= i < j < |texts| ==> texts[i] != texts[j]
  }

  /** At most 128 distinct names of system calls. */
  predicate ProfileOk(host: Host, names: seq<string>) {
    && |names| <= 128 && DistinctTexts(names)
    && forall k :: 0 <= k < |names| ==> names[k] != [] && host.syscall(names[k])
  }

  /** The loop of mc_seccomp_profile_load over the names in the file. */
  method CheckProfile(host: Host, names: seq<string>) returns (ok: bool)
    ensures ok <==> ProfileOk(host, names)
  {
    if |names| > 128 {
      return false;
    }
    for index := 0 to |names|
      invariant forall k :: 0 <= k < index ==> names[k] != [] && host.syscall(names[k])
      invariant DistinctTexts(names[..index])
    {
      if names[index] == [] || !host.syscall(names[index]) {
        return false;
      }
      for previous := 0 to index
        invariant forall k :: 0 <= k < previous ==> names[k] != names[index]
      {
        if names[index] == names[previous] {
          return false;
        }
      }
      assert names[..index + 1] == names[..index] + [names[index]];
    }
    assert names[..|names|] == names;
    ok := true;
  }

  /** mc_seccomp_profile_load, from the names in the file on. */
  function LoadProfile(m: Machine, path: string): Option<seq<string>> {
    match m.profile(path)
    case None => None
    case Some(names) =>
      if ProfileOk(m.host, names) then Some(names) else None
  }

  /** mc_parse_cpu_quota as a function. */
  ghost function CpuQuotaOf(value: string): Option<nat> {
    if Quota.Acceptable(value) && 0.0 <= Quota.DecimalValue(value) * 100000.0
    then Some((Quota.DecimalValue(value) * 100000.0).Floor) else None
  }

  // ---------------------------------------------------------------- options

  datatype Word =
    | NameWord | ImageWord | HostnameWord | WorkdirWord | UserWord | EnvWord | MemoryWord | SwapWord | CpuWord
    | PidsWord | NetworkWord | PublishWord | CapabilityWord | BindWord | TmpfsWord | ProfileWord
    | DetachWord | ReadOnlyWord | NoWord

  function WordOf(text: string): Word {
    if text == "--detach" then DetachWord
    else if text == "--read-only" then ReadOnlyWord
    else if text == "--name" then NameWord
    else if text == "--image" then ImageWord
    else if text == "--hostname" then HostnameWord
    else if text == "--workdir" then WorkdirWord
    else if text == "--user" then UserWord
    else if text == "--env" then EnvWord
    else if text in ["--memory", "--mem"] then MemoryWord
    else if text in ["--memory-swap", "--swap"] then SwapWord
    else if text in ["--cpus", "--cpu"] then CpuWord
    else if text == "--pids-limit" then PidsWord
    else if text == "--network" then NetworkWord
    else if text == "--publish" then PublishWord
    else if text == "--cap-add" then CapabilityWord
    else if text == "--bind" then BindWord
    else if text == "--tmpfs" then TmpfsWord
    else if text == "--seccomp-profile" then ProfileWord
    else NoWord
  }

  predicate StandsAlone(word: Word) {
    word == DetachWord || word == ReadOnlyWord
  }

  predicate Overlapping(publishes: seq<Leases.Publish>, p: Leases.Publish) {
    exists k :: 0 <= k < |publishes| && Leases.Overlaps(publishes[k], p)
  }

  /** The limits, given what the quota parser makes of the value; None when it is refused. */
  function AcceptLimit(c: Config, word: Word, value: string, quota: Option<nat>): Option<Config> {
    match word
    case MemoryWord => (match ParseBytes(value) case None => None case Some(n) => Some(c.(memoryMax := n)))
    case SwapWord =>
      if value == "0" then Some(c.(swapMax := 0))
      else (match ParseBytes(value) case None => None case Some(n) => Some(c.(swapMax := n)))
    case CpuWord => (match quota case None => None case Some(n) => Some(c.(cpuQuota := n)))
    case PidsWord => (match ParsePositive(value, PIDS_MAX) case None => None case Some(n) => Some(c.(pidsMax := n)))
    case _ => None
  }

  /** A publish is refused beside an earlier one that it overlaps. */
  function AcceptPublish(c: Config, publish: Option<Leases.Publish>): Option<Config> {
    if publish.None? || Overlapping(c.publishes, publish.value) then None
    else Some(c.(publishes := c.publishes + [publish.value]))
  }

  /** The options that add to a list. */
  function AcceptMember(host: Host, c: Config, word: Word, value: string): Option<Config> {
    match word
    case EnvWord => if ValidEnvironment(value) then Some(c.(environment := c.environment + [value])) else None
    case PublishWord => AcceptPublish(c, ParsePublication(value))
    case CapabilityWord =>
      (match CapabilityNumber(host.capabilities, value)
       case None => None
       case Some(n) => if n < BITS then Some(c.(capabilityMask := WithBit(c.capabilityMask, n))) else None)
    case BindWord => (match ParseBind(host, value) case None => None case Some(m) => Some(c.(mounts := c.mounts + [m])))
    case TmpfsWord => (match ParseTmpfs(value) case None => None case Some(m) => Some(c.(mounts := c.mounts + [m])))
    case _ => None
  }

  /** The remaining options that go into the configuration. */
  function AcceptPlain(c: Config, word: Word, value: string): Option<Config> {
    match word
    case DetachWord => Some(c.(detach := true))
    case ReadOnlyWord => Some(c.(readonlyRoot := true))
    case NameWord => if ValidName(value) then Some(c.(name := Some(value))) else None
    case WorkdirWord => if value != [] && value[0] == '/' then Some(c.(workdir := value)) else None
    case UserWord => (match ParseUser(value) case None => None case Some((u, g)) => Some(c.(user := u, group := g)))
    case NetworkWord => if value in ["bridge", "none"] then Some(c.(bridge := value == "bridge")) else None
    case _ => None
  }

  function With(o: Options, c: Option<Config>): Option<Options> {
    match c case None => None case Some(config) => Some(o.(config := config))
  }

  predicate IsLimit(word: Word) {
    word == MemoryWord || word == SwapWord || word == CpuWord || word == PidsWord
  }

  predicate IsMember(word: Word) {
    word == EnvWord || word == PublishWord || word == CapabilityWord || word == BindWord || word == TmpfsWord
  }

  function AcceptProfile(m: Machine, o: Options, value: string): Option<Options> {
    match LoadProfile(m, value)
    case None => None
    case Some(names) => if o.profiled then None else Some(o.(profiled := true, config := o.config.(denies := names)))
  }

  function AcceptWith(m: Machine, o: Options, word: Word, value: string, quota: Option<nat>): Option<Options> {
    if word == ImageWord then Some(o.(image := Some(value)))
    else if word == HostnameWord then Some(o.(hostname := Some(value)))
    else if word == ProfileWord then AcceptProfile(m, o, value)
    else if IsLimit(word) then With(o, AcceptLimit(o.config, word, value, quota))
    else if IsMember(word) then With(o, AcceptMember(m.host, o.config, word, value))
    else With(o, AcceptPlain(o.config, word, value))
  }

  /** One option with its value. */
  ghost function Accept(m: Machine, o: Options, word: Word, value: string): Option<Options> {
    AcceptWith(m, o, word, value, CpuQuotaOf(value))
  }

  type Acceptor = (Options, Word, string) -> Option<Options>

  ghost function AcceptorOf(m: Machine): Acceptor {
    (o, word, value) => Accept(m, o, word, value)
  }

  /** The meaning of the arguments from some position on: the options, and the command. */
  ghost function Collect(accept: Acceptor, o: Options, args: seq<string>): Option<(Options, seq<string>)>
    decreases |args|
  {
    if args == [] then None
    else if args[0] == "--" then Some((o, args[1..]))
    else
      var word := WordOf(args[0]);
      var width := if StandsAlone(word) then 1 else 2;
      if |args| < width then None
      else match accept(o, word, if width == 1 then "" else args[1])
        case None => None
        case Some(next) => Collect(accept, next, args[width..])
  }

  /** The checks after the loop, and the fields that are filled in then. */
  function Conclude(m: Machine, o: Options, command: seq<string>): Option<Config> {
    if o.image.None? || command == [] || m.image(o.image.value).None? || m.id.None? ||
       (!o.config.bridge && o.config.publishes != [])
    then None
    else
      var id := m.id.value;
      var hostname := if o.hostname.Some? then o.hostname.value else "mc-" + Truncate(id, 12);
      Some(o.config.(id := id, rootfs := m.image(o.image.value).value, hostname := hostname, command := command))
  }

  ghost function Commanded(m: Machine, args: seq<string>): Option<Config> {
    match Collect(AcceptorOf(m), DEFAULTS, args)
    case None => None
    case Some((o, command)) => Conclude(m, o, command)
  }

  // ---------------------------------------------------------------- the loop

  method AcceptOption(m: Machine, o: Options, word: Word, value: string) returns (next: Option<Options>)
    ensures next == Accept(m, o, word, value)
  {
    var quota := None;
    if word == CpuWord {
      quota := Quota.ParseCpuQuota(value);
    }
    next := AcceptWith(m, o, word, value, quota);
  }

  datatype Progress =
    | Finished(options: Options, command: seq<string>)
    | Rejected
    | Further(options: Options, width: nat)

  /** One turn of the argument loop, at the front of what is left. */
  method CollectOne(m: Machine, o: Options, args: seq<string>) returns (turn: Progress)
    requires args != []
    ensures match turn
            case Finished(options, command) => Collect(AcceptorOf(m), o, args) == Some((options, command))
            case Rejected => Collect(AcceptorOf(m), o, args) == None
            case Further(next, width) =>
              0 < width <= |args| && Collect(AcceptorOf(m), o, args) == Collect(AcceptorOf(m), next, args[width..])
  {
    if args[0] == "--" {
      return Finished(o, args[1..]);
    }
    var word := WordOf(args[0]);
    var width := if StandsAlone(word) then 1 else 2;
    if |args| < width {
      return Rejected;
    }
    var next := AcceptOption(m, o, word, if width == 1 then "" else args[1]);
    turn := if next.None? then Rejected else Further(next.value, width);
  }

  /** The argument loop and the checks after it. */
  method ParseCommandLine(m: Machine, args: seq<string>) returns (config: Option<Config>)
    ensures config == Commanded(m, args)
  {
    var o, rest := DEFAULTS, args;
    while rest != []
      invariant Collect(AcceptorOf(m), DEFAULTS, args) == Collect(AcceptorOf(m), o, rest)
      decreases |rest|
    {
      var turn := CollectOne(m, o, rest);
      match turn {
        case Finished(options, command) => return Conclude(m, options, command);
        case Rejected => return None;
        case Further(next, width) => o, rest := next, rest[width..];
      }
    }
    return None;
  }

  // ---------------------------------------------------------------- what is accepted

  /** The configuration would be buildable if it had a command, and its publishes are apart. */
  ghost predicate OptionsOk(host: Host, c: Config) {
    && Buildable(host, c.(command := [""])) && Leases.PairwiseDisjoint(c.publishes) && c.ipv4Host == 0
  }

  lemma QuotaIsWithin(value: string)
    requires CpuQuotaOf(value).Some?
    ensures 0 < CpuQuotaOf(value).value <= CPU_MAX
  {
    var scaled := Quota.DecimalValue(value) * 100000.0;
    assert 1.0 <= scaled <= 102400000.0;
  }

  predicate QuotaOk(quota: Option<nat>) {
    quota.Some? ==> 0 < quota.value <= CPU_MAX
  }

  predicate LimitsOk(c: Config) {
    0 < c.memoryMax < U64_LIMIT && c.swapMax < U64_LIMIT && 0 < c.cpuQuota <= CPU_MAX && 0 < c.pidsMax <= PIDS_MAX
  }

  lemma LimitIsWithin(c: Config, word: Word, value: string, quota: Option<nat>)
    requires LimitsOk(c) && QuotaOk(quota) && AcceptLimit(c, word, value, quota).Some?
    ensures var d := AcceptLimit(c, word, value, quota).value;
            && LimitsOk(d)
            && d == c.(memoryMax := d.memoryMax, swapMax := d.swapMax, cpuQuota := d.cpuQuota, pidsMax := d.pidsMax)
  {
  }

  lemma NewLimitsKeepOk(host: Host, c: Config, d: Config)
    requires OptionsOk(host, c) && LimitsOk(d)
    requires d == c.(memoryMax := d.memoryMax, swapMax := d.swapMax, cpuQuota := d.cpuQuota, pidsMax := d.pidsMax)
    ensures OptionsOk(host, d)
  {
  }

  lemma LimitKeepsOk(host: Host, c: Config, word: Word, value: string, quota: Option<nat>)
    requires OptionsOk(host, c) && QuotaOk(quota) && AcceptLimit(c, word, value, quota).Some?
    ensures OptionsOk(host, AcceptLimit(c, word, value, quota).value)
  {
    LimitIsWithin(c, word, value, quota);
    NewLimitsKeepOk(host, c, AcceptLimit(c, word, value, quota).value);
  }

  lemma PlainKeepsOk(host: Host, c: Config, word: Word, value: string)
    requires OptionsOk(host, c) && AcceptPlain(c, word, value).Some?
    ensures OptionsOk(host, AcceptPlain(c, word, value).value)
  {
  }

  lemma PublishKeepsOk(host: Host, c: Config, p: Leases.Publish)
    requires OptionsOk(host, c) && Leases.WellFormedPublish(p) && !Overlapping(c.publishes, p)
    ensures OptionsOk(host, c.(publishes := c.publishes + [p]))
  {
  }

  lemma MountKeepsOk(host: Host, c: Config, m: Mount)
    requires OptionsOk(host, c) && MountOk(host, m)
    ensures OptionsOk(host, c.(mounts := c.mounts + [m]))
  {
  }

  lemma CapabilityKeepsOk(host: Host, c: Config, value: string)
    requires OptionsOk(host, c) && TableOk(host.capabilities) && CapabilityNumber(host.capabilities, value).Some?
    ensures var n := CapabilityNumber(host.capabilities, value).value;
            OptionsOk(host, c.(capabilityMask := WithBit(c.capabilityMask, n)))
  {
    FindIsWithin(host.capabilities, Stripped(value));
    WithBitStaysBelow(c.capabilityMask, CapabilityNumber(host.capabilities, value).value, NAMED);
  }

  lemma MemberKeepsOk(host: Host, c: Config, word: Word, value: string)
    requires Resolves(host) && TableOk(host.capabilities)
    requires OptionsOk(host, c) && AcceptMember(host, c, word, value).Some?
    ensures OptionsOk(host, AcceptMember(host, c, word, value).value)
  {
    match word {
      case EnvWord =>
      case PublishWord => PublishKeepsOk(host, c, ParsePublication(value).value);
      case CapabilityWord => CapabilityKeepsOk(host, c, value);
      case BindWord =>
        ParsedBindIsOk(host, value);
        MountKeepsOk(host, c, ParseBind(host, value).value);
      case TmpfsWord =>
        ParsedTmpfsIsOk(value);
        MountKeepsOk(host, c, ParseTmpfs(value).value);
    }
  }

  lemma AcceptLimitKeepsOk(m: Machine, o: Options, word: Word, value: string, quota: Option<nat>)
    requires QuotaOk(quota) && OptionsOk(m.host, o.config) && IsLimit(word)
    requires AcceptWith(m, o, word, value, quota).Some?
    ensures OptionsOk(m.host, AcceptWith(m, o, word, value, quota).value.config)
  {
    LimitKeepsOk(m.host, o.config, word, value, quota);
  }

  lemma MemberIsAccepted(m: Machine, o: Options, word: Word, value: string, quota: Option<nat>)
    requires IsMember(word)
    ensures AcceptWith(m, o, word, value, quota) == With(o, AcceptMember(m.host, o.config, word, value))
  {
    assert word != ImageWord && word != HostnameWord && word != ProfileWord && !IsLimit(word);
  }

  lemma AcceptMemberKeepsOk(m: Machine, o: Options, word: Word, value: string, quota: Option<nat>)
    requires Resolves(m.host) && TableOk(m.host.capabilities) && OptionsOk(m.host, o.config) && IsMember(word)
    requires AcceptWith(m, o, word, value, quota).Some?
    ensures OptionsOk(m.host, AcceptWith(m, o, word, value, quota).value.config)
  {
    MemberIsAccepted(m, o, word, value, quota);
    MemberKeepsOk(m.host, o.config, word, value);
  }

  lemma AcceptPlainKeepsOk(m: Machine, o: Options, word: Word, value: string, quota: Option<nat>)
    requires OptionsOk(m.host, o.config) && !IsLimit(word) && !IsMember(word) && word != ProfileWord
    requires AcceptWith(m, o, word, value, quota).Some?
    ensures OptionsOk(m.host, AcceptWith(m, o, word, value, quota).value.config)
  {
    if word != ImageWord && word != HostnameWord {
      PlainKeepsOk(m.host, o.config, word, value);
    }
  }

  lemma AcceptWithKeepsOk(m: Machine, o: Options, word: Word, value: string, quota: Option<nat>)
    requires Resolves(m.host) && TableOk(m.host.capabilities) && QuotaOk(quota)
    requires OptionsOk(m.host, o.config) && AcceptWith(m, o, word, value, quota).Some?
    ensures OptionsOk(m.host, AcceptWith(m, o, word, value, quota).value.config)
  {
    if IsLimit(word) {
      AcceptLimitKeepsOk(m, o, word, value, quota);
    } else if IsMember(word) {
      AcceptMemberKeepsOk(m, o, word, value, quota);
    } else if word == ProfileWord {
      ProfileKeepsOk(m, o.config, value);
    } else {
      AcceptPlainKeepsOk(m, o, word, value, quota);
    }
  }

  lemma ProfileKeepsOk(m: Machine, c: Config, path: string)
    requires OptionsOk(m.host, c) && LoadProfile(m, path).Some?
    ensures OptionsOk(m.host, c.(denies := LoadProfile(m, path).value))
  {
  }

  lemma AcceptKeepsOk(m: Machine, o: Options, word: Word, value: string)
    requires Resolves(m.host) && TableOk(m.host.capabilities)
    requires OptionsOk(m.host, o.config) && Accept(m, o, word, value).Some?
    ensures OptionsOk(m.host, Accept(m, o, word, value).value.config)
  {
    if CpuQuotaOf(value).Some? {
      QuotaIsWithin(value);
    }
    AcceptWithKeepsOk(m, o, word, value, CpuQuotaOf(value));
  }

  lemma {:induction false} CollectKeepsOk(m: Machine, o: Options, args: seq<string>)
    requires Resolves(m.host) && TableOk(m.host.capabilities) && OptionsOk(m.host, o.config)
    requires Collect(AcceptorOf(m), o, args).Some?
    ensures OptionsOk(m.host, Collect(AcceptorOf(m), o, args).value.0.config)
    decreases |args|
  {
    if args[0] != "--" {
      var word := WordOf(args[0]);
      var value := if StandsAlone(word) then "" else args[1];
      AcceptKeepsOk(m, o, word, value);
      CollectKeepsOk(m, Accept(m, o, word, value).value, if StandsAlone(word) then args[1..] else args[2..]);
    }
  }

  /** What the registry keeps of a configuration. */
  function RegistryView(c: Config): Leases.Config {
    Leases.Config(c.name, c.bridge, c.ipv4Host, c.publishes)
  }

  /** Every command line that is accepted builds a configuration that meets the hypotheses of the
      delivery theorem and of the registry theorems; it stays so when its address is filled in. */
  lemma AcceptedIsBuildable(m: Machine, args: seq<string>, address: nat)
    requires Resolves(m.host) && m.host.capabilities == NAMES && Commanded(m, args).Some? && address < U32_LIMIT
    ensures Buildable(m.host, Commanded(m, args).value.(ipv4Host := address))
    ensures Leases.Requested(RegistryView(Commanded(m, args).value))
  {
    NamesAreOk();
    assert Pow2(NAMED) > 0;
    CollectKeepsOk(m, DEFAULTS, args);
  }

  /** From the command line to the shim: once its address is known, an accepted configuration
      arrives unchanged if and only if all its bind mounts are portable. */
  lemma AcceptedIsDelivered(m: Machine, args: seq<string>, address: nat, path: string, fd: nat)
    requires Resolves(m.host) && m.host.capabilities == NAMES && Commanded(m, args).Some? && address < U32_LIMIT
    requires fd <= FD_MAX
    ensures var c := Commanded(m, args).value.(ipv4Host := address);
            Received(m.host, Launch.Arguments(m.host, path, c, fd)) == Some(Delivered(c, fd)) <==>
            forall k :: 0 <= k < |c.mounts| ==> Portable(c.mounts[k])
  {
    AcceptedIsBuildable(m, args, address);
    DeliveryIsExact(m.host, path, Commanded(m, args).value.(ipv4Host := address), fd);
  }
}
