/** What command lines mean: each option with its value as a typed item, any items in any order, and
    the configuration that they describe, field by field. */
module CommandText {
  import opened Base
  import opened Capabilities
  import opened CommandLine
  import opened Mounts
  import opened Numerals
  import opened OptionText
  import opened Transport
  import Leases

  /** One option as a user means it. `brief` and `prefix` choose between its spellings. */
  datatype Item =
    | Named(text: string) | Imaged(text: string) | Hosted(text: string) | Working(text: string)
    | AsUser(user: nat, group: Option<nat>) | Assigning(text: string)
    | Limiting(n: nat, brief: bool) | Swapping(n: nat, brief: bool) | Sharing(n: nat, brief: bool) | Counting(n: nat)
    | Networked(bridge: bool) | Publishing(p: Leases.Publish) | Allowing(capability: nat, prefix: bool)
    | Binding(path: string, target: string, mode: Option<bool>) | Mounting(target: string, size: Option<nat>)
    | Profiled(path: string) | Detached | Sealed

  // ---------------------------------------------------------------- writing

  function OptionName(item: Item): string {
    match item
    case Named(_) => "--name"
    case Imaged(_) => "--image"
    case Hosted(_) => "--hostname"
    case Working(_) => "--workdir"
    case AsUser(_, _) => "--user"
    case Assigning(_) => "--env"
    case Limiting(_, brief) => if brief then "--mem" else "--memory"
    case Swapping(_, brief) => if brief then "--swap" else "--memory-swap"
    case Sharing(_, brief) => if brief then "--cpu" else "--cpus"
    case Counting(_) => "--pids-limit"
    case Networked(_) => "--network"
    case Publishing(_) => "--publish"
    case Allowing(_, _) => "--cap-add"
    case Binding(_, _, _) => "--bind"
    case Mounting(_, _) => "--tmpfs"
    case Profiled(_) => "--seccomp-profile"
    case Detached => "--detach"
    case Sealed => "--read-only"
  }

  function OptionValue(host: Host, item: Item): string {
    match item
    case Named(text) => text
    case Imaged(text) => text
    case Hosted(text) => text
    case Working(text) => text
    case AsUser(user, group) => if group.None? then Decimal(user) else UserText(user, group.value)
    case Assigning(text) => text
    case Limiting(n, _) => Decimal(n)
    case Swapping(n, _) => Decimal(n)
    case Sharing(n, _) => QuotaText(n)
    case Counting(n) => Decimal(n)
    case Networked(bridge) => if bridge then "bridge" else "none"
    case Publishing(p) => PublicationText(p)
    case Allowing(n, prefix) => (if prefix then "CAP_" else "") + CapabilityName(host.capabilities, n)
    case Binding(path, target, mode) =>
      path + [':'] + (target + if mode.None? then [] else [':'] + Mode(mode.value))
    case Mounting(target, size) => if size.None? then target else target + [':'] + Decimal(size.value)
    case Profiled(path) => path
    case Detached => ""
    case Sealed => ""
  }

  function Texts(host: Host, item: Item): seq<string> {
    if item.Detached? || item.Sealed? then [OptionName(item)] else [OptionName(item), OptionValue(host, item)]
  }

  function Line(host: Host, items: seq<Item>, command: seq<string>): seq<string> {
    if items == [] then ["--"] + command else Texts(host, items[0]) + Line(host, items[1..], command)
  }

  /** What each option takes. */
  predicate ItemOk(m: Machine, item: Item) {
    match item
    case Named(text) => ValidName(text)
    case Imaged(_) => true
    case Hosted(_) => true
    case Working(text) => text != [] && text[0] == '/'
    case AsUser(user, group) => user <= 65535 && (group.Some? ==> group.value <= 65535)
    case Assigning(text) => ValidEnvironment(text)
    case Limiting(n, _) => 0 < n < 0x1_0000_0000_0000_0000
    case Swapping(n, _) => n < 0x1_0000_0000_0000_0000
    case Sharing(n, _) => 0 < n <= 102_400_000
    case Counting(n) => 0 < n <= 4_194_304
    case Networked(_) => true
    case Publishing(p) => Leases.WellFormedPublish(p)
    case Allowing(n, _) => n < 41
    case Binding(path, target, _) =>
      && path != [] && path[0] == '/' && ':' !in path && ValidTarget(target) && ':' !in target
      && m.host.realpath(path).Some? && m.host.bindable(m.host.realpath(path).value)
    case Mounting(target, size) =>
      ValidTarget(target) && ':' !in target && (size.Some? ==> 0 < size.value <= 1024 * 1024 * 1024)
    case Profiled(path) => LoadProfile(m, path).Some?
    case Detached => true
    case Sealed => true
  }

  // ---------------------------------------------------------------- one option

  function WordFor(item: Item): Word {
    match item
    case Named(_) => NameWord
    case Imaged(_) => ImageWord
    case Hosted(_) => HostnameWord
    case Working(_) => WorkdirWord
    case AsUser(_, _) => UserWord
    case Assigning(_) => EnvWord
    case Limiting(_, _) => MemoryWord
    case Swapping(_, _) => SwapWord
    case Sharing(_, _) => CpuWord
    case Counting(_) => PidsWord
    case Networked(_) => NetworkWord
    case Publishing(_) => PublishWord
    case Allowing(_, _) => CapabilityWord
    case Binding(_, _, _) => BindWord
    case Mounting(_, _) => TmpfsWord
    case Profiled(_) => ProfileWord
    case Detached => DetachWord
    case Sealed => ReadOnlyWord
  }

  lemma TextNameIsRead(item: Item)
    requires item.Named? || item.Imaged? || item.Hosted? || item.Working? || item.Assigning? || item.Profiled?
    ensures WordOf(OptionName(item)) == WordFor(item)
  {
  }

  lemma LimitNameIsRead(item: Item)
    requires item.Limiting? || item.Swapping? || item.Sharing? || item.Counting?
    ensures WordOf(OptionName(item)) == WordFor(item)
  {
  }

  lemma MemberNameIsRead(item: Item)
    requires item.Publishing? || item.Allowing? || item.Binding? || item.Mounting?
    ensures WordOf(OptionName(item)) == WordFor(item)
  {
  }

  lemma OtherNameIsRead(item: Item)
    requires item.AsUser? || item.Networked?
    ensures WordOf(OptionName(item)) == WordFor(item)
  {
  }

  lemma NameIsRead(item: Item)
    ensures WordOf(OptionName(item)) == WordFor(item) && |OptionName(item)| > 2
  {
    if item.Limiting? || item.Swapping? || item.Sharing? || item.Counting? {
      LimitNameIsRead(item);
    } else if item.Named? || item.Imaged? || item.Hosted? || item.Working? || item.Assigning? || item.Profiled? {
      TextNameIsRead(item);
    } else if item.Publishing? || item.Allowing? || item.Binding? || item.Mounting? {
      MemberNameIsRead(item);
    } else if !item.Detached? && !item.Sealed? {
      OtherNameIsRead(item);
    }
  }

  function MountFor(host: Host, item: Item): Option<Mount> {
    match item
    case Binding(path, target, mode) =>
      if host.realpath(path).None? then None else Some(Bind(host.realpath(path).value, target, mode == Some(true)))
    case Mounting(target, size) => Some(Tmpfs(target, if size.None? then 64 * 1024 * 1024 else size.value))
    case _ => None
  }

  function Or<T>(value: Option<T>, default: T): T {
    if value.None? then default else value.value
  }

  function Joined<T>(values: seq<T>, value: Option<T>): seq<T> {
    if value.None? then values else values + [value.value]
  }

  function NameIn(item: Item): Option<string> { if item.Named? then Some(item.text) else None }
  function ImageIn(item: Item): Option<string> { if item.Imaged? then Some(item.text) else None }
  function HostnameIn(item: Item): Option<string> { if item.Hosted? then Some(item.text) else None }
  function WorkdirIn(item: Item): Option<string> { if item.Working? then Some(item.text) else None }
  function UserIn(item: Item): Option<nat> { if item.AsUser? then Some(item.user) else None }
  function GroupIn(item: Item): Option<nat> { if item.AsUser? then Some(Or(item.group, item.user)) else None }
  function VariableIn(item: Item): Option<string> { if item.Assigning? then Some(item.text) else None }
  function MemoryIn(item: Item): Option<nat> { if item.Limiting? then Some(item.n) else None }
  function SwapIn(item: Item): Option<nat> { if item.Swapping? then Some(item.n) else None }
  function CpuIn(item: Item): Option<nat> { if item.Sharing? then Some(item.n) else None }
  function PidsIn(item: Item): Option<nat> { if item.Counting? then Some(item.n) else None }
  function NetworkIn(item: Item): Option<bool> { if item.Networked? then Some(item.bridge) else None }
  function PublishIn(item: Item): Option<Leases.Publish> { if item.Publishing? then Some(item.p) else None }
  function DetachIn(item: Item): Option<bool> { if item.Detached? then Some(true) else None }
  function SealIn(item: Item): Option<bool> { if item.Sealed? then Some(true) else None }

  function MountIn(host: Host): Item -> Option<Mount> {
    item => MountFor(host, item)
  }

  function DeniesIn(m: Machine): Item -> Option<seq<string>> {
    (item: Item) => if item.Profiled? then LoadProfile(m, item.path) else None
  }

  /** What one item does to the configuration so far. */
  function Effect(m: Machine, c: Config, item: Item): Config {
    c.(name := if item.Named? then Some(item.text) else c.name,
       workdir := Or(WorkdirIn(item), c.workdir), user := Or(UserIn(item), c.user), group := Or(GroupIn(item), c.group),
       environment := Joined(c.environment, VariableIn(item)), detach := Or(DetachIn(item), c.detach),
       memoryMax := Or(MemoryIn(item), c.memoryMax), swapMax := Or(SwapIn(item), c.swapMax),
       cpuQuota := Or(CpuIn(item), c.cpuQuota), pidsMax := Or(PidsIn(item), c.pidsMax),
       capabilityMask := if item.Allowing? then WithBit(c.capabilityMask, item.capability) else c.capabilityMask,
       readonlyRoot := Or(SealIn(item), c.readonlyRoot), mounts := Joined(c.mounts, MountFor(m.host, item)),
       denies := Or(DeniesIn(m)(item), c.denies), bridge := Or(NetworkIn(item), c.bridge),
       publishes := Joined(c.publishes, PublishIn(item)))
  }

  function Grown(m: Machine, o: Options, item: Item): Options {
    Options(if item.Imaged? then Some(item.text) else o.image, if item.Hosted? then Some(item.text) else o.hostname,
            o.profiled || item.Profiled?, Effect(m, o.config, item))
  }

  /** An item is refused beside earlier ones only for two reasons. */
  predicate Fits(o: Options, item: Item) {
    (item.Publishing? ==> !Overlapping(o.config.publishes, item.p)) && (item.Profiled? ==> !o.profiled)
  }

  predicate Taken(m: Machine, o: Options, item: Item, word: Word, value: string, quota: Option<nat>) {
    AcceptWith(m, o, word, value, quota) == if Fits(o, item) then Some(Grown(m, o, item)) else None
  }

  lemma LimitIsTaken(m: Machine, o: Options, n: nat, brief: bool, value: string, quota: Option<nat>)
    requires ParseBytes(value) == Some(n)
    ensures Taken(m, o, Limiting(n, brief), MemoryWord, value, quota)
  {
  }

  lemma SwapIsTaken(m: Machine, o: Options, n: nat, brief: bool, value: string, quota: Option<nat>)
    requires ParseBytes(value) == Some(n) && value != "0"
    ensures Taken(m, o, Swapping(n, brief), SwapWord, value, quota)
  {
  }

  lemma NoSwapIsTaken(m: Machine, o: Options, brief: bool, quota: Option<nat>)
    ensures Taken(m, o, Swapping(0, brief), SwapWord, "0", quota)
  {
  }

  lemma QuotaIsTaken(m: Machine, o: Options, n: nat, brief: bool, value: string)
    ensures Taken(m, o, Sharing(n, brief), CpuWord, value, Some(n))
  {
  }

  lemma CountIsTaken(m: Machine, o: Options, n: nat, value: string, quota: Option<nat>)
    requires ParsePositive(value, PIDS_MAX) == Some(n)
    ensures Taken(m, o, Counting(n), PidsWord, value, quota)
  {
  }

  lemma PublishFits(m: Machine, o: Options, p: Leases.Publish)
    ensures With(o, AcceptPublish(o.config, Some(p))) ==
            if Fits(o, Publishing(p)) then Some(Grown(m, o, Publishing(p))) else None
  {
  }

  lemma PublishIsParsed(m: Machine, o: Options, value: string, quota: Option<nat>)
    ensures AcceptWith(m, o, PublishWord, value, quota) == With(o, AcceptPublish(o.config, ParsePublication(value)))
  {
  }

  lemma PublishIsTaken(m: Machine, o: Options, p: Leases.Publish, value: string, quota: Option<nat>)
    requires ParsePublication(value) == Some(p)
    ensures Taken(m, o, Publishing(p), PublishWord, value, quota)
  {
    PublishFits(m, o, p);
    PublishIsParsed(m, o, value, quota);
  }

  lemma CapabilityIsTaken(m: Machine, o: Options, n: nat, prefix: bool, value: string, quota: Option<nat>)
    requires CapabilityNumber(m.host.capabilities, value) == Some(n) && n < NAMED
    ensures Taken(m, o, Allowing(n, prefix), CapabilityWord, value, quota)
  {
  }

  lemma BindIsTaken(m: Machine, o: Options, item: Item, value: string, quota: Option<nat>)
    requires item.Binding? && MountFor(m.host, item).Some? && ParseBind(m.host, value) == MountFor(m.host, item)
    ensures Taken(m, o, item, BindWord, value, quota)
  {
  }

  lemma TmpfsIsTaken(m: Machine, o: Options, item: Item, value: string, quota: Option<nat>)
    requires item.Mounting? && ParseTmpfs(value) == MountFor(m.host, item)
    ensures Taken(m, o, item, TmpfsWord, value, quota)
  {
  }

  lemma UserIsTaken(m: Machine, o: Options, user: nat, group: Option<nat>, value: string, quota: Option<nat>)
    requires ParseUser(value) == Some((user, if group.None? then user else group.value))
    ensures Taken(m, o, AsUser(user, group), UserWord, value, quota)
  {
  }

  lemma PlaceIsTaken(m: Machine, o: Options, item: Item, quota: Option<nat>)
    requires ItemOk(m, item) && (item.Imaged? || item.Hosted? || item.Working?)
    ensures Taken(m, o, item, WordFor(item), item.text, quota)
  {
  }

  lemma TextIsTaken(m: Machine, o: Options, item: Item, quota: Option<nat>)
    requires ItemOk(m, item) && (item.Named? || item.Assigning?)
    ensures Taken(m, o, item, WordFor(item), item.text, quota)
  {
  }

  lemma ChoiceIsTaken(m: Machine, o: Options, item: Item, quota: Option<nat>)
    requires ItemOk(m, item)
    requires item.Networked? || item.Profiled? || item.Detached? || item.Sealed?
    ensures Taken(m, o, item, WordFor(item), OptionValue(m.host, item), quota)
  {
  }

  lemma SizeIsTaken(m: Machine, o: Options, item: Item, quota: Option<nat>)
    requires ItemOk(m, item) && (item.Limiting? || item.Swapping?)
    ensures Taken(m, o, item, WordFor(item), OptionValue(m.host, item), quota)
  {
    if item.n == 0 {
      assert Decimal(0) == "0";
      NoSwapIsTaken(m, o, item.brief, quota);
    } else {
      LeadingDigit(item.n);
      assert "0"[0] == '0';
      BytesOfDecimal(item.n);
      LimitIsTaken(m, o, item.n, item.brief, Decimal(item.n), quota);
      SwapIsTaken(m, o, item.n, item.brief, Decimal(item.n), quota);
    }
  }

  lemma MemberIsTaken(m: Machine, o: Options, item: Item, quota: Option<nat>)
    requires ItemOk(m, item) && TableOk(m.host.capabilities)
    requires item.Publishing? || item.Allowing? || item.Binding? || item.Mounting?
    ensures Taken(m, o, item, WordFor(item), OptionValue(m.host, item), quota)
  {
    var value := OptionValue(m.host, item);
    match item {
      case Publishing(p) =>
        PublicationRoundTrip(p);
        PublishIsTaken(m, o, p, value, quota);
      case Allowing(n, prefix) =>
        CapabilityOfName(m.host.capabilities, n, prefix);
        CapabilityIsTaken(m, o, n, prefix, value, quota);
      case Binding(path, target, mode) =>
        BindWithMode(m.host, path, target, mode);
        BindIsTaken(m, o, item, value, quota);
      case Mounting(target, size) =>
        if size.None? { TmpfsWithoutSize(target); } else { TmpfsWithSize(target, size.value); }
        TmpfsIsTaken(m, o, item, value, quota);
    }
  }

  lemma NumberIsTaken(m: Machine, o: Options, item: Item, quota: Option<nat>)
    requires ItemOk(m, item) && (item.Counting? || item.AsUser?)
    ensures Taken(m, o, item, WordFor(item), OptionValue(m.host, item), quota)
  {
    var value := OptionValue(m.host, item);
    match item {
      case Counting(n) =>
        ParseOfDecimal(n, PIDS_MAX);
        CountIsTaken(m, o, n, value, quota);
      case AsUser(user, group) =>
        if group.None? { LoneUser(user); } else { UserRoundTrip(user, group.value); }
        UserIsTaken(m, o, user, group, value, quota);
    }
  }

  lemma ItemIsTaken(m: Machine, o: Options, item: Item, quota: Option<nat>)
    requires ItemOk(m, item) && TableOk(m.host.capabilities) && (item.Sharing? ==> quota == Some(item.n))
    ensures Taken(m, o, item, WordFor(item), OptionValue(m.host, item), quota)
  {
    if item.Sharing? {
      QuotaIsTaken(m, o, item.n, item.brief, OptionValue(m.host, item));
    } else if item.Limiting? || item.Swapping? {
      SizeIsTaken(m, o, item, quota);
    } else if item.Publishing? || item.Allowing? || item.Binding? || item.Mounting? {
      MemberIsTaken(m, o, item, quota);
    } else if item.Counting? || item.AsUser? {
      NumberIsTaken(m, o, item, quota);
    } else if item.Networked? || item.Profiled? || item.Detached? || item.Sealed? {
      ChoiceIsTaken(m, o, item, quota);
    } else if item.Imaged? || item.Hosted? || item.Working? {
      PlaceIsTaken(m, o, item, quota);
    } else {
      TextIsTaken(m, o, item, quota);
    }
  }

  /** Every item is taken for what it is, unless it does not fit beside earlier ones. */
  lemma ItemIsAccepted(m: Machine, o: Options, item: Item)
    requires ItemOk(m, item) && TableOk(m.host.capabilities)
    ensures Accept(m, o, WordFor(item), OptionValue(m.host, item)) ==
            if Fits(o, item) then Some(Grown(m, o, item)) else None
  {
    if item.Sharing? {
      QuotaRoundTrip(item.n);
    }
    ItemIsTaken(m, o, item, CpuQuotaOf(OptionValue(m.host, item)));
  }

  // ---------------------------------------------------------------- whole lines

  function GrownAll(m: Machine, o: Options, items: seq<Item>): Options
    decreases |items|
  {
    if items == [] then o else GrownAll(m, Grown(m, o, items[0]), items[1..])
  }

  ghost predicate FitTogether(m: Machine, o: Options, items: seq<Item>)
    decreases |items|
  {
    items == [] || (Fits(o, items[0]) && FitTogether(m, Grown(m, o, items[0]), items[1..]))
  }

  ghost predicate ItemsOk(m: Machine, items: seq<Item>) {
    forall k :: 0 <= k < |items| ==> ItemOk(m, items[k])
  }

  lemma CollectOption(accept: Acceptor, o: Options, name: string, value: string, rest: seq<string>)
    requires |name| > 2 && !StandsAlone(WordOf(name))
    ensures Collect(accept, o, [name, value] + rest) ==
            match accept(o, WordOf(name), value) case None => None case Some(next) => Collect(accept, next, rest)
  {
    var args := [name, value] + rest;
    assert args[0] == name && args[1] == value && args[2..] == rest && name != "--";
  }

  lemma CollectSwitch(accept: Acceptor, o: Options, name: string, rest: seq<string>)
    requires |name| > 2 && StandsAlone(WordOf(name))
    ensures Collect(accept, o, [name] + rest) ==
            match accept(o, WordOf(name), "") case None => None case Some(next) => Collect(accept, next, rest)
  {
    var args := [name] + rest;
    assert args[0] == name && args[1..] == rest && name != "--";
  }

  lemma CollectItem(m: Machine, o: Options, item: Item, rest: seq<string>)
    requires ItemOk(m, item) && TableOk(m.host.capabilities)
    ensures Collect(AcceptorOf(m), o, Texts(m.host, item) + rest) ==
            if Fits(o, item) then Collect(AcceptorOf(m), Grown(m, o, item), rest) else None
  {
    CollectTexts(AcceptorOf(m), m.host, o, item, rest);
    ItemIsAccepted(m, o, item);
    assert AcceptorOf(m)(o, WordFor(item), OptionValue(m.host, item)) ==
           Accept(m, o, WordFor(item), OptionValue(m.host, item));
  }

  lemma CollectTexts(accept: Acceptor, host: Host, o: Options, item: Item, rest: seq<string>)
    ensures Collect(accept, o, Texts(host, item) + rest) ==
            match accept(o, WordFor(item), OptionValue(host, item))
            case None => None
            case Some(next) => Collect(accept, next, rest)
  {
    NameIsRead(item);
    CollectNamed(accept, o, item, OptionName(item), OptionValue(host, item), rest);
  }

  lemma CollectNamed(accept: Acceptor, o: Options, item: Item, name: string, value: string, rest: seq<string>)
    requires WordOf(name) == WordFor(item) && |name| > 2 && (item.Detached? || item.Sealed? ==> value == "")
    ensures var texts := if item.Detached? || item.Sealed? then [name] else [name, value];
            Collect(accept, o, texts + rest) ==
              match accept(o, WordFor(item), value) case None => None case Some(next) => Collect(accept, next, rest)
  {
    if item.Detached? || item.Sealed? {
      CollectSwitch(accept, o, name, rest);
    } else {
      CollectOption(accept, o, name, value, rest);
    }
  }

  lemma CollectEnd(accept: Acceptor, o: Options, command: seq<string>)
    ensures Collect(accept, o, ["--"] + command) == Some((o, command))
  {
    assert (["--"] + command)[1..] == command;
  }

  /** A line of any items in any order is accepted exactly if they fit together, with the effects of
      all of them one after the other. */
  lemma {:induction false} CollectLine(m: Machine, o: Options, items: seq<Item>, command: seq<string>)
    requires ItemsOk(m, items) && TableOk(m.host.capabilities)
    ensures Collect(AcceptorOf(m), o, Line(m.host, items, command)) ==
            if FitTogether(m, o, items) then Some((GrownAll(m, o, items), command)) else None
    decreases |items|
  {
    if items == [] {
      CollectEnd(AcceptorOf(m), o, command);
    } else {
      CollectItem(m, o, items[0], Line(m.host, items[1..], command));
      CollectLine(m, Grown(m, o, items[0]), items[1..], command);
    }
  }
}
