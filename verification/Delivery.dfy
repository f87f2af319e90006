/** From the printed vector back to the configuration: every configuration that the command line
    can build reaches the shim unchanged, up to the mounts whose text does not survive. */
module Delivery {
  import opened Base
  import opened Capabilities
  import opened Launch
  import opened Mounts
  import opened Numerals
  import opened Transport
  import Leases

  // ---------------------------------------------------------------- their effect

  ghost predicate Leads(settings: seq<Setting>, drafts: seq<Draft>) {
    |drafts| == |settings| + 1 &&
    forall k, l :: 0 <= k < |settings| && l == k + 1 ==> drafts[l] == Update(drafts[k], settings[k])
  }

  lemma {:induction false} UpdateChain(settings: seq<Setting>, drafts: seq<Draft>)
    requires Leads(settings, drafts)
    ensures UpdateAll(drafts[0], settings) == drafts[|settings|]
    decreases |settings|
  {
    if settings != [] {
      assert drafts[1] == Update(drafts[0], settings[0]);
      UpdateChain(settings[1..], drafts[1..]);
    }
  }

  lemma {:induction false} UpdateConcat(d: Draft, a: seq<Setting>, b: seq<Setting>)
    ensures UpdateAll(d, a + b) == UpdateAll(UpdateAll(d, a), b)
    decreases |a|
  {
    if a == [] {
      assert a + b == b;
    } else {
      assert (a + b)[1..] == a[1..] + b;
      UpdateConcat(Update(d, a[0]), a[1..], b);
    }
  }

  lemma UpdateFirst(d: Draft, s: Setting, rest: seq<Setting>)
    ensures UpdateAll(d, [s] + rest) == UpdateAll(Update(d, s), rest)
  {
    assert ([s] + rest)[1..] == rest;
  }

  lemma UpdateNames(d: Draft, c: Config)
    ensures UpdateAll(d, NameSettings(c)) ==
            d.(id := Some(c.id), rootfs := Some(c.rootfs), hostname := Some(c.hostname), workdir := Some(c.workdir),
               user := c.user, group := c.group)
  {
    var d1 := d.(id := Some(c.id));
    var d2 := d1.(rootfs := Some(c.rootfs));
    var d3 := d2.(hostname := Some(c.hostname));
    var d4 := d3.(workdir := Some(c.workdir));
    var d5 := d4.(user := c.user, group := c.group);
    UpdateChain(NameSettings(c), [d, d1, d2, d3, d4, d5]);
  }

  lemma UpdateLimits(d: Draft, c: Config)
    ensures UpdateAll(d, LimitSettings(c)) ==
            d.(memoryMax := c.memoryMax, swapMax := c.swapMax, cpuQuota := c.cpuQuota, pidsMax := c.pidsMax)
  {
    var d1 := d.(memoryMax := c.memoryMax);
    var d2 := d1.(swapMax := c.swapMax);
    var d3 := d2.(cpuQuota := c.cpuQuota);
    var d4 := d3.(pidsMax := c.pidsMax);
    UpdateChain(LimitSettings(c), [d, d1, d2, d3, d4]);
  }

  lemma UpdateNetwork(d: Draft, c: Config)
    ensures UpdateAll(d, NetworkSettings(c)) == d.(bridge := c.bridge, ipv4Host := c.ipv4Host)
  {
    var d1 := d.(bridge := c.bridge);
    UpdateChain(NetworkSettings(c), [d, d1, d1.(ipv4Host := c.ipv4Host)]);
  }

  lemma {:induction false} UpdateEnvironment(d: Draft, environment: seq<string>)
    ensures UpdateAll(d, EnvironmentSettings(environment)) == d.(environment := d.environment + environment)
    decreases |environment|
  {
    if environment != [] {
      assert EnvironmentSettings(environment)[1..] == EnvironmentSettings(environment[1..]);
      UpdateEnvironment(d.(environment := d.environment + [environment[0]]), environment[1..]);
      assert d.environment + [environment[0]] + environment[1..] == d.environment + environment;
    }
  }

  lemma {:induction false} UpdatePublishes(d: Draft, publishes: seq<Leases.Publish>)
    ensures UpdateAll(d, PublishSettings(publishes)) == d.(publishes := d.publishes + publishes)
    decreases |publishes|
  {
    if publishes != [] {
      assert PublishSettings(publishes)[1..] == PublishSettings(publishes[1..]);
      UpdatePublishes(d.(publishes := d.publishes + [publishes[0]]), publishes[1..]);
      assert d.publishes + [publishes[0]] + publishes[1..] == d.publishes + publishes;
    }
  }

  lemma {:induction false} UpdateMounts(d: Draft, mounts: seq<Mount>)
    ensures UpdateAll(d, MountSettings(mounts)) == d.(mounts := d.mounts + mounts)
    decreases |mounts|
  {
    if mounts != [] {
      assert MountSettings(mounts)[1..] == MountSettings(mounts[1..]);
      UpdateMounts(d.(mounts := d.mounts + [mounts[0]]), mounts[1..]);
      assert d.mounts + [mounts[0]] + mounts[1..] == d.mounts + mounts;
    }
  }

  lemma {:induction false} UpdateDenies(d: Draft, denies: seq<string>)
    ensures UpdateAll(d, DenySettings(denies)) == d.(denies := d.denies + denies)
    decreases |denies|
  {
    if denies != [] {
      assert DenySettings(denies)[1..] == DenySettings(denies[1..]);
      UpdateDenies(d.(denies := d.denies + [denies[0]]), denies[1..]);
      assert d.denies + [denies[0]] + denies[1..] == d.denies + denies;
    }
  }

  lemma StepCapability(d: Draft, mask: nat, i: nat)
    requires Bit(mask, i) && d.capabilityMask == mask % Pow2(i)
    ensures Update(d, AddCapability(i)) == d.(capabilityMask := mask % Pow2(i + 1))
  {
    LowBits(mask, i);
  }

  /** Bit by bit, the capabilities of a mask rebuild the mask. */
  lemma {:induction false} UpdateCapabilities(d: Draft, mask: nat, from: nat)
    requires mask < Pow2(NAMED) && from <= BITS && d.capabilityMask == mask % Pow2(from)
    ensures UpdateAll(d, CapabilitySettings(mask, from)) == d.(capabilityMask := mask)
    decreases BITS - from
  {
    if from == BITS {
      PowersGrow(NAMED, BITS);
      Remainder(mask, Pow2(BITS), 0, mask);
    } else if Bit(mask, from) {
      StepCapability(d, mask, from);
      UpdateFirst(d, AddCapability(from), CapabilitySettings(mask, from + 1));
      UpdateCapabilities(Update(d, AddCapability(from)), mask, from + 1);
    } else {
      LowBits(mask, from);
      assert [] + CapabilitySettings(mask, from + 1) == CapabilitySettings(mask, from + 1);
      UpdateCapabilities(d, mask, from + 1);
    }
  }

  lemma UpdateSwitch(d: Draft, c: Config, fd: nat)
    ensures UpdateAll(d, Switch(c.readonlyRoot, [SetReadOnly])) == d.(readonlyRoot := d.readonlyRoot || c.readonlyRoot)
    ensures UpdateAll(d, Switch(c.detach, [SetDetach, SetReadyFd(fd)])) ==
            if c.detach then d.(detach := true, readyFd := Some(fd)) else d
  {
    UpdateChain([SetReadOnly], [d, d.(readonlyRoot := true)]);
    UpdateChain([SetDetach, SetReadyFd(fd)], [d, d.(detach := true), d.(detach := true, readyFd := Some(fd))]);
  }

  /** The draft that a configuration's settings fill in, mounts aside. */
  function HeadDraft(c: Config): Draft {
    Draft(Some(c.id), Some(c.rootfs), Some(c.hostname), Some(c.workdir), c.user, c.group, c.environment, false, None,
          c.memoryMax, c.swapMax, c.cpuQuota, c.pidsMax, c.capabilityMask, c.readonlyRoot, [], [], c.bridge, c.ipv4Host,
          c.publishes, None)
  }

  lemma UpdateFront(c: Config)
    ensures UpdateAll(BLANK, Front(c)) == HeadDraft(c.(publishes := [], capabilityMask := 0, readonlyRoot := false))
  {
    var a := NameSettings(c);
    var b := a + EnvironmentSettings(c.environment);
    var e := b + LimitSettings(c);
    UpdateNames(BLANK, c);
    UpdateConcat(BLANK, a, EnvironmentSettings(c.environment));
    UpdateEnvironment(UpdateAll(BLANK, a), c.environment);
    UpdateConcat(BLANK, b, LimitSettings(c));
    UpdateLimits(UpdateAll(BLANK, b), c);
    UpdateConcat(BLANK, e, NetworkSettings(c));
    UpdateNetwork(UpdateAll(BLANK, e), c);
  }

  lemma UpdateHead(c: Config)
    requires c.capabilityMask < Pow2(NAMED)
    ensures UpdateAll(BLANK, Head(c)) == HeadDraft(c)
  {
    var a := Front(c) + PublishSettings(c.publishes);
    var b := a + CapabilitySettings(c.capabilityMask, 0);
    UpdateFront(c);
    UpdateConcat(BLANK, Front(c), PublishSettings(c.publishes));
    UpdatePublishes(UpdateAll(BLANK, Front(c)), c.publishes);
    UpdateConcat(BLANK, a, CapabilitySettings(c.capabilityMask, 0));
    UpdateCapabilities(UpdateAll(BLANK, a), c.capabilityMask, 0);
    UpdateConcat(BLANK, b, Switch(c.readonlyRoot, [SetReadOnly]));
    UpdateSwitch(UpdateAll(BLANK, b), c, 0);
  }

  lemma UpdateTail(d: Draft, c: Config, fd: nat)
    ensures UpdateAll(d, Tail(c, fd)) ==
            d.(denies := d.denies + c.denies, detach := d.detach || c.detach,
               readyFd := if c.detach then Some(fd) else d.readyFd)
  {
    UpdateConcat(d, DenySettings(c.denies), Switch(c.detach, [SetDetach, SetReadyFd(fd)]));
    UpdateDenies(d, c.denies);
    UpdateSwitch(d.(denies := d.denies + c.denies), c, fd);
  }

  lemma UpdateRest(c: Config, fd: nat)
    requires c.capabilityMask < Pow2(NAMED)
    ensures UpdateAll(BLANK, Settings(c, fd)) ==
            HeadDraft(c).(mounts := c.mounts, denies := c.denies, detach := c.detach,
                          readyFd := if c.detach then Some(fd) else None)
  {
    UpdateHead(c);
    UpdateConcat(BLANK, Head(c), MountSettings(c.mounts));
    UpdateMounts(HeadDraft(c), c.mounts);
    UpdateConcat(BLANK, Head(c) + MountSettings(c.mounts), Tail(c, fd));
    UpdateTail(HeadDraft(c).(mounts := c.mounts), c, fd);
    assert [] + c.mounts == c.mounts && [] + c.denies == c.denies;
  }

  // ---------------------------------------------------------------- the theorem

  /** The configurations that the command line can build, with bridge address filled in. */
  ghost predicate Buildable(host: Host, c: Config) {
    && c.user <= ID_MAX && c.group <= ID_MAX && c.workdir != [] && c.workdir[0] == '/' && c.command != []
    && 0 < c.memoryMax < U64_LIMIT && c.swapMax < U64_LIMIT && 0 < c.cpuQuota <= CPU_MAX && 0 < c.pidsMax <= PIDS_MAX
    && c.ipv4Host < U32_LIMIT && c.capabilityMask < Pow2(NAMED)
    && (forall k :: 0 <= k < |c.environment| ==> ValidEnvironment(c.environment[k]))
    && (forall k :: 0 <= k < |c.publishes| ==> Leases.WellFormedPublish(c.publishes[k]))
    && (forall k :: 0 <= k < |c.mounts| ==> MountOk(host, c.mounts[k]))
    && (forall k :: 0 <= k < |c.denies| ==> c.denies[k] != [] && host.syscall(c.denies[k]))
  }

  /** The configuration as the shim has it: without the name, with the descriptor. */
  function Delivered(c: Config, fd: nat): Config {
    c.(name := None, readyFd := if c.detach then Some(fd) else None)
  }

  predicate Simple(host: Host, s: Setting) {
    SettingOk(host, s) && !s.AddMount?
  }

  predicate AllSimple(host: Host, settings: seq<Setting>) {
    forall k :: 0 <= k < |settings| ==> Simple(host, settings[k])
  }

  lemma SimpleConcat(host: Host, a: seq<Setting>, b: seq<Setting>)
    requires AllSimple(host, a) && AllSimple(host, b)
    ensures AllSimple(host, a + b)
  {
  }

  lemma {:induction false} CapabilitiesAreSimple(host: Host, mask: nat, from: nat)
    requires mask < Pow2(NAMED) && from <= BITS
    ensures AllSimple(host, CapabilitySettings(mask, from))
    decreases BITS - from
  {
    if from < BITS {
      CapabilitiesAreSimple(host, mask, from + 1);
      if Bit(mask, from) && from >= NAMED {
        NoHighBits(mask, from);
      }
    }
  }

  lemma FrontIsSimple(host: Host, c: Config)
    requires Buildable(host, c)
    ensures AllSimple(host, Front(c))
  {
  }

  lemma HeadIsSimple(host: Host, c: Config)
    requires Buildable(host, c)
    ensures AllSimple(host, Head(c))
  {
    var a := Front(c) + PublishSettings(c.publishes);
    var b := a + CapabilitySettings(c.capabilityMask, 0);
    FrontIsSimple(host, c);
    SimpleConcat(host, Front(c), PublishSettings(c.publishes));
    CapabilitiesAreSimple(host, c.capabilityMask, 0);
    SimpleConcat(host, a, CapabilitySettings(c.capabilityMask, 0));
    SimpleConcat(host, b, Switch(c.readonlyRoot, [SetReadOnly]));
  }

  lemma TailIsSimple(host: Host, c: Config, fd: nat)
    requires Buildable(host, c) && fd <= FD_MAX
    ensures AllSimple(host, Tail(c, fd))
  {
  }

  lemma SimpleReadBack(host: Host, settings: seq<Setting>)
    requires TableOk(host.capabilities) && AllSimple(host, settings)
    ensures ReadBack(host, settings, settings)
  {
    forall k | 0 <= k < |settings| ensures Reread(host, settings[k]) == Some(settings[k]) {
      RereadSetting(host, settings[k]);
    }
  }

  /** `back` is what the shim reads for each of the settings. */
  ghost predicate ReadBack(host: Host, settings: seq<Setting>, back: seq<Setting>) {
    |back| == |settings| && forall k :: 0 <= k < |settings| ==> Reread(host, settings[k]) == Some(back[k])
  }

  lemma ReadBackConcat(host: Host, a: seq<Setting>, x: seq<Setting>, b: seq<Setting>, y: seq<Setting>)
    requires ReadBack(host, a, x) && ReadBack(host, b, y)
    ensures ReadBack(host, a + b, x + y)
  {
  }

  lemma PlainItem(host: Host, s: Setting)
    ensures Plain(ItemOf(host, s)) && ReaderOf(host)(ItemOf(host, s).flag, ItemOf(host, s).value) == Reread(host, s)
  {
  }

  lemma SettingsReadBack(host: Host, c: Config, fd: nat, back: seq<Mount>)
    requires TableOk(host.capabilities) && Buildable(host, c) && fd <= FD_MAX
    requires ReadBack(host, MountSettings(c.mounts), MountSettings(back))
    ensures ReadBack(host, Settings(c, fd), Settings(c.(mounts := back), fd))
  {
    HeadIsSimple(host, c);
    SimpleReadBack(host, Head(c));
    TailIsSimple(host, c, fd);
    SimpleReadBack(host, Tail(c, fd));
    ReadBackConcat(host, Head(c), Head(c), MountSettings(c.mounts), MountSettings(back));
    ReadBackConcat(host, Head(c) + MountSettings(c.mounts), Head(c) + MountSettings(back), Tail(c, fd), Tail(c, fd));
  }

  lemma ParseReadBack(host: Host, settings: seq<Setting>, back: seq<Setting>, command: seq<string>)
    requires ReadBack(host, settings, back)
    ensures Parse(ReaderOf(host), BLANK, Flatten(Items(host, settings)) + (["--"] + command)) ==
            Some(UpdateAll(BLANK, back).(command := Some(command)))
  {
    var items := Items(host, settings);
    forall k | 0 <= k < |items|
      ensures Plain(items[k]) && ReaderOf(host)(items[k].flag, items[k].value) == Some(back[k])
    {
      PlainItem(host, settings[k]);
    }
    ParseFlattened(ReaderOf(host), BLANK, items, back, command);
  }

  /** The configuration arrives with its mounts as they are read back. */
  lemma DeliveredMounts(host: Host, path: string, c: Config, fd: nat, back: seq<Mount>)
    requires TableOk(host.capabilities) && Buildable(host, c) && fd <= FD_MAX
    requires ReadBack(host, MountSettings(c.mounts), MountSettings(back))
    ensures Received(host, Arguments(host, path, c, fd)) == Some(Delivered(c.(mounts := back), fd))
  {
    var args := Flatten(Items(host, Settings(c, fd))) + (["--"] + c.command);
    assert Arguments(host, path, c, fd)[1..] == args;
    SettingsReadBack(host, c, fd, back);
    ParseReadBack(host, Settings(c, fd), Settings(c.(mounts := back), fd), c.command);
    UpdateRest(c.(mounts := back), fd);
  }

  lemma RefusedMount(host: Host, path: string, c: Config, fd: nat, bad: nat)
    requires bad < |c.mounts| && Reread(host, AddMount(c.mounts[bad])) == None
    ensures Received(host, Arguments(host, path, c, fd)) == None
  {
    var settings := Settings(c, fd);
    var items, at := Items(host, settings), |Head(c)| + bad;
    assert settings[at] == AddMount(c.mounts[bad]);
    forall k | 0 <= k < |items| ensures Plain(items[k]) {
      PlainItem(host, settings[k]);
    }
    PlainItem(host, settings[at]);
    ParseRefused(ReaderOf(host), BLANK, items, ["--"] + c.command, at);
    assert Arguments(host, path, c, fd)[1..] == Flatten(items) + (["--"] + c.command);
  }

  /** The shim has exactly the configuration that was built if and only if every bind mount is
      portable; hostnames, environment and commands may be any text at all. */
  lemma DeliveryIsExact(host: Host, path: string, c: Config, fd: nat)
    requires host.capabilities == NAMES && Buildable(host, c) && fd <= FD_MAX
    ensures Received(host, Arguments(host, path, c, fd)) == Some(Delivered(c, fd)) <==>
            forall k :: 0 <= k < |c.mounts| ==> Portable(c.mounts[k])
  {
    NamesAreOk();
    forall k | 0 <= k < |c.mounts|
      ensures Reread(host, AddMount(c.mounts[k])) == Some(AddMount(c.mounts[k])) <==> Portable(c.mounts[k])
      ensures Reread(host, AddMount(c.mounts[k])).Some? ==> Reread(host, AddMount(c.mounts[k])).value.AddMount?
    {
      RereadMount(host, c.mounts[k]);
    }
    if bad :| 0 <= bad < |c.mounts| && Reread(host, AddMount(c.mounts[bad])) == None {
      RefusedMount(host, path, c, fd, bad);
    } else {
      var back := seq(|c.mounts|, k requires 0 <= k < |c.mounts| => Reread(host, AddMount(c.mounts[k])).value.m);
      DeliveredMounts(host, path, c, fd, back);
      if k :| 0 <= k < |c.mounts| && !Portable(c.mounts[k]) {
        assert back[k] != c.mounts[k];
      } else {
        assert back == c.mounts;
      }
    }
  }
}
