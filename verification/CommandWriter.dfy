/** A command line for every configuration that command lines can express. */
module CommandWriter {
  import opened Base
  import opened Capabilities
  import opened CommandLine
  import opened CommandMeaning
  import opened CommandText
  import opened Delivery
  import opened Mounts
  import opened Numerals
  import opened Transport
  import Leases

  // ---------------------------------------------------------------- options for a configuration

  lemma {:induction false} EffectsConcat(m: Machine, c: Config, a: seq<Item>, b: seq<Item>)
    ensures Effects(m, c, a + b) == Effects(m, Effects(m, c, a), b)
    decreases |b|
  {
    if b == [] {
      assert a + b == a;
    } else {
      assert (a + b)[..|a + b| - 1] == a + b[..|b| - 1];
      EffectsConcat(m, c, a, b[..|b| - 1]);
    }
  }

  function Variables(texts: seq<string>): seq<Item> {
    seq(|texts|, k requires 0 <= k < |texts| => Assigning(texts[k]))
  }

  function Publications(publishes: seq<Leases.Publish>): seq<Item> {
    seq(|publishes|, k requires 0 <= k < |publishes| => Publishing(publishes[k]))
  }

  function MountItem(mount: Mount): Item {
    match mount
    case Bind(source, target, readonly) => Binding(source, target, Some(readonly))
    case Tmpfs(target, size) => Mounting(target, Some(size))
  }

  function MountItems(mounts: seq<Mount>): seq<Item> {
    if mounts == [] then [] else MountItems(mounts[..|mounts| - 1]) + [MountItem(mounts[|mounts| - 1])]
  }

  /** The capabilities of a mask below bit n. */
  function CapabilityItems(mask: nat, n: nat): seq<Item> {
    if n == 0 then []
    else CapabilityItems(mask, n - 1) + if Bit(mask, n - 1) then [Allowing(n - 1, false)] else []
  }

  function When(condition: bool, item: Item): seq<Item> {
    if condition then [item] else []
  }

  function LimitItems(c: Config): seq<Item> {
    [Limiting(c.memoryMax, false), Swapping(c.swapMax, false), Sharing(c.cpuQuota, false), Counting(c.pidsMax)]
  }

  function PlainItems(c: Config): seq<Item> {
    [Working(c.workdir), Networked(c.bridge), AsUser(c.user, Some(c.group))]
  }

  function SwitchItems(c: Config): seq<Item> {
    When(c.name.Some?, Named(Or(c.name, ""))) + When(c.detach, Detached) + When(c.readonlyRoot, Sealed)
  }

  function ListItems(c: Config): seq<Item> {
    Variables(c.environment) + MountItems(c.mounts) +
    (Publications(c.publishes) + CapabilityItems(c.capabilityMask, NAMED))
  }

  function OtherItems(c: Config): seq<Item> {
    PlainItems(c) + LimitItems(c) + (SwitchItems(c) + ListItems(c))
  }

  /** Options for a configuration of the image, with the profile its deny list comes from. */
  function ItemsOf(c: Config, image: string, profile: string): seq<Item> {
    When(c.denies != [], Profiled(profile)) + ([Imaged(image), Hosted(c.hostname)] + OtherItems(c))
  }

  lemma {:induction false} VariablesAdd(m: Machine, c: Config, texts: seq<string>)
    ensures Effects(m, c, Variables(texts)) == c.(environment := c.environment + texts)
    decreases |texts|
  {
    if texts == [] {
      assert c.environment + [] == c.environment;
    } else {
      var front := texts[..|texts| - 1];
      assert Variables(texts)[..|texts| - 1] == Variables(front);
      VariablesAdd(m, c, front);
      assert c.environment + front + [texts[|texts| - 1]] == c.environment + texts;
    }
  }

  lemma {:induction false} PublicationsAdd(m: Machine, c: Config, publishes: seq<Leases.Publish>)
    ensures Effects(m, c, Publications(publishes)) == c.(publishes := c.publishes + publishes)
    decreases |publishes|
  {
    if publishes == [] {
      assert c.publishes + [] == c.publishes;
    } else {
      var front := publishes[..|publishes| - 1];
      assert Publications(publishes)[..|publishes| - 1] == Publications(front);
      PublicationsAdd(m, c, front);
      assert c.publishes + front + [publishes[|publishes| - 1]] == c.publishes + publishes;
    }
  }

  /** The mount can be written: it is one, and a source without a colon is its own. */
  predicate Writable(host: Host, mount: Mount) {
    MountOk(host, mount) && (mount.Bind? ==> ':' !in mount.source)
  }

  predicate AllWritable(host: Host, mounts: seq<Mount>) {
    mounts == [] || (AllWritable(host, mounts[..|mounts| - 1]) && Writable(host, mounts[|mounts| - 1]))
  }

  lemma EffectsLast(m: Machine, c: Config, items: seq<Item>, item: Item)
    ensures Effects(m, c, items + [item]) == Effect(m, Effects(m, c, items), item)
  {
    assert (items + [item])[..|items|] == items;
  }

  lemma MountAdds(m: Machine, c: Config, mount: Mount)
    requires Writable(m.host, mount)
    ensures Effect(m, c, MountItem(mount)) == c.(mounts := c.mounts + [mount])
  {
    assert MountFor(m.host, MountItem(mount)) == Some(mount);
  }

  lemma MoreMounts(c: Config, front: seq<Mount>, last: Mount)
    ensures var before := c.(mounts := c.mounts + front);
            before.(mounts := before.mounts + [last]) == c.(mounts := c.mounts + (front + [last]))
  {
    assert c.mounts + front + [last] == c.mounts + (front + [last]);
  }

  lemma {:induction false} MountsAdd(m: Machine, c: Config, mounts: seq<Mount>)
    requires AllWritable(m.host, mounts)
    ensures Effects(m, c, MountItems(mounts)) == c.(mounts := c.mounts + mounts)
  {
    if mounts == [] {
      assert c.mounts + [] == c.mounts;
    } else {
      var front, last := mounts[..|mounts| - 1], mounts[|mounts| - 1];
      MountsAdd(m, c, front);
      EffectsLast(m, c, MountItems(front), MountItem(last));
      MountAdds(m, c.(mounts := c.mounts + front), last);
      MoreMounts(c, front, last);
      assert front + [last] == mounts;
    }
  }

  lemma {:induction false} MaskOfItems(mask: nat, n: nat)
    ensures MaskOf(CapabilityItems(mask, n)) == mask % Pow2(n)
    decreases n
  {
    if n == 0 {
      assert Pow2(0) == 1;
    } else {
      var front := CapabilityItems(mask, n - 1);
      MaskOfItems(mask, n - 1);
      LowBits(mask, n - 1);
      assert (front + [Allowing(n - 1, false)])[..|front|] == front && front + [] == front;
    }
  }

  predicate OnlyCapabilities(items: seq<Item>) {
    forall k :: 0 <= k < |items| ==> items[k].Allowing? && items[k].capability < NAMED
  }

  lemma {:induction false} CapabilitiesOnly(mask: nat, n: nat)
    requires n <= NAMED
    ensures OnlyCapabilities(CapabilityItems(mask, n))
    decreases n
  {
    if n > 0 {
      CapabilitiesOnly(mask, n - 1);
    }
  }

  lemma {:induction false} CapabilitiesAdd(m: Machine, c: Config, items: seq<Item>)
    requires c.capabilityMask == 0 && OnlyCapabilities(items)
    ensures Effects(m, c, items) == c.(capabilityMask := MaskOf(items))
  {
    if items != [] {
      CapabilitiesAdd(m, c, items[..|items| - 1]);
    }
  }

  lemma MaskAdds(m: Machine, c: Config, mask: nat)
    requires c.capabilityMask == 0 && mask < Pow2(NAMED)
    ensures Effects(m, c, CapabilityItems(mask, NAMED)) == c.(capabilityMask := mask)
  {
    CapabilitiesOnly(mask, NAMED);
    CapabilitiesAdd(m, c, CapabilityItems(mask, NAMED));
    MaskOfItems(mask, NAMED);
    Remainder(mask, Pow2(NAMED), 0, mask);
  }

  lemma TextsAdd(m: Machine, c: Config, d: Config)
    requires c.environment == [] && c.mounts == [] && AllWritable(m.host, d.mounts)
    ensures Effects(m, c, Variables(d.environment) + MountItems(d.mounts)) ==
            c.(environment := d.environment, mounts := d.mounts)
  {
    assert [] + d.environment == d.environment && [] + d.mounts == d.mounts;
    VariablesAdd(m, c, d.environment);
    EffectsConcat(m, c, Variables(d.environment), MountItems(d.mounts));
    MountsAdd(m, c.(environment := d.environment), d.mounts);
  }

  lemma RightsAdd(m: Machine, c: Config, d: Config)
    requires c.publishes == [] && c.capabilityMask == 0 && d.capabilityMask < Pow2(NAMED)
    ensures Effects(m, c, Publications(d.publishes) + CapabilityItems(d.capabilityMask, NAMED)) ==
            c.(publishes := d.publishes, capabilityMask := d.capabilityMask)
  {
    assert [] + d.publishes == d.publishes;
    PublicationsAdd(m, c, d.publishes);
    EffectsConcat(m, c, Publications(d.publishes), CapabilityItems(d.capabilityMask, NAMED));
    MaskAdds(m, c.(publishes := d.publishes), d.capabilityMask);
  }

  lemma ListsAdd(m: Machine, c: Config, d: Config)
    requires c.environment == [] && c.mounts == [] && c.publishes == [] && c.capabilityMask == 0
    requires d.capabilityMask < Pow2(NAMED) && AllWritable(m.host, d.mounts)
    ensures Effects(m, c, ListItems(d)) ==
            c.(environment := d.environment, mounts := d.mounts, publishes := d.publishes,
               capabilityMask := d.capabilityMask)
  {
    TextsAdd(m, c, d);
    RightsAdd(m, c.(environment := d.environment, mounts := d.mounts), d);
    EffectsConcat(m, c, Variables(d.environment) + MountItems(d.mounts),
                  Publications(d.publishes) + CapabilityItems(d.capabilityMask, NAMED));
  }

  lemma EffectsOfOne(m: Machine, c: Config, item: Item)
    ensures Effects(m, c, [item]) == Effect(m, c, item)
  {
    EffectsLast(m, c, [], item);
    assert [] + [item] == [item];
  }

  lemma EffectsOfTwo(m: Machine, c: Config, a: Item, b: Item)
    ensures Effects(m, c, [a, b]) == Effect(m, Effect(m, c, a), b)
  {
    EffectsOfOne(m, c, a);
    EffectsLast(m, c, [a], b);
    assert [a] + [b] == [a, b];
  }

  lemma MemorySets(m: Machine, c: Config, memory: nat, swap: nat)
    ensures Effects(m, c, [Limiting(memory, false), Swapping(swap, false)]) == c.(memoryMax := memory, swapMax := swap)
  {
    EffectsOfTwo(m, c, Limiting(memory, false), Swapping(swap, false));
  }

  lemma SharesSet(m: Machine, c: Config, cpu: nat, pids: nat)
    ensures Effects(m, c, [Sharing(cpu, false), Counting(pids)]) == c.(cpuQuota := cpu, pidsMax := pids)
  {
    EffectsOfTwo(m, c, Sharing(cpu, false), Counting(pids));
  }

  lemma LimitsSet(m: Machine, c: Config, d: Config)
    ensures Effects(m, c, LimitItems(d)) ==
            c.(memoryMax := d.memoryMax, swapMax := d.swapMax, cpuQuota := d.cpuQuota, pidsMax := d.pidsMax)
  {
    var a := [Limiting(d.memoryMax, false), Swapping(d.swapMax, false)];
    var b := [Sharing(d.cpuQuota, false), Counting(d.pidsMax)];
    assert a + b == LimitItems(d);
    MemorySets(m, c, d.memoryMax, d.swapMax);
    SharesSet(m, c.(memoryMax := d.memoryMax, swapMax := d.swapMax), d.cpuQuota, d.pidsMax);
    EffectsConcat(m, c, a, b);
  }

  lemma NamesSet(m: Machine, c: Config, image: string, hostname: string)
    ensures Effects(m, c, [Imaged(image), Hosted(hostname)]) == c
  {
    EffectsOfTwo(m, c, Imaged(image), Hosted(hostname));
  }

  lemma PlainsSet(m: Machine, c: Config, d: Config)
    ensures Effects(m, c, PlainItems(d)) ==
            c.(workdir := d.workdir, bridge := d.bridge, user := d.user, group := d.group)
  {
    var a, b, e := Working(d.workdir), Networked(d.bridge), AsUser(d.user, Some(d.group));
    EffectsOfTwo(m, c, a, b);
    EffectsLast(m, c, [a, b], e);
    assert [a, b] + [e] == PlainItems(d);
  }

  lemma NameSets(m: Machine, c: Config, name: Option<string>)
    requires c.name == None
    ensures Effects(m, c, When(name.Some?, Named(Or(name, "")))) == c.(name := name)
  {
    EffectsOfOne(m, c, Named(Or(name, "")));
  }

  lemma DetachSets(m: Machine, c: Config, on: bool)
    requires !c.detach
    ensures Effects(m, c, When(on, Detached)) == c.(detach := on)
  {
    EffectsOfOne(m, c, Detached);
  }

  lemma SealSets(m: Machine, c: Config, on: bool)
    requires !c.readonlyRoot
    ensures Effects(m, c, When(on, Sealed)) == c.(readonlyRoot := on)
  {
    EffectsOfOne(m, c, Sealed);
  }

  lemma SwitchesSet(m: Machine, c: Config, d: Config)
    requires c.name == None && !c.detach && !c.readonlyRoot
    ensures Effects(m, c, SwitchItems(d)) == c.(name := d.name, detach := d.detach, readonlyRoot := d.readonlyRoot)
  {
    var a, b := When(d.name.Some?, Named(Or(d.name, ""))), When(d.detach, Detached);
    NameSets(m, c, d.name);
    DetachSets(m, c.(name := d.name), d.detach);
    SealSets(m, c.(name := d.name, detach := d.detach), d.readonlyRoot);
    EffectsConcat(m, c, a, b);
    EffectsConcat(m, c, a + b, When(d.readonlyRoot, Sealed));
  }

  // ---------------------------------------------------------------- the line

  /** What a configuration needs in order to come from a command line: the id and root file system
      that the machine gives, values that options can have, and mounts that can be written. */
  ghost predicate Expressible(m: Machine, c: Config, image: string, profile: string) {
    && m.id == Some(c.id) && m.image(image) == Some(c.rootfs) && c.readyFd == None && c.ipv4Host == 0
    && Buildable(m.host, c) && (c.name.Some? ==> ValidName(c.name.value))
    && Leases.PairwiseDisjoint(c.publishes) && (c.bridge || c.publishes == [])
    && (c.denies != [] ==> LoadProfile(m, profile) == Some(c.denies))
    && AllWritable(m.host, c.mounts)
  }

  lemma FirstHalf(m: Machine, c: Config, d: Config)
    ensures Effects(m, c, PlainItems(d) + LimitItems(d)) ==
            c.(workdir := d.workdir, bridge := d.bridge, user := d.user, group := d.group, memoryMax := d.memoryMax,
               swapMax := d.swapMax, cpuQuota := d.cpuQuota, pidsMax := d.pidsMax)
  {
    PlainsSet(m, c, d);
    LimitsSet(m, c.(workdir := d.workdir, bridge := d.bridge, user := d.user, group := d.group), d);
    EffectsConcat(m, c, PlainItems(d), LimitItems(d));
  }

  lemma SecondHalf(m: Machine, c: Config, d: Config)
    requires c.name == None && !c.detach && !c.readonlyRoot
    requires c.environment == [] && c.mounts == [] && c.publishes == [] && c.capabilityMask == 0
    requires d.capabilityMask < Pow2(NAMED) && AllWritable(m.host, d.mounts)
    ensures Effects(m, c, SwitchItems(d) + ListItems(d)) ==
            c.(name := d.name, detach := d.detach, readonlyRoot := d.readonlyRoot, environment := d.environment,
               mounts := d.mounts, publishes := d.publishes, capabilityMask := d.capabilityMask)
  {
    SwitchesSet(m, c, d);
    ListsAdd(m, c.(name := d.name, detach := d.detach, readonlyRoot := d.readonlyRoot), d);
    EffectsConcat(m, c, SwitchItems(d), ListItems(d));
  }

  lemma ProfileSets(m: Machine, c: Config, d: Config, profile: string)
    requires c.denies == [] && (d.denies != [] ==> LoadProfile(m, profile) == Some(d.denies))
    ensures Effects(m, c, When(d.denies != [], Profiled(profile))) == c.(denies := d.denies)
  {
    EffectsOfOne(m, c, Profiled(profile));
  }

  lemma OthersBuild(m: Machine, c: Config, d: Config)
    requires c == DEFAULTS.config.(denies := c.denies) && Buildable(m.host, d) && AllWritable(m.host, d.mounts)
    requires d.readyFd == None && d.ipv4Host == 0 && c.denies == d.denies
    ensures Effects(m, c, OtherItems(d)) == d.(id := "", rootfs := "", hostname := "", command := [])
  {
    FirstHalf(m, c, d);
    SecondHalf(m, c.(workdir := d.workdir, bridge := d.bridge, user := d.user, group := d.group,
                     memoryMax := d.memoryMax, swapMax := d.swapMax, cpuQuota := d.cpuQuota, pidsMax := d.pidsMax), d);
    EffectsConcat(m, c, PlainItems(d) + LimitItems(d), SwitchItems(d) + ListItems(d));
  }

  lemma ItemsBuild(m: Machine, c: Config, image: string, profile: string)
    requires Expressible(m, c, image, profile)
    ensures Effects(m, DEFAULTS.config, ItemsOf(c, image, profile)) ==
            c.(id := "", rootfs := "", hostname := "", command := [])
  {
    var start, first := DEFAULTS.config, When(c.denies != [], Profiled(profile));
    var names, denied := [Imaged(image), Hosted(c.hostname)], start.(denies := c.denies);
    ProfileSets(m, start, c, profile);
    EffectsConcat(m, start, first, names + OtherItems(c));
    NamesSet(m, denied, image, c.hostname);
    EffectsConcat(m, denied, names, OtherItems(c));
    OthersBuild(m, denied, c);
  }

  /** Items other than image, host name and profile. */
  predicate Ordinary(items: seq<Item>) {
    forall k :: 0 <= k < |items| ==> !items[k].Profiled? && !items[k].Imaged? && !items[k].Hosted?
  }

  ghost predicate PlainOk(m: Machine, items: seq<Item>) {
    ItemsOk(m, items) && Ordinary(items)
  }

  lemma PlainOkConcat(m: Machine, a: seq<Item>, b: seq<Item>)
    requires PlainOk(m, a) && PlainOk(m, b)
    ensures PlainOk(m, a + b)
  {
  }

  lemma {:induction false} MountItemsOk(m: Machine, mounts: seq<Mount>)
    requires AllWritable(m.host, mounts)
    ensures PlainOk(m, MountItems(mounts))
  {
    if mounts != [] {
      var front, last := mounts[..|mounts| - 1], mounts[|mounts| - 1];
      MountItemsOk(m, front);
      MountItemOk(m, last);
      PlainOkConcat(m, MountItems(front), [MountItem(last)]);
    }
  }

  lemma MountItemOk(m: Machine, mount: Mount)
    requires Writable(m.host, mount)
    ensures PlainOk(m, [MountItem(mount)])
  {
  }

  lemma ListItemsOk(m: Machine, c: Config)
    requires Buildable(m.host, c) && AllWritable(m.host, c.mounts)
    ensures PlainOk(m, ListItems(c))
  {
    MountItemsOk(m, c.mounts);
    CapabilitiesOnly(c.capabilityMask, NAMED);
    assert PlainOk(m, Variables(c.environment)) && PlainOk(m, Publications(c.publishes));
    assert PlainOk(m, CapabilityItems(c.capabilityMask, NAMED));
    PlainOkConcat(m, Variables(c.environment), MountItems(c.mounts));
    PlainOkConcat(m, Publications(c.publishes), CapabilityItems(c.capabilityMask, NAMED));
    PlainOkConcat(m, Variables(c.environment) + MountItems(c.mounts),
                  Publications(c.publishes) + CapabilityItems(c.capabilityMask, NAMED));
  }

  lemma HeadItemsOk(m: Machine, c: Config)
    requires Buildable(m.host, c)
    ensures PlainOk(m, PlainItems(c) + LimitItems(c))
  {
    assert PlainOk(m, PlainItems(c));
    assert PlainOk(m, LimitItems(c));
    PlainOkConcat(m, PlainItems(c), LimitItems(c));
  }

  lemma SwitchItemsOk(m: Machine, c: Config)
    requires c.name.Some? ==> ValidName(c.name.value)
    ensures PlainOk(m, SwitchItems(c))
  {
    var a, b, e := When(c.name.Some?, Named(Or(c.name, ""))), When(c.detach, Detached), When(c.readonlyRoot, Sealed);
    assert PlainOk(m, a) && PlainOk(m, b) && PlainOk(m, e);
    PlainOkConcat(m, a, b);
    PlainOkConcat(m, a + b, e);
  }

  lemma OtherItemsOk(m: Machine, c: Config)
    requires Buildable(m.host, c) && AllWritable(m.host, c.mounts) && (c.name.Some? ==> ValidName(c.name.value))
    ensures PlainOk(m, OtherItems(c))
  {
    HeadItemsOk(m, c);
    SwitchItemsOk(m, c);
    ListItemsOk(m, c);
    PlainOkConcat(m, SwitchItems(c), ListItems(c));
    PlainOkConcat(m, PlainItems(c) + LimitItems(c), SwitchItems(c) + ListItems(c));
  }

  lemma {:induction false} NoneAmongOrdinary(items: seq<Item>)
    requires Ordinary(items)
    ensures LastOf(items, ImageIn) == None && LastOf(items, HostnameIn) == None
  {
    if items != [] {
      NoneAmongOrdinary(items[..|items| - 1]);
    }
  }

  lemma {:induction false} LastOfConcat<T>(a: seq<Item>, b: seq<Item>, pick: Item -> Option<T>)
    ensures LastOf(a + b, pick) == if LastOf(b, pick).Some? then LastOf(b, pick) else LastOf(a, pick)
    decreases |b|
  {
    if b == [] {
      assert a + b == a;
    } else {
      assert (a + b)[..|a + b| - 1] == a + b[..|b| - 1];
      LastOfConcat(a, b[..|b| - 1], pick);
    }
  }

  lemma LastOfTwo<T>(a: Item, b: Item, pick: Item -> Option<T>)
    ensures LastOf([a, b], pick) == if pick(b).Some? then pick(b) else if pick(a).Some? then pick(a) else None
  {
    var one, two := [a], [a, b];
    assert two[..|two| - 1] == one && one[..|one| - 1] == [];
    assert LastOf(one, pick) == if pick(a).Some? then pick(a) else None;
  }

  lemma FrontIsFound(first: seq<Item>, image: string, hostname: string, rest: seq<Item>)
    requires Ordinary(rest)
    ensures var items := first + ([Imaged(image), Hosted(hostname)] + rest);
            LastOf(items, ImageIn) == Some(image) && LastOf(items, HostnameIn) == Some(hostname)
  {
    var names := [Imaged(image), Hosted(hostname)];
    NoneAmongOrdinary(rest);
    LastOfTwo(Imaged(image), Hosted(hostname), ImageIn);
    LastOfTwo(Imaged(image), Hosted(hostname), HostnameIn);
    LastOfConcat(names, rest, ImageIn);
    LastOfConcat(names, rest, HostnameIn);
    LastOfConcat(first, names + rest, ImageIn);
    LastOfConcat(first, names + rest, HostnameIn);
  }

  lemma FrontIsOk(m: Machine, condition: bool, profile: string, image: string, hostname: string, rest: seq<Item>)
    requires PlainOk(m, rest) && (condition ==> LoadProfile(m, profile).Some?)
    ensures var items := When(condition, Profiled(profile)) + ([Imaged(image), Hosted(hostname)] + rest);
            ItemsOk(m, items) && OneProfile(items)
  {
    var front := When(condition, Profiled(profile)) + [Imaged(image), Hosted(hostname)];
    assert When(condition, Profiled(profile)) + ([Imaged(image), Hosted(hostname)] + rest) == front + rest;
    forall k | 0 < k < |front + rest| ensures !(front + rest)[k].Profiled? {
      assert k < |front| ==> front[k].Imaged? || front[k].Hosted?;
      assert k >= |front| ==> !rest[k - |front|].Profiled?;
    }
    var items := front + rest;
    assert forall i, j :: 0 <= i < j < |items| ==> !items[i].Profiled? || !items[j].Profiled?;
  }

  lemma ItemsDescribe(m: Machine, c: Config, image: string, profile: string)
    requires Expressible(m, c, image, profile)
    ensures var items := ItemsOf(c, image, profile);
            && ItemsOk(m, items) && OneProfile(items)
            && LastOf(items, ImageIn) == Some(image) && LastOf(items, HostnameIn) == Some(c.hostname)
            && Described(m, items) == c.(id := "", rootfs := "", hostname := "", command := [])
  {
    OtherItemsOk(m, c);
    FrontIsOk(m, c.denies != [], profile, image, c.hostname, OtherItems(c));
    FrontIsFound(When(c.denies != [], Profiled(profile)), image, c.hostname, OtherItems(c));
    ItemsBuild(m, c, image, profile);
    BuiltIsDescribed(m, ItemsOf(c, image, profile));
  }

  /** Every configuration that command lines can express has one that describes exactly it. */
  lemma EveryConfigurationHasALine(m: Machine, c: Config, image: string, profile: string)
    requires Expressible(m, c, image, profile) && TableOk(m.host.capabilities)
    ensures Commanded(m, Line(m.host, ItemsOf(c, image, profile), c.command)) == Some(c)
  {
    ItemsDescribe(m, c, image, profile);
    LineDescribes(m, ItemsOf(c, image, profile), c, image);
  }

  lemma LineDescribes(m: Machine, items: seq<Item>, c: Config, image: string)
    requires ItemsOk(m, items) && OneProfile(items) && TableOk(m.host.capabilities)
    requires LastOf(items, ImageIn) == Some(image) && LastOf(items, HostnameIn) == Some(c.hostname)
    requires Described(m, items) == c.(id := "", rootfs := "", hostname := "", command := [])
    requires m.id == Some(c.id) && m.image(image) == Some(c.rootfs) && c.command != []
    requires Leases.PairwiseDisjoint(c.publishes) && (c.bridge || c.publishes == [])
    ensures Commanded(m, Line(m.host, items, c.command)) == Some(c)
  {
    CommandedExactly(m, items, c.command);
  }
}
