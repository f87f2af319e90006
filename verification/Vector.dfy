/** Filling the argument array of mc_launch_shim in src/runtime/launch.c: the hand-computed size
    is enough for every configuration, and exactly enough for some. */
module Vector {
  import opened Base
  import opened Capabilities
  import opened Launch
  import opened Mounts
  import opened Transport

  /** The number of slots that are allocated. */
  function Capacity(c: Config): nat {
    |c.command| + 111 + 2 * |c.environment| + 2 * |c.publishes| + 2 * |c.mounts| + 2 * |c.denies|
  }

  function Texts(host: Host, settings: seq<Setting>): seq<string> {
    Flatten(Items(host, settings))
  }

  lemma {:induction false} FlattenConcat(a: seq<Item>, b: seq<Item>)
    ensures Flatten(a + b) == Flatten(a) + Flatten(b)
  {
    if a == [] {
      assert a + b == b;
    } else {
      assert (a + b)[1..] == a[1..] + b;
      FlattenConcat(a[1..], b);
    }
  }

  lemma TextsConcat(host: Host, a: seq<Setting>, b: seq<Setting>)
    ensures Texts(host, a + b) == Texts(host, a) + Texts(host, b)
  {
    assert Items(host, a + b) == Items(host, a) + Items(host, b);
    FlattenConcat(Items(host, a), Items(host, b));
  }

  lemma {:induction false} FlattenPairs(items: seq<Item>)
    requires forall k :: 0 <= k < |items| ==> !IsSwitch(items[k].flag)
    ensures |Flatten(items)| == 2 * |items|
  {
    if items != [] {
      FlattenPairs(items[1..]);
    }
  }

  lemma PairTexts(host: Host, settings: seq<Setting>)
    requires forall k :: 0 <= k < |settings| ==> !settings[k].SetDetach? && !settings[k].SetReadOnly?
    ensures |Texts(host, settings)| == 2 * |settings|
  {
    FlattenPairs(Items(host, settings));
  }

  /** At most one setting a bit, and that many only if every bit is set. */
  lemma {:induction false} CapabilityCount(mask: nat, from: nat)
    requires mask < Pow2(NAMED) && from <= BITS
    ensures |CapabilitySettings(mask, from)| <= if from < NAMED then NAMED - from else 0
    ensures from < NAMED ==>
      (|CapabilitySettings(mask, from)| == NAMED - from <==> forall i :: from <= i < NAMED ==> Bit(mask, i))
    ensures forall k :: 0 <= k < |CapabilitySettings(mask, from)| ==> CapabilitySettings(mask, from)[k].AddCapability?
    decreases BITS - from
  {
    if from < BITS {
      CapabilityCount(mask, from + 1);
      if from >= NAMED {
        NoHighBits(mask, from);
      }
    }
  }

  // ---------------------------------------------------------------- sizes

  lemma FrontSize(host: Host, c: Config)
    ensures |Texts(host, Front(c))| == 22 + 2 * |c.environment|
  {
    PairTexts(host, Front(c));
  }

  lemma HeadSize(host: Host, c: Config)
    requires c.capabilityMask < Pow2(NAMED)
    ensures |Texts(host, Head(c))| == 22 + 2 * |c.environment| + 2 * |c.publishes| +
              2 * |CapabilitySettings(c.capabilityMask, 0)| + (if c.readonlyRoot then 1 else 0)
  {
    var capabilities, last := CapabilitySettings(c.capabilityMask, 0), Switch(c.readonlyRoot, [SetReadOnly]);
    var a := Front(c) + PublishSettings(c.publishes);
    FrontSize(host, c);
    TextsConcat(host, Front(c), PublishSettings(c.publishes));
    PairTexts(host, PublishSettings(c.publishes));
    TextsConcat(host, a, capabilities);
    CapabilityCount(c.capabilityMask, 0);
    PairTexts(host, capabilities);
    TextsConcat(host, a + capabilities, last);
    SwitchSizes(host, c, 0);
  }

  lemma SwitchSizes(host: Host, c: Config, fd: nat)
    ensures |Texts(host, Switch(c.readonlyRoot, [SetReadOnly]))| == if c.readonlyRoot then 1 else 0
    ensures |Texts(host, Switch(c.detach, [SetDetach, SetReadyFd(fd)]))| == if c.detach then 3 else 0
  {
    OneText(host, SetReadOnly);
    OneText(host, SetDetach);
    assert [SetDetach, SetReadyFd(fd)] == [SetDetach] + [SetReadyFd(fd)];
    TextsConcat(host, [SetDetach], [SetReadyFd(fd)]);
    PairTexts(host, [SetReadyFd(fd)]);
  }

  lemma FirstText(host: Host, s: Setting, rest: seq<Setting>)
    ensures Texts(host, [s] + rest) == Printed(ItemOf(host, s)) + Texts(host, rest)
  {
    assert Items(host, [s] + rest)[1..] == Items(host, rest);
  }

  lemma OneText(host: Host, s: Setting)
    ensures Texts(host, [s]) == Printed(ItemOf(host, s))
  {
    assert [s] + [] == [s];
    FirstText(host, s, []);
  }

  /** Two slots for each option but the switches, one for the path, the separator and NULL. */
  lemma ArgumentsSize(host: Host, path: string, c: Config, fd: nat)
    requires c.capabilityMask < Pow2(NAMED)
    ensures |Arguments(host, path, c, fd)| + 1 ==
            Capacity(c) - 2 * (NAMED - |CapabilitySettings(c.capabilityMask, 0)|)
            - (if c.readonlyRoot then 0 else 1) - (if c.detach then 0 else 3)
  {
    var a, last := Head(c) + MountSettings(c.mounts), Switch(c.detach, [SetDetach, SetReadyFd(fd)]);
    HeadSize(host, c);
    TextsConcat(host, Head(c), MountSettings(c.mounts));
    PairTexts(host, MountSettings(c.mounts));
    TextsConcat(host, a, Tail(c, fd));
    TextsConcat(host, DenySettings(c.denies), last);
    PairTexts(host, DenySettings(c.denies));
    SwitchSizes(host, c, fd);
  }

  /** The array always suffices, and is filled to the last slot exactly by a detached, read-only
      container with every named capability. */
  lemma CapacityIsExact(host: Host, path: string, c: Config, fd: nat)
    requires c.capabilityMask < Pow2(NAMED)
    ensures |Arguments(host, path, c, fd)| + 1 <= Capacity(c)
    ensures |Arguments(host, path, c, fd)| + 1 == Capacity(c) <==>
            c.detach && c.readonlyRoot && forall i :: 0 <= i < NAMED ==> Bit(c.capabilityMask, i)
  {
    ArgumentsSize(host, path, c, fd);
    CapabilityCount(c.capabilityMask, 0);
  }

  // ---------------------------------------------------------------- filling the array

  /** The array holds the texts, then NULLs. */
  ghost predicate Filled(a: array<Option<string>>, texts: seq<string>)
    reads a
  {
    |texts| <= a.Length &&
    forall k :: 0 <= k < a.Length ==> a[k] == if k < |texts| then Some(texts[k]) else None
  }

  method Push(a: array<Option<string>>, position: nat, text: string, ghost before: seq<string>)
    requires Filled(a, before) && position == |before| < a.Length
    modifies a
    ensures Filled(a, before + [text])
  {
    a[position] := Some(text);
  }

  method PushItem(a: array<Option<string>>, position: nat, item: Item, ghost before: seq<string>) returns (next: nat)
    requires Filled(a, before) && position == |before| && |before| + |Printed(item)| <= a.Length
    modifies a
    ensures Filled(a, before + Printed(item)) && next == position + |Printed(item)|
  {
    Push(a, position, FlagText(item.flag), before);
    next := position + 1;
    if !IsSwitch(item.flag) {
      Push(a, next, item.value, before + [FlagText(item.flag)]);
      next := next + 1;
      assert before + [FlagText(item.flag)] + [item.value] == before + Printed(item);
    }
  }

  /** The loops over environment, publishes, mounts and denied system calls. */
  method PushAll(host: Host, a: array<Option<string>>, position: nat, settings: seq<Setting>, ghost before: seq<string>)
    returns (next: nat)
    requires Filled(a, before) && position == |before| && |before| + |Texts(host, settings)| <= a.Length
    modifies a
    ensures Filled(a, before + Texts(host, settings)) && next == position + |Texts(host, settings)|
  {
    next := position;
    ghost var done := before;
    ghost var items := Items(host, settings);
    var index := 0;
    assert items[0..] == items;
    while index < |settings|
      invariant index <= |settings| && Filled(a, done) && next == |done|
      invariant done + Flatten(items[index..]) == before + Texts(host, settings)
    {
      ghost var rest := items[index..];
      assert rest[0] == ItemOf(host, settings[index]) && rest[1..] == items[index + 1..];
      FlattenFirst(rest, []);
      assert done + Flatten(rest) == done + Printed(rest[0]) + Flatten(rest[1..]);
      next := PushItem(a, next, ItemOf(host, settings[index]), done);
      done := done + Printed(rest[0]);
      index := index + 1;
    }
    assert items[index..] == [] && done + [] == done;
  }

  lemma CapabilityTexts(host: Host, mask: nat, index: nat, before: seq<string>)
    requires index < BITS
    ensures var item, rest := ItemOf(host, AddCapability(index)), Texts(host, CapabilitySettings(mask, index + 1));
            before + Texts(host, CapabilitySettings(mask, index)) ==
              if Bit(mask, index) then before + Printed(item) + rest else before + rest
  {
    var settings := CapabilitySettings(mask, index + 1);
    if Bit(mask, index) {
      FirstText(host, AddCapability(index), settings);
    } else {
      assert [] + settings == settings;
    }
  }

  /** The loop over the 64 bits of the mask. */
  method PushCapabilities(host: Host, a: array<Option<string>>, position: nat, mask: nat, ghost before: seq<string>)
    returns (next: nat)
    requires Filled(a, before) && position == |before|
    requires |before| + |Texts(host, CapabilitySettings(mask, 0))| <= a.Length
    modifies a
    ensures Filled(a, before + Texts(host, CapabilitySettings(mask, 0)))
    ensures next == position + |Texts(host, CapabilitySettings(mask, 0))|
  {
    next := position;
    ghost var done := before;
    var index := 0;
    while index < BITS
      invariant index <= BITS && Filled(a, done) && next == |done|
      invariant done + Texts(host, CapabilitySettings(mask, index)) == before + Texts(host, CapabilitySettings(mask, 0))
    {
      CapabilityTexts(host, mask, index, done);
      if Bit(mask, index) {
        var item := ItemOf(host, AddCapability(index));
        next := PushItem(a, next, item, done);
        done := done + Printed(item);
      }
      index := index + 1;
    }
    assert done + [] == done;
  }

  /** The loop over the command, which is copied as it is. */
  method PushCommand(a: array<Option<string>>, position: nat, command: seq<string>, ghost before: seq<string>)
    requires Filled(a, before) && position == |before| && |before| + |command| <= a.Length
    modifies a
    ensures Filled(a, before + command)
  {
    var index := 0;
    assert before + command[..0] == before;
    while index < |command|
      invariant index <= |command| && Filled(a, before + command[..index])
    {
      Push(a, position + index, command[index], before + command[..index]);
      assert before + command[..index] + [command[index]] == before + command[..index + 1];
      index := index + 1;
    }
    assert command[..index] == command;
  }

  lemma HeadTexts(host: Host, c: Config)
    ensures Texts(host, Head(c)) ==
            Texts(host, Front(c)) + Texts(host, PublishSettings(c.publishes)) +
            Texts(host, CapabilitySettings(c.capabilityMask, 0)) +
            Texts(host, Switch(c.readonlyRoot, [SetReadOnly]))
  {
    var a := Front(c) + PublishSettings(c.publishes);
    TextsConcat(host, Front(c), PublishSettings(c.publishes));
    TextsConcat(host, a, CapabilitySettings(c.capabilityMask, 0));
    TextsConcat(host, a + CapabilitySettings(c.capabilityMask, 0), Switch(c.readonlyRoot, [SetReadOnly]));
  }

  method PushCapabilitiesAndSwitch(host: Host, a: array<Option<string>>, position: nat, c: Config,
                                   ghost before: seq<string>, ghost x: seq<string>, ghost y: seq<string>)
    returns (next: nat)
    requires x == Texts(host, CapabilitySettings(c.capabilityMask, 0))
    requires y == Texts(host, Switch(c.readonlyRoot, [SetReadOnly]))
    requires Filled(a, before) && position == |before| && |before| + |x| + |y| <= a.Length
    modifies a
    ensures Filled(a, before + x + y) && next == position + |x| + |y|
  {
    next := PushCapabilities(host, a, position, c.capabilityMask, before);
    next := PushAll(host, a, next, Switch(c.readonlyRoot, [SetReadOnly]), before + x);
  }

  method PushFrontAndPublishes(host: Host, a: array<Option<string>>, position: nat, c: Config,
                               ghost before: seq<string>, ghost x: seq<string>, ghost y: seq<string>)
    returns (next: nat)
    requires x == Texts(host, Front(c)) && y == Texts(host, PublishSettings(c.publishes))
    requires Filled(a, before) && position == |before| && |before| + |x| + |y| <= a.Length
    modifies a
    ensures Filled(a, before + x + y) && next == position + |x| + |y|
  {
    next := PushAll(host, a, position, Front(c), before);
    next := PushAll(host, a, next, PublishSettings(c.publishes), before + x);
  }

  lemma Regrouped(before: seq<string>, v: seq<string>, w: seq<string>, x: seq<string>, y: seq<string>)
    ensures before + v + w + x + y == before + (v + w + x + y)
  {
  }

  method PushHead(host: Host, a: array<Option<string>>, position: nat, c: Config, ghost before: seq<string>)
    returns (next: nat)
    requires Filled(a, before) && position == |before| && |before| + |Texts(host, Head(c))| <= a.Length
    modifies a
    ensures Filled(a, before + Texts(host, Head(c))) && next == position + |Texts(host, Head(c))|
  {
    HeadTexts(host, c);
    ghost var v, w := Texts(host, Front(c)), Texts(host, PublishSettings(c.publishes));
    ghost var x := Texts(host, CapabilitySettings(c.capabilityMask, 0));
    ghost var y := Texts(host, Switch(c.readonlyRoot, [SetReadOnly]));
    Regrouped(before, v, w, x, y);
    next := PushFrontAndPublishes(host, a, position, c, before, v, w);
    next := PushCapabilitiesAndSwitch(host, a, next, c, before + v + w, x, y);
  }

  lemma ArgumentTexts(host: Host, path: string, c: Config, fd: nat)
    ensures Arguments(host, path, c, fd) ==
            [path] + Texts(host, Head(c)) + Texts(host, MountSettings(c.mounts)) + Texts(host, Tail(c, fd)) + ["--"] +
            c.command
  {
    TextsConcat(host, Head(c), MountSettings(c.mounts));
    TextsConcat(host, Head(c) + MountSettings(c.mounts), Tail(c, fd));
  }

  /** The vector is built in the order above and never runs over its end; the slot after it is
      still NULL. */
  method BuildVector(host: Host, path: string, c: Config, fd: nat) returns (a: array<Option<string>>)
    requires c.capabilityMask < Pow2(NAMED)
    ensures fresh(a) && a.Length == Capacity(c) > |Arguments(host, path, c, fd)|
    ensures Filled(a, Arguments(host, path, c, fd))
  {
    a := new Option<string>[Capacity(c)](_ => None);
    CapacityIsExact(host, path, c, fd);
    ArgumentTexts(host, path, c, fd);
    ghost var first := [path] + Texts(host, Head(c));
    ghost var second := first + Texts(host, MountSettings(c.mounts));
    ghost var third := second + Texts(host, Tail(c, fd));
    Push(a, 0, path, []);
    assert [] + [path] == [path];
    var position := PushHead(host, a, 1, c, [path]);
    position := PushAll(host, a, position, MountSettings(c.mounts), first);
    position := PushAll(host, a, position, Tail(c, fd), second);
    Push(a, position, "--", third);
    PushCommand(a, position + 1, c.command, third + ["--"]);
  }
}
