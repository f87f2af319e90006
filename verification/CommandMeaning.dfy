/** The configuration that a command line describes, field by field, whatever the order of its
    options, and which lines are refused. */
module CommandMeaning {
  import opened Base
  import opened Capabilities
  import opened CommandLine
  import opened CommandText
  import opened Mounts
  import opened Numerals
  import opened Transport
  import Leases

  // ---------------------------------------------------------------- items by field

  /** The value that the last item with one gives. */
  function LastOf<T>(items: seq<Item>, pick: Item -> Option<T>): Option<T> {
    if items == [] then None
    else if pick(items[|items| - 1]).Some? then pick(items[|items| - 1])
    else LastOf(items[..|items| - 1], pick)
  }

  /** The values of all items that have one, in order. */
  function AllOf<T>(items: seq<Item>, pick: Item -> Option<T>): seq<T> {
    if items == [] then []
    else Joined(AllOf(items[..|items| - 1], pick), pick(items[|items| - 1]))
  }

  /** The capabilities that are asked for, as a mask. */
  function MaskOf(items: seq<Item>): nat {
    if items == [] then 0
    else
      var mask, last := MaskOf(items[..|items| - 1]), items[|items| - 1];
      if last.Allowing? then WithBit(mask, last.capability) else mask
  }

  /** The configuration, but for what is filled in at the end. */
  function Described(m: Machine, items: seq<Item>): Config {
    Config("", LastOf(items, NameIn), "", "", Or(LastOf(items, WorkdirIn), "/"), Or(LastOf(items, UserIn), 0),
           Or(LastOf(items, GroupIn), 0), AllOf(items, VariableIn), Or(LastOf(items, DetachIn), false), None,
           Or(LastOf(items, MemoryIn), 128 * 1024 * 1024), Or(LastOf(items, SwapIn), 0),
           Or(LastOf(items, CpuIn), 50_000), Or(LastOf(items, PidsIn), 128), MaskOf(items),
           Or(LastOf(items, SealIn), false), AllOf(items, MountIn(m.host)), Or(LastOf(items, DeniesIn(m)), []),
           Or(LastOf(items, NetworkIn), true), 0, AllOf(items, PublishIn), [])
  }

  // ---------------------------------------------------------------- one item more

  lemma {:induction false} GrownLast(m: Machine, o: Options, items: seq<Item>, item: Item)
    ensures GrownAll(m, o, items + [item]) == Grown(m, GrownAll(m, o, items), item)
    decreases |items|
  {
    if items == [] {
      assert items + [item] == [item] && [item][1..] == [];
    } else {
      assert (items + [item])[1..] == items[1..] + [item];
      GrownLast(m, Grown(m, o, items[0]), items[1..], item);
    }
  }

  lemma {:induction false} FitsLast(m: Machine, o: Options, items: seq<Item>, item: Item)
    ensures FitTogether(m, o, items + [item]) <==> FitTogether(m, o, items) && Fits(GrownAll(m, o, items), item)
    decreases |items|
  {
    if items == [] {
      assert items + [item] == [item] && [item][1..] == [];
    } else {
      assert (items + [item])[1..] == items[1..] + [item];
      FitsLast(m, Grown(m, o, items[0]), items[1..], item);
    }
  }

  /** The configuration after the effects of the items, one after the other. */
  function Effects(m: Machine, c: Config, items: seq<Item>): Config {
    if items == [] then c else Effect(m, Effects(m, c, items[..|items| - 1]), items[|items| - 1])
  }

  lemma {:induction false} GrownIsBuilt(m: Machine, items: seq<Item>)
    ensures GrownAll(m, DEFAULTS, items).config == Effects(m, DEFAULTS.config, items)
  {
    if items != [] {
      var front, last := items[..|items| - 1], items[|items| - 1];
      assert items == front + [last];
      GrownIsBuilt(m, front);
      GrownLast(m, DEFAULTS, front, last);
    }
  }

  /** What the items build is what they describe. */
  lemma {:induction false} BuiltIsDescribed(m: Machine, items: seq<Item>)
    ensures Effects(m, DEFAULTS.config, items) == Described(m, items)
  {
    if items != [] {
      BuiltIsDescribed(m, items[..|items| - 1]);
    }
  }

  lemma {:induction false} OthersAreLast(m: Machine, items: seq<Item>)
    ensures var o := GrownAll(m, DEFAULTS, items);
            && o.image == LastOf(items, ImageIn) && o.hostname == LastOf(items, HostnameIn)
            && (o.profiled <==> exists k :: 0 <= k < |items| && items[k].Profiled?)
  {
    if items != [] {
      var front, last := items[..|items| - 1], items[|items| - 1];
      OthersAreLast(m, front);
      assert items == front + [last];
      GrownLast(m, DEFAULTS, front, last);
      assert forall k :: 0 <= k < |front| ==> items[k] == front[k];
      if k :| 0 <= k < |front| && front[k].Profiled? {
        assert items[k].Profiled?;
      }
    }
  }

  // ---------------------------------------------------------------- what is refused

  predicate OneProfile(items: seq<Item>) {
    forall i, j :: 0 <= i < j < |items| ==> !items[i].Profiled? || !items[j].Profiled?
  }

  lemma DisjointLast(publishes: seq<Leases.Publish>, p: Leases.Publish)
    ensures Leases.PairwiseDisjoint(publishes + [p]) <==>
            Leases.PairwiseDisjoint(publishes) && !Overlapping(publishes, p)
  {
    var all := publishes + [p];
    if Leases.PairwiseDisjoint(all) {
      assert forall k :: 0 <= k < |publishes| ==> all[k] == publishes[k] && !Leases.Overlaps(all[k], all[|publishes|]);
    }
  }

  lemma OneProfileLast(items: seq<Item>, item: Item)
    ensures OneProfile(items + [item]) <==>
            OneProfile(items) && (item.Profiled? ==> forall k :: 0 <= k < |items| ==> !items[k].Profiled?)
  {
    var all := items + [item];
    assert forall k :: 0 <= k < |items| ==> all[k] == items[k];
    if OneProfile(all) {
      assert forall k :: 0 <= k < |items| ==> !all[k].Profiled? || !all[|items|].Profiled?;
    }
  }

  /** Items fit together exactly if no two publishes overlap and there is one profile at most. */
  lemma {:induction false} FitExactly(m: Machine, items: seq<Item>)
    ensures FitTogether(m, DEFAULTS, items) <==>
            Leases.PairwiseDisjoint(AllOf(items, PublishIn)) && OneProfile(items)
  {
    if items != [] {
      var front, last := items[..|items| - 1], items[|items| - 1];
      assert items == front + [last];
      FitExactly(m, front);
      FitsLast(m, DEFAULTS, front, last);
      GrownIsBuilt(m, front);
      BuiltIsDescribed(m, front);
      OthersAreLast(m, front);
      OneProfileLast(front, last);
      if last.Publishing? {
        DisjointLast(AllOf(front, PublishIn), last.p);
      }
    }
  }

  /** Which lines of well-formed options are accepted, and as what: with the last value of each
      option, with all values of those that add up, and with defaults for those left out. */
  lemma CommandedExactly(m: Machine, items: seq<Item>, command: seq<string>)
    requires ItemsOk(m, items) && TableOk(m.host.capabilities)
    ensures var image, c := LastOf(items, ImageIn), Described(m, items);
            Commanded(m, Line(m.host, items, command)) ==
              if Leases.PairwiseDisjoint(c.publishes) && OneProfile(items) && image.Some? &&
                 m.image(image.value).Some? && m.id.Some? && command != [] && (c.bridge || c.publishes == [])
              then Some(c.(id := m.id.value, rootfs := m.image(image.value).value, command := command,
                           hostname := Or(LastOf(items, HostnameIn), "mc-" + Truncate(m.id.value, 12))))
              else None
  {
    CollectLine(m, DEFAULTS, items, command);
    FitExactly(m, items);
    GrownIsBuilt(m, items);
    BuiltIsDescribed(m, items);
    OthersAreLast(m, items);
  }

  /** A bit of the mask is set exactly if that capability was asked for. */
  lemma {:induction false} MaskMeaning(items: seq<Item>, j: nat)
    ensures Bit(MaskOf(items), j) <==> exists k :: 0 <= k < |items| && items[k].Allowing? && items[k].capability == j
  {
    if items == [] {
      Remainder(0, Pow2(j), 0, 0);
    } else {
      var front, last := items[..|items| - 1], items[|items| - 1];
      MaskMeaning(front, j);
      assert forall k :: 0 <= k < |front| ==> items[k] == front[k];
      if last.Allowing? {
        BitOfWithBit(MaskOf(front), last.capability, j);
      }
      if k :| 0 <= k < |front| && front[k].Allowing? && front[k].capability == j {
        assert items[k].Allowing?;
      }
    }
  }
}
