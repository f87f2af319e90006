/** Which argument vectors the shim refuses: those that lack an option it cannot do without. */
module ShimOptions {
  import opened Base
  import opened Launch
  import opened Mounts
  import opened Numerals
  import opened Transport

  predicate Has(settings: seq<Setting>, test: Setting -> bool) {
    settings != [] && (test(settings[0]) || Has(settings[1..], test))
  }

  function IsId(s: Setting): bool { s.SetId? }
  function IsRootfs(s: Setting): bool { s.SetRootfs? }
  function IsHostname(s: Setting): bool { s.SetHostname? }
  function IsDetach(s: Setting): bool { s.SetDetach? }
  function IsReadyFd(s: Setting): bool { s.SetReadyFd? }
  function IsMemory(s: Setting): bool { s.SetMemory? }
  function IsCpu(s: Setting): bool { s.SetCpu? }
  function IsPids(s: Setting): bool { s.SetPids? }

  /** The working directory that the last option for it names. */
  function WorkdirIn(settings: seq<Setting>, default: Option<string>): Option<string> {
    if settings == [] then default
    else WorkdirIn(settings[1..], if settings[0].SetWorkdir? then Some(settings[0].text) else default)
  }

  ghost predicate AllRead(host: Host, settings: seq<Setting>) {
    forall k :: 0 <= k < |settings| ==> SettingOk(host, settings[k]) && Reread(host, settings[k]) == Some(settings[k])
  }

  lemma {:induction false} IdIsThere(d: Draft, settings: seq<Setting>)
    ensures UpdateAll(d, settings).id.Some? <==> d.id.Some? || Has(settings, IsId)
    decreases |settings|
  {
    if settings != [] {
      IdIsThere(Update(d, settings[0]), settings[1..]);
    }
  }

  lemma {:induction false} RootfsIsThere(d: Draft, settings: seq<Setting>)
    ensures UpdateAll(d, settings).rootfs.Some? <==> d.rootfs.Some? || Has(settings, IsRootfs)
    decreases |settings|
  {
    if settings != [] {
      RootfsIsThere(Update(d, settings[0]), settings[1..]);
    }
  }

  lemma {:induction false} HostnameIsThere(d: Draft, settings: seq<Setting>)
    ensures UpdateAll(d, settings).hostname.Some? <==> d.hostname.Some? || Has(settings, IsHostname)
    decreases |settings|
  {
    if settings != [] {
      HostnameIsThere(Update(d, settings[0]), settings[1..]);
    }
  }

  lemma {:induction false} WorkdirIsThere(d: Draft, settings: seq<Setting>)
    ensures UpdateAll(d, settings).workdir == WorkdirIn(settings, d.workdir)
    decreases |settings|
  {
    if settings != [] {
      WorkdirIsThere(Update(d, settings[0]), settings[1..]);
    }
  }

  lemma {:induction false} SwitchesAreThere(d: Draft, settings: seq<Setting>)
    ensures var e := UpdateAll(d, settings);
            && (e.detach <==> d.detach || Has(settings, IsDetach))
            && (e.readyFd.Some? <==> d.readyFd.Some? || Has(settings, IsReadyFd))
    decreases |settings|
  {
    if settings != [] {
      SwitchesAreThere(Update(d, settings[0]), settings[1..]);
    }
  }

  predicate Positive(s: Setting) {
    s.SetMemory? || s.SetCpu? || s.SetPids? ==> s.n > 0
  }

  lemma {:induction false} MemoryIsThere(d: Draft, settings: seq<Setting>)
    requires forall k :: 0 <= k < |settings| ==> Positive(settings[k])
    ensures UpdateAll(d, settings).memoryMax > 0 <==> d.memoryMax > 0 || Has(settings, IsMemory)
    decreases |settings|
  {
    if settings != [] {
      assert Positive(settings[0]);
      MemoryIsThere(Update(d, settings[0]), settings[1..]);
    }
  }

  lemma {:induction false} CpuIsThere(d: Draft, settings: seq<Setting>)
    requires forall k :: 0 <= k < |settings| ==> Positive(settings[k])
    ensures UpdateAll(d, settings).cpuQuota > 0 <==> d.cpuQuota > 0 || Has(settings, IsCpu)
    decreases |settings|
  {
    if settings != [] {
      assert Positive(settings[0]);
      CpuIsThere(Update(d, settings[0]), settings[1..]);
    }
  }

  lemma {:induction false} PidsIsThere(d: Draft, settings: seq<Setting>)
    requires forall k :: 0 <= k < |settings| ==> Positive(settings[k])
    ensures UpdateAll(d, settings).pidsMax > 0 <==> d.pidsMax > 0 || Has(settings, IsPids)
    decreases |settings|
  {
    if settings != [] {
      assert Positive(settings[0]);
      PidsIsThere(Update(d, settings[0]), settings[1..]);
    }
  }

  /** A vector of options that can be read is accepted exactly if id, root file system, host name, an
      absolute working directory, the three limits and a command are there, and a ready descriptor
      if it is detached. */
  lemma AcceptedExactly(host: Host, path: string, settings: seq<Setting>, command: seq<string>)
    requires AllRead(host, settings)
    ensures var argv := [path] + (Flatten(Items(host, settings)) + (["--"] + command));
            var workdir := WorkdirIn(settings, None);
            Received(host, argv).Some? <==>
              && Has(settings, IsId) && Has(settings, IsRootfs) && Has(settings, IsHostname)
              && workdir.Some? && workdir.value != [] && workdir.value[0] == '/'
              && Has(settings, IsMemory) && Has(settings, IsCpu) && Has(settings, IsPids)
              && (Has(settings, IsDetach) ==> Has(settings, IsReadyFd)) && command != []
  {
    var argv := [path] + (Flatten(Items(host, settings)) + (["--"] + command));
    assert argv[1..] == Flatten(Items(host, settings)) + (["--"] + command);
    VectorIsParsed(host, settings, command);
    ReadIsPositive(host, settings);
    DraftNeeds(settings, command);
  }

  lemma ReadIsPositive(host: Host, settings: seq<Setting>)
    requires AllRead(host, settings)
    ensures forall k :: 0 <= k < |settings| ==> Positive(settings[k])
  {
  }

  lemma DraftNeeds(settings: seq<Setting>, command: seq<string>)
    requires forall k :: 0 <= k < |settings| ==> Positive(settings[k])
    ensures var workdir := WorkdirIn(settings, None);
            Finish(UpdateAll(BLANK, settings).(command := Some(command))).Some? <==>
              && Has(settings, IsId) && Has(settings, IsRootfs) && Has(settings, IsHostname)
              && workdir.Some? && workdir.value != [] && workdir.value[0] == '/'
              && Has(settings, IsMemory) && Has(settings, IsCpu) && Has(settings, IsPids)
              && (Has(settings, IsDetach) ==> Has(settings, IsReadyFd)) && command != []
  {
    IdIsThere(BLANK, settings);
    RootfsIsThere(BLANK, settings);
    HostnameIsThere(BLANK, settings);
    WorkdirIsThere(BLANK, settings);
    SwitchesAreThere(BLANK, settings);
    MemoryIsThere(BLANK, settings);
    CpuIsThere(BLANK, settings);
    PidsIsThere(BLANK, settings);
    FinishNeeds(UpdateAll(BLANK, settings).(command := Some(command)));
  }

  lemma FinishNeeds(d: Draft)
    ensures Finish(d).Some? <==>
            && d.id.Some? && d.rootfs.Some? && d.hostname.Some? && d.workdir.Some?
            && d.workdir.value != [] && d.workdir.value[0] == '/' && d.command.Some? && d.command.value != []
            && d.memoryMax > 0 && d.cpuQuota > 0 && d.pidsMax > 0 && (d.detach ==> d.readyFd.Some?)
  {
  }

  lemma VectorIsParsed(host: Host, settings: seq<Setting>, command: seq<string>)
    requires AllRead(host, settings)
    ensures Parse(ReaderOf(host), BLANK, Flatten(Items(host, settings)) + (["--"] + command)) ==
            Some(UpdateAll(BLANK, settings).(command := Some(command)))
  {
    var items, read := Items(host, settings), ReaderOf(host);
    forall k | 0 <= k < |items| ensures Plain(items[k]) && read(items[k].flag, items[k].value) == Some(settings[k]) {
      ItemIsRead(host, settings[k]);
    }
    ParseFlattened(read, BLANK, items, settings, command);
  }

  lemma ItemIsRead(host: Host, s: Setting)
    requires Reread(host, s) == Some(s)
    ensures Plain(ItemOf(host, s)) && ReaderOf(host)(FlagFor(s), ValueOf(host, s)) == Some(s)
  {
    assert ReaderOf(host)(FlagFor(s), ValueOf(host, s)) == Reread(host, s);
  }
}
