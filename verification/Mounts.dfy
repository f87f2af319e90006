/** Mount options: mc_parse_bind_mount, mc_parse_tmpfs_mount and valid_target of src/util/mount.c,
    mc_parse_bytes of src/util/resource.c, and the text that mc_launch_shim prints for a mount. */
module Mounts {
  import opened Base
  import opened Numerals
  import opened Paths

  const TEXT_MAX := 8191        // what snprintf leaves in a buffer of 8192 bytes
  const DEFAULT_SIZE := 0x400_0000
  const MAX_SIZE := 0x4000_0000

  datatype Mount =
    | Bind(source: string, target: string, readonly: bool)
    | Tmpfs(target: string, size: nat)

  /** What the parsers look up: realpath, whether a resolved path is an allow-listed directory,
      whether libseccomp knows a system call, and the table of capability names. */
  datatype Host = Host(realpath: string -> Option<string>, bindable: string -> bool, syscall: string -> bool,
                       capabilities: seq<string>)

  /** realpath gives absolute paths that fit PATH_MAX and are their own realpath. */
  ghost predicate Resolves(host: Host) {
    forall path :: host.realpath(path).Some? ==> Canonical(host, host.realpath(path).value)
  }

  predicate Canonical(host: Host, path: string) {
    path != [] && path[0] == '/' && |path| < PATH_MAX && host.realpath(path) == Some(path)
  }

  // ---------------------------------------------------------------- targets

  predicate Under(path: string, parent: string) {
    parent <= path && (|path| == |parent| || path[|parent|] == '/')
  }

  const FORBIDDEN := ["/proc", "/sys", "/dev", "/run/minicontainer", "/var/lib/minicontainer"]

  /** Absolute, not the root, short enough, without a ".." component, outside reserved trees. */
  predicate ValidTarget(target: string) {
    && 2 <= |target| < PATH_MAX && target[0] == '/' && ".." !in Split(target)
    && forall k :: 0 <= k < |FORBIDDEN| ==> !Under(target, FORBIDDEN[k])
  }

  predicate DotsAt(text: string, at: nat) {
    at + 2 <= |text| && text[at] == '.' && text[at + 1] == '.'
  }

  /** Two dots bounded by slashes or the ends of the text. */
  predicate ParentAt(text: string, at: nat) {
    && DotsAt(text, at)
    && (at == 0 || text[at - 1] == '/') && (at + 2 == |text| || text[at + 2] == '/')
  }

  lemma ParentInTail(text: string, at: nat, i: nat)
    requires i < |text| && text[i] == '/' && i < at
    ensures ParentAt(text, at) <==> ParentAt(text[i + 1..], at - i - 1)
  {
  }

  lemma ParentInHead(text: string, i: nat, at: nat)
    requires i <= |text| && '/' !in text[..i] && (i < |text| ==> text[i] == '/') && at <= i
    ensures ParentAt(text, at) <==> at == 0 && text[..i] == ".."
  {
    if at > 0 {
      assert text[at - 1] == text[..i][at - 1];
    }
  }

  lemma HeadOrTail(parts: seq<string>, component: string)
    requires parts != []
    ensures component in parts <==> component == parts[0] || component in parts[1..]
  {
  }

  lemma SplitParts(text: string, component: string)
    ensures var i := IndexOf(text, '/');
            component in Split(text) <==> component == text[..i] || (i < |text| && component in Split(text[i + 1..]))
  {
    HeadOrTail(Split(text), component);
    SplitHead(text);
  }

  lemma {:induction false} ParentIsComponent(text: string, at: nat)
    requires ParentAt(text, at)
    ensures ".." in Split(text)
  {
    var i := IndexOf(text, '/');
    SplitParts(text, "..");
    if at <= i {
      ParentInHead(text, i, at);
    } else {
      ParentInTail(text, at, i);
      ParentIsComponent(text[i + 1..], at - i - 1);
    }
  }

  lemma {:induction false} ComponentIsParent(text: string) returns (at: nat)
    requires ".." in Split(text)
    ensures at < |text| && ParentAt(text, at)
  {
    var i := IndexOf(text, '/');
    SplitParts(text, "..");
    if text[..i] == ".." {
      ParentInHead(text, i, 0);
      at := 0;
    } else {
      var tail := text[i + 1..];
      var rest := ComponentIsParent(tail);
      at := rest + i + 1;
      ParentInTail(text, at, i);
    }
  }

  /** strstr(text + from, ".."). */
  method FindDots(text: string, from: nat) returns (at: nat)
    requires from <= |text|
    ensures from <= at <= |text| && (at < |text| ==> DotsAt(text, at))
    ensures forall k :: from <= k < at ==> !DotsAt(text, k)
  {
    at := from;
    while at < |text| && !DotsAt(text, at)
      invariant from <= at <= |text| && forall k :: from <= k < at ==> !DotsAt(text, k)
    {
      at := at + 1;
    }
  }

  /** The scan for "..", which steps two characters past each occurrence, misses no component. */
  method HasParent(target: string) returns (found: bool)
    ensures found <==> ".." in Split(target)
  {
    var component := 0;
    while true
      invariant component <= |target| && forall k :: 0 <= k < component ==> !ParentAt(target, k)
      decreases |target| - component
    {
      component := FindDots(target, component);
      if component == |target| {
        if ".." in Split(target) {
          var at := ComponentIsParent(target);
          assert false;
        }
        return false;
      }
      if ParentAt(target, component) {
        ParentIsComponent(target, component);
        return true;
      }
      assert !ParentAt(target, component + 1);
      component := component + 2;
    }
  }

  /** valid_target. */
  method IsValidTarget(target: string) returns (valid: bool)
    ensures valid <==> ValidTarget(target)
  {
    if !(2 <= |target| < PATH_MAX && target[0] == '/') {
      return false;
    }
    var parent := HasParent(target);
    if parent {
      return false;
    }
    var index := 0;
    while index < |FORBIDDEN|
      invariant index <= |FORBIDDEN| && forall k :: 0 <= k < index ==> !Under(target, FORBIDDEN[k])
    {
      if Under(target, FORBIDDEN[index]) {
        return false;
      }
      index := index + 1;
    }
    return true;
  }

  /** Nothing is mounted on a reserved tree or below one. */
  lemma ReservedTrees(target: string)
    ensures var trees := ["/proc", "/sys", "/dev", "/run/minicontainer", "/var/lib/minicontainer"];
            ValidTarget(target) <==>
              && 2 <= |target| < 4096 && target[0] == '/' && ".." !in Split(target)
              && forall k :: 0 <= k < 5 ==> target != trees[k] && !(trees[k] + "/" <= target)
  {
    var trees := ["/proc", "/sys", "/dev", "/run/minicontainer", "/var/lib/minicontainer"];
    assert FORBIDDEN == trees;
    forall k | 0 <= k < 5 ensures Under(target, trees[k]) <==> target == trees[k] || trees[k] + "/" <= target {
      UnderMeaning(target, trees[k]);
    }
  }

  lemma UnderMeaning(path: string, parent: string)
    ensures Under(path, parent) <==> path == parent || parent + "/" <= path
  {
    if parent <= path && |path| > |parent| {
      assert path[..|parent| + 1] == parent + [path[|parent|]];
    }
  }

  // ---------------------------------------------------------------- bind mounts

  function ParseBind(host: Host, value: string): Option<Mount> {
    match After(value, ':')
    case None => None
    case Some(rest) => BindOf(host, Before(value, ':'), Before(rest, ':'), After(rest, ':'))
  }

  function BindOf(host: Host, source: string, target: string, mode: Option<string>): Option<Mount> {
    if source == [] || source[0] != '/' || !ValidTarget(target) || (mode.Some? && mode.value !in ["ro", "rw"]) ||
       host.realpath(source).None? || !host.bindable(host.realpath(source).value)
    then None else Some(Bind(host.realpath(source).value, target, mode == Some("ro")))
  }

  function Mode(readonly: bool): string {
    if readonly then "ro" else "rw"
  }

  /** The value that mc_launch_shim prints for a bind mount, cut to its buffer. */
  function BindText(source: string, target: string, readonly: bool): string {
    Truncate(source + [':'] + (target + [':'] + Mode(readonly)), TEXT_MAX)
  }

  /** A mount as mc_parse_bind_mount accepts it. */
  predicate BindOk(host: Host, source: string, target: string) {
    Canonical(host, source) && host.bindable(source) && ValidTarget(target) && ':' !in target
  }

  lemma BindOfOk(host: Host, source: string, target: string, mode: Option<string>)
    requires BindOk(host, source, target)
    ensures BindOf(host, source, target, mode) ==
            if mode.None? || mode.value == "rw" then Some(Bind(source, target, false))
            else if mode.value == "ro" then Some(Bind(source, target, true))
            else None
  {
  }

  lemma ParseTwoColons(host: Host, source: string, target: string, mode: string)
    requires ':' !in source && ':' !in target
    ensures ParseBind(host, source + [':'] + (target + [':'] + mode)) == BindOf(host, source, target, Some(mode))
  {
    CutAt(source, ':', target + [':'] + mode);
    CutAt(target, ':', mode);
  }

  lemma ParseOneColon(host: Host, source: string, target: string)
    requires ':' !in source && ':' !in target
    ensures ParseBind(host, source + [':'] + target) == BindOf(host, source, target, None)
  {
    CutAt(source, ':', target);
    NoCut(target, ':');
  }

  /** Where the buffer cuts the text: within the mode, or just before its colon. */
  lemma CutText(source: string, target: string, readonly: bool)
    requires |source| < PATH_MAX && |target| < PATH_MAX
    ensures var kept := TEXT_MAX - |source| - |target| - 2;
            BindText(source, target, readonly) ==
              if kept < 0 then source + [':'] + target
              else source + [':'] + (target + [':'] + Truncate(Mode(readonly), kept))
  {
    var text := source + [':'] + (target + [':'] + Mode(readonly));
    var kept := TEXT_MAX - |source| - |target| - 2;
    if kept < 0 {
      assert text[..TEXT_MAX] == source + [':'] + target;
    } else if kept < 2 {
      assert text[..TEXT_MAX] == source + [':'] + (target + [':'] + Mode(readonly)[..kept]);
    }
  }

  /** What a mount without a colon in its source comes back as, by the length of its text. */
  lemma BindComesBack(host: Host, source: string, target: string, readonly: bool)
    requires BindOk(host, source, target) && ':' !in source
    ensures var size := |source| + |target| + 4;
            ParseBind(host, BindText(source, target, readonly)) ==
              if size <= TEXT_MAX then Some(Bind(source, target, readonly))
              else if size == TEXT_MAX + 3 then Some(Bind(source, target, false))
              else None
  {
    var kept := TEXT_MAX - |source| - |target| - 2;
    CutText(source, target, readonly);
    if kept < 0 {
      ParseOneColon(host, source, target);
      BindOfOk(host, source, target, None);
    } else {
      var mode := Truncate(Mode(readonly), kept);
      ParseTwoColons(host, source, target, mode);
      BindOfOk(host, source, target, Some(mode));
      assert kept < 2 ==> |mode| == kept;
    }
  }

  /** A path of the greatest length, one name of a single repeated letter. */
  function LongPath(letter: char): string {
    ['/'] + seq(PATH_MAX - 2, _ => letter)
  }

  lemma LongPathIsValid(letter: char)
    requires letter == 'a' || letter == 'b'
    ensures ValidTarget(LongPath(letter)) && ':' !in LongPath(letter) && |LongPath(letter)| == PATH_MAX - 1
  {
    var path := LongPath(letter);
    assert path[0] == '/' && path[1] == letter;
    if ".." in Split(path) {
      var at := ComponentIsParent(path);
      assert false;
    }
  }

  /** The read-only mount that arrives writable: source and target of 4095 bytes each. */
  lemma ReadonlyArrivesWritable(host: Host)
    requires Canonical(host, LongPath('a')) && host.bindable(LongPath('a'))
    ensures var source, target := LongPath('a'), LongPath('b');
            && BindOk(host, source, target) && |source| + |target| + 4 == TEXT_MAX + 3
            && ParseBind(host, BindText(source, target, true)) == Some(Bind(source, target, false))
  {
    LongPathIsValid('a');
    LongPathIsValid('b');
    BindComesBack(host, LongPath('a'), LongPath('b'), true);
  }

  /** Everything behind a separator is behind the first one. */
  lemma AfterKeeps(head: string, separator: char, tail: string, c: char)
    requires c in tail
    ensures var text := head + [separator] + tail; After(text, separator).Some? && c in After(text, separator).value
  {
    var text := head + [separator] + tail;
    var first := Before(text, separator);
    BeforeStops(text, separator, |head|);
    var k :| 0 <= k < |tail| && tail[k] == c;
    assert text[|first| + 1..][|head| - |first| + k] == c;
  }

  /** A colon in the source moves the target into the mode, which is then refused. */
  lemma ColonInSourceFails(host: Host, source: string, target: string, readonly: bool)
    requires BindOk(host, source, target) && ':' in source
    ensures ParseBind(host, BindText(source, target, readonly)) == None
  {
    var head, tail := Before(source, ':'), After(source, ':').value;
    assert source == head + [':'] + tail;
    var kept := ColonText(source, target, readonly);
    assert source + [':'] + kept == head + [':'] + (tail + [':'] + kept);
    CutAt(head, ':', tail + [':'] + kept);
    AfterKeeps(tail, ':', kept, '/');
    assert '/' !in "ro" && '/' !in "rw";
  }

  lemma ColonText(source: string, target: string, readonly: bool) returns (kept: string)
    requires |source| < PATH_MAX && 2 <= |target| < PATH_MAX && target[0] == '/'
    ensures BindText(source, target, readonly) == source + [':'] + kept && '/' in kept
  {
    var left := TEXT_MAX - |source| - |target| - 2;
    CutText(source, target, readonly);
    kept := if left < 0 then target else target + [':'] + Truncate(Mode(readonly), left);
    assert kept[0] == '/';
  }

  /** The printed mount is parsed back to itself exactly when its source has no colon and its
      text fits the buffer, or is cut just before the mode of a writable mount. */
  lemma BindRoundTrip(host: Host, source: string, target: string, readonly: bool)
    requires BindOk(host, source, target)
    ensures ParseBind(host, BindText(source, target, readonly)) == Some(Bind(source, target, readonly)) <==>
            ':' !in source &&
            (|source| + |target| + 4 <= TEXT_MAX || (|source| + |target| + 4 == TEXT_MAX + 3 && !readonly))
  {
    if ':' in source {
      ColonInSourceFails(host, source, target, readonly);
    } else {
      BindComesBack(host, source, target, readonly);
    }
  }

  /** Whatever the user wrote, an accepted bind mount meets the conditions above. */
  lemma ParsedBindIsOk(host: Host, value: string)
    requires Resolves(host) && ParseBind(host, value).Some?
    ensures var m := ParseBind(host, value).value; m.Bind? && BindOk(host, m.source, m.target)
  {
  }

  // ---------------------------------------------------------------- tmpfs mounts

  function DigitPrefix(text: string): (digits: string)
    ensures Digits(digits) && digits <= text
  {
    if text == [] || !IsDigit(text[0]) then [] else [text[0]] + DigitPrefix(text[1..])
  }

  lemma {:induction false} AllDigits(text: string)
    requires Digits(text)
    ensures DigitPrefix(text) == text
  {
    if text != [] {
      AllDigits(text[1..]);
    }
  }

  function Lower(text: string): string {
    if text == [] then []
    else [if 'A' <= text[0] <= 'Z' then text[0] + 32 as char else text[0]] + Lower(text[1..])
  }

  function Multiplier(suffix: string): Option<nat> {
    if suffix in ["", "b"] then Some(1)
    else if suffix in ["k", "ki", "kib"] then Some(0x400)
    else if suffix in ["m", "mi", "mib"] then Some(0x10_0000)
    else if suffix in ["g", "gi", "gib"] then Some(0x4000_0000)
    else None
  }

  /** mc_parse_bytes: a positive number with an optional binary suffix, within 64 bits. */
  function ParseBytes(value: string): (bytes: Option<nat>)
    ensures bytes.Some? ==> 0 < bytes.value < U64_LIMIT
  {
    var digits := DigitPrefix(value);
    var number, unit := Value(digits), Multiplier(Lower(value[|digits|..]));
    if digits == [] || number == 0 || number >= U64_LIMIT || unit.None? || number * unit.value >= U64_LIMIT then None
    else Some(number * unit.value)
  }

  lemma BytesOfDecimal(n: nat)
    requires 0 < n < U64_LIMIT
    ensures ParseBytes(Decimal(n)) == Some(n)
  {
    AllDigits(Decimal(n));
    ValueOfDecimal(n);
    assert Decimal(n)[|Decimal(n)|..] == "";
  }

  /** The separator is looked for from the second character on. */
  function ParseTmpfs(value: string): Option<Mount> {
    if value == [] then None
    else
      var target := [value[0]] + Before(value[1..], ':');
      var size := match After(value[1..], ':') case None => Some(DEFAULT_SIZE) case Some(text) => ParseBytes(text);
      if size.None? || size.value > MAX_SIZE || !ValidTarget(target) then None else Some(Tmpfs(target, size.value))
  }

  function TmpfsText(target: string, size: nat): string {
    Truncate(target + [':'] + Decimal(size), TEXT_MAX)
  }

  predicate TmpfsOk(target: string, size: nat) {
    ValidTarget(target) && ':' !in target && 0 < size <= MAX_SIZE
  }

  /** A tmpfs mount always comes back as it was. */
  lemma TmpfsRoundTrip(target: string, size: nat)
    requires TmpfsOk(target, size)
    ensures ParseTmpfs(TmpfsText(target, size)) == Some(Tmpfs(target, size))
  {
    var text := target + [':'] + Decimal(size);
    SizeHasTenDigits(size);
    assert text[1..] == target[1..] + [':'] + Decimal(size);
    CutAt(target[1..], ':', Decimal(size));
    BytesOfDecimal(size);
    assert [target[0]] + target[1..] == target;
  }

  lemma SizeHasTenDigits(size: nat)
    requires size <= MAX_SIZE
    ensures |Decimal(size)| <= 10
  {
    assert Pow10(5) == 100000;
    assert Pow10(10) == 100000 * Pow10(5);
    DecimalSize(size, 10);
  }

  lemma ParsedTmpfsIsOk(value: string)
    requires ParseTmpfs(value).Some?
    ensures var m := ParseTmpfs(value).value; m.Tmpfs? && TmpfsOk(m.target, m.size)
  {
  }

  // ---------------------------------------------------------------- either kind

  predicate MountOk(host: Host, m: Mount) {
    match m
    case Bind(source, target, _) => BindOk(host, source, target)
    case Tmpfs(target, size) => TmpfsOk(target, size)
  }

  /** The text of the mount survives the buffer and the separators. */
  predicate Portable(m: Mount) {
    m.Bind? ==>
      ':' !in m.source &&
      (|m.source| + |m.target| + 4 <= TEXT_MAX || (|m.source| + |m.target| + 4 == TEXT_MAX + 3 && !m.readonly))
  }

  function MountText(m: Mount): string {
    match m
    case Bind(source, target, readonly) => BindText(source, target, readonly)
    case Tmpfs(target, size) => TmpfsText(target, size)
  }

  function ParseMount(host: Host, bind: bool, value: string): Option<Mount> {
    if bind then ParseBind(host, value) else ParseTmpfs(value)
  }

  lemma MountRoundTrip(host: Host, m: Mount)
    requires MountOk(host, m)
    ensures ParseMount(host, m.Bind?, MountText(m)) == Some(m) <==> Portable(m)
  {
    match m {
      case Bind(source, target, readonly) => BindRoundTrip(host, source, target, readonly);
      case Tmpfs(target, size) => TmpfsRoundTrip(target, size);
    }
  }
}
