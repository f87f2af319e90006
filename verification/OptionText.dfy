/** Texts for the values of command line options, and what the parsers make of them: every value that
    an option can have is read back from a text for it. */
module OptionText {
  import opened Base
  import opened Capabilities
  import opened CommandLine
  import opened Mounts
  import opened Numerals
  import opened Paths
  import opened Transport
  import Leases
  import Quota

  // ---------------------------------------------------------------- addresses and publishes

  lemma {:induction false} LeadingDigit(n: nat)
    requires n > 0
    ensures Decimal(n)[0] != '0'
  {
    if n >= 10 {
      LeadingDigit(n / 10);
    }
  }

  lemma OctetOfDecimal(n: nat)
    requires n <= 255
    ensures IsOctet(Decimal(n)) && Value(Decimal(n)) == n
  {
    ValueOfDecimal(n);
    assert Pow10(1) == 10 && Pow10(2) == 100 && Pow10(3) == 1000;
    DecimalSize(n, 3);
    if n > 0 {
      LeadingDigit(n);
    }
  }

  function Dotted(a: nat, b: nat, c: nat, d: nat): string {
    Decimal(a) + ['.'] + (Decimal(b) + ['.'] + (Decimal(c) + ['.'] + Decimal(d)))
  }

  lemma DottedFields(a: nat, b: nat, c: nat, d: nat)
    ensures Fields(Dotted(a, b, c, d), '.') == [Decimal(a), Decimal(b), Decimal(c), Decimal(d)]
  {
    FourFields(Decimal(a), Decimal(b), Decimal(c), Decimal(d));
  }

  lemma TwoFields(a: string, b: string)
    requires '.' !in a && '.' !in b
    ensures Fields(a + ['.'] + b, '.') == [a, b]
  {
    NoCut(b, '.');
    FieldsCons(a, '.', b);
  }

  lemma FourFields(a: string, b: string, c: string, d: string)
    requires '.' !in a && '.' !in b && '.' !in c && '.' !in d
    ensures Fields(a + ['.'] + (b + ['.'] + (c + ['.'] + d)), '.') == [a, b, c, d]
  {
    var last := c + ['.'] + d;
    TwoFields(c, d);
    FieldsCons(b, '.', last);
    FieldsCons(a, '.', b + ['.'] + last);
    assert [a] + ([b] + [c, d]) == [a, b, c, d];
  }

  /** Four decimal octets, the highest first. */
  lemma AddressOfDotted(a: nat, b: nat, c: nat, d: nat)
    requires a <= 255 && b <= 255 && c <= 255 && d <= 255
    ensures ParseAddress(Dotted(a, b, c, d)) == Some(a * 0x100_0000 + b * 0x1_0000 + c * 0x100 + d)
  {
    DottedFields(a, b, c, d);
    OctetOfDecimal(a);
    OctetOfDecimal(b);
    OctetOfDecimal(c);
    OctetOfDecimal(d);
  }

  function AddressText(address: nat): string {
    var high := address / 256;
    var higher := high / 256;
    Dotted(higher / 256, higher % 256, high % 256, address % 256)
  }

  lemma AddressRoundTrip(address: nat)
    requires address < U32_LIMIT
    ensures ParseAddress(AddressText(address)) == Some(address) && ':' !in AddressText(address)
  {
    var high := address / 256;
    var higher := high / 256;
    var a, b, c, d := higher / 256, higher % 256, high % 256, address % 256;
    assert higher == a * 256 + b && high == higher * 256 + c && address == high * 256 + d;
    assert high < 0x100_0000 && higher < 0x1_0000 && a <= 255;
    AddressOfDotted(a, b, c, d);
    AddressHasNoColon(a, b, c, d);
  }

  lemma AddressHasNoColon(a: nat, b: nat, c: nat, d: nat)
    ensures ':' !in Dotted(a, b, c, d)
  {
    NoColonJoin(Decimal(c), Decimal(d));
    NoColonJoin(Decimal(b), Decimal(c) + ['.'] + Decimal(d));
    NoColonJoin(Decimal(a), Decimal(b) + ['.'] + (Decimal(c) + ['.'] + Decimal(d)));
  }

  lemma NoColonJoin(a: string, b: string)
    requires ':' !in a && ':' !in b
    ensures ':' !in a + ['.'] + b
  {
  }

  function ProtocolText(protocol: nat): string {
    if protocol == Leases.TCP then "tcp" else "udp"
  }

  /** ADDRESS:HOST_PORT:CONTAINER_PORT/PROTOCOL. */
  function PublicationText(p: Leases.Publish): string {
    AddressText(p.hostIpv4) + [':'] +
    (Decimal(p.hostPort) + [':'] + (Decimal(p.containerPort) + ['/'] + ProtocolText(p.protocol)))
  }

  lemma PortOfDecimal(n: nat)
    requires 0 < n < 0x1_0000
    ensures ParsePort(Decimal(n)) == Some(n)
  {
    ScannedDecimal(n);
  }

  /** Every publish can be written, and is read as it was written. */
  lemma PublicationRoundTrip(p: Leases.Publish)
    requires Leases.WellFormedPublish(p)
    ensures ParsePublication(PublicationText(p)) == Some(p)
  {
    var last := Decimal(p.containerPort) + ['/'] + ProtocolText(p.protocol);
    var ports := Decimal(p.hostPort) + [':'] + last;
    AddressRoundTrip(p.hostIpv4);
    CutAt(AddressText(p.hostIpv4), ':', ports);
    CutAt(Decimal(p.hostPort), ':', last);
    CutAt(Decimal(p.containerPort), '/', ProtocolText(p.protocol));
    PortOfDecimal(p.hostPort);
    PortOfDecimal(p.containerPort);
  }

  /** The address pool is 10.44.0.0/24, and the wildcard is 0.0.0.0. */
  lemma KnownAddresses()
    ensures ParseAddress(Dotted(10, 44, 0, 0)) == Some(Leases.POOL) && ParseAddress(Dotted(0, 0, 0, 0)) == Some(0)
  {
    AddressOfDotted(10, 44, 0, 0);
    AddressOfDotted(0, 0, 0, 0);
  }

  // ---------------------------------------------------------------- sizes

  /** The text spells the lower-case word in letters of either case. */
  predicate Spells(text: string, word: string) {
    && |text| == |word|
    && forall k :: 0 <= k < |word| ==> text[k] == word[k] || text[k] as int + 32 == word[k] as int
  }

  predicate LowerCase(word: string) {
    forall k :: 0 <= k < |word| ==> 'a' <= word[k] <= 'z'
  }

  lemma {:induction false} LowerOfSpelling(text: string, word: string)
    requires LowerCase(word) && Spells(text, word)
    ensures Lower(text) == word
  {
    if word != [] {
      LowerOfSpelling(text[1..], word[1..]);
    }
  }

  const UNITS: map<string, nat> := map[
    "" := 1, "b" := 1, "k" := 1024, "ki" := 1024, "kib" := 1024,
    "m" := 1048576, "mi" := 1048576, "mib" := 1048576,
    "g" := 1073741824, "gi" := 1073741824, "gib" := 1073741824]

  lemma UnitIsKnown(word: string)
    requires word in UNITS
    ensures Multiplier(word) == Some(UNITS[word]) && UNITS[word] > 0 && LowerCase(word)
  {
  }

  lemma {:induction false} DigitsThenWord(digits: string, suffix: string)
    requires Digits(digits) && (suffix == [] || !IsDigit(suffix[0]))
    ensures DigitPrefix(digits + suffix) == digits
  {
    if digits == [] {
      assert digits + suffix == suffix;
    } else {
      assert (digits + suffix)[1..] == digits[1..] + suffix;
      DigitsThenWord(digits[1..], suffix);
    }
  }

  /** A number with any unit, in any case, means their product, if that is positive and fits. */
  lemma BytesOfText(n: nat, suffix: string, word: string)
    requires word in UNITS && Spells(suffix, word)
    ensures ParseBytes(Decimal(n) + suffix) ==
            if 0 < n && n * UNITS[word] < U64_LIMIT then Some(n * UNITS[word]) else None
  {
    UnitIsKnown(word);
    LowerOfSpelling(suffix, word);
    assert suffix != [] ==> 'a' <= word[0] <= 'z';
    DigitsThenWord(Decimal(n), suffix);
    ValueOfDecimal(n);
    assert (Decimal(n) + suffix)[|Decimal(n)|..] == suffix;
    assert n * UNITS[word] >= n by {
      ProductIsLarger(n, UNITS[word]);
    }
  }

  lemma ProductIsLarger(n: nat, unit: nat)
    requires unit > 0
    ensures n * unit >= n
  {
  }

  // ---------------------------------------------------------------- CPU quotas

  /** The last `digits` decimal digits of a number, leading zeros included. */
  function Padded(n: nat, digits: nat): (text: string)
    ensures |text| == digits && Digits(text)
  {
    if digits == 0 then [] else Padded(n / 10, digits - 1) + [Digit(n % 10)]
  }

  lemma {:induction false} ValueOfPadded(n: nat, digits: nat)
    requires n < Pow10(digits)
    ensures Value(Padded(n, digits)) == n
  {
    if digits > 0 {
      ValueOfPadded(n / 10, digits - 1);
      AppendDigit(Padded(n / 10, digits - 1), Digit(n % 10));
    }
  }

  /** A quota, in units of a hundred-thousandth of a CPU, as a decimal number of CPUs. */
  function QuotaText(quota: nat): string {
    Decimal(quota / 100_000) + ['.'] + Padded(quota % 100_000, 5)
  }

  lemma QuotaParts(quota: nat)
    ensures Quota.Whole(QuotaText(quota)) == Decimal(quota / 100_000)
    ensures Quota.Fraction(QuotaText(quota)) == Padded(quota % 100_000, 5)
  {
    CutAt(Decimal(quota / 100_000), '.', Padded(quota % 100_000, 5));
  }

  lemma QuotaRoundTrip(quota: nat)
    requires 0 < quota <= CPU_MAX
    ensures CpuQuotaOf(QuotaText(quota)) == Some(quota)
  {
    var text, whole, rest := QuotaText(quota), quota / 100_000, quota % 100_000;
    QuotaParts(quota);
    ValueOfDecimal(whole);
    assert Pow10(1) == 10 && Pow10(2) == 100 && Pow10(3) == 1_000 && Pow10(4) == 10_000 && Pow10(5) == 100_000;
    ValueOfPadded(rest, 5);
    assert Quota.DecimalValue(text) == whole as real + rest as real / 100000.0;
    QuotaValue(quota, Quota.DecimalValue(text));
  }

  lemma QuotaValue(quota: nat, value: real)
    requires 0 < quota <= CPU_MAX
    requires value == (quota / 100_000) as real + (quota % 100_000) as real / 100000.0
    ensures value * 100000.0 == quota as real && 0.00001 <= value <= 1024.0
  {
    assert quota as real == (quota / 100_000) as real * 100000.0 + (quota % 100_000) as real;
  }

  // ---------------------------------------------------------------- users

  /** A lone number is user and group. */
  lemma LoneUser(user: nat)
    ensures ParseUser(Decimal(user)) == if user <= 65535 then Some((user, user)) else None
  {
    NoCut(Decimal(user), ':');
    ParseOfDecimal(user, ID_MAX);
  }

  // ---------------------------------------------------------------- mounts

  /** A tmpfs mount without a size has 64 MiB. */
  lemma TmpfsWithoutSize(target: string)
    requires ValidTarget(target) && ':' !in target
    ensures ParseTmpfs(target) == Some(Tmpfs(target, 64 * 1024 * 1024))
  {
    NoCut(target[1..], ':');
    assert [target[0]] + target[1..] == target;
  }

  /** With one, it has that, up to 1 GiB. */
  lemma TmpfsWithSize(target: string, size: nat)
    requires target != [] && ':' !in target && 0 < size < U64_LIMIT
    ensures ParseTmpfs(target + [':'] + Decimal(size)) ==
            if ValidTarget(target) && size <= 1024 * 1024 * 1024 then Some(Tmpfs(target, size)) else None
  {
    var text := target + [':'] + Decimal(size);
    assert text[1..] == target[1..] + [':'] + Decimal(size) && [target[0]] + target[1..] == target;
    CutAt(target[1..], ':', Decimal(size));
    BytesOfDecimal(size);
  }

  /** A bind mount with a mode needs an absolute source that resolves to an allowed directory, a
      valid target and one of two modes. */
  lemma BindExactly(host: Host, path: string, target: string, mode: string)
    requires ':' !in path && ':' !in target
    ensures ParseBind(host, path + [':'] + (target + [':'] + mode)) ==
            if path != [] && path[0] == '/' && ValidTarget(target) && (mode == "ro" || mode == "rw") &&
               host.realpath(path).Some? && host.bindable(host.realpath(path).value)
            then Some(Bind(host.realpath(path).value, target, mode == "ro"))
            else None
  {
    ParseTwoColons(host, path, target, mode);
  }

  /** A bind mount is of the directory that its source resolves to, and writable unless it says
      otherwise. */
  lemma BindWithMode(host: Host, path: string, target: string, mode: Option<bool>)
    requires path != [] && path[0] == '/' && ':' !in path && ValidTarget(target) && ':' !in target
    requires host.realpath(path).Some? && host.bindable(host.realpath(path).value)
    ensures var value := path + [':'] + (target + if mode.None? then [] else [':'] + Mode(mode.value));
            ParseBind(host, value) == Some(Bind(host.realpath(path).value, target, mode == Some(true)))
  {
    if mode.None? {
      assert target + [] == target;
      ParseOneColon(host, path, target);
    } else {
      assert target + ([':'] + Mode(mode.value)) == target + [':'] + Mode(mode.value);
      ParseTwoColons(host, path, target, Mode(mode.value));
    }
  }

  // ---------------------------------------------------------------- capabilities

  /** A capability goes by its name, with or without CAP_ in front. */
  lemma CapabilityOfName(table: seq<string>, n: nat, prefix: bool)
    requires TableOk(table) && n < NAMED
    ensures CapabilityNumber(table, (if prefix then "CAP_" else "") + table[n]) == Some(n)
  {
    var name := table[n];
    FindMeaning(table, name, n);
    if prefix {
      assert ("CAP_" + name)[..4] == "CAP_" && ("CAP_" + name)[4..] == name;
    } else {
      assert "" + name == name;
    }
  }
}
