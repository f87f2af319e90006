/** Capability names: mc_capability_parse and mc_capability_name of src/linux/security.c, and the
    64-bit mask that carries a set of them. */
module Capabilities {
  import opened Base

  const NAMES: seq<string> := [
    "CHOWN", "DAC_OVERRIDE", "DAC_READ_SEARCH", "FOWNER", "FSETID", "KILL",
    "SETGID", "SETUID", "SETPCAP", "LINUX_IMMUTABLE", "NET_BIND_SERVICE",
    "NET_BROADCAST", "NET_ADMIN", "NET_RAW", "IPC_LOCK", "IPC_OWNER", "SYS_MODULE",
    "SYS_RAWIO", "SYS_CHROOT", "SYS_PTRACE", "SYS_PACCT", "SYS_ADMIN", "SYS_BOOT",
    "SYS_NICE", "SYS_RESOURCE", "SYS_TIME", "SYS_TTY_CONFIG", "MKNOD", "LEASE",
    "AUDIT_WRITE", "AUDIT_CONTROL", "SETFCAP", "MAC_OVERRIDE", "MAC_ADMIN", "SYSLOG",
    "WAKE_ALARM", "BLOCK_SUSPEND", "AUDIT_READ", "PERFMON", "BPF", "CHECKPOINT_RESTORE"
  ]
  const NAMED := 41
  const BITS := 64

  /** The name without an optional CAP_ in front. */
  function Stripped(name: string): string {
    if |name| >= 4 && name[..4] == "CAP_" then name[4..] else name
  }

  /** The first position of a text in a table. */
  function Find(table: seq<string>, text: string): Option<nat>
    decreases |table|
  {
    if table == [] then None
    else if table[0] == text then Some(0)
    else match Find(table[1..], text)
      case None => None
      case Some(i) => Some(i + 1)
  }

  lemma {:induction false} FindMeaning(table: seq<string>, text: string, i: nat)
    requires i < |table| && table[i] == text && text !in table[..i]
    ensures Find(table, text) == Some(i)
  {
    if i > 0 {
      assert table[0] in table[..i] && table[1..][..i - 1] <= table[1..i];
      FindMeaning(table[1..], text, i - 1);
    }
  }

  lemma {:induction false} FindFails(table: seq<string>, text: string)
    requires text !in table
    ensures Find(table, text) == None
  {
    if table != [] {
      FindFails(table[1..], text);
    }
  }

  method Search(table: seq<string>, text: string) returns (number: Option<nat>)
    ensures number == Find(table, text)
  {
    var index := 0;
    while index < |table|
      invariant index <= |table| && text !in table[..index]
    {
      if text == table[index] {
        FindMeaning(table, text, index);
        return Some(index);
      }
      index := index + 1;
    }
    FindFails(table, text);
    return None;
  }

  /** mc_capability_name; the missing name of an unnamed capability is left empty here. */
  function CapabilityName(table: seq<string>, i: nat): string {
    if i < |table| then table[i] else ""
  }

  function CapabilityNumber(table: seq<string>, name: string): Option<nat> {
    Find(table, Stripped(name))
  }

  /** mc_capability_parse. */
  method ParseCapability(table: seq<string>, name: string) returns (number: Option<nat>)
    ensures number == CapabilityNumber(table, name)
  {
    number := Search(table, Stripped(name));
  }

  /** What makes a table readable: its names differ, are not empty and do not start with the
      optional CAP_. */
  predicate TableOk(table: seq<string>) {
    && |table| == NAMED
    && (forall i, j :: 0 <= i < j < |table| ==> table[i] != table[j])
    && (forall i :: 0 <= i < |table| ==> table[i] != [] && Stripped(table[i]) == table[i])
  }

  lemma NamesDiffer(i: nat, j: nat)
    requires i < j < |NAMES|
    ensures NAMES[i] != NAMES[j]
  {
    if i < 4 {
      FirstNamesDiffer(i, j);
    } else if i < 10 {
      NextNamesDiffer(i, j);
    } else if i < 20 {
      MiddleNamesDiffer(i, j);
    } else {
      LastNamesDiffer(i, j);
    }
  }

  lemma FirstNamesDiffer(i: nat, j: nat)
    requires i < 4 && i < j < |NAMES|
    ensures NAMES[i] != NAMES[j]
  {
  }

  lemma NextNamesDiffer(i: nat, j: nat)
    requires 4 <= i < 10 && i < j < |NAMES|
    ensures NAMES[i] != NAMES[j]
  {
  }

  lemma MiddleNamesDiffer(i: nat, j: nat)
    requires 10 <= i < 20 && i < j < |NAMES|
    ensures NAMES[i] != NAMES[j]
  {
  }

  lemma LastNamesDiffer(i: nat, j: nat)
    requires 20 <= i < j < |NAMES|
    ensures NAMES[i] != NAMES[j]
  {
  }

  lemma NoNameStartsWithCap(i: nat)
    requires i < |NAMES|
    ensures NAMES[i] != [] && (NAMES[i][0] != 'C' || |NAMES[i]| == 1 || NAMES[i][1] != 'A')
  {
  }

  lemma NamesAreOk()
    ensures TableOk(NAMES)
  {
    var table := NAMES;
    forall i, j | 0 <= i < j < |table| ensures table[i] != table[j] {
      NamesDiffer(i, j);
    }
    assert "CAP_"[0] == 'C' && "CAP_"[1] == 'A';
    forall i | 0 <= i < |table| ensures table[i] != [] && Stripped(table[i]) == table[i] {
      NoNameStartsWithCap(i);
    }
  }

  /** The numbers are those of linux/capability.h. */
  lemma FileNumbers()
    ensures |NAMES| == 41
    ensures NAMES[0] == "CHOWN" && NAMES[1] == "DAC_OVERRIDE"
    ensures NAMES[2] == "DAC_READ_SEARCH" && NAMES[3] == "FOWNER"
    ensures NAMES[4] == "FSETID" && NAMES[5] == "KILL"
    ensures NAMES[6] == "SETGID" && NAMES[7] == "SETUID"
  {
  }

  lemma NetworkNumbers()
    ensures |NAMES| == 41
    ensures NAMES[8] == "SETPCAP" && NAMES[9] == "LINUX_IMMUTABLE"
    ensures NAMES[10] == "NET_BIND_SERVICE" && NAMES[11] == "NET_BROADCAST"
    ensures NAMES[12] == "NET_ADMIN" && NAMES[13] == "NET_RAW"
    ensures NAMES[14] == "IPC_LOCK" && NAMES[15] == "IPC_OWNER"
  {
  }

  lemma SystemNumbers()
    ensures |NAMES| == 41
    ensures NAMES[16] == "SYS_MODULE" && NAMES[17] == "SYS_RAWIO"
    ensures NAMES[18] == "SYS_CHROOT" && NAMES[19] == "SYS_PTRACE"
    ensures NAMES[20] == "SYS_PACCT" && NAMES[21] == "SYS_ADMIN"
    ensures NAMES[22] == "SYS_BOOT" && NAMES[23] == "SYS_NICE"
  {
  }

  lemma DeviceNumbers()
    ensures |NAMES| == 41
    ensures NAMES[24] == "SYS_RESOURCE" && NAMES[25] == "SYS_TIME"
    ensures NAMES[26] == "SYS_TTY_CONFIG" && NAMES[27] == "MKNOD"
    ensures NAMES[28] == "LEASE" && NAMES[29] == "AUDIT_WRITE"
    ensures NAMES[30] == "AUDIT_CONTROL" && NAMES[31] == "SETFCAP"
  {
  }

  lemma AuditNumbers()
    ensures |NAMES| == 41
    ensures NAMES[32] == "MAC_OVERRIDE" && NAMES[33] == "MAC_ADMIN"
    ensures NAMES[34] == "SYSLOG" && NAMES[35] == "WAKE_ALARM"
    ensures NAMES[36] == "BLOCK_SUSPEND" && NAMES[37] == "AUDIT_READ"
    ensures NAMES[38] == "PERFMON" && NAMES[39] == "BPF"
    ensures NAMES[40] == "CHECKPOINT_RESTORE"
  {
  }

  /** Every capability that has a name is found again under it. */
  lemma NameIsParsedBack(table: seq<string>, i: nat)
    requires TableOk(table) && i < NAMED
    ensures CapabilityNumber(table, CapabilityName(table, i)) == Some(i)
  {
    FindMeaning(table, table[i], i);
  }

  // ---------------------------------------------------------------- masks

  function Pow2(n: nat): (p: nat)
    ensures p > 0
  {
    if n == 0 then 1 else 2 * Pow2(n - 1)
  }

  predicate Bit(mask: nat, i: nat) {
    mask / Pow2(i) % 2 == 1
  }

  /** mask | 1 << i */
  function WithBit(mask: nat, i: nat): nat {
    if Bit(mask, i) then mask else mask + Pow2(i)
  }

  lemma Remainder(a: nat, b: nat, q: nat, r: nat)
    requires b > 0 && r < b && a == q * b + r
    ensures a / b == q && a % b == r
  {
    var d := a / b - q;
    assert d * b == r - a % b;
    assert 0 - b < d * b < b;
    assert d >= 1 ==> d * b >= b;
    assert d <= -1 ==> d * b <= 0 - b;
  }

  /** The mask below bit i + 1 is the mask below bit i, with bit i added if it is set. */
  lemma LowBits(mask: nat, i: nat)
    ensures mask % Pow2(i + 1) == if Bit(mask, i) then WithBit(mask % Pow2(i), i) else mask % Pow2(i)
  {
    var p, q, r := Pow2(i), mask / Pow2(i), mask % Pow2(i);
    var half, bit := q / 2, q % 2;
    Regroup(half, bit, p, r);
    Remainder(mask, 2 * p, half, bit * p + r);
    Remainder(r, p, 0, r);
  }

  lemma Regroup(half: nat, bit: nat, p: nat, r: nat)
    requires bit < 2 && r < p
    ensures (2 * half + bit) * p + r == half * (2 * p) + (bit * p + r) && bit * p + r < 2 * p
  {
  }

  /** A mask of named capabilities has no higher bits. */
  lemma NoHighBits(mask: nat, i: nat)
    requires mask < Pow2(NAMED) && i >= NAMED
    ensures !Bit(mask, i)
  {
    PowersGrow(NAMED, i);
    Remainder(mask, Pow2(i), 0, mask);
  }

  lemma {:induction false} PowersGrow(i: nat, j: nat)
    requires i <= j
    ensures Pow2(i) <= Pow2(j)
  {
    if i < j {
      PowersGrow(i, j - 1);
    }
  }

  lemma {:induction false} PowerOfSum(i: nat, j: nat)
    ensures Pow2(i + j) == Pow2(i) * Pow2(j)
  {
    if i > 0 {
      PowerOfSum(i - 1, j);
    }
  }

  /** A mask of named capabilities is a 64-bit number. */
  lemma NamedMasksFit(mask: nat)
    requires mask < Pow2(NAMED)
    ensures mask < 0x1_0000_0000_0000_0000
  {
    assert Pow2(8) == 256;
    PowerOfSum(8, 8);
    PowerOfSum(16, 16);
    PowerOfSum(32, 32);
    PowersGrow(NAMED, BITS);
  }

  /** Setting a bit below bit n keeps a mask of such bits one. */
  lemma {:induction false} WithBitStaysBelow(mask: nat, i: nat, n: nat)
    requires mask < Pow2(n) && i < n
    ensures WithBit(mask, i) < Pow2(n)
  {
    var bound := Pow2(n - 1);
    assert Pow2(n) == 2 * bound;
    if i > 0 {
      HalfMask(mask, i);
      assert mask / 2 < bound;
      WithBitStaysBelow(mask / 2, i - 1, n - 1);
    }
  }

  lemma HalfMask(mask: nat, i: nat)
    requires i > 0
    ensures WithBit(mask, i) == 2 * WithBit(mask / 2, i - 1) + mask % 2
  {
    var p, half := Pow2(i - 1), mask / 2;
    var q, r := half / p, half % p;
    Doubled(q, p, r, mask % 2);
    Remainder(mask, 2 * p, q, 2 * r + mask % 2);
  }

  lemma Doubled(q: nat, p: nat, r: nat, bit: nat)
    ensures 2 * (q * p + r) + bit == q * (2 * p) + (2 * r + bit)
  {
  }

  lemma HalfOfWithBit(mask: nat, i: nat)
    ensures WithBit(mask, i) / 2 == if i == 0 then mask / 2 else WithBit(mask / 2, i - 1)
    ensures WithBit(mask, i) % 2 == if i == 0 then 1 else mask % 2
  {
    if i > 0 {
      HalfMask(mask, i);
    }
  }

  lemma LowestBit(mask: nat)
    ensures Bit(mask, 0) <==> mask % 2 == 1
  {
    assert Pow2(0) == 1;
  }

  /** Setting a bit sets that bit and no other. */
  lemma {:induction false} BitOfWithBit(mask: nat, i: nat, j: nat)
    ensures Bit(WithBit(mask, i), j) <==> i == j || Bit(mask, j)
    decreases j
  {
    HalfOfWithBit(mask, i);
    if j == 0 {
      LowestBit(mask);
      LowestBit(WithBit(mask, i));
    } else {
      BitOfHalf(mask, j);
      BitOfHalf(WithBit(mask, i), j);
      if i > 0 {
        BitOfWithBit(mask / 2, i - 1, j - 1);
      }
    }
  }

  lemma BitOfHalf(mask: nat, j: nat)
    requires j > 0
    ensures Bit(mask, j) <==> Bit(mask / 2, j - 1)
  {
    var p := Pow2(j - 1);
    var q, r := mask / 2 / p, mask / 2 % p;
    Doubled(q, p, r, mask % 2);
    Remainder(mask, 2 * p, q, 2 * r + mask % 2);
  }

  lemma {:induction false} FindIsWithin(table: seq<string>, text: string)
    ensures Find(table, text).Some? ==> Find(table, text).value < |table|
  {
    if table != [] {
      FindIsWithin(table[1..], text);
    }
  }
}
