/** The netlink encoder of src/network/netlink.c: nested, 4-aligned attributes written in place
    in a bounded request buffer, and the walk over received messages. The header is the one of
    section 2.3.2 of RFC 3549; numbers are in little-endian host order. */
module Netlink {
  import opened Base

  const HEADER := 4          // struct rtattr: length and type, 16 bits each
  const NESTED := 0x8000     // NLA_F_NESTED
  const U16 := 0x1_0000

  function Align(n: nat): (r: nat)
    ensures n <= r < n + 4 && r % 4 == 0
  {
    (n + 3) / 4 * 4
  }

  /** A 16-bit field: longer values lose their high bits, as in the source's casts. */
  function Put16(n: nat): (bytes: seq<Byte>)
    ensures |bytes| == 2
  {
    [n % 256, n / 256 % 256]
  }

  function Get16(bytes: seq<Byte>, at: nat): (n: nat)
    requires at + 2 <= |bytes|
  {
    var low: int, high: int := bytes[at], bytes[at + 1];
    low + 256 * high
  }

  function Zeros(n: nat): (bytes: seq<Byte>)
    ensures |bytes| == n && forall k :: 0 <= k < n ==> bytes[k] == 0
  {
    seq(n, _ => 0)
  }

  // ---------------------------------------------------------------- attribute trees

  /** A list of attributes: each is a leaf or a nest, followed by `more`. `prefix` is the fixed
      structure some nests hold before their children, such as the link header inside
      VETH_INFO_PEER. */
  datatype Tree =
    | End
    | Leaf(kind: nat, data: seq<Byte>, more: Tree)
    | Nest(kind: nat, prefix: seq<Byte>, children: Tree, more: Tree)

  const VETH_INFO_PEER := 1
  const LINK_HEADER := 16 // struct ifinfomsg

  /** How long the fixed structure of each kind of nest is, in words. Sender and receiver agree
      on it; it is not in the bytes. */
  type Layout = nat -> nat

  /** Of the nests this program sends, only the veth peer starts with a fixed structure. */
  const LINK_LAYOUT: Layout := kind => if kind == VETH_INFO_PEER then LINK_HEADER / 4 else 0

  function PrefixSize(layout: Layout, kind: nat): nat {
    4 * layout(kind)
  }

  /** Kinds leave the nested bit free and prefixes are as long as the layout says. */
  predicate WellFormed(layout: Layout, t: Tree) {
    match t
    case End => true
    case Leaf(kind, _, more) => kind < NESTED && WellFormed(layout, more)
    case Nest(kind, prefix, children, more) =>
      && kind < NESTED && |prefix| == PrefixSize(layout, kind)
      && WellFormed(layout, children) && WellFormed(layout, more)
  }

  /** Every prefix is a whole number of words, which is all that building asks for. */
  predicate Padded(t: Tree) {
    match t
    case End => true
    case Leaf(_, _, more) => Padded(more)
    case Nest(_, prefix, children, more) => |prefix| % 4 == 0 && Padded(children) && Padded(more)
  }

  lemma {:induction false} WellFormedIsPadded(layout: Layout, t: Tree)
    requires WellFormed(layout, t)
    ensures Padded(t)
  {
    match t {
      case End =>
      case Leaf(_, _, more) => WellFormedIsPadded(layout, more);
      case Nest(_, _, children, more) =>
        WellFormedIsPadded(layout, children);
        WellFormedIsPadded(layout, more);
    }
  }

  /** One attribute as it lies in the buffer: length, type, payload, padding. */
  function Frame(tag: nat, payload: seq<Byte>): (bytes: seq<Byte>)
    ensures |bytes| == Align(HEADER + |payload|)
  {
    Put16(HEADER + |payload|) + Put16(tag) + payload + Zeros(Align(HEADER + |payload|) - HEADER - |payload|)
  }

  /** The length of a nest covers its header, its prefix and exactly its children. */
  function Encode(t: Tree): seq<Byte> {
    match t
    case End => []
    case Leaf(kind, data, more) => Frame(kind, data) + Encode(more)
    case Nest(kind, prefix, children, more) => Frame(kind + NESTED, prefix + Encode(children)) + Encode(more)
  }

  lemma {:induction false} EncodeAligned(t: Tree)
    ensures |Encode(t)| % 4 == 0
  {
    match t {
      case End =>
      case Leaf(kind, data, more) =>
        EncodeAligned(more);
        SumAligned(|Frame(kind, data)|, |Encode(more)|);
      case Nest(kind, prefix, children, more) =>
        EncodeAligned(more);
        SumAligned(|Frame(kind + NESTED, prefix + Encode(children))|, |Encode(more)|);
    }
  }

  lemma SumAligned(a: nat, b: nat)
    requires a % 4 == 0 && b % 4 == 0
    ensures (a + b) % 4 == 0
  {
  }

  /** A receiver's view: step by aligned lengths, descend where the nested bit is set. */
  function Decode(layout: Layout, bytes: seq<Byte>): Option<Tree>
    decreases |bytes|, 0
  {
    if bytes == [] then Some(End)
    else if |bytes| < HEADER || Get16(bytes, 0) < HEADER || Align(Get16(bytes, 0)) > |bytes| then None
    else
      var length := Get16(bytes, 0);
      Attach(layout, Get16(bytes, 2), bytes[HEADER..length],
             DecodeInner(layout, Get16(bytes, 2), bytes[HEADER..length]), Decode(layout, bytes[Align(length)..]))
  }

  /** The children of a payload, when it is long enough to hold the prefix of its kind. */
  function DecodeInner(layout: Layout, tag: nat, payload: seq<Byte>): Option<Tree>
    decreases |payload|, 1
  {
    if tag < NESTED then Some(End)
    else if |payload| < PrefixSize(layout, tag - NESTED) then None
    else Decode(layout, payload[PrefixSize(layout, tag - NESTED)..])
  }

  function Attach(layout: Layout, tag: nat, payload: seq<Byte>, children: Option<Tree>,
                  more: Option<Tree>): Option<Tree>
  {
    if children.None? || more.None? then None
    else if tag < NESTED then Some(Leaf(tag, payload, more.value))
    else if |payload| < PrefixSize(layout, tag - NESTED) then None
    else Some(Nest(tag - NESTED, payload[..PrefixSize(layout, tag - NESTED)], children.value, more.value))
  }

  /** Taking a frame off the front. */
  lemma Unframe(tag: nat, payload: seq<Byte>, rest: seq<Byte>)
    requires tag < U16 && HEADER + |payload| < U16
    ensures var bytes := Frame(tag, payload) + rest;
            && |bytes| >= Align(HEADER + |payload|) >= HEADER
            && Get16(bytes, 0) == HEADER + |payload| && Get16(bytes, 2) == tag
            && bytes[HEADER..HEADER + |payload|] == payload && bytes[Align(HEADER + |payload|)..] == rest
  {
  }

  lemma DecodeFrame(layout: Layout, tag: nat, payload: seq<Byte>, rest: seq<Byte>)
    requires tag < U16 && HEADER + |payload| < U16
    ensures Decode(layout, Frame(tag, payload) + rest) ==
            Attach(layout, tag, payload, DecodeInner(layout, tag, payload), Decode(layout, rest))
  {
    Unframe(tag, payload, rest);
  }

  /** For every layout, every tree that fits a 16-bit length is decoded back exactly as it was
      built. */
  lemma {:induction false} DecodeEncode(layout: Layout, t: Tree)
    requires WellFormed(layout, t) && |Encode(t)| < U16
    ensures Decode(layout, Encode(t)) == Some(t)
  {
    match t {
      case End =>
      case Leaf(kind, data, more) =>
        DecodeFrame(layout, kind, data, Encode(more));
        DecodeEncode(layout, more);
      case Nest(kind, prefix, children, more) =>
        var payload := prefix + Encode(children);
        DecodeFrame(layout, kind + NESTED, payload, Encode(more));
        DecodeEncode(layout, children);
        DecodeEncode(layout, more);
        assert payload[..|prefix|] == prefix && payload[|prefix|..] == Encode(children);
    }
  }

  // ---------------------------------------------------------------- building in place

  /** `bytes` with `data` laid over it at `at`. */
  function Overlay(bytes: seq<Byte>, at: nat, data: seq<Byte>): (r: seq<Byte>)
    requires at + |data| <= |bytes|
    ensures |r| == |bytes|
  {
    bytes[..at] + data + bytes[at + |data|..]
  }

  /** An attribute's header and payload, laid over zeros, leave its frame. */
  lemma Written(before: seq<Byte>, n: nat, tag: nat, payload: seq<Byte>)
    requires Align(HEADER + |payload|) <= n
    ensures Overlay(before + Zeros(n), |before|, Put16(HEADER + |payload|) + Put16(tag) + payload)
            == before + Frame(tag, payload) + Zeros(n - Align(HEADER + |payload|))
  {
    var bytes := Put16(HEADER + |payload|) + Put16(tag) + payload;
    var padding := Align(HEADER + |payload|) - |bytes|;
    assert (before + Zeros(n))[|before| + |bytes|..] == Zeros(n - |bytes|);
    assert Zeros(n - |bytes|) == Zeros(padding) + Zeros(n - |bytes| - padding);
    assert (before + Zeros(n))[..|before|] == before;
  }

  /** The first attribute of a list, as bytes. */
  function First(t: Tree): seq<Byte>
    requires !t.End?
  {
    if t.Leaf? then Frame(t.kind, t.data) else Frame(t.kind + NESTED, t.prefix + Encode(t.children))
  }

  lemma FirstThenMore(before: seq<Byte>, t: Tree)
    requires !t.End?
    ensures before + First(t) + Encode(t.more) == before + Encode(t) && |Encode(t)| == |First(t)| + |Encode(t.more)|
  {
    assert Encode(t) == First(t) + Encode(t.more);
    Regrouped(before, First(t), Encode(t.more));
  }

  lemma Regrouped(before: seq<Byte>, a: seq<Byte>, b: seq<Byte>)
    ensures before + a + b == before + (a + b)
  {
  }

  lemma NestSize(tag: nat, prefix: seq<Byte>, inner: seq<Byte>)
    requires |prefix| % 4 == 0 && |inner| % 4 == 0
    ensures |Frame(tag, prefix + inner)| == HEADER + |prefix| + |inner| == Align(HEADER + |prefix + inner|)
  {
  }

  /** Patching the length of an open nest makes it the frame of all that was written since. */
  lemma Patched(before: seq<Byte>, tag: nat, prefix: seq<Byte>, inner: seq<Byte>)
    requires |prefix| % 4 == 0 && |inner| % 4 == 0
    ensures Overlay(before + Frame(tag, []) + prefix + inner, |before|, Put16(HEADER + |prefix| + |inner|))
            == before + Frame(tag, prefix + inner)
  {
    NestSize(tag, prefix, inner);
    assert Frame(tag, []) == Put16(HEADER) + Put16(tag);
    assert Frame(tag, prefix + inner) == Put16(HEADER + |prefix| + |inner|) + (Put16(tag) + prefix + inner);
    assert before + Frame(tag, []) + prefix + inner == before + Put16(HEADER) + (Put16(tag) + prefix + inner);
  }

  /** A request under construction: `length` is the nlmsg_len of its header, `contents` the
      bytes so far. */
  class Message {
    const buffer: array<Byte>
    var length: nat
    ghost var contents: seq<Byte>

    /** The length is 4-aligned and within the buffer, which is the contents followed by zeros. */
    ghost predicate Valid()
      reads this, buffer
    {
      length == |contents| && length % 4 == 0 && Holds(contents)
    }

    ghost predicate Holds(bytes: seq<Byte>)
      reads buffer
    {
      |bytes| <= buffer.Length && buffer[..] == bytes + Zeros(buffer.Length - |bytes|)
    }

    /** A zeroed request whose fixed headers take `size` bytes. */
    constructor (capacity: nat, size: nat)
      requires size <= capacity && size % 4 == 0
      ensures Valid() && fresh(buffer) && buffer.Length == capacity && contents == Zeros(size)
    {
      buffer := new Byte[capacity](_ => 0);
      length := size;
      contents := Zeros(size);
    }

    method Copy(at: nat, data: seq<Byte>)
      requires at + |data| <= buffer.Length
      modifies buffer
      ensures buffer[..] == Overlay(old(buffer[..]), at, data)
    {
      forall k | 0 <= k < |data| {
        buffer[at + k] := data[k];
      }
    }

    method Store(tag: nat, payload: seq<Byte>)
      requires Valid() && length + Align(HEADER + |payload|) <= buffer.Length
      modifies buffer
      ensures Holds(contents + Frame(tag, payload))
    {
      Written(contents, buffer.Length - length, tag, payload);
      Copy(length, Put16(HEADER + |payload|) + Put16(tag) + payload);
    }

    /** Appends one attribute, or fails and changes nothing when it does not fit. */
    method AddAttribute(kind: nat, data: seq<Byte>) returns (ok: bool)
      requires Valid()
      modifies this, buffer
      ensures Valid()
      ensures ok <==> old(length) + |Frame(kind, data)| <= buffer.Length
      ensures contents == old(contents) + (if ok then Frame(kind, data) else [])
      ensures ok ==> length == old(length) + |Frame(kind, data)|
    {
      var offset := Align(length);
      ok := offset + Align(HEADER + |data|) <= buffer.Length;
      if ok {
        Store(kind, data);
        length := offset + Align(HEADER + |data|);
        contents := contents + Frame(kind, data);
      }
    }

    /** Opens a nest and gives the position of its header. */
    method BeginNested(kind: nat) returns (nested: Option<nat>)
      requires Valid()
      modifies this, buffer
      ensures Valid()
      ensures nested == if old(length) + HEADER <= buffer.Length then Some(old(length)) else None
      ensures contents == old(contents) + (if nested.Some? then Frame(kind + NESTED, []) else [])
    {
      nested := None;
      var offset := Align(length);
      if offset + Align(HEADER) <= buffer.Length {
        nested := Some(offset);
        Store(kind + NESTED, []);
        length := offset + Align(HEADER);
        contents := contents + Frame(kind + NESTED, []);
      }
    }

    /** Appends a fixed structure. */
    method AddPrefix(data: seq<Byte>) returns (ok: bool)
      requires Valid() && |data| % 4 == 0
      modifies this, buffer
      ensures Valid()
      ensures ok <==> old(length) + |data| <= buffer.Length
      ensures contents == old(contents) + (if ok then data else [])
    {
      ok := length + Align(|data|) <= buffer.Length;
      if ok {
        Copied(contents, buffer.Length - length, data);
        Copy(length, data);
        length := length + Align(|data|);
        contents := contents + data;
      }
    }

    /** Closes a nest: its length becomes the distance to the end of the message. */
    method EndNested(nested: nat)
      requires Valid() && nested + HEADER <= length
      modifies this, buffer
      ensures Valid() && length == old(length)
      ensures contents == Overlay(old(contents), nested, Put16(length - nested))
    {
      OverlayFront(contents, Zeros(buffer.Length - length), nested, Put16(length - nested));
      Copy(nested, Put16(length - nested));
      contents := Overlay(contents, nested, Put16(length - nested));
    }

    /** Builds any tree out of the operations above; it succeeds exactly when the encoding fits,
        and then appends that encoding. */
    method Append(t: Tree) returns (ok: bool)
      requires Valid() && Padded(t)
      modifies this, buffer
      ensures Valid()
      ensures ok <==> old(length) + |Encode(t)| <= buffer.Length
      ensures ok ==> contents == old(contents) + Encode(t) && length == old(length) + |Encode(t)|
      decreases t, 1
    {
      if t.End? {
        return true;
      }
      FirstThenMore(contents, t);
      ok := AppendFirst(t);
      if ok {
        ok := Append(t.more);
      }
    }

    method AppendFirst(t: Tree) returns (ok: bool)
      requires Valid() && Padded(t) && !t.End?
      modifies this, buffer
      ensures Valid()
      ensures ok <==> old(length) + |First(t)| <= buffer.Length
      ensures ok ==> contents == old(contents) + First(t) && length == old(length) + |First(t)|
      decreases t, 0
    {
      match t {
        case Leaf(kind, data, _) => ok := AddAttribute(kind, data);
        case Nest(kind, prefix, children, _) =>
          EncodeAligned(children);
          NestSize(kind + NESTED, prefix, Encode(children));
          ok := AppendNest(kind, prefix, children);
      }
    }

    method AppendNest(kind: nat, prefix: seq<Byte>, children: Tree) returns (ok: bool)
      requires Valid() && Padded(children) && |prefix| % 4 == 0
      modifies this, buffer
      ensures Valid()
      ensures ok <==> old(length) + HEADER + |prefix| + |Encode(children)| <= buffer.Length
      ensures ok ==> contents == old(contents) + Frame(kind + NESTED, prefix + Encode(children))
      ensures ok ==> length == old(length) + HEADER + |prefix| + |Encode(children)|
      decreases children, 2
    {
      ghost var before := contents;
      var nested := Open(kind, prefix);
      if nested.None? {
        return false;
      }
      ok := Append(children);
      if ok {
        EncodeAligned(children);
        Close(nested.value, before, kind + NESTED, prefix, Encode(children));
      }
    }

    method Close(nested: nat, ghost before: seq<Byte>, ghost tag: nat, ghost prefix: seq<Byte>, ghost inner: seq<Byte>)
      requires Valid() && nested == |before| && contents == before + Frame(tag, []) + prefix + inner
      requires |prefix| % 4 == 0 && |inner| % 4 == 0
      modifies this, buffer
      ensures Valid() && length == old(length) && contents == before + Frame(tag, prefix + inner)
    {
      Patched(before, tag, prefix, inner);
      EndNested(nested);
    }

    /** Opens a nest and writes its prefix. */
    method Open(kind: nat, prefix: seq<Byte>) returns (nested: Option<nat>)
      requires Valid() && |prefix| % 4 == 0
      modifies this, buffer
      ensures Valid()
      ensures nested == if old(length) + HEADER + |prefix| <= buffer.Length then Some(old(length)) else None
      ensures nested.Some? ==> contents == old(contents) + Frame(kind + NESTED, []) + prefix
      ensures nested.Some? ==> length == old(length) + HEADER + |prefix|
    {
      nested := BeginNested(kind);
      if nested.Some? {
        var ok := AddPrefix(prefix);
        if !ok {
          nested := None;
        }
      }
    }
  }

  lemma Copied(before: seq<Byte>, n: nat, data: seq<Byte>)
    requires |data| <= n
    ensures Overlay(before + Zeros(n), |before|, data) == before + data + Zeros(n - |data|)
  {
  }

  lemma OverlayFront(bytes: seq<Byte>, rest: seq<Byte>, at: nat, data: seq<Byte>)
    requires at + |data| <= |bytes|
    ensures Overlay(bytes + rest, at, data) == Overlay(bytes, at, data) + rest
  {
  }

  // ---------------------------------------------------------------- requests

  const REQUEST := 2080       // sizeof(struct link_request)
  const FIXED := 32           // struct nlmsghdr and struct ifinfomsg
  const IFLA_IFNAME := 3
  const IFLA_LINKINFO := 18
  const IFLA_INFO_KIND := 1
  const IFLA_INFO_DATA := 2
  const VETH: seq<Byte> := [118, 101, 116, 104, 0]
  const BRIDGE: seq<Byte> := [98, 114, 105, 100, 103, 101, 0]
  const MCBR0: seq<Byte> := [109, 99, 98, 114, 48, 0]

  function BridgeTree(): Tree {
    Leaf(IFLA_IFNAME, MCBR0, Nest(IFLA_LINKINFO, [], Leaf(IFLA_INFO_KIND, BRIDGE, End), End))
  }

  function VethTree(host: seq<Byte>, peer: seq<Byte>): Tree {
    Leaf(IFLA_IFNAME, host, Nest(IFLA_LINKINFO, [], VethInfo(peer), End))
  }

  function VethInfo(peer: seq<Byte>): Tree {
    Leaf(IFLA_INFO_KIND, VETH, Nest(IFLA_INFO_DATA, [],
      Nest(VETH_INFO_PEER, Zeros(LINK_HEADER), Leaf(IFLA_IFNAME, peer, End), End), End))
  }

  /** The data of the first leaf of a kind. */
  function LeafOf(t: Tree, kind: nat): Option<seq<Byte>> {
    match t
    case End => None
    case Leaf(k, data, more) => if k == kind then Some(data) else LeafOf(more, kind)
    case Nest(_, _, _, more) => LeafOf(more, kind)
  }

  /** The children of the first nest of a kind. */
  function NestOf(t: Tree, kind: nat): Option<Tree> {
    match t
    case End => None
    case Leaf(_, _, more) => NestOf(more, kind)
    case Nest(k, _, children, more) => if k == kind then Some(children) else NestOf(more, kind)
  }

  /** The link itself has the host's name, and the other name is that of its peer: within the link's
      information, within the data of a link of kind "veth". */
  lemma VethNames(host: seq<Byte>, peer: seq<Byte>)
    ensures var link := VethTree(host, peer);
            && LeafOf(link, 3) == Some(host) && NestOf(link, 18).Some?
            && var info := NestOf(link, 18).value;
            && LeafOf(info, 1) == Some([118, 101, 116, 104, 0]) && NestOf(info, 2).Some?
            && var data := NestOf(info, 2).value;
            && NestOf(data, 1).Some? && LeafOf(NestOf(data, 1).value, 3) == Some(peer)
  {
  }

  /** The bridge is named "mcbr0" and is of kind "bridge". */
  lemma BridgeNames()
    ensures var link := BridgeTree();
            && LeafOf(link, 3) == Some([109, 99, 98, 114, 48, 0]) && NestOf(link, 18).Some?
            && LeafOf(NestOf(link, 18).value, 1) == Some([98, 114, 105, 100, 103, 101, 0])
  {
  }

  /** A request to create a veth pair arrives as one: the receiver finds both names. */
  method BuildVeth(host: seq<Byte>, peer: seq<Byte>) returns (request: Message)
    requires |host| <= 16 && |peer| <= 16
    ensures request.Valid() && FIXED <= request.length
    ensures Decode(LINK_LAYOUT, request.buffer[FIXED..request.length]) == Some(VethTree(host, peer))
  {
    LinkRequestsFit(host, peer);
    var ok;
    request, ok := BuildRequest(LINK_LAYOUT, VethTree(host, peer));
  }

  /** Interface names, with their final zero, take at most IFNAMSIZ bytes, so neither request
      can overflow its buffer. */
  lemma LinkRequestsFit(host: seq<Byte>, peer: seq<Byte>)
    requires |host| <= 16 && |peer| <= 16
    ensures WellFormed(LINK_LAYOUT, BridgeTree()) && FIXED + |Encode(BridgeTree())| <= REQUEST
    ensures WellFormed(LINK_LAYOUT, VethTree(host, peer)) && FIXED + |Encode(VethTree(host, peer))| <= REQUEST
  {
    LeafSize(IFLA_INFO_KIND, BRIDGE, End);
    NestAtMost(IFLA_LINKINFO, [], Leaf(IFLA_INFO_KIND, BRIDGE, End), End);
    LeafSize(IFLA_IFNAME, MCBR0, Nest(IFLA_LINKINFO, [], Leaf(IFLA_INFO_KIND, BRIDGE, End), End));
    VethInfoSize(peer);
    NestAtMost(IFLA_LINKINFO, [], VethInfo(peer), End);
    LeafSize(IFLA_IFNAME, host, Nest(IFLA_LINKINFO, [], VethInfo(peer), End));
  }

  lemma VethInfoSize(peer: seq<Byte>)
    ensures WellFormed(LINK_LAYOUT, VethInfo(peer)) && |Encode(VethInfo(peer))| <= 56 + |peer|
  {
    var name := Leaf(IFLA_IFNAME, peer, End);
    var nest := Nest(VETH_INFO_PEER, Zeros(LINK_HEADER), name, End);
    assert WellFormed(LINK_LAYOUT, name) && WellFormed(LINK_LAYOUT, nest);
    LeafSize(IFLA_IFNAME, peer, End);
    NestAtMost(VETH_INFO_PEER, Zeros(LINK_HEADER), name, End);
    NestAtMost(IFLA_INFO_DATA, [], nest, End);
    LeafSize(IFLA_INFO_KIND, VETH, Nest(IFLA_INFO_DATA, [], nest, End));
  }

  lemma LeafSize(kind: nat, data: seq<Byte>, more: Tree)
    ensures |Encode(Leaf(kind, data, more))| <= 7 + |data| + |Encode(more)|
  {
  }

  lemma NestAtMost(kind: nat, prefix: seq<Byte>, children: Tree, more: Tree)
    ensures |Encode(Nest(kind, prefix, children, more))| <= 7 + |prefix| + |Encode(children)| + |Encode(more)|
  {
  }

  /** A request for any tree: it fails exactly when the tree does not fit, and otherwise the
      receiver decodes the attributes of the request to that tree. */
  method BuildRequest(ghost layout: Layout, t: Tree) returns (request: Message, ok: bool)
    requires WellFormed(layout, t)
    ensures fresh(request) && fresh(request.buffer) && request.Valid() && request.buffer.Length == REQUEST
    ensures ok <==> FIXED + |Encode(t)| <= REQUEST
    ensures ok ==> FIXED <= request.length && Decode(layout, request.buffer[FIXED..request.length]) == Some(t)
  {
    WellFormedIsPadded(layout, t);
    request := new Message(REQUEST, FIXED);
    ok := request.Append(t);
    if ok {
      DecodeEncode(layout, t);
      assert request.buffer[FIXED..request.length] == Encode(t);
    }
  }

  // ---------------------------------------------------------------- receiving

  const MESSAGE := 16         // struct nlmsghdr: length, type, flags, sequence, port
  const NLMSG_ERROR := 2

  function Get32(bytes: seq<Byte>, at: nat): nat
    requires at + 4 <= |bytes|
  {
    Get16(bytes, at) + U16 * Get16(bytes, at + 2)
  }

  /** A message as its own length field delimits it. */
  predicate IsMessage(m: seq<Byte>) {
    |m| >= MESSAGE && Get32(m, 0) == |m|
  }

  predicate Acknowledges(m: seq<Byte>, sequence: nat) {
    |m| >= MESSAGE && Get32(m, 8) == sequence && Get16(m, 4) == NLMSG_ERROR
  }

  function Put32(n: nat): (bytes: seq<Byte>)
    ensures |bytes| == 4
  {
    Put16(n) + Put16(n / U16)
  }

  /** A message header: length, type, flags, sequence number and port, as RFC 3549 lays it out. */
  function MessageHeader(length: nat, kind: nat, flags: nat, sequence: nat, port: nat): (bytes: seq<Byte>)
    ensures |bytes| == MESSAGE
  {
    Put32(length) + Put16(kind) + Put16(flags) + Put32(sequence) + Put32(port)
  }

  lemma Get16OfPut(a: seq<Byte>, n: nat, b: seq<Byte>)
    requires n < U16
    ensures Get16(a + Put16(n) + b, |a|) == n
  {
    var bytes := a + Put16(n) + b;
    assert bytes[|a|] == n % 256 && bytes[|a| + 1] == n / 256 % 256;
  }

  lemma HalfWords(n: nat)
    requires n < U16 * U16
    ensures n == n % U16 + U16 * (n / U16) && n / U16 < U16
    ensures n % 256 == n % U16 % 256 && n / 256 % 256 == n % U16 / 256
  {
  }

  lemma Get32OfPut(a: seq<Byte>, n: nat, b: seq<Byte>)
    requires n < U16 * U16
    ensures Get32(a + Put32(n) + b, |a|) == n
  {
    HalfWords(n);
    var bytes, low, high := a + Put32(n) + b, n % U16, n / U16;
    assert bytes == a + Put16(low) + (Put16(high) + b);
    Get16OfPut(a, low, Put16(high) + b);
    var front := a + Put16(low);
    assert bytes == front + Put16(high) + b;
    Get16OfPut(front, high, b);
  }

  /** A message acknowledges a request exactly if it is of the error type and has its sequence
      number; its other fields and its payload do not matter. */
  lemma AcknowledgesExactly(length: nat, kind: nat, flags: nat, number: nat, port: nat, payload: seq<Byte>,
                            sequence: nat)
    requires length < U16 * U16 && kind < U16 && number < U16 * U16
    ensures var m := MessageHeader(length, kind, flags, number, port) + payload;
            && (Acknowledges(m, sequence) <==> kind == 2 && number == sequence)
            && (IsMessage(m) <==> length == MESSAGE + |payload|)
  {
    var m := MessageHeader(length, kind, flags, number, port) + payload;
    assert m == [] + Put32(length) + (Put16(kind) + Put16(flags) + Put32(number) + Put32(port) + payload);
    Get32OfPut([], length, Put16(kind) + Put16(flags) + Put32(number) + Put32(port) + payload);
    assert m == Put32(length) + Put16(kind) + (Put16(flags) + Put32(number) + Put32(port) + payload);
    Get16OfPut(Put32(length), kind, Put16(flags) + Put32(number) + Put32(port) + payload);
    var front := Put32(length) + Put16(kind) + Put16(flags);
    assert m == front + Put32(number) + (Put32(port) + payload);
    Get32OfPut(front, number, Put32(port) + payload);
  }

  /** Messages one after the other, each padded to a multiple of four. */
  function Stream(messages: seq<seq<Byte>>): seq<Byte> {
    if messages == [] then []
    else messages[0] + Zeros(Align(|messages[0]|) - |messages[0]|) + Stream(messages[1..])
  }

  /** The messages at the front of received bytes, up to the first that is cut off. */
  function Messages(bytes: seq<Byte>): (r: seq<seq<Byte>>)
    ensures forall m :: m in r ==> IsMessage(m)
    decreases |bytes|
  {
    if |bytes| < MESSAGE || !(MESSAGE <= Get32(bytes, 0) <= |bytes|) then []
    else
      var length := Get32(bytes, 0);
      [bytes[..length]] + if Align(length) > |bytes| then [] else Messages(bytes[Align(length)..])
  }

  /** Splitting undoes joining. */
  lemma {:induction false} MessagesOfStream(messages: seq<seq<Byte>>)
    requires forall m :: m in messages ==> IsMessage(m)
    ensures Messages(Stream(messages)) == messages
  {
    if messages != [] {
      var first, rest := messages[0], Stream(messages[1..]);
      var bytes := first + Zeros(Align(|first|) - |first|) + rest;
      assert IsMessage(first);
      assert Get32(bytes, 0) == |first|;
      assert bytes[..|first|] == first && bytes[Align(|first|)..] == rest;
      MessagesOfStream(messages[1..]);
    }
  }

  /** The first message that acknowledges the sequence number. */
  function Reply(messages: seq<seq<Byte>>, sequence: nat): Option<seq<Byte>> {
    if messages == [] then None
    else if Acknowledges(messages[0], sequence) then Some(messages[0])
    else Reply(messages[1..], sequence)
  }

  /** Where that message begins, given that each message begins at a multiple of four. */
  function ReplyOffset(messages: seq<seq<Byte>>, sequence: nat): Option<nat> {
    if messages == [] then None
    else if Acknowledges(messages[0], sequence) then Some(0)
    else Behind(Align(|messages[0]|), ReplyOffset(messages[1..], sequence))
  }

  function Behind(size: nat, offset: Option<nat>): Option<nat> {
    if offset.Some? then Some(size + offset.value) else None
  }

  lemma BehindTwice(a: nat, b: nat, offset: Option<nat>)
    ensures Behind(a, Behind(b, offset)) == Behind(a + b, offset)
  {
  }

  /** The reply's bytes lie at its offset, which is a multiple of four. */
  ghost predicate Locates(bytes: seq<Byte>, offset: Option<nat>, reply: Option<seq<Byte>>) {
    && (reply.Some? <==> offset.Some?)
    && (reply.Some? ==>
          && offset.value % 4 == 0 && MESSAGE <= |reply.value|
          && offset.value <= |bytes| && reply.value <= bytes[offset.value..])
  }

  lemma LocatesLater(bytes: seq<Byte>, size: nat, offset: Option<nat>, reply: Option<seq<Byte>>)
    requires size % 4 == 0 && size <= |bytes| && Locates(bytes[size..], offset, reply)
    ensures Locates(bytes, Behind(size, offset), reply)
  {
    if offset.Some? {
      DropTwice(bytes, size, offset.value);
    }
  }

  lemma {:induction false} OffsetLocatesReply(bytes: seq<Byte>, sequence: nat)
    ensures Locates(bytes, ReplyOffset(Messages(bytes), sequence), Reply(Messages(bytes), sequence))
    decreases |bytes|
  {
    if |bytes| < MESSAGE || !(MESSAGE <= Get32(bytes, 0) <= |bytes|) {
      assert Messages(bytes) == [];
    } else {
      var size := Align(Get32(bytes, 0));
      WalkStep(bytes, sequence);
      if !Acknowledges(bytes, sequence) && size <= |bytes| {
        var rest := bytes[size..];
        OffsetLocatesReply(rest, sequence);
        LocatesLater(bytes, size, ReplyOffset(Messages(rest), sequence), Reply(Messages(rest), sequence));
      }
    }
  }

  lemma WalkStep(bytes: seq<Byte>, sequence: nat)
    requires |bytes| >= MESSAGE && MESSAGE <= Get32(bytes, 0) <= |bytes|
    ensures var length := Get32(bytes, 0);
            && Reply(Messages(bytes), sequence) ==
                 (if Acknowledges(bytes, sequence) then Some(bytes[..length])
                  else if Align(length) > |bytes| then None
                  else Reply(Messages(bytes[Align(length)..]), sequence))
            && ReplyOffset(Messages(bytes), sequence) ==
                 (if Acknowledges(bytes, sequence) then Some(0)
                  else if Align(length) > |bytes| then None
                  else Behind(Align(length), ReplyOffset(Messages(bytes[Align(length)..]), sequence)))
  {
    var length := Get32(bytes, 0);
    assert Messages(bytes)[0] == bytes[..length];
    assert Messages(bytes)[1..] == if Align(length) > |bytes| then [] else Messages(bytes[Align(length)..]);
  }

  lemma DropTwice(bytes: seq<Byte>, a: nat, b: nat)
    requires a + b <= |bytes|
    ensures bytes[a..][b..] == bytes[a + b..]
  {
  }

  datatype Visit = Stop | Match | Skip(size: nat)

  /** One turn of the walk, at the front of what is left of the datagram. */
  method VisitMessage(rest: seq<Byte>, sequence: nat) returns (visit: Visit)
    ensures match visit
            case Stop => ReplyOffset(Messages(rest), sequence) == None
            case Match => ReplyOffset(Messages(rest), sequence) == Some(0)
            case Skip(size) =>
              && 0 < size <= |rest|
              && ReplyOffset(Messages(rest), sequence) == Behind(size, ReplyOffset(Messages(rest[size..]), sequence))
  {
    if |rest| < MESSAGE || Get32(rest, 0) < MESSAGE || Get32(rest, 0) > |rest| {
      assert Messages(rest) == [];
      return Stop;
    }
    WalkStep(rest, sequence);
    var aligned := Align(Get32(rest, 0));
    if Acknowledges(rest, sequence) {
      visit := Match;
    } else if aligned > |rest| {
      visit := Stop;
    } else {
      visit := Skip(aligned);
    }
  }

  /** The walk over one received datagram ends and finds where the first acknowledgement among
      its whole messages begins. */
  method FindReply(received: seq<Byte>, sequence: nat) returns (found: Option<nat>)
    ensures found == ReplyOffset(Messages(received), sequence)
  {
    var at, rest := 0, received;
    while true
      invariant ReplyOffset(Messages(received), sequence) == Behind(at, ReplyOffset(Messages(rest), sequence))
      decreases |rest|
    {
      var visit := VisitMessage(rest, sequence);
      match visit {
        case Stop => return None;
        case Match => return Some(at);
        case Skip(size) =>
          BehindTwice(at, size, ReplyOffset(Messages(rest[size..]), sequence));
          at, rest := at + size, rest[size..];
      }
    }
  }

  // ---------------------------------------------------------------- the error code

  const RESPONSE := 8192      // the buffer a datagram is received into

  /** The error code behind the header at `at`, if those four bytes lie inside the buffer. */
  function CodeAt(response: seq<Byte>, at: nat): Option<nat> {
    if at + MESSAGE + 4 <= |response| then Some(Get32(response, at + MESSAGE)) else None
  }

  /** What the exchange makes of a datagram: it receives on, reports a code, or reads one from
      beyond the buffer. */
  datatype Outcome = Unanswered | Reported(code: nat) | PastBuffer

  /** The reading of one datagram of `count` bytes. The loop tests only that the header of the
      reply lies within the datagram, and the code it then reads lies inside the buffer unless the
      reply is a bare header in its last 16 bytes. */
  method ReadDatagram(response: array<Byte>, count: nat, sequence: nat) returns (outcome: Outcome)
    requires response.Length == RESPONSE && count <= RESPONSE
    ensures var messages := Messages(response[..count]);
            && (outcome == Unanswered <==> Reply(messages, sequence) == None)
            && (outcome == PastBuffer <==> ReplyOffset(messages, sequence) == Some(RESPONSE - MESSAGE))
            && (outcome.Reported? ==>
                  ReplyOffset(messages, sequence).Some? &&
                  CodeAt(response[..], ReplyOffset(messages, sequence).value) == Some(outcome.code))
  {
    var found := FindReply(response[..count], sequence);
    OffsetLocatesReply(response[..count], sequence);
    if found.None? { return Unanswered; }
    var code := CodeAt(response[..], found.value);
    outcome := if code.Some? then Reported(code.value) else PastBuffer;
  }

  /** The code read for a reply at `at` is inside the buffer and the same whatever surrounds the
      reply. */
  ghost predicate CodeIsItsOwn(at: nat, reply: seq<Byte>) {
    forall before: seq<Byte>, a: seq<Byte>, b: seq<Byte> ::
      |before| == at && at + |reply| + |a| == RESPONSE && |b| == |a| ==>
        CodeAt(before + reply + a, at).Some? && CodeAt(before + reply + a, at) == CodeAt(before + reply + b, at)
  }

  /** The walk checks only the header of what it accepts, so the code it reports is the reply's
      own exactly when the reply is long enough to hold one. */
  lemma ReplyCarriesItsCode(at: nat, reply: seq<Byte>)
    requires |reply| >= MESSAGE && at + |reply| <= RESPONSE
    ensures CodeIsItsOwn(at, reply) <==> |reply| >= MESSAGE + 4
  {
    if |reply| < MESSAGE + 4 {
      var before, size := Zeros(at), RESPONSE - at - |reply|;
      var zeros, ones := before + reply + Zeros(size), before + reply + seq(size, _ => 1 as Byte);
      if at + MESSAGE + 4 <= RESPONSE {
        assert zeros[at + MESSAGE + 3] == 0 && ones[at + MESSAGE + 3] == 1;
        HighByteDecides(zeros, ones, at + MESSAGE);
      }
    } else {
      forall before: seq<Byte>, a: seq<Byte>, b: seq<Byte>
        | |before| == at && at + |reply| + |a| == RESPONSE && |b| == |a|
        ensures CodeAt(before + reply + a, at).Some? && CodeAt(before + reply + a, at) == CodeAt(before + reply + b, at)
      {
        SameWord(before + reply + a, before + reply + b, at + MESSAGE);
      }
    }
  }

  lemma HighByteDecides(a: seq<Byte>, b: seq<Byte>, at: nat)
    requires at + 4 <= |a| == |b| && a[at + 3] != b[at + 3]
    ensures Get32(a, at) != Get32(b, at)
  {
  }

  lemma SameWord(a: seq<Byte>, b: seq<Byte>, at: nat)
    requires at + 4 <= |a| == |b| && forall k :: at <= k < at + 4 ==> a[k] == b[k]
    ensures Get32(a, at) == Get32(b, at)
  {
  }

  const BARE_HEADER: seq<Byte> := [16, 0, 0, 0, 2, 0, 0, 0, 7, 0, 0, 0, 0, 0, 0, 0]

  lemma BareHeaderIsMessage()
    ensures IsMessage(BARE_HEADER) && Acknowledges(BARE_HEADER, 7)
  {
  }

  lemma LoneReply(m: seq<Byte>, sequence: nat)
    requires IsMessage(m) && Acknowledges(m, sequence)
    ensures Reply(Messages(m), sequence) == Some(m)
  {
    assert m[..|m|] == m;
    WalkStep(m, sequence);
  }

  /** A bare header is accepted as a reply. */
  lemma BareHeaderIsAccepted()
    ensures Reply(Messages(BARE_HEADER), 7) == Some(BARE_HEADER) && !CodeIsItsOwn(0, BARE_HEADER)
  {
    BareHeaderIsMessage();
    LoneReply(BARE_HEADER, 7);
    ReplyCarriesItsCode(0, BARE_HEADER);
  }

  lemma FrontIsReply(bytes: seq<Byte>, sequence: nat)
    requires IsMessage(bytes) && Acknowledges(bytes, sequence)
    ensures ReplyOffset(Messages(bytes), sequence) == Some(0)
  {
    WalkStep(bytes, sequence);
  }

  lemma FrontIsSkipped(bytes: seq<Byte>, sequence: nat)
    requires |bytes| >= MESSAGE && MESSAGE <= Get32(bytes, 0) && Align(Get32(bytes, 0)) <= |bytes|
    requires !Acknowledges(bytes, sequence)
    ensures var size := Align(Get32(bytes, 0));
            ReplyOffset(Messages(bytes), sequence) == Behind(size, ReplyOffset(Messages(bytes[size..]), sequence))
  {
    WalkStep(bytes, sequence);
  }

  lemma HeaderOfFirst(first: seq<Byte>, second: seq<Byte>, sequence: nat)
    requires |first| >= MESSAGE
    ensures Get32(first + second, 0) == Get32(first, 0)
    ensures Acknowledges(first + second, sequence) <==> Acknowledges(first, sequence)
  {
  }

  lemma Filler() returns (filler: seq<Byte>)
    ensures |filler| == RESPONSE - MESSAGE && IsMessage(filler) && !Acknowledges(filler, 7)
  {
    filler := [240, 31, 0, 0] + Zeros(RESPONSE - MESSAGE - 4);
  }

  lemma ReplyIsLast(filler: seq<Byte>, reply: seq<Byte>, sequence: nat)
    requires |filler| == RESPONSE - MESSAGE && IsMessage(filler) && !Acknowledges(filler, sequence)
    requires IsMessage(reply) && Acknowledges(reply, sequence)
    ensures ReplyOffset(Messages(filler + reply), sequence) == Some(RESPONSE - MESSAGE)
  {
    HeaderOfFirst(filler, reply, sequence);
    FrontIsSkipped(filler + reply, sequence);
    assert (filler + reply)[|filler|..] == reply;
    FrontIsReply(reply, sequence);
  }

  /** A datagram that fills the buffer and ends in a bare header: the code is read from beyond. */
  lemma CodeIsReadPastBuffer() returns (datagram: seq<Byte>)
    ensures |datagram| == RESPONSE && ReplyOffset(Messages(datagram), 7) == Some(RESPONSE - MESSAGE)
    ensures CodeAt(datagram, RESPONSE - MESSAGE) == None
  {
    var filler := Filler();
    BareHeaderIsMessage();
    ReplyIsLast(filler, BARE_HEADER, 7);
    datagram := filler + BARE_HEADER;
  }

  // ---------------------------------------------------------------- streams

  /** For any stream of whole messages the reply is the first acknowledgement that was sent. */
  lemma ReplyOfStream(messages: seq<seq<Byte>>, sequence: nat, k: nat)
    requires forall m :: m in messages ==> IsMessage(m)
    requires k < |messages| && Acknowledges(messages[k], sequence)
    requires forall j :: 0 <= j < k ==> !Acknowledges(messages[j], sequence)
    ensures Reply(Messages(Stream(messages)), sequence) == Some(messages[k])
  {
    MessagesOfStream(messages);
    FirstReply(messages, sequence, k);
  }

  lemma {:induction false} FirstReply(messages: seq<seq<Byte>>, sequence: nat, k: nat)
    requires k < |messages| && Acknowledges(messages[k], sequence)
    requires forall j :: 0 <= j < k ==> !Acknowledges(messages[j], sequence)
    ensures Reply(messages, sequence) == Some(messages[k])
  {
    if k > 0 {
      FirstReply(messages[1..], sequence, k - 1);
    }
  }
}
