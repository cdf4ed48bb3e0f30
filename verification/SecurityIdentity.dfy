// The bytes fed to the approval hash of a node, and the approvals bound to it
// (src-tauri/src/domain.rs:73-96, 188-196, 219-227, 540-615). Texts are their UTF-8 bytes;
// the digest itself is a parameter.
module SecurityIdentity {
  import opened Text

  newtype byte = x: int | 0 <= x < 0x100
  type Bytes = seq<byte>

  const U64 := 0x1_0000_0000_0000_0000

  datatype Field =
    | UpdateKey | Enabled | Insecure | ServerName | Alpn | Fingerprint | Pins | Ech
    | RealityPresent | RealityPublicKey | RealityShortId | RealitySpiderX

  datatype Reality = Reality(publicKey: Bytes, shortId: Bytes, spiderX: Option<Bytes>)

  datatype Tls = Tls(
    enabled: bool, insecure: bool, serverName: Option<Bytes>, alpn: seq<Bytes>, fingerprint: Option<Bytes>,
    pins: seq<Bytes>, ech: seq<Bytes>, reality: Option<Reality>)

  datatype Protocol = Vless(tls: Tls) | Hysteria2(tls: Tls) | Naive(tls: Tls)
  datatype Node = Node(updateKey: Bytes, protocol: Protocol)

  // A VLESS node without TLS has no TLS identity.
  function TlsOf(node: Node): Option<Tls> {
    if node.protocol.Vless? && !node.protocol.tls.enabled then None else Some(node.protocol.tls)
  }

  predicate RequiresApproval(node: Node) { TlsOf(node).Some? && TlsOf(node).value.insecure }

  // Lengths that fit the 64-bit length fields; every Rust string is one of these.
  predicate Short(value: Bytes) { |value| < U64 }
  predicate ShortOption(value: Option<Bytes>) { value.Some? ==> Short(value.value) }
  predicate ShortList(values: seq<Bytes>) { |values| < U64 && forall i :: 0 <= i < |values| ==> Short(values[i]) }

  predicate ShortTls(tls: Tls) {
    && ShortOption(tls.serverName) && ShortList(tls.alpn) && ShortOption(tls.fingerprint)
    && ShortList(tls.pins) && ShortList(tls.ech)
    && (tls.reality.Some? ==> Short(tls.reality.value.publicKey) && Short(tls.reality.value.shortId)
                              && ShortOption(tls.reality.value.spiderX))
  }

  predicate ShortNode(node: Node) { Short(node.updateKey) && ShortTls(node.protocol.tls) }

  // ---- The encoding -----------------------------------------------------

  // The bytes of an ASCII text.
  function Ascii(text: string): Bytes {
    seq(|text|, i requires 0 <= i < |text| => (text[i] as int % 0x100) as byte)
  }

  function TagBytes(field: Field): Bytes {
    match field
    case UpdateKey => Ascii("node.update_key")
    case Enabled => Ascii("tls.enabled")
    case Insecure => Ascii("tls.insecure")
    case ServerName => Ascii("tls.server_name")
    case Alpn => Ascii("tls.alpn")
    case Fingerprint => Ascii("tls.utls_fingerprint")
    case Pins => Ascii("tls.certificate_public_key_sha256")
    case Ech => Ascii("tls.ech_config")
    case RealityPresent => Ascii("tls.reality.present")
    case RealityPublicKey => Ascii("tls.reality.public_key")
    case RealityShortId => Ascii("tls.reality.short_id")
    case RealitySpiderX => Ascii("tls.reality.spider_x")
  }

  function Domain(): Bytes { Ascii("RouteDeck/InsecureApproval/TLS/v1") + [0] }

  // Byte `i` of `n`, least significant first.
  function ByteAt(n: nat, i: nat): byte {
    if i == 0 then (n % 0x100) as byte else ByteAt(n / 0x100, i - 1)
  }

  // `(len as u64).to_le_bytes()`
  function Length(n: nat): (bytes: Bytes)
    ensures |bytes| == 8
  {
    seq(8, i requires 0 <= i < 8 => ByteAt(n, i))
  }

  function Flag(b: bool): byte { if b then 1 else 0 }

  function Framed(value: Bytes): Bytes { Length(|value|) + value }

  function FramedAll(values: seq<Bytes>): Bytes {
    if values == [] then [] else Framed(values[0]) + FramedAll(values[1..])
  }

  datatype Part =
    | Component(value: Bytes)
    | Boolean(flag: bool)
    | Optional(option: Option<Bytes>)
    | List(values: seq<Bytes>)

  function Payload(part: Part): Bytes {
    match part
    case Component(value) => Framed(value)
    case Boolean(flag) => [Flag(flag)]
    case Optional(option) => [Flag(option.Some?)] + if option.Some? then Framed(option.value) else []
    case List(values) => Length(|values|) + FramedAll(values)
  }

  function Tagged(tag: Bytes, part: Part): Bytes { Framed(tag) + Payload(part) }

  function RealityStream(tag: Field -> Bytes, reality: Option<Reality>): Bytes {
    if reality.None? then [] else
      Tagged(tag(RealityPublicKey), Component(reality.value.publicKey))
      + (Tagged(tag(RealityShortId), Component(reality.value.shortId))
         + Tagged(tag(RealitySpiderX), Optional(reality.value.spiderX)))
  }

  function TlsStream(tag: Field -> Bytes, tls: Tls): Bytes {
    Tagged(tag(Enabled), Boolean(tls.enabled))
    + (Tagged(tag(Insecure), Boolean(tls.insecure))
    + (Tagged(tag(ServerName), Optional(tls.serverName))
    + (Tagged(tag(Alpn), List(tls.alpn))
    + (Tagged(tag(Fingerprint), Optional(tls.fingerprint))
    + (Tagged(tag(Pins), List(tls.pins))
    + (Tagged(tag(Ech), List(tls.ech))
    + (Tagged(tag(RealityPresent), Boolean(tls.reality.Some?))
    + RealityStream(tag, tls.reality))))))))
  }

  function TlsPart(tag: Field -> Bytes, tls: Option<Tls>): Bytes {
    if tls.Some? then TlsStream(tag, tls.value) else []
  }

  function NodeStream(tag: Field -> Bytes, domain: Bytes, node: Node): Bytes {
    domain + (Tagged(tag(UpdateKey), Component(node.updateKey)) + TlsPart(tag, TlsOf(node)))
  }

  lemma Assoc(a: Bytes, b: Bytes, c: Bytes)
    ensures (a + b) + c == a + (b + c)
  {}

  // ---- The hasher -------------------------------------------------------

  class Hasher {
    var absorbed: Bytes

    constructor ()
      ensures absorbed == []
    { absorbed := []; }

    method Update(bytes: Bytes)
      modifies this
      ensures absorbed == old(absorbed) + bytes
    { absorbed := absorbed + bytes; }

    method HashTag(tag: Bytes)
      modifies this
      ensures absorbed == old(absorbed) + Framed(tag)
    {
      Update(Length(|tag|));
      Update(tag);
      assert absorbed == old(absorbed) + (Length(|tag|) + tag);
    }

    method HashTaggedComponent(tag: Bytes, value: Bytes)
      modifies this
      ensures absorbed == old(absorbed) + Tagged(tag, Component(value))
    {
      HashTag(tag);
      Update(Length(|value|));
      Update(value);
      assert absorbed == old(absorbed) + (Framed(tag) + (Length(|value|) + value));
    }

    method HashTaggedBool(tag: Bytes, value: bool)
      modifies this
      ensures absorbed == old(absorbed) + Tagged(tag, Boolean(value))
    {
      HashTag(tag);
      Update([Flag(value)]);
      assert absorbed == old(absorbed) + (Framed(tag) + [Flag(value)]);
    }

    method HashTaggedOptional(tag: Bytes, value: Option<Bytes>)
      modifies this
      ensures absorbed == old(absorbed) + Tagged(tag, Optional(value))
    {
      HashTag(tag);
      Update([Flag(value.Some?)]);
      if value.Some? {
        Update(Length(|value.value|));
        Update(value.value);
        assert absorbed == old(absorbed) + (Framed(tag) + ([Flag(true)] + (Length(|value.value|) + value.value)));
      } else {
        assert absorbed == old(absorbed) + (Framed(tag) + ([Flag(false)] + []));
      }
    }

    method HashTaggedList(tag: Bytes, values: seq<Bytes>)
      modifies this
      ensures absorbed == old(absorbed) + Tagged(tag, List(values))
    {
      HashTag(tag);
      Update(Length(|values|));
      ghost var head := absorbed;
      for i := 0 to |values|
        invariant absorbed == head + FramedAll(values[..i])
      {
        ghost var before := absorbed;
        Update(Length(|values[i]|));
        Update(values[i]);
        Assoc(before, Length(|values[i]|), values[i]);
        FramedNext(head, values, i, before);
      }
      assert values[..|values|] == values;
      Regroup3(old(absorbed), Framed(tag), Length(|values|), FramedAll(values));
      assert Tagged(tag, List(values)) == Framed(tag) + (Length(|values|) + FramedAll(values));
    }
  }

  lemma {:induction false} FramedPush(init: seq<Bytes>, last: Bytes)
    ensures FramedAll(init + [last]) == FramedAll(init) + Framed(last)
  {
    if init == [] {
      assert [last][1..] == [];
      assert [] + [last] == [last];
    } else {
      assert (init + [last])[1..] == init[1..] + [last];
      FramedPush(init[1..], last);
    }
  }

  lemma FramedNext(head: Bytes, values: seq<Bytes>, i: nat, before: Bytes)
    requires i < |values| && before == head + FramedAll(values[..i])
    ensures before + Framed(values[i]) == head + FramedAll(values[..i + 1])
  {
    FramedPush(values[..i], values[i]);
    assert values[..i + 1] == values[..i] + [values[i]];
  }

  method HashSecurityIdentity(hasher: Hasher, tag: Field -> Bytes, tls: Tls)
    modifies hasher
    ensures hasher.absorbed == old(hasher.absorbed) + TlsStream(tag, tls)
  {
    ghost var start := hasher.absorbed;
    hasher.HashTaggedBool(tag(Enabled), tls.enabled);
    hasher.HashTaggedBool(tag(Insecure), tls.insecure);
    hasher.HashTaggedOptional(tag(ServerName), tls.serverName);
    hasher.HashTaggedList(tag(Alpn), tls.alpn);
    ghost var front := hasher.absorbed;
    hasher.HashTaggedOptional(tag(Fingerprint), tls.fingerprint);
    hasher.HashTaggedList(tag(Pins), tls.pins);
    hasher.HashTaggedList(tag(Ech), tls.ech);
    hasher.HashTaggedBool(tag(RealityPresent), tls.reality.Some?);
    ghost var middle := hasher.absorbed;
    if tls.reality.Some? {
      hasher.HashTaggedComponent(tag(RealityPublicKey), tls.reality.value.publicKey);
      hasher.HashTaggedComponent(tag(RealityShortId), tls.reality.value.shortId);
      hasher.HashTaggedOptional(tag(RealitySpiderX), tls.reality.value.spiderX);
      Regroup3(middle, Tagged(tag(RealityPublicKey), Component(tls.reality.value.publicKey)),
               Tagged(tag(RealityShortId), Component(tls.reality.value.shortId)),
               Tagged(tag(RealitySpiderX), Optional(tls.reality.value.spiderX)));
    }
    assert hasher.absorbed == middle + RealityStream(tag, tls.reality);
    Regroup5(front, Tagged(tag(Fingerprint), Optional(tls.fingerprint)), Tagged(tag(Pins), List(tls.pins)),
             Tagged(tag(Ech), List(tls.ech)), Tagged(tag(RealityPresent), Boolean(tls.reality.Some?)),
             RealityStream(tag, tls.reality));
    Regroup5(start, Tagged(tag(Enabled), Boolean(tls.enabled)), Tagged(tag(Insecure), Boolean(tls.insecure)),
             Tagged(tag(ServerName), Optional(tls.serverName)), Tagged(tag(Alpn), List(tls.alpn)),
             Tagged(tag(Fingerprint), Optional(tls.fingerprint)) + (Tagged(tag(Pins), List(tls.pins))
             + (Tagged(tag(Ech), List(tls.ech)) + (Tagged(tag(RealityPresent), Boolean(tls.reality.Some?))
             + RealityStream(tag, tls.reality)))));
  }

  lemma Regroup3(s: Bytes, a: Bytes, b: Bytes, c: Bytes)
    ensures s + a + b + c == s + (a + (b + c))
  {}

  lemma Regroup5(s: Bytes, a: Bytes, b: Bytes, c: Bytes, d: Bytes, e: Bytes)
    ensures s + a + b + c + d + e == s + (a + (b + (c + (d + e))))
  {
    assert (d + e) == d + e;
  }

  // Everything the digest of a node is computed from.
  method SecurityStream(node: Node) returns (stream: Bytes)
    ensures stream == NodeStream(TagBytes, Domain(), node)
  {
    var hasher := new Hasher();
    var domain := Domain();
    hasher.Update(domain);
    assert hasher.absorbed == domain;
    hasher.HashTaggedComponent(TagBytes(UpdateKey), node.updateKey);
    if TlsOf(node).Some? { HashSecurityIdentity(hasher, TagBytes, TlsOf(node).value); }
    stream := hasher.absorbed;
    ghost var key, rest := Tagged(TagBytes(UpdateKey), Component(node.updateKey)), TlsPart(TagBytes, TlsOf(node));
    assert stream == domain + key + rest;
    Assoc(domain, key, rest);
  }

  // ---- Injectivity ------------------------------------------------------

  lemma Split(a: Bytes, b: Bytes, x: Bytes, y: Bytes)
    requires |a| == |b| && a + x == b + y
    ensures a == b && x == y
  {
    assert a == (a + x)[..|a|] && b == (b + y)[..|b|];
    assert x == (a + x)[|a|..] && y == (b + y)[|b|..];
  }

  // The number a length field stands for, least significant byte first.
  function LittleEndian(bytes: Bytes): nat {
    if bytes == [] then 0 else bytes[0] as int + 0x100 * LittleEndian(bytes[1..])
  }

  lemma {:induction false} LowBytes(n: nat, width: nat)
    requires n < Capacity(width)
    ensures LittleEndian(seq(width, i requires 0 <= i < width => ByteAt(n, i))) == n
    decreases width
  {
    if width > 0 {
      LowBytes(n / 0x100, width - 1);
      assert seq(width, i requires 0 <= i < width => ByteAt(n, i))[1..]
             == seq(width - 1, i requires 0 <= i < width - 1 => ByteAt(n / 0x100, i));
    }
  }

  // Every 64-bit length is read back from its eight bytes.
  lemma LengthReadsBack(n: nat)
    requires n < U64
    ensures LittleEndian(Length(n)) == n
  {
    assert Capacity(8) == 0x100 * 0x100 * 0x100 * 0x100 * Capacity(4);
    LowBytes(n, 8);
    assert Length(n) == seq(8, i requires 0 <= i < 8 => ByteAt(n, i));
  }

  // The bytes of each part: a flag is 1 for true and for a present value.
  lemma PartBytes(tag: Bytes, flag: bool, value: Bytes)
    ensures Tagged(tag, Boolean(flag)) == Length(|tag|) + tag + [if flag then 1 else 0]
    ensures Tagged(tag, Component(value)) == Length(|tag|) + tag + Length(|value|) + value
    ensures Tagged(tag, Optional(None)) == Length(|tag|) + tag + [0]
    ensures Tagged(tag, Optional(Some(value))) == Length(|tag|) + tag + [1] + Length(|value|) + value
  {
    assert Length(|tag|) + tag + Length(|value|) + value == Length(|tag|) + tag + (Length(|value|) + value);
    assert Length(|tag|) + tag + [1] + Length(|value|) + value == Length(|tag|) + tag + ([1] + (Length(|value|) + value));
    assert [0] + [] == [0 as byte];
  }

  function Capacity(width: nat): (size: nat)
    ensures size > 0
  {
    if width == 0 then 1 else 0x100 * Capacity(width - 1)
  }

  lemma {:induction false} BytesInjective(n: nat, m: nat, width: nat)
    requires n < Capacity(width) && m < Capacity(width) && forall i :: 0 <= i < width ==> ByteAt(n, i) == ByteAt(m, i)
    ensures n == m
  {
    if width > 0 {
      assert ByteAt(n, 0) == ByteAt(m, 0);
      forall i | 0 <= i < width - 1 ensures ByteAt(n / 0x100, i) == ByteAt(m / 0x100, i) {
        assert ByteAt(n, i + 1) == ByteAt(m, i + 1);
      }
      BytesInjective(n / 0x100, m / 0x100, width - 1);
    }
  }

  lemma CapacityOfU64()
    ensures Capacity(8) == U64
  {
    assert Capacity(2) == 0x1_0000;
    assert Capacity(4) == 0x1_0000_0000;
    assert Capacity(6) == 0x1_0000_0000_0000;
  }

  lemma LengthInjective(n: nat, m: nat)
    requires n < U64 && m < U64 && Length(n) == Length(m)
    ensures n == m
  {
    CapacityOfU64();
    forall i | 0 <= i < 8 ensures ByteAt(n, i) == ByteAt(m, i) { assert Length(n)[i] == Length(m)[i]; }
    BytesInjective(n, m, 8);
  }

  lemma LengthPrefix(n: nat, m: nat, x: Bytes, y: Bytes)
    requires n < U64 && m < U64 && Length(n) + x == Length(m) + y
    ensures n == m && x == y
  {
    Split(Length(n), Length(m), x, y);
    LengthInjective(n, m);
  }

  lemma FramedPrefix(v: Bytes, w: Bytes, x: Bytes, y: Bytes)
    requires Short(v) && Short(w) && Framed(v) + x == Framed(w) + y
    ensures v == w && x == y
  {
    Assoc(Length(|v|), v, x);
    Assoc(Length(|w|), w, y);
    LengthPrefix(|v|, |w|, v + x, w + y);
    Split(v, w, x, y);
  }

  lemma {:induction false} FramedAllPrefix(vs: seq<Bytes>, ws: seq<Bytes>, x: Bytes, y: Bytes)
    requires |vs| == |ws| && ShortList(vs) && ShortList(ws) && FramedAll(vs) + x == FramedAll(ws) + y
    ensures vs == ws && x == y
  {
    if vs == [] {
      assert [] + x == x && [] + y == y;
    } else {
      Assoc(Framed(vs[0]), FramedAll(vs[1..]), x);
      Assoc(Framed(ws[0]), FramedAll(ws[1..]), y);
      FramedPrefix(vs[0], ws[0], FramedAll(vs[1..]) + x, FramedAll(ws[1..]) + y);
      FramedAllPrefix(vs[1..], ws[1..], x, y);
      assert vs == [vs[0]] + vs[1..] && ws == [ws[0]] + ws[1..];
    }
  }

  predicate ShortPart(part: Part) {
    match part
    case Component(value) => Short(value)
    case Boolean(_) => true
    case Optional(option) => ShortOption(option)
    case List(values) => ShortList(values)
  }

  predicate SameKind(p: Part, q: Part) {
    (p.Component? && q.Component?) || (p.Boolean? && q.Boolean?) || (p.Optional? && q.Optional?) || (p.List? && q.List?)
  }

  lemma ListPrefix(vs: seq<Bytes>, ws: seq<Bytes>, x: Bytes, y: Bytes)
    requires ShortList(vs) && ShortList(ws) && Payload(List(vs)) + x == Payload(List(ws)) + y
    ensures vs == ws && x == y
  {
    Assoc(Length(|vs|), FramedAll(vs), x);
    Assoc(Length(|ws|), FramedAll(ws), y);
    LengthPrefix(|vs|, |ws|, FramedAll(vs) + x, FramedAll(ws) + y);
    FramedAllPrefix(vs, ws, x, y);
  }

  lemma OptionalPrefix(v: Option<Bytes>, w: Option<Bytes>, x: Bytes, y: Bytes)
    requires ShortOption(v) && ShortOption(w) && Payload(Optional(v)) + x == Payload(Optional(w)) + y
    ensures v == w && x == y
  {
    var a, b := if v.Some? then Framed(v.value) else [], if w.Some? then Framed(w.value) else [];
    Assoc([Flag(v.Some?)], a, x);
    Assoc([Flag(w.Some?)], b, y);
    Split([Flag(v.Some?)], [Flag(w.Some?)], a + x, b + y);
    assert [Flag(v.Some?)][0] == [Flag(w.Some?)][0];
    if v.Some? {
      FramedPrefix(v.value, w.value, x, y);
    } else {
      assert [] + x == x && [] + y == y;
    }
  }

  // A part can be read off the front of a stream without knowing what follows.
  lemma PayloadPrefix(p: Part, q: Part, x: Bytes, y: Bytes)
    requires SameKind(p, q) && ShortPart(p) && ShortPart(q) && Payload(p) + x == Payload(q) + y
    ensures p == q && x == y
  {
    match p
    case Component(value) => FramedPrefix(value, q.value, x, y);
    case Boolean(flag) =>
      Split([Flag(flag)], [Flag(q.flag)], x, y);
      assert [Flag(flag)][0] == [Flag(q.flag)][0];
    case Optional(option) => OptionalPrefix(option, q.option, x, y);
    case List(values) => ListPrefix(values, q.values, x, y);
  }

  lemma TaggedPrefix(tag: Bytes, p: Part, q: Part, x: Bytes, y: Bytes)
    requires SameKind(p, q) && ShortPart(p) && ShortPart(q) && Tagged(tag, p) + x == Tagged(tag, q) + y
    ensures p == q && x == y
  {
    Assoc(Framed(tag), Payload(p), x);
    Assoc(Framed(tag), Payload(q), y);
    Split(Framed(tag), Framed(tag), Payload(p) + x, Payload(q) + y);
    PayloadPrefix(p, q, x, y);
  }

  predicate ShortReality(reality: Option<Reality>) {
    reality.Some? ==> Short(reality.value.publicKey) && Short(reality.value.shortId) && ShortOption(reality.value.spiderX)
  }

  lemma RealityInjective(tag: Field -> Bytes, a: Option<Reality>, b: Option<Reality>)
    requires ShortReality(a) && ShortReality(b) && a.Some? == b.Some? && RealityStream(tag, a) == RealityStream(tag, b)
    ensures a == b
  {
    if a.Some? {
      var (v, w) := (a.value, b.value);
      var (x, y) := (Tagged(tag(RealitySpiderX), Optional(v.spiderX)), Tagged(tag(RealitySpiderX), Optional(w.spiderX)));
      TaggedPrefix(tag(RealityPublicKey), Component(v.publicKey), Component(w.publicKey),
                   Tagged(tag(RealityShortId), Component(v.shortId)) + x, Tagged(tag(RealityShortId), Component(w.shortId)) + y);
      TaggedPrefix(tag(RealityShortId), Component(v.shortId), Component(w.shortId), x, y);
      assert x + [] == x && y + [] == y;
      TaggedPrefix(tag(RealitySpiderX), Optional(v.spiderX), Optional(w.spiderX), [], []);
    }
  }

  function TlsTail(tag: Field -> Bytes, tls: Tls): Bytes {
    Tagged(tag(Fingerprint), Optional(tls.fingerprint))
    + (Tagged(tag(Pins), List(tls.pins))
    + (Tagged(tag(Ech), List(tls.ech))
    + (Tagged(tag(RealityPresent), Boolean(tls.reality.Some?))
    + RealityStream(tag, tls.reality))))
  }

  lemma TailInjective(tag: Field -> Bytes, a: Tls, b: Tls)
    requires ShortTls(a) && ShortTls(b) && TlsTail(tag, a) == TlsTail(tag, b)
    ensures a.fingerprint == b.fingerprint && a.pins == b.pins && a.ech == b.ech && a.reality == b.reality
  {
    var (x, y) := (RealityStream(tag, a.reality), RealityStream(tag, b.reality));
    var (x1, y1) := (Tagged(tag(RealityPresent), Boolean(a.reality.Some?)) + x, Tagged(tag(RealityPresent), Boolean(b.reality.Some?)) + y);
    var (x2, y2) := (Tagged(tag(Ech), List(a.ech)) + x1, Tagged(tag(Ech), List(b.ech)) + y1);
    var (x3, y3) := (Tagged(tag(Pins), List(a.pins)) + x2, Tagged(tag(Pins), List(b.pins)) + y2);
    TaggedPrefix(tag(Fingerprint), Optional(a.fingerprint), Optional(b.fingerprint), x3, y3);
    TaggedPrefix(tag(Pins), List(a.pins), List(b.pins), x2, y2);
    TaggedPrefix(tag(Ech), List(a.ech), List(b.ech), x1, y1);
    TaggedPrefix(tag(RealityPresent), Boolean(a.reality.Some?), Boolean(b.reality.Some?), x, y);
    RealityInjective(tag, a.reality, b.reality);
  }

  lemma TlsInjective(tag: Field -> Bytes, a: Tls, b: Tls)
    requires ShortTls(a) && ShortTls(b) && TlsStream(tag, a) == TlsStream(tag, b)
    ensures a == b
  {
    var (x, y) := (TlsTail(tag, a), TlsTail(tag, b));
    var (x1, y1) := (Tagged(tag(Alpn), List(a.alpn)) + x, Tagged(tag(Alpn), List(b.alpn)) + y);
    var (x2, y2) := (Tagged(tag(ServerName), Optional(a.serverName)) + x1, Tagged(tag(ServerName), Optional(b.serverName)) + y1);
    var (x3, y3) := (Tagged(tag(Insecure), Boolean(a.insecure)) + x2, Tagged(tag(Insecure), Boolean(b.insecure)) + y2);
    TaggedPrefix(tag(Enabled), Boolean(a.enabled), Boolean(b.enabled), x3, y3);
    TaggedPrefix(tag(Insecure), Boolean(a.insecure), Boolean(b.insecure), x2, y2);
    TaggedPrefix(tag(ServerName), Optional(a.serverName), Optional(b.serverName), x1, y1);
    TaggedPrefix(tag(Alpn), List(a.alpn), List(b.alpn), x, y);
    TailInjective(tag, a, b);
  }

  // Every node uses TLS but a VLESS node that switched it off.
  predicate UsesTls(node: Node) { !(node.protocol.Vless? && !node.protocol.tls.enabled) }

  // The protocol itself is not part of the identity, the TLS options of every protocol are.
  ghost predicate SameIdentity(a: Node, b: Node) {
    && a.updateKey == b.updateKey && (UsesTls(a) <==> UsesTls(b))
    && (UsesTls(a) ==> a.protocol.tls == b.protocol.tls)
  }

  // Insecure TLS needs an approval wherever TLS is used.
  lemma ApprovalNeededIff(node: Node)
    ensures RequiresApproval(node) <==>
            node.protocol.tls.insecure && (node.protocol.Hysteria2? || node.protocol.Naive? || node.protocol.tls.enabled)
  {}

  lemma TlsStreamNotEmpty(tag: Field -> Bytes, tls: Tls)
    ensures |TlsStream(tag, tls)| >= 8
  {}

  // Two nodes feed the hash the same bytes exactly when their update key, TLS presence and
  // every TLS security field are equal.
  lemma StreamInjective(tag: Field -> Bytes, domain: Bytes, a: Node, b: Node)
    requires ShortNode(a) && ShortNode(b)
    ensures NodeStream(tag, domain, a) == NodeStream(tag, domain, b) <==>
            && a.updateKey == b.updateKey
            && ((a.protocol.Vless? && !a.protocol.tls.enabled) <==> (b.protocol.Vless? && !b.protocol.tls.enabled))
            && (!(a.protocol.Vless? && !a.protocol.tls.enabled) ==> a.protocol.tls == b.protocol.tls)
  {
    if NodeStream(tag, domain, a) == NodeStream(tag, domain, b) {
      var x, y := TlsPart(tag, TlsOf(a)), TlsPart(tag, TlsOf(b));
      Split(domain, domain, Tagged(tag(UpdateKey), Component(a.updateKey)) + x, Tagged(tag(UpdateKey), Component(b.updateKey)) + y);
      TaggedPrefix(tag(UpdateKey), Component(a.updateKey), Component(b.updateKey), x, y);
      TlsStreamNotEmpty(tag, a.protocol.tls);
      TlsStreamNotEmpty(tag, b.protocol.tls);
      if TlsOf(a).Some? { TlsInjective(tag, TlsOf(a).value, TlsOf(b).value); }
    }
  }

  // ---- Approvals --------------------------------------------------------

  datatype Approval<D> = Approval(updateKey: Bytes, identity: D)

  function RecordApproval<D>(digest: Bytes -> D, node: Node): Option<Approval<D>> {
    if !RequiresApproval(node) then None
    else Some(Approval(node.updateKey, digest(NodeStream(TagBytes, Domain(), node))))
  }

  predicate Matches<D(==)>(digest: Bytes -> D, approval: Approval<D>, node: Node) {
    approval.updateKey == node.updateKey && approval.identity == digest(NodeStream(TagBytes, Domain(), node))
  }

  // With a collision-free digest an approval given for one node covers exactly the nodes with
  // the same identity, all of which need that approval.
  lemma ApprovalIsBound<D>(digest: Bytes -> D, approved: Node, node: Node)
    requires ShortNode(approved) && ShortNode(node)
    requires forall x, y :: digest(x) == digest(y) ==> x == y
    ensures RecordApproval(digest, approved).Some? <==> approved.protocol.tls.insecure && UsesTls(approved)
    ensures RecordApproval(digest, approved).Some? ==>
              var approval := RecordApproval(digest, approved).value;
              && (Matches(digest, approval, node) <==> SameIdentity(approved, node))
              && (Matches(digest, approval, node) ==> node.protocol.tls.insecure && UsesTls(node))
  {
    ApprovalNeededIff(approved);
    StreamInjective(TagBytes, Domain(), approved, node);
  }
}
