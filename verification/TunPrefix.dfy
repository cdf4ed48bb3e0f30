// The TUN's own network (src-tauri/src/config.rs:759-789). Addresses are numbers
// of 32 or 128 bits; the fixed-width `&` and `<<` are written out.
module TunPrefix {
  import opened Text

  function ShiftRight(a: nat, h: nat): nat
    decreases h
  {
    if h == 0 then a else ShiftRight(a / 2, h - 1)
  }

  function ShiftLeft(a: nat, h: nat): nat {
    if h == 0 then a else 2 * ShiftLeft(a, h - 1)
  }

  function Bit(a: nat, i: nat): nat {
    ShiftRight(a, i) % 2
  }

  function BitAnd(a: nat, b: nat): nat
    decreases a
  {
    if a == 0 then 0 else (if a % 2 == 1 && b % 2 == 1 then 1 else 0) + 2 * BitAnd(a / 2, b / 2)
  }

  // The low `w` bits: what a `w`-bit register keeps.
  function Truncate(a: nat, w: nat): nat
    decreases w
  {
    if w == 0 then 0 else a % 2 + 2 * Truncate(a / 2, w - 1)
  }

  // u32::MAX and u128::MAX
  function AllOnes(w: nat): nat {
    if w == 0 then 0 else 1 + 2 * AllOnes(w - 1)
  }

  predicate Fits(a: nat, w: nat) {
    ShiftRight(a, w) == 0
  }

  datatype Family = V4 | V6 {
    function Width(): nat { if V4? then 32 else 128 }
  }

  // An address of a family with its prefix length, or a text that does not parse.
  datatype Cidr = Malformed | Cidr(family: Family, address: nat, prefix: nat) {
    predicate Typed() {
      Cidr? ==> Fits(address, family.Width()) && prefix < 256
    }
  }

  function Mask(width: nat, prefix: nat): nat
    requires prefix <= width
  {
    if prefix == 0 then 0 else Truncate(ShiftLeft(AllOnes(width), width - prefix), width)
  }

  function CanonicalTunPrefix(value: Cidr): Option<Cidr> {
    match value
    case Malformed => None
    case Cidr(family, address, prefix) =>
      if prefix <= family.Width() then Some(Cidr(family, BitAnd(address, Mask(family.Width(), prefix)), prefix))
      else None
  }

  // ---- Bits of each operation -------------------------------------------

  lemma {:induction false} AndBit(a: nat, b: nat, i: nat)
    ensures Bit(BitAnd(a, b), i) == if Bit(a, i) == 1 && Bit(b, i) == 1 then 1 else 0
    decreases i
  {
    ZeroBits(i);
    if a != 0 && i > 0 { AndBit(a / 2, b / 2, i - 1); }
  }

  lemma {:induction false} ZeroBits(i: nat)
    ensures ShiftRight(0, i) == 0
  {
    if i > 0 { ZeroBits(i - 1); }
  }

  lemma {:induction false} TruncateBit(a: nat, w: nat, i: nat)
    ensures Bit(Truncate(a, w), i) == if i < w then Bit(a, i) else 0
    decreases w
  {
    ZeroBits(i);
    if w > 0 && i > 0 { TruncateBit(a / 2, w - 1, i - 1); }
  }

  lemma {:induction false} ShiftLeftBit(a: nat, h: nat, i: nat)
    ensures Bit(ShiftLeft(a, h), i) == if i < h then 0 else Bit(a, i - h)
    decreases h
  {
    if h > 0 && i > 0 { ShiftLeftBit(a, h - 1, i - 1); }
  }

  lemma {:induction false} AllOnesBit(w: nat, i: nat)
    ensures Bit(AllOnes(w), i) == if i < w then 1 else 0
    decreases w
  {
    ZeroBits(i);
    if w > 0 && i > 0 { AllOnesBit(w - 1, i - 1); }
  }

  lemma {:induction false} AndFits(a: nat, b: nat, w: nat)
    requires Fits(a, w)
    ensures Fits(BitAnd(a, b), w)
    decreases w
  {
    ZeroBits(w);
    if w > 0 && a != 0 {
      AndFits(a / 2, b / 2, w - 1);
      assert BitAnd(a, b) / 2 == BitAnd(a / 2, b / 2);
    }
  }

  // Numbers of one width are their bits.
  lemma {:induction false} BitsDetermine(a: nat, b: nat, w: nat)
    requires Fits(a, w) && Fits(b, w) && forall i :: 0 <= i < w ==> Bit(a, i) == Bit(b, i)
    ensures a == b
    decreases w
  {
    if w > 0 {
      assert Bit(a, 0) == Bit(b, 0);
      forall i | 0 <= i < w - 1 ensures Bit(a / 2, i) == Bit(b / 2, i) {
        assert Bit(a, i + 1) == Bit(b, i + 1);
      }
      BitsDetermine(a / 2, b / 2, w - 1);
    }
  }

  lemma {:induction false} ShiftRightBit(a: nat, h: nat, i: nat)
    ensures Bit(ShiftRight(a, h), i) == Bit(a, h + i)
    decreases h
  {
    if h > 0 { ShiftRightBit(a / 2, h - 1, i); }
  }

  lemma {:induction false} ShiftRightFits(a: nat, h: nat, w: nat)
    requires h <= w && Fits(a, w)
    ensures Fits(ShiftRight(a, h), w - h)
    decreases h
  {
    if h > 0 { ShiftRightFits(a / 2, h - 1, w - 1); }
  }

  lemma {:induction false} ShiftLeftFits(a: nat, h: nat, w: nat)
    requires Fits(a, w)
    ensures Fits(ShiftLeft(a, h), w + h)
    decreases h
  {
    if h > 0 { ShiftLeftFits(a, h - 1, w); }
  }

  // Same high bits, same number after the shift.
  lemma HighBitsDetermine(a: nat, b: nat, h: nat, w: nat)
    requires h <= w && Fits(a, w) && Fits(b, w)
    ensures ShiftRight(a, h) == ShiftRight(b, h) <==> forall i :: h <= i < w ==> Bit(a, i) == Bit(b, i)
  {
    ShiftRightFits(a, h, w);
    ShiftRightFits(b, h, w);
    forall i: nat ensures Bit(ShiftRight(a, h), i) == Bit(a, h + i) && Bit(ShiftRight(b, h), i) == Bit(b, h + i) {
      ShiftRightBit(a, h, i);
      ShiftRightBit(b, h, i);
    }
    if forall i :: h <= i < w ==> Bit(a, i) == Bit(b, i) {
      BitsDetermine(ShiftRight(a, h), ShiftRight(b, h), w - h);
    }
    if ShiftRight(a, h) == ShiftRight(b, h) {
      forall i | h <= i < w ensures Bit(a, i) == Bit(b, i) {
        assert Bit(ShiftRight(a, h), i - h) == Bit(a, h + (i - h));
      }
    }
  }

  lemma MaskBit(w: nat, p: nat, i: nat)
    requires p <= w
    ensures Bit(Mask(w, p), i) == if w - p <= i < w then 1 else 0
  {
    ZeroBits(i);
    var shifted := ShiftLeft(AllOnes(w), w - p);
    TruncateBit(shifted, w, i);
    ShiftLeftBit(AllOnes(w), w - p, i);
    if i >= w - p { AllOnesBit(w, i - (w - p)); }
  }

  // ---- The canonical prefix ---------------------------------------------

  // Defined for every prefix length from 0 to the full width. Host bits are
  // cleared; every other bit is the address's.
  lemma CanonicalBits(value: Cidr, i: nat)
    requires value.Typed()
    ensures CanonicalTunPrefix(value).Some? <==> value.Cidr? && value.prefix <= value.family.Width()
    ensures CanonicalTunPrefix(value).Some? ==>
              && CanonicalTunPrefix(value).value.Typed()
              && Bit(CanonicalTunPrefix(value).value.address, i)
                 == if i < value.family.Width() - value.prefix then 0 else Bit(value.address, i)
  {
    if CanonicalTunPrefix(value).Some? {
      var w := value.family.Width();
      AndBit(value.address, Mask(w, value.prefix), i);
      MaskBit(w, value.prefix, i);
      AndFits(value.address, Mask(w, value.prefix), w);
      if i >= w { FitsBit(value.address, w, i); }
    }
  }

  lemma FitsBit(a: nat, w: nat, i: nat)
    requires Fits(a, w) && i >= w
    ensures Bit(a, i) == 0
  {
    ShiftRightBit(a, w, i - w);
    ZeroBits(i - w);
  }

  lemma BlockBit(a: nat, h: nat, i: nat)
    ensures Bit(ShiftLeft(ShiftRight(a, h), h), i) == if i < h then 0 else Bit(a, i)
  {
    var high := ShiftRight(a, h);
    ShiftLeftBit(high, h, i);
    if i >= h { ShiftRightBit(a, h, i - h); }
  }

  // The network is the address with its host part shifted out and back.
  lemma CanonicalIsShifted(value: Cidr)
    requires value.Typed() && CanonicalTunPrefix(value).Some?
    ensures var h := value.family.Width() - value.prefix;
            CanonicalTunPrefix(value).value.address == ShiftLeft(ShiftRight(value.address, h), h)
  {
    var w := value.family.Width();
    var h := w - value.prefix;
    var network, block := CanonicalTunPrefix(value).value.address, ShiftLeft(ShiftRight(value.address, h), h);
    ShiftRightFits(value.address, h, w);
    ShiftLeftFits(ShiftRight(value.address, h), h, w - h);
    CanonicalBits(value, 0);
    forall i | 0 <= i < w ensures Bit(network, i) == Bit(block, i) {
      CanonicalBits(value, i);
      BlockBit(value.address, h, i);
    }
    BitsDetermine(network, block, w);
  }

  // The number of addresses of a network with `h` host bits.
  function Pow2(h: nat): (size: nat)
    ensures size > 0
  {
    if h == 0 then 1 else 2 * Pow2(h - 1)
  }

  lemma {:induction false} Pow2Sum(a: nat, b: nat)
    ensures Pow2(a + b) == Pow2(a) * Pow2(b)
  {
    if a > 0 { Pow2Sum(a - 1, b); }
  }

  lemma Powers()
    ensures Pow2(16) == 0x1_0000 && Pow2(20) == 0x10_0000 && Pow2(24) == 0x100_0000 && Pow2(28) == 0x1000_0000
  {
    assert Pow2(1) == 2 && Pow2(2) == 4 && Pow2(3) == 8;
    assert Pow2(4) == 2 * Pow2(3);
    Pow2Sum(4, 4);
    Pow2Sum(8, 8);
    Pow2Sum(16, 4);
    Pow2Sum(20, 4);
    Pow2Sum(24, 4);
  }

  lemma Power112()
    ensures Pow2(112) == 0x1_0000_0000_0000_0000_0000_0000_0000
  {
    Powers();
    Pow2Sum(28, 28);
    assert Pow2(56) == 0x100_0000_0000_0000;
    Pow2Sum(56, 56);
  }

  lemma Power9()
    ensures Pow2(9) == 0x200
  {
    assert Pow2(1) == 2 && Pow2(2) == 4 && Pow2(3) == 8;
    Pow2Sum(3, 3);
    Pow2Sum(6, 3);
  }

  lemma Power121()
    ensures Pow2(121) == 0x200_0000_0000_0000_0000_0000_0000_0000
  {
    Power112();
    Power9();
    Pow2Sum(112, 9);
  }

  lemma {:induction false} ShiftLeftMultiplies(a: nat, h: nat)
    ensures ShiftLeft(a, h) == a * Pow2(h)
  {
    if h > 0 { ShiftLeftMultiplies(a, h - 1); }
  }

  lemma {:induction false} ShiftRightDivides(a: nat, h: nat)
    ensures ShiftRight(a, h) * Pow2(h) <= a < ShiftRight(a, h) * Pow2(h) + Pow2(h)
    decreases h
  {
    if h > 0 {
      ShiftRightDivides(a / 2, h - 1);
      Doubled(a, ShiftRight(a / 2, h - 1), Pow2(h - 1));
    }
  }

  lemma Doubled(a: nat, q: nat, size: nat)
    requires q * size <= a / 2 < q * size + size
    ensures q * (2 * size) <= a < q * (2 * size) + 2 * size
  {
    var low := q * size;
    assert q * (2 * size) == 2 * low;
    assert 2 * low <= a < 2 * low + 2 * size;
  }

  lemma Multiples(q: nat, size: nat, m: nat, a: nat)
    requires size > 0 && q * size <= a < q * size + size
    ensures a % size == a - q * size && (q * size) % size == 0
    ensures m * size <= a ==> m * size <= q * size
  {
    SameParts(q, a - q * size, a / size, a % size, size);
    SameParts(q, 0, q * size / size, q * size % size, size);
    if m > q { Grows(q, m, size); }
    if m < q { Grows(m, q, size); }
  }

  lemma SameParts(q: nat, rest: nat, p: nat, other: nat, size: nat)
    requires rest < size && other < size && q * size + rest == p * size + other
    ensures q == p && rest == other
  {
    if q > p { Grows(p, q, size); }
    if p > q { Grows(q, p, size); }
  }

  lemma Grows(p: nat, q: nat, size: nat)
    requires p < q
    ensures p * size + size <= q * size
  {
    assert (p + 1) * size <= q * size;
  }

  // As a number, the network is the largest multiple of its size not above the address.
  lemma CanonicalIsNetwork(value: Cidr, m: nat)
    requires value.Typed() && CanonicalTunPrefix(value).Some?
    ensures var network, size := CanonicalTunPrefix(value).value.address, Pow2(value.family.Width() - value.prefix);
            && network == value.address - value.address % size && network % size == 0
            && network <= value.address < network + size
            && (m * size <= value.address ==> m * size <= network)
  {
    var h := value.family.Width() - value.prefix;
    CanonicalIsShifted(value);
    ShiftLeftMultiplies(ShiftRight(value.address, h), h);
    ShiftRightDivides(value.address, h);
    Multiples(ShiftRight(value.address, h), Pow2(h), m, value.address);
  }

  lemma CanonicalIdempotent(value: Cidr)
    requires value.Typed() && CanonicalTunPrefix(value).Some?
    ensures CanonicalTunPrefix(CanonicalTunPrefix(value).value) == CanonicalTunPrefix(value)
  {
    var once := CanonicalTunPrefix(value).value;
    CanonicalBits(value, 0);
    CanonicalBits(once, 0);
    var twice := CanonicalTunPrefix(once).value;
    forall i | 0 <= i < value.family.Width() ensures Bit(twice.address, i) == Bit(once.address, i) {
      CanonicalBits(value, i);
      CanonicalBits(once, i);
    }
    BitsDetermine(twice.address, once.address, value.family.Width());
  }

  // Two addresses share a network exactly when they agree on every prefix bit.
  lemma SameNetworkIffSamePrefixBits(family: Family, a: nat, b: nat, p: nat)
    requires p <= family.Width() && Fits(a, family.Width()) && Fits(b, family.Width())
    ensures CanonicalTunPrefix(Cidr(family, a, p)) == CanonicalTunPrefix(Cidr(family, b, p))
            <==> forall i :: family.Width() - p <= i < family.Width() ==> Bit(a, i) == Bit(b, i)
  {
    var w := family.Width();
    var h := w - p;
    assert Cidr(family, a, p).Typed() && Cidr(family, b, p).Typed();
    CanonicalIsShifted(Cidr(family, a, p));
    CanonicalIsShifted(Cidr(family, b, p));
    HighBitsDetermine(a, b, h, w);
    ShiftBack(ShiftRight(a, h), h);
    ShiftBack(ShiftRight(b, h), h);
  }

  lemma {:induction false} ShiftBack(a: nat, h: nat)
    ensures ShiftRight(ShiftLeft(a, h), h) == a
    decreases h
  {
    if h > 0 { ShiftBack(a, h - 1); }
  }

  // How the engine matches a destination against a CIDR: the masked destination
  // equals the network.
  predicate CidrContains(network: Cidr, family: Family, address: nat) {
    && network.Cidr? && network.family == family && network.prefix <= family.Width()
    && BitAnd(address, Mask(family.Width(), network.prefix)) == network.address
  }

  // The guard built from the TUN address covers precisely the addresses that agree
  // with it on every prefix bit.
  lemma GuardCoversNetwork(value: Cidr, family: Family, address: nat)
    requires value.Typed() && CanonicalTunPrefix(value).Some? && Fits(address, family.Width())
    ensures CidrContains(CanonicalTunPrefix(value).value, family, address)
            <==> family == value.family
                 && forall i :: family.Width() - value.prefix <= i < family.Width()
                      ==> Bit(address, i) == Bit(value.address, i)
  {
    if family == value.family {
      SameNetworkIffSamePrefixBits(family, address, value.address, value.prefix);
    }
  }
}
