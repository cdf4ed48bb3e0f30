// Version text, its parsing and precedence, and what a release announcement leads to
// (src-tauri/src/app_updates.rs:146-282; Semantic Versioning 2.0.0, sections 2, 9 and 11).
module Versions {
  import opened Text

  const U64_MAX: nat := 0xffff_ffff_ffff_ffff

  datatype PrePart = Numeric(number: nat) | Word(text: string)
  datatype Version = Version(major: nat, minor: nat, patch: nat, pre: Option<seq<PrePart>>)

  // ---- Parsing ----------------------------------------------------------

  // The first `c` at or after `i`, or the length.
  function Find(s: string, c: char, i: nat): (k: nat)
    requires i <= |s|
    ensures i <= k <= |s| && (k < |s| ==> s[k] == c) && forall j :: i <= j < k ==> s[j] != c
    decreases |s| - i
  {
    if i == |s| || s[i] == c then i else Find(s, c, i + 1)
  }

  // `split('.')`
  function Split(s: string): (parts: seq<string>)
    ensures |parts| >= 1
    decreases |s|
  {
    var k := Find(s, '.', 0);
    if k == |s| then [s] else [s[..k]] + Split(s[k + 1..])
  }

  predicate IsDigit(c: char) { '0' <= c <= '9' }
  predicate IsWordChar(c: char) { IsDigit(c) || 'a' <= c <= 'z' || 'A' <= c <= 'Z' || c == '-' }
  predicate AllDigits(s: string) { forall i :: 0 <= i < |s| ==> IsDigit(s[i]) }
  predicate AllWordChars(s: string) { forall i :: 0 <= i < |s| ==> IsWordChar(s[i]) }

  function Value(s: string): nat {
    if s == "" then 0
    else 10 * Value(s[..|s| - 1]) + if IsDigit(s[|s| - 1]) then s[|s| - 1] as int - '0' as int else 0
  }

  // A number of the core: no leading zero, only digits, within 64 bits.
  function Number(item: string): Option<nat> {
    if item == "" || (|item| > 1 && item[0] == '0') then None
    else if AllDigits(item) && Value(item) <= U64_MAX then Some(Value(item)) else None
  }

  function ParsePart(part: string): Option<PrePart> {
    if part == "" || !AllWordChars(part) then None
    else if AllDigits(part) then (match Number(part) case Some(n) => Some(Numeric(n)) case None => None)
    else Some(Word(part))
  }

  function ParseParts(parts: seq<string>): Option<seq<PrePart>> {
    if parts == [] then Some([])
    else match (ParsePart(parts[0]), ParseParts(parts[1..]))
      case (Some(p), Some(rest)) => Some([p] + rest)
      case _ => None
  }

  function ParseCore(core: string): Option<(nat, nat, nat)> {
    var items := Split(core);
    if |items| != 3 then None
    else match (Number(items[0]), Number(items[1]), Number(items[2]))
      case (Some(major), Some(minor), Some(patch)) => Some((major, minor, patch))
      case _ => None
  }

  function Parse(value: string): Option<Version> {
    if value == "" || Utf8Len(value) > 64 || '+' in value then None
    else
      var k := Find(value, '-', 0);
      match ParseCore(value[..k])
      case None => None
      case Some((major, minor, patch)) =>
        if k == |value| then Some(Version(major, minor, patch, None))
        else match ParseParts(Split(value[k + 1..]))
          case None => None
          case Some(pre) => Some(Version(major, minor, patch, Some(pre)))
  }

  // ---- Rendering --------------------------------------------------------

  function Digits(n: nat): string {
    if n < 10 then [('0' as int + n) as char] else Digits(n / 10) + [('0' as int + n % 10) as char]
  }

  function Join(parts: seq<string>): string {
    if parts == [] then ""
    else if |parts| == 1 then parts[0]
    else parts[0] + (['.'] + Join(parts[1..]))
  }

  function RenderPart(part: PrePart): string {
    match part case Numeric(n) => Digits(n) case Word(text) => text
  }

  function RenderParts(parts: seq<PrePart>): seq<string> {
    seq(|parts|, i requires 0 <= i < |parts| => RenderPart(parts[i]))
  }

  function Core(v: Version): string { Join([Digits(v.major), Digits(v.minor), Digits(v.patch)]) }

  function Render(v: Version): string {
    Core(v) + if v.pre.None? then "" else ['-'] + Join(RenderParts(v.pre.value))
  }

  predicate WellFormedPart(part: PrePart) {
    match part
    case Numeric(n) => n <= U64_MAX
    case Word(text) =>
      && (forall i :: 0 <= i < |text| ==>
            '0' <= text[i] <= '9' || 'a' <= text[i] <= 'z' || 'A' <= text[i] <= 'Z' || text[i] == '-')
      && exists i :: 0 <= i < |text| && !('0' <= text[i] <= '9')
  }

  predicate WellFormed(v: Version) {
    && v.major <= U64_MAX && v.minor <= U64_MAX && v.patch <= U64_MAX
    && (v.pre.Some? ==> v.pre.value != [] && forall i :: 0 <= i < |v.pre.value| ==> WellFormedPart(v.pre.value[i]))
  }

  // ---- Numbers ----------------------------------------------------------

  lemma {:induction false} DigitsFacts(n: nat)
    ensures Digits(n) != "" && AllDigits(Digits(n)) && Value(Digits(n)) == n
    ensures |Digits(n)| > 1 ==> Digits(n)[0] != '0'
    ensures n > 0 ==> Digits(n)[0] != '0'
  {
    if n >= 10 {
      DigitsFacts(n / 10);
      var s, d := Digits(n / 10), ('0' as int + n % 10) as char;
      assert (s + [d])[..|s|] == s;
    } else {
      var s := Digits(n);
      assert s[..0] == "";
    }
  }

  lemma {:induction false} ValueFacts(s: string)
    requires s != "" && AllDigits(s) && (|s| > 1 ==> s[0] != '0')
    ensures Digits(Value(s)) == s
    ensures |s| > 1 ==> Value(s) >= 10
  {
    var init, d := s[..|s| - 1], s[|s| - 1];
    assert s == init + [d] && IsDigit(d);
    if init != "" {
      ValueFacts(init);
      if |init| == 1 {
        assert init[0] == s[0];
        assert init[..0] == "";
      }
      assert Value(s) / 10 == Value(init);
    }
  }

  lemma NumberOfDigits(n: nat)
    requires n <= U64_MAX
    ensures Number(Digits(n)) == Some(n)
  {
    DigitsFacts(n);
  }

  lemma DigitsOfNumber(item: string)
    requires Number(item).Some?
    ensures Digits(Number(item).value) == item && Number(item).value <= U64_MAX
  {
    ValueFacts(item);
  }

  // ---- Splitting and joining --------------------------------------------

  lemma {:induction false} JoinOfSplit(s: string)
    ensures Join(Split(s)) == s
    decreases |s|
  {
    var k := Find(s, '.', 0);
    if k < |s| {
      JoinOfSplit(s[k + 1..]);
      var rest := Split(s[k + 1..]);
      assert ([s[..k]] + rest)[1..] == rest;
      assert s == s[..k] + (['.'] + s[k + 1..]);
    }
  }

  predicate NoDots(parts: seq<string>) { forall i :: 0 <= i < |parts| ==> '.' !in parts[i] }

  // A text is cut at its first `c`.
  lemma CutAt(c: char, first: string, rest: string)
    requires c !in first
    ensures var s := first + ([c] + rest);
            Find(s, c, 0) == |first| && s[..|first|] == first && s[|first| + 1..] == rest
  {
    var s := first + ([c] + rest);
    assert forall j :: 0 <= j < |first| ==> s[j] == first[j];
    assert s[|first|] == c;
  }

  lemma {:induction false} SplitOfJoin(parts: seq<string>)
    requires parts != [] && NoDots(parts)
    ensures Split(Join(parts)) == parts
  {
    if |parts| == 1 {
      assert Find(Join(parts), '.', 0) == |Join(parts)|;
    } else {
      SplitOfJoin(parts[1..]);
      CutAt('.', parts[0], Join(parts[1..]));
    }
  }

  // ---- Round trips ------------------------------------------------------

  lemma PartFacts(part: PrePart)
    requires WellFormedPart(part)
    ensures ParsePart(RenderPart(part)) == Some(part) && AllWordChars(RenderPart(part))
    ensures '.' !in RenderPart(part) && '+' !in RenderPart(part)
  {
    if part.Numeric? {
      DigitsFacts(part.number);
      NumberOfDigits(part.number);
    }
    var text := RenderPart(part);
    assert forall i :: 0 <= i < |text| ==> IsWordChar(text[i]);
  }

  lemma RenderOfPart(text: string)
    requires ParsePart(text).Some?
    ensures RenderPart(ParsePart(text).value) == text && WellFormedPart(ParsePart(text).value)
  {
    if AllDigits(text) { DigitsOfNumber(text); }
  }

  lemma {:induction false} PartsOfRender(parts: seq<PrePart>)
    requires forall i :: 0 <= i < |parts| ==> WellFormedPart(parts[i])
    ensures ParseParts(RenderParts(parts)) == Some(parts) && NoDots(RenderParts(parts))
  {
    if parts != [] {
      var texts := RenderParts(parts);
      PartFacts(parts[0]);
      assert texts[1..] == RenderParts(parts[1..]);
      PartsOfRender(parts[1..]);
      assert parts == [parts[0]] + parts[1..];
      forall i | 0 <= i < |texts| ensures '.' !in texts[i] { if i > 0 { assert texts[i] == texts[1..][i - 1]; } }
    }
  }

  lemma {:induction false} RenderOfParts(texts: seq<string>)
    requires ParseParts(texts).Some?
    ensures RenderParts(ParseParts(texts).value) == texts
    ensures forall i :: 0 <= i < |ParseParts(texts).value| ==> WellFormedPart(ParseParts(texts).value[i])
  {
    if texts != [] {
      RenderOfPart(texts[0]);
      RenderOfParts(texts[1..]);
      var parts, rest := ParseParts(texts).value, ParseParts(texts[1..]).value;
      assert parts == [ParsePart(texts[0]).value] + rest;
      assert RenderParts(parts) == [texts[0]] + RenderParts(rest);
    }
  }

  // How the parts of an accepted text make up the version; `k` is where its first dash is.
  ghost predicate Shape(value: string, k: nat, v: Version) {
    && k <= |value| && ParseCore(value[..k]) == Some((v.major, v.minor, v.patch))
    && (if k == |value| then v.pre.None? else v.pre.Some? && ParseParts(Split(value[k + 1..])) == v.pre)
  }

  lemma ParseShape(value: string, v: Version)
    ensures Parse(value) == Some(v) <==>
            value != "" && Utf8Len(value) <= 64 && '+' !in value && Shape(value, Find(value, '-', 0), v)
  {}

  // Rendering what was parsed gives back the exact text.
  lemma RenderOfParse(value: string)
    requires Parse(value).Some?
    ensures Render(Parse(value).value) == value && WellFormed(Parse(value).value)
  {
    var v := Parse(value).value;
    ParseShape(value, v);
    RenderOfShape(value, Find(value, '-', 0), v);
  }

  lemma RenderOfShape(value: string, k: nat, v: Version)
    requires Shape(value, k, v) && (k < |value| ==> value[k] == '-')
    ensures Render(v) == value && WellFormed(v)
  {
    CoreOfParse(value[..k]);
    assert Core(v) == value[..k];
    if k < |value| {
      PreOfParse(value[k + 1..]);
      Uncut(value, k);
    } else {
      assert value[..k] == value && value + "" == value;
    }
  }

  lemma Uncut(s: string, k: nat)
    requires k < |s|
    ensures s[..k] + ([s[k]] + s[k + 1..]) == s
  {}

  lemma PreOfParse(pre: string)
    requires ParseParts(Split(pre)).Some?
    ensures var parts := ParseParts(Split(pre)).value;
            && Join(RenderParts(parts)) == pre && parts != []
            && forall i :: 0 <= i < |parts| ==> WellFormedPart(parts[i])
  {
    RenderOfParts(Split(pre));
    JoinOfSplit(pre);
  }

  lemma CoreOfParse(core: string)
    requires ParseCore(core).Some?
    ensures var (major, minor, patch) := ParseCore(core).value;
            && Join([Digits(major), Digits(minor), Digits(patch)]) == core
            && major <= U64_MAX && minor <= U64_MAX && patch <= U64_MAX
  {
    var items := Split(core);
    DigitsOfNumber(items[0]);
    DigitsOfNumber(items[1]);
    DigitsOfNumber(items[2]);
    JoinOfSplit(core);
    assert items == [items[0], items[1], items[2]];
  }

  lemma CoreFacts(v: Version)
    requires v.major <= U64_MAX && v.minor <= U64_MAX && v.patch <= U64_MAX
    ensures ParseCore(Core(v)) == Some((v.major, v.minor, v.patch))
    ensures Core(v) != "" && '-' !in Core(v) && '+' !in Core(v)
  {
    var a, b, c := Digits(v.major), Digits(v.minor), Digits(v.patch);
    PlainDigits(v.major);
    PlainDigits(v.minor);
    PlainDigits(v.patch);
    SplitOfJoin([a, b, c]);
    ThreeJoined(a, b, c);
    PlainJoined(a, b, c);
  }

  lemma PlainDigits(n: nat)
    requires n <= U64_MAX
    ensures Number(Digits(n)) == Some(n)
    ensures '.' !in Digits(n) && '-' !in Digits(n) && '+' !in Digits(n)
  {
    NumberOfDigits(n);
    DigitsFacts(n);
    var s := Digits(n);
    assert forall i :: 0 <= i < |s| ==> IsDigit(s[i]);
  }

  lemma PlainJoined(a: string, b: string, c: string)
    requires '-' !in a && '-' !in b && '-' !in c && '+' !in a && '+' !in b && '+' !in c
    ensures var s := a + (['.'] + (b + (['.'] + c))); s != "" && '-' !in s && '+' !in s
  {}

  lemma ThreeJoined(a: string, b: string, c: string)
    ensures Join([a, b, c]) == a + (['.'] + (b + (['.'] + c)))
  {
    JoinStep(c, []);
    JoinStep(b, [c]);
    JoinStep(a, [b, c]);
    assert [c] + [] == [c] && [b] + [c] == [b, c] && [a] + [b, c] == [a, b, c];
  }

  lemma {:induction false} NoPlusJoined(parts: seq<PrePart>)
    requires forall i :: 0 <= i < |parts| ==> WellFormedPart(parts[i])
    ensures '+' !in Join(RenderParts(parts))
  {
    if parts != [] {
      PartFacts(parts[0]);
      NoPlusJoined(parts[1..]);
      var first, rest := RenderPart(parts[0]), RenderParts(parts[1..]);
      assert RenderParts(parts) == [first] + rest;
      JoinStep(first, rest);
    }
  }

  lemma JoinStep(first: string, rest: seq<string>)
    ensures Join([first] + rest) == if rest == [] then first else first + (['.'] + Join(rest))
  {
    assert ([first] + rest)[1..] == rest;
  }

  // Every well-formed version that fits 64 bytes is read back from its rendering.
  lemma ParseOfRender(v: Version)
    requires WellFormed(v) && Utf8Len(Render(v)) <= 64
    ensures Parse(Render(v)) == Some(v)
  {
    ShapeOfRender(v);
    ParseShape(Render(v), v);
  }

  lemma ShapeOfRender(v: Version)
    requires WellFormed(v)
    ensures Render(v) != "" && '+' !in Render(v) && Shape(Render(v), Find(Render(v), '-', 0), v)
  {
    CoreFacts(v);
    if v.pre.None? {
      PlainShape(Core(v), v);
    } else {
      NoPlusJoined(v.pre.value);
      PartsOfRender(v.pre.value);
      SplitOfJoin(RenderParts(v.pre.value));
      DashedShape(Core(v), Join(RenderParts(v.pre.value)), v);
    }
  }

  lemma PlainShape(core: string, v: Version)
    requires '-' !in core && v.pre.None? && ParseCore(core) == Some((v.major, v.minor, v.patch))
    ensures core + "" == core && Shape(core, Find(core, '-', 0), v)
  {
    assert core[..|core|] == core && Find(core, '-', 0) == |core|;
  }

  lemma DashedShape(core: string, tail: string, v: Version)
    requires '-' !in core && ParseCore(core) == Some((v.major, v.minor, v.patch))
    requires v.pre.Some? && ParseParts(Split(tail)) == v.pre
    ensures var text := core + (['-'] + tail); Shape(text, Find(text, '-', 0), v)
  {
    CutAt('-', core, tail);
  }

  // ---- Precedence -------------------------------------------------------

  datatype Order = Less | Equal | Greater {
    function Flip(): Order {
      match this case Less => Greater case Equal => Equal case Greater => Less
    }
  }

  function CompareInt(a: int, b: int): Order {
    if a < b then Less else if a == b then Equal else Greater
  }

  function CompareChar(a: char, b: char): Order { CompareInt(a as int, b as int) }

  // The first difference decides, then the length.
  function CompareSeq<T>(compare: (T, T) -> Order, a: seq<T>, b: seq<T>): Order {
    if a == [] || b == [] then CompareInt(|a|, |b|)
    else if compare(a[0], b[0]) != Equal then compare(a[0], b[0])
    else CompareSeq(compare, a[1..], b[1..])
  }

  function ComparePart(a: PrePart, b: PrePart): Order {
    match (a, b)
    case (Numeric(x), Numeric(y)) => CompareInt(x, y)
    case (Numeric(_), Word(_)) => Less
    case (Word(_), Numeric(_)) => Greater
    case (Word(x), Word(y)) => CompareSeq(CompareChar, x, y)
  }

  function CompareCore(a: Version, b: Version): Order {
    if CompareInt(a.major, b.major) != Equal then CompareInt(a.major, b.major)
    else if CompareInt(a.minor, b.minor) != Equal then CompareInt(a.minor, b.minor)
    else CompareInt(a.patch, b.patch)
  }

  function ComparePre(a: Option<seq<PrePart>>, b: Option<seq<PrePart>>): Order {
    match (a, b)
    case (None, None) => Equal
    case (None, Some(_)) => Greater
    case (Some(_), None) => Less
    case (Some(left), Some(right)) => CompareSeq(ComparePart, left, right)
  }

  function Compare(a: Version, b: Version): Order {
    if CompareCore(a, b) != Equal then CompareCore(a, b) else ComparePre(a.pre, b.pre)
  }

  // ---- The order is total -----------------------------------------------

  ghost predicate Laws<T(!new)>(compare: (T, T) -> Order) {
    && (forall a, b :: compare(a, b) == Equal <==> a == b)
    && (forall a, b :: compare(b, a) == compare(a, b).Flip())
    && (forall a, b, c :: compare(a, b) == Less && compare(b, c) == Less ==> compare(a, c) == Less)
  }

  lemma {:induction false} SeqEqual<T(!new)>(compare: (T, T) -> Order, a: seq<T>, b: seq<T>)
    requires Laws(compare)
    ensures CompareSeq(compare, a, b) == Equal <==> a == b
    ensures CompareSeq(compare, b, a) == CompareSeq(compare, a, b).Flip()
  {
    if a != [] && b != [] {
      SeqEqual(compare, a[1..], b[1..]);
      assert a == [a[0]] + a[1..] && b == [b[0]] + b[1..];
      assert compare(b[0], a[0]) == compare(a[0], b[0]).Flip();
    }
  }

  lemma {:induction false} SeqTransitive<T(!new)>(compare: (T, T) -> Order, a: seq<T>, b: seq<T>, c: seq<T>)
    requires Laws(compare) && CompareSeq(compare, a, b) == Less && CompareSeq(compare, b, c) == Less
    ensures CompareSeq(compare, a, c) == Less
  {
    if a != [] && b != [] && c != [] {
      if compare(a[0], b[0]) == Equal && compare(b[0], c[0]) == Equal {
        SeqTransitive(compare, a[1..], b[1..], c[1..]);
      }
    }
  }

  lemma CharLaws()
    ensures Laws(CompareChar)
  {}

  lemma PartLaws()
    ensures Laws(ComparePart)
  {
    CharLaws();
    forall a, b
      ensures ComparePart(a, b) == Equal <==> a == b
      ensures ComparePart(b, a) == ComparePart(a, b).Flip()
    {
      if a.Word? && b.Word? { SeqEqual(CompareChar, a.text, b.text); }
    }
    forall a, b, c | ComparePart(a, b) == Less && ComparePart(b, c) == Less ensures ComparePart(a, c) == Less {
      if a.Word? && b.Word? && c.Word? { SeqTransitive(CompareChar, a.text, b.text, c.text); }
    }
  }

  lemma PreEqual(a: Option<seq<PrePart>>, b: Option<seq<PrePart>>)
    ensures ComparePre(a, b) == Equal <==> a == b
    ensures ComparePre(b, a) == ComparePre(a, b).Flip()
  {
    PartLaws();
    if a.Some? && b.Some? { SeqEqual(ComparePart, a.value, b.value); }
  }

  lemma PreTransitive(a: Option<seq<PrePart>>, b: Option<seq<PrePart>>, c: Option<seq<PrePart>>)
    requires ComparePre(a, b) == Less && ComparePre(b, c) == Less
    ensures ComparePre(a, c) == Less
  {
    PartLaws();
    if a.Some? && b.Some? && c.Some? { SeqTransitive(ComparePart, a.value, b.value, c.value); }
  }

  // Precedence is a total order in which only identical versions are equal.
  lemma CompareIsTotalOrder()
    ensures Laws(Compare)
  {
    forall a, b
      ensures Compare(a, b) == Equal <==> a == b
      ensures Compare(b, a) == Compare(a, b).Flip()
    {
      PreEqual(a.pre, b.pre);
    }
    forall a, b, c | Compare(a, b) == Less && Compare(b, c) == Less ensures Compare(a, c) == Less {
      if CompareCore(a, b) == Equal && CompareCore(b, c) == Equal { PreTransitive(a.pre, b.pre, c.pre); }
    }
  }

  // ---- Section 11 of Semantic Versioning 2.0.0 ---------------------------

  // `a` is below `b` at the first position where they differ, or runs out there.
  ghost predicate BelowAt<T>(below: (T, T) -> bool, a: seq<T>, b: seq<T>, k: int) {
    && 0 <= k <= |a| && k < |b| && a[..k] == b[..k]
    && (k == |a| || below(a[k], b[k]))
  }

  ghost predicate Below<T>(below: (T, T) -> bool, a: seq<T>, b: seq<T>) {
    exists k :: BelowAt(below, a, b, k)
  }

  ghost predicate PartBelow(a: PrePart, b: PrePart) {
    || (a.Numeric? && b.Numeric? && a.number < b.number)
    || (a.Numeric? && b.Word?)
    || (a.Word? && b.Word? && Below((x: char, y: char) => x < y, a.text, b.text))
  }

  ghost predicate Precedes(a: Version, b: Version) {
    || a.major < b.major
    || (a.major == b.major && a.minor < b.minor)
    || (a.major == b.major && a.minor == b.minor && a.patch < b.patch)
    || (a.major == b.major && a.minor == b.minor && a.patch == b.patch
        && a.pre.Some? && (b.pre.None? || Below((x, y) => PartBelow(x, y), a.pre.value, b.pre.value)))
  }

  lemma {:induction false} SeqBelow<T(!new)>(compare: (T, T) -> Order, below: (T, T) -> bool, a: seq<T>, b: seq<T>)
    requires Laws(compare) && forall x, y :: below(x, y) <==> compare(x, y) == Less
    ensures CompareSeq(compare, a, b) == Less <==> Below(below, a, b)
  {
    if a == [] || b == [] {
      if a == [] && b != [] { assert BelowAt(below, a, b, 0); }
    } else {
      SeqBelow(compare, below, a[1..], b[1..]);
      BelowStep(compare, below, a, b);
    }
  }

  lemma BelowStep<T(!new)>(compare: (T, T) -> Order, below: (T, T) -> bool, a: seq<T>, b: seq<T>)
    requires Laws(compare) && (forall x, y :: below(x, y) <==> compare(x, y) == Less) && a != [] && b != []
    ensures Below(below, a, b) <==> below(a[0], b[0]) || (a[0] == b[0] && Below(below, a[1..], b[1..]))
  {
    assert compare(a[0], a[0]) == Equal;
    if k :| BelowAt(below, a, b, k) {
      if k > 0 {
        assert a[..k][0] == b[..k][0];
        assert a[1..][..k - 1] == a[..k][1..] && b[1..][..k - 1] == b[..k][1..];
        assert BelowAt(below, a[1..], b[1..], k - 1);
      }
    }
    if below(a[0], b[0]) { assert BelowAt(below, a, b, 0); }
    if a[0] == b[0] && Below(below, a[1..], b[1..]) {
      var k :| BelowAt(below, a[1..], b[1..], k);
      assert a[..k + 1] == [a[0]] + a[1..][..k] && b[..k + 1] == [b[0]] + b[1..][..k];
      assert BelowAt(below, a, b, k + 1);
    }
  }

  // The comparison is the precedence of section 11.
  lemma CompareIsPrecedence(a: Version, b: Version)
    ensures Compare(a, b) == Less <==> Precedes(a, b)
  {
    PartLaws();
    forall x, y ensures PartBelow(x, y) <==> ComparePart(x, y) == Less {
      CharLaws();
      if x.Word? && y.Word? { SeqBelow(CompareChar, (x: char, y: char) => x < y, x.text, y.text); }
    }
    if a.pre.Some? && b.pre.Some? {
      SeqBelow(ComparePart, (x, y) => PartBelow(x, y), a.pre.value, b.pre.value);
    }
  }

  // ---- A release announcement -------------------------------------------

  datatype Announcement = Announcement(tag: string, draft: bool, prerelease: bool, urlExpected: bool)
  datatype Offer = Invalid | CurrentInvalid | UpToDate(latest: string) | Available(latest: string)

  function ParseRelease(release: Announcement, current: string): Offer {
    if release.draft || release.prerelease || !release.urlExpected || Utf8Len(release.tag) > 64
       || !(|release.tag| > 0 && release.tag[0] == 'v') then Invalid
    else
      var text := release.tag[1..];
      match Parse(text)
      case None => Invalid
      case Some(latest) =>
        if latest.pre.Some? then Invalid
        else match Parse(current)
          case None => CurrentInvalid
          case Some(installed) => if Compare(latest, installed) == Greater then Available(text) else UpToDate(text)
  }

  // An update is offered exactly for a published stable version, tagged with its canonical text,
  // that the installed version precedes.
  lemma OfferedIffNewer(release: Announcement, current: string, v: Version)
    requires Parse(current).Some? && WellFormed(v)
    ensures ParseRelease(release, current) == Available(Render(v)) <==>
            && !release.draft && !release.prerelease && release.urlExpected && v.pre.None?
            && release.tag == ['v'] + Render(v) && Utf8Len(release.tag) <= 64
            && Precedes(Parse(current).value, v)
  {
    CompareIsTotalOrder();
    CompareIsPrecedence(Parse(current).value, v);
    assert Compare(v, Parse(current).value) == Compare(Parse(current).value, v).Flip();
    if |release.tag| > 0 && release.tag[0] == 'v' {
      var text := release.tag[1..];
      assert release.tag == ['v'] + text;
      Utf8LenConcat(['v'], text);
      if Parse(text).Some? { RenderOfParse(text); }
      if text == Render(v) && Utf8Len(text) <= 64 { ParseOfRender(v); }
    }
  }
}
