// Executable file names and the basename patterns generated for them
// (src-tauri/src/app_rule_matching.rs, src/appRuleMatching.ts).
module AppRuleMatching {
  import opened Text

  const PREFIX := "(?i)(?:^|[\\\\/])"

  // The characters of META: \ . + * ? ( ) | [ ] { } ^ $
  predicate IsMeta(c: char) {
    c == '\\' || c == '.' || c == '+' || c == '*' || c == '?' || c == '(' || c == ')' || c == '|'
    || c == '[' || c == ']' || c == '{' || c == '}' || c == '^' || c == '$'
  }

  predicate IsForbidden(c: char) {
    c == '\\' || c == '/' || c == ':' || c == '<' || c == '>' || c == '"' || c == '|' || c == '?' || c == '*'
  }

  predicate IsSeparator(c: char) {
    c == '\\' || c == '/'
  }

  // The text after the last separator.
  function ExecutableName(path: string): string {
    path[NameStart(path, |path|)..]
  }

  function NameStart(path: string, k: nat): (start: nat)
    requires k <= |path|
    ensures start <= k && forall i :: start <= i < k ==> !IsSeparator(path[i])
    ensures start == 0 || IsSeparator(path[start - 1])
  {
    if k == 0 || IsSeparator(path[k - 1]) then k else NameStart(path, k - 1)
  }

  function Stem(name: string): string {
    if name == "" || name[0] == '.' then "" else [name[0]] + Stem(name[1..])
  }

  // `text` starts with the three given letters.
  predicate Starts(text: string, a: char, b: char, c: char) {
    |text| >= 3 && text[0] == a && text[1] == b && text[2] == c
  }

  predicate ReservedLetters(text: string) {
    Starts(text, 'c', 'o', 'n') || Starts(text, 'p', 'r', 'n') || Starts(text, 'a', 'u', 'x') || Starts(text, 'n', 'u', 'l')
  }

  predicate PortLetters(text: string) {
    Starts(text, 'c', 'o', 'm') || Starts(text, 'l', 'p', 't')
  }

  // con, prn, aux, nul, com1..com9, lpt1..lpt9
  predicate Reserved(stem: string) {
    (|stem| == 3 && ReservedLetters(stem)) || (|stem| == 4 && PortLetters(stem) && '1' <= stem[3] <= '9')
  }

  predicate EndsWithExe(s: string) {
    |s| >= 4 && s[|s| - 4] == '.' && s[|s| - 3] == 'e' && s[|s| - 2] == 'x' && s[|s| - 1] == 'e'
  }

  // `name != name.trim()` is written as IsTrimmed; TrimmedIffTrimIsIdentity relates the two.
  predicate ValidExecutableName(name: string) {
    && !(Utf8Len(name) > 260)
    && !(Utf8Len(name) <= 4)
    && EndsWithExe(Lower(name))
    && IsTrimmed(name)
    && !Reserved(Stem(Lower(name)))
    && forall c :: c in name ==> !IsControl(c) && !IsForbidden(c)
  }

  // ---- The UI's own check -------------------------------------------------

  // UTF-16 length of a text (JavaScript `length`).
  function Utf16Len(s: string): nat {
    if s == "" then 0 else (if s[0] as int >= 0x10000 then 2 else 1) + Utf16Len(s[1..])
  }

  // /^(con|prn|aux|nul|com[1-9]|lpt[1-9])\./
  predicate UiReserved(lower: string) {
    (|lower| >= 4 && ReservedLetters(lower) && lower[3] == '.')
    || (|lower| >= 5 && PortLetters(lower) && '1' <= lower[3] <= '9' && lower[4] == '.')
  }

  predicate UiValidExecutableName(name: string) {
    && Utf8Len(name) <= 260
    && Utf16Len(name) > 4
    && EndsWithExe(Lower(name))
    && (name == "" || (!IsJsWhite(name[0]) && !IsJsWhite(name[|name| - 1])))
    && !(exists c :: c in name && (IsControl(c) || IsForbidden(c)))
    && !UiReserved(Lower(name))
  }

  lemma {:induction false} Utf16LenAtLeast(s: string)
    ensures |s| <= Utf16Len(s) <= Utf8Len(s)
  {
    if s != "" { Utf16LenAtLeast(s[1..]); }
  }

  lemma {:induction false} StemUpToDot(s: string, k: nat)
    requires k < |s| && s[k] == '.' && forall i :: 0 <= i < k ==> s[i] != '.'
    ensures Stem(s) == s[..k]
  {
    if k > 0 {
      StemUpToDot(s[1..], k - 1);
      assert s[..k] == [s[0]] + s[1..][..k - 1];
    }
  }

  lemma {:induction false} StemIsPrefix(s: string)
    ensures Stem(s) <= s && forall i :: 0 <= i < |Stem(s)| ==> s[i] != '.'
    ensures |Stem(s)| < |s| ==> s[|Stem(s)|] == '.'
  {
    if s != "" && s[0] != '.' { StemIsPrefix(s[1..]); }
  }

  lemma ReservedAgrees(lower: string)
    requires EndsWithExe(lower)
    ensures Reserved(Stem(lower)) <==> UiReserved(lower)
  {
    StemIsPrefix(lower);
    var stem := Stem(lower);
    assert forall i :: 0 <= i < |stem| ==> stem[i] == lower[i];
    if |lower| >= 4 && ReservedLetters(lower) && lower[3] == '.' { StemUpToDot(lower, 3); }
    if |lower| >= 5 && PortLetters(lower) && '1' <= lower[3] <= '9' && lower[4] == '.' { StemUpToDot(lower, 4); }
  }

  // The UI and the backend accept the same names, except for a leading byte-order mark.
  lemma UiNameCheckAgrees(name: string)
    ensures UiValidExecutableName(name) <==>
            ValidExecutableName(name) && (name == "" || name[0] as int != 0xfeff)
  {
    Utf8LenAtLeast(name);
    Utf16LenAtLeast(name);
    if EndsWithExe(Lower(name)) {
      ReservedAgrees(Lower(name));
      assert AsciiLower(name[|name| - 1]) == 'e';
      assert name[|name| - 1] in name && name[0] in name;
      if |name| == 4 {
        ExactlyExe(name);
      }
    }
  }

  // The one difference: a file name that begins with a byte-order mark.
  lemma ByteOrderMarkDiffers()
    ensures ValidExecutableName(MarkedName()) && !UiValidExecutableName(MarkedName())
  {
    var name := MarkedName();
    assert Lower(name) == name;
    assert name[1..] == ['.', 'e', 'x', 'e'] && IsAscii(name[1..]);
    Utf8LenAscii(name[1..]);
    assert Stem(name) == [name[0]] + Stem(name[1..]) && Stem(name[1..]) == "";
    UiNameCheckAgrees(name);
  }

  function MarkedName(): string { [0xfeff as char, '.', 'e', 'x', 'e'] }

  lemma ExactlyExe(name: string)
    requires |name| == 4 && EndsWithExe(Lower(name))
    ensures Utf8Len(name) == 4 && Utf16Len(name) == 4
  {
    forall c | c in name ensures c as int < 0x80 {
      var i :| 0 <= i < 4 && name[i] == c;
      assert Lower(name)[i] == AsciiLower(c);
    }
    Utf8LenAscii(name);
    Utf16LenAtLeast(name);
  }

  // ---- Printing ---------------------------------------------------------

  function Escape(name: string): string {
    if name == "" then ""
    else Escape(name[..|name| - 1]) + (if IsMeta(name[|name| - 1]) then ['\\', name[|name| - 1]] else [name[|name| - 1]])
  }

  function NamePattern(name: string): string {
    PREFIX + Escape(name) + "$"
  }

  method ExecutableNamePattern(name: string) returns (pattern: Option<string>)
    ensures pattern == if ValidExecutableName(name) then Some(NamePattern(name)) else None
  {
    if !ValidExecutableName(name) { return None; }
    var text := PREFIX;
    for i := 0 to |name|
      invariant text == PREFIX + Escape(name[..i])
    {
      assert name[..i + 1][..i] == name[..i];
      if IsMeta(name[i]) { text := text + ['\\']; }
      text := text + [name[i]];
    }
    assert name[..|name|] == name;
    return Some(text + ['$']);
  }

  lemma {:induction false} EscapeFront(c: char, rest: string)
    ensures Escape([c] + rest) == (if IsMeta(c) then ['\\', c] else [c]) + Escape(rest)
  {
    if rest == "" {
      assert [c] + rest == [c];
      assert ([c])[..0] == "";
    } else {
      var n := |rest| - 1;
      EscapeFront(c, rest[..n]);
      assert ([c] + rest)[..n + 1] == [c] + rest[..n];
    }
  }

  // ---- Decoding ---------------------------------------------------------

  function Unescape(literal: string): Option<string> {
    if literal == "" then Some("")
    else if literal[0] == '\\' then
      if |literal| < 2 || !IsMeta(literal[1]) then None
      else match Unescape(literal[2..]) case Some(s) => Some([literal[1]] + s) case None => None
    else if IsMeta(literal[0]) then None
    else match Unescape(literal[1..]) case Some(s) => Some([literal[0]] + s) case None => None
  }

  lemma {:induction false} UnescapeInvertsEscape(name: string)
    ensures Unescape(Escape(name)) == Some(name)
  {
    if name != "" {
      var c, rest := name[0], name[1..];
      assert name == [c] + rest;
      EscapeFront(c, rest);
      UnescapeInvertsEscape(rest);
      if IsMeta(c) {
        assert Escape(name)[2..] == Escape(rest);
      } else {
        assert c != '\\';
        assert Escape(name)[1..] == Escape(rest);
      }
    }
  }

  lemma {:induction false} EscapeInvertsUnescape(literal: string)
    requires Unescape(literal).Some?
    ensures Escape(Unescape(literal).value) == literal
  {
    if literal != "" {
      if literal[0] == '\\' {
        EscapeInvertsUnescape(literal[2..]);
        EscapeFront(literal[1], Unescape(literal[2..]).value);
      } else {
        EscapeInvertsUnescape(literal[1..]);
        EscapeFront(literal[0], Unescape(literal[1..]).value);
      }
    }
  }

  lemma {:induction false} EscapeLength(name: string)
    ensures Utf8Len(Escape(name)) <= 2 * Utf8Len(name)
  {
    if name != "" {
      var n := |name| - 1;
      EscapeLength(name[..n]);
      assert name == name[..n] + [name[n]];
      Utf8LenConcat(name[..n], [name[n]]);
      var tail := if IsMeta(name[n]) then ['\\', name[n]] else [name[n]];
      Utf8LenConcat(Escape(name[..n]), tail);
      assert ['\\', name[n]][1..] == [name[n]];
    }
  }

  lemma WrappedLength(prefix: string, body: string)
    requires IsAscii(prefix)
    ensures Utf8Len(prefix + body + "$") == |prefix| + Utf8Len(body) + 1
  {
    Utf8LenConcat(prefix + body, "$");
    Utf8LenConcat(prefix, body);
    Utf8LenAscii(prefix);
    Utf8LenAscii("$");
  }

  lemma PatternLength(name: string)
    requires ValidExecutableName(name)
    ensures Utf8Len(NamePattern(name)) <= |PREFIX| + 260 * 2 + 1
  {
    WrappedLength(PREFIX, Escape(name));
    EscapeLength(name);
  }

  method DecodeLiteral(literal: string) returns (decoded: Option<string>)
    ensures decoded == Unescape(literal)
  {
    var name := "";
    var i := 0;
    assert literal[0..] == literal && forall t: string :: "" + t == t;
    while i < |literal|
      invariant 0 <= i <= |literal|
      invariant Unescape(literal) == match Unescape(literal[i..]) case Some(s) => Some(name + s) case None => None
      decreases |literal| - i
    {
      var c, rest, before := literal[i], literal[i..], name;
      i := i + 1;
      if c == '\\' {
        if i == |literal| { return None; }
        var escaped := literal[i];
        if !IsMeta(escaped) { return None; }
        i := i + 1;
        assert rest[2..] == literal[i..];
        name := name + [escaped];
        assert forall t: string :: before + ([escaped] + t) == name + t;
      } else {
        if IsMeta(c) { return None; }
        assert rest[1..] == literal[i..];
        name := name + [c];
        assert forall t: string :: before + ([c] + t) == name + t;
      }
    }
    assert literal[i..] == "" && name + "" == name;
    return Some(name);
  }

  // The decoder accepts exactly the texts the printer produces.
  method ValidateExecutableNamePattern(pattern: string) returns (ok: bool)
    ensures ok <==> exists name :: ValidExecutableName(name) && pattern == NamePattern(name)
  {
    if Utf8Len(pattern) > |PREFIX| + 260 * 2 + 1 {
      forall name | ValidExecutableName(name) ensures pattern != NamePattern(name) { PatternLength(name); }
      return false;
    }
    if !(PREFIX <= pattern) || pattern[|PREFIX|..] == "" || pattern[|pattern| - 1] != '$' {
      return false;
    }
    var literal := pattern[|PREFIX|..|pattern| - 1];
    assert pattern == PREFIX + literal + "$";
    forall name | pattern == NamePattern(name) ensures Unescape(literal) == Some(name) {
      assert literal == Escape(name);
      UnescapeInvertsEscape(name);
    }
    var decoded := DecodeLiteral(literal);
    if decoded.None? { return false; }
    var name := decoded.value;
    EscapeInvertsUnescape(literal);
    var expected := ExecutableNamePattern(name);
    ok := expected == Some(pattern);
  }

  lemma PatternInjective(a: string, b: string)
    ensures NamePattern(a) == NamePattern(b) ==> a == b
  {
    if NamePattern(a) == NamePattern(b) {
      assert Escape(a) == NamePattern(a)[|PREFIX|..|NamePattern(a)| - 1];
      assert Escape(b) == NamePattern(b)[|PREFIX|..|NamePattern(b)| - 1];
      UnescapeInvertsEscape(a);
      UnescapeInvertsEscape(b);
    }
  }

  // ---- What a generated pattern matches ---------------------------------

  // The fragment of Go's regular expressions that generated patterns use, read
  // with the flag (?i); `$` and `^` are the ends of the whole text.
  datatype Regex =
    | Empty | Start | End
    | Class(members: set<char>)
    | Literal(c: char)
    | Either(left: Regex, right: Regex)
    | Then(first: Regex, second: Regex)

  ghost predicate MatchesAt(re: Regex, s: string, i: nat, j: nat)
    requires i <= j <= |s|
    decreases re
  {
    match re
    case Empty => i == j
    case Start => i == j == 0
    case End => i == j == |s|
    case Class(members) => j == i + 1 && s[i] in members
    case Literal(c) => j == i + 1 && AsciiLower(s[i]) == AsciiLower(c)
    case Either(l, r) => MatchesAt(l, s, i, j) || MatchesAt(r, s, i, j)
    case Then(f, g) => exists k: nat :: i <= k <= j && MatchesAt(f, s, i, k) && MatchesAt(g, s, k, j)
  }

  ghost predicate Search(re: Regex, s: string) {
    exists i: nat, j: nat :: i <= j <= |s| && MatchesAt(re, s, i, j)
  }

  function ReadItems(text: string): Option<Regex> {
    if text == "" then Some(Empty)
    else if text[0] == '\\' then
      if |text| < 2 || !IsMeta(text[1]) then None
      else match ReadItems(text[2..]) case Some(r) => Some(Then(Literal(text[1]), r)) case None => None
    else if text[0] == '$' then
      match ReadItems(text[1..]) case Some(r) => Some(Then(End, r)) case None => None
    else if IsMeta(text[0]) then None
    else match ReadItems(text[1..]) case Some(r) => Some(Then(Literal(text[0]), r)) case None => None
  }

  function ReadRegex(pattern: string): Option<Regex> {
    if !(PREFIX <= pattern) then None
    else match ReadItems(pattern[|PREFIX|..])
      case Some(r) => Some(Then(Either(Start, Class({'\\', '/'})), r))
      case None => None
  }

  predicate EqualFold(a: string, b: string) {
    Lower(a) == Lower(b)
  }

  lemma ItemsOfEscape(c: char, rest: string)
    requires ReadItems(Escape(rest) + "$").Some?
    ensures ReadItems(Escape([c] + rest) + "$") == Some(Then(Literal(c), ReadItems(Escape(rest) + "$").value))
  {
    EscapeFront(c, rest);
    var text, tail := Escape([c] + rest) + "$", Escape(rest) + "$";
    if IsMeta(c) {
      assert text[0] == '\\' && text[1] == c && text[2..] == tail;
    } else {
      assert text[0] == c && text[1..] == tail;
    }
  }

  lemma LiteralFirst(c: char, re: Regex, s: string, i: nat, j: nat)
    requires i <= j <= |s|
    ensures MatchesAt(Then(Literal(c), re), s, i, j)
            <==> i < j && AsciiLower(s[i]) == AsciiLower(c) && MatchesAt(re, s, i + 1, j)
  {
    if i < j && AsciiLower(s[i]) == AsciiLower(c) && MatchesAt(re, s, i + 1, j) {
      assert MatchesAt(Literal(c), s, i, i + 1);
    }
  }

  lemma AtEnd(s: string, i: nat, j: nat)
    requires i <= j <= |s|
    ensures MatchesAt(Then(End, Empty), s, i, j) <==> i == j == |s|
  {
    if i == j == |s| {
      assert MatchesAt(End, s, i, j) && MatchesAt(Empty, s, j, j);
    }
  }

  lemma {:induction false} ItemsReadable(name: string)
    ensures ReadItems(Escape(name) + "$").Some?
    ensures name == "" ==> ReadItems(Escape(name) + "$") == Some(Then(End, Empty))
  {
    if name == "" {
      assert Escape(name) + "$" == "$" && "$"[1..] == "";
      assert '$' != '\\';
    } else {
      ItemsReadable(name[1..]);
      assert name == [name[0]] + name[1..];
      ItemsOfEscape(name[0], name[1..]);
    }
  }

  lemma {:induction false} ItemsMatch(name: string, s: string, i: nat, j: nat)
    requires i <= j <= |s| && ReadItems(Escape(name) + "$").Some?
    ensures MatchesAt(ReadItems(Escape(name) + "$").value, s, i, j)
            <==> j == |s| && i + |name| == |s| && EqualFold(s[i..], name)
    decreases |name|
  {
    ItemsReadable(name);
    if name == "" {
      AtEnd(s, i, j);
    } else {
      var c, rest := name[0], name[1..];
      assert name == [c] + rest;
      ItemsReadable(rest);
      ItemsOfEscape(c, rest);
      LiteralFirst(c, ReadItems(Escape(rest) + "$").value, s, i, j);
      if i < j {
        ItemsMatch(rest, s, i + 1, j);
        FoldFront(s, i, name);
      }
    }
  }

  lemma FoldFront(s: string, i: nat, name: string)
    requires i < |s| && name != ""
    ensures EqualFold(s[i..], name) <==> AsciiLower(s[i]) == AsciiLower(name[0]) && EqualFold(s[i + 1..], name[1..])
  {
    assert s[i..] == [s[i]] + s[i + 1..];
    assert Lower(s[i..]) == [AsciiLower(s[i])] + Lower(s[i + 1..]);
    assert Lower(name) == [AsciiLower(name[0])] + Lower(name[1..]);
    if EqualFold(s[i..], name) {
      assert Lower(s[i..])[0] == Lower(name)[0];
      assert Lower(s[i..])[1..] == Lower(name)[1..];
    }
  }

  lemma TailElements(path: string, i: nat)
    requires i <= |path| && forall c :: c in path[i..] ==> !IsSeparator(c)
    ensures forall m :: i <= m < |path| ==> !IsSeparator(path[m])
  {
    forall m | i <= m < |path| ensures !IsSeparator(path[m]) {
      assert path[m] == path[i..][m - i];
    }
  }

  lemma SuffixWithoutSeparator(path: string, i: nat)
    requires i <= |path| && (forall c :: c in path[i..] ==> !IsSeparator(c))
    requires i == 0 || IsSeparator(path[i - 1])
    ensures path[i..] == ExecutableName(path)
  {
    TailElements(path, i);
    var k := NameStart(path, |path|);
    assert k == i;
  }

  // A generated pattern is readable and finds a match in a path exactly when the
  // path's file name is the given name, ignoring ASCII case.
  lemma PatternMatchesBasename(name: string, path: string)
    requires ValidExecutableName(name) && IsAscii(name) && IsAscii(path)
    ensures ReadRegex(NamePattern(name)).Some?
    ensures Search(ReadRegex(NamePattern(name)).value, path) <==> EqualFold(ExecutableName(path), name)
  {
    ItemsReadable(name);
    PatternReadable(name);
    SearchIffBasename(name, path, ReadItems(Escape(name) + "$").value);
  }

  const BOUNDARY := Either(Start, Class({'\\', '/'}))

  lemma PatternReadable(name: string)
    requires ReadItems(Escape(name) + "$").Some?
    ensures ReadRegex(NamePattern(name)) == Some(Then(BOUNDARY, ReadItems(Escape(name) + "$").value))
  {
    assert PREFIX <= NamePattern(name) && NamePattern(name)[|PREFIX|..] == Escape(name) + "$";
  }

  lemma MatchIsBasename(name: string, path: string, i: nat, j: nat)
    requires ReadItems(Escape(name) + "$").Some? && forall c :: c in name ==> !IsForbidden(c)
    requires i <= j <= |path| && MatchesAt(Then(BOUNDARY, ReadItems(Escape(name) + "$").value), path, i, j)
    ensures EqualFold(ExecutableName(path), name)
  {
    var items := ReadItems(Escape(name) + "$").value;
    var k: nat :| i <= k <= j && MatchesAt(BOUNDARY, path, i, k) && MatchesAt(items, path, k, j);
    ItemsMatch(name, path, k, j);
    FoldKeepsSeparators(path[k..], name);
    assert k == 0 || IsSeparator(path[k - 1]) by {
      assert MatchesAt(Start, path, i, k) || MatchesAt(Class({'\\', '/'}), path, i, k);
    }
    SuffixWithoutSeparator(path, k);
  }

  lemma SearchIffBasename(name: string, path: string, items: Regex)
    requires ReadItems(Escape(name) + "$") == Some(items) && forall c :: c in name ==> !IsForbidden(c)
    ensures Search(Then(BOUNDARY, items), path) <==> EqualFold(ExecutableName(path), name)
  {
    if Search(Then(BOUNDARY, items), path) {
      var i: nat, j: nat :| i <= j <= |path| && MatchesAt(Then(BOUNDARY, items), path, i, j);
      MatchIsBasename(name, path, i, j);
    }
    if EqualFold(ExecutableName(path), name) {
      BasenameIsMatched(name, path);
    }
  }

  lemma BasenameIsMatched(name: string, path: string)
    requires EqualFold(ExecutableName(path), name) && ReadItems(Escape(name) + "$").Some?
    ensures Search(Then(BOUNDARY, ReadItems(Escape(name) + "$").value), path)
  {
    var base, items := ExecutableName(path), ReadItems(Escape(name) + "$").value;
    assert |Lower(base)| == |base| && |Lower(name)| == |name|;
    var k := NameStart(path, |path|);
    ItemsMatch(name, path, k, |path|);
    var i: nat := if k == 0 then 0 else k - 1;
    if k == 0 {
      assert MatchesAt(Start, path, i, k);
    } else {
      assert MatchesAt(Class({'\\', '/'}), path, i, k);
    }
    assert MatchesAt(BOUNDARY, path, i, k) && MatchesAt(items, path, k, |path|);
    assert MatchesAt(Then(BOUNDARY, items), path, i, |path|);
  }

  lemma FoldKeepsSeparators(s: string, name: string)
    requires EqualFold(s, name) && forall c :: c in name ==> !IsForbidden(c)
    ensures forall c :: c in s ==> !IsSeparator(c)
  {
    assert |Lower(s)| == |s| && |Lower(name)| == |name|;
    forall i | 0 <= i < |s| ensures !IsSeparator(s[i]) {
      assert Lower(s)[i] == Lower(name)[i];
      assert name[i] in name;
    }
  }
}
