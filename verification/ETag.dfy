/** Entity tags for optimistic concurrency: `"<prefix>-v<version>"`, as in sections 8.8.3 and 13.1.1 of
    RFC 9110. */
module ETag {
  import opened Domain
  import opened Text

  const MAX_I64: int := 0x7fff_ffff_ffff_ffff
  const DELETE: char := 127 as char

  datatype ApiResult<+T> = Ok(value: T) | Precondition | PreconditionFailed | Internal

  /** Bytes a header value may hold, and the ones that read back as text. */
  predicate HeaderChar(c: char) { c == '\t' || (c >= ' ' && c != DELETE) }

  predicate VisibleChar(c: char) { c == '\t' || ' ' <= c < DELETE }

  function PrintInt(n: int): string { if n < 0 then "-" + Print(-n) else Print(n) }

  function TagText(prefix: string, version: int): string {
    "\"" + prefix + "-v" + PrintInt(version) + "\""
  }

  function Tag(prefix: string, version: int): ApiResult<string> {
    if forall c :: c in TagText(prefix, version) ==> HeaderChar(c) then Ok(TagText(prefix, version)) else Internal
  }

  function StripPrefix(s: string, prefix: string): Option<string> {
    if prefix <= s then Some(s[|prefix|..]) else None
  }

  function StripSuffix(s: string, c: char): Option<string> {
    if s != [] && s[|s| - 1] == c then Some(s[..|s| - 1]) else None
  }

  /** Rust's `i64` syntax: an optional sign and at least one digit, within range. */
  function ParseI64(s: string): Option<int> {
    var digits := if s != [] && s[0] in {'+', '-'} then s[1..] else s;
    if digits == [] || !AllDigits(digits) then None
    else
      var n := if s[0] == '-' then -(ValueOf(digits) as int) else ValueOf(digits);
      if -MAX_I64 - 1 <= n <= MAX_I64 then Some(n) else None
  }

  function ExpectedVersion(ifMatch: Option<string>, prefix: string): ApiResult<int> {
    if ifMatch.None? || !(forall c :: c in ifMatch.value ==> VisibleChar(c)) then Precondition
    else
      match StripPrefix(ifMatch.value, "\"" + prefix + "-v")
      case None => PreconditionFailed
      case Some(rest) =>
        match StripSuffix(rest, '"')
        case None => PreconditionFailed
        case Some(number) =>
          match ParseI64(number)
          case Some(version) => if version > 0 then Ok(version) else PreconditionFailed
          case None => PreconditionFailed
  }

  lemma ParsePrinted(n: nat)
    requires n <= MAX_I64
    ensures ParseI64(Print(n)) == Some(n)
  {
    PrintRoundTrip(n);
    assert IsDigit(Print(n)[0]);
  }

  lemma TagCharsVisible(prefix: string, version: nat)
    ensures (forall c :: c in TagText(prefix, version) ==> VisibleChar(c)) <==> (forall c :: c in prefix ==> VisibleChar(c))
    ensures (forall c :: c in TagText(prefix, version) ==> HeaderChar(c)) <==> (forall c :: c in prefix ==> HeaderChar(c))
  {
    var text, printed := TagText(prefix, version), Print(version);
    assert text == "\"" + prefix + "-v" + printed + "\"";
    assert forall c :: c in prefix ==> c in text;
    assert forall c :: c in printed ==> IsDigit(c);
    assert forall c :: c in text ==> c in prefix || c in printed || c in {'"', '-', 'v'};
  }

  /** A printed tag reads back as its version exactly when its prefix is visible ASCII text; other
      prefixes yield no tag, or one that no request can send back. */
  lemma TagRoundTrip(prefix: string, version: nat)
    requires 0 < version <= MAX_I64
    ensures (Tag(prefix, version).Ok? && ExpectedVersion(Some(Tag(prefix, version).value), prefix) == Ok(version))
       <==> (forall c :: c in prefix ==> VisibleChar(c))
  {
    TagCharsVisible(prefix, version);
    ParsePrinted(version);
    var text, head := TagText(prefix, version), "\"" + prefix + "-v";
    assert text == head + (Print(version) + "\"");
    assert head <= text && text[|head|..] == Print(version) + "\"";
    assert (Print(version) + "\"")[..|Print(version)|] == Print(version);
  }

  /** If two strings end in the same way after a `v` that no tail repeats, they begin in the same way. */
  lemma LastMarkSplits(a: string, m: string, b: string, n: string)
    requires a + "-v" + m == b + "-v" + n && 'v' !in m && 'v' !in n
    ensures a == b && m == n
  {
    var s, t := a + "-v" + m, b + "-v" + n;
    assert s[|a| + 1] == 'v' && t[|b| + 1] == 'v';
    assert |m| == |n|;
    assert s[..|a|] == a && t[..|b|] == b;
    assert s[|a| + 2..] == m && t[|b| + 2..] == n;
  }

  lemma ParsedHasNoMark(s: string)
    requires ParseI64(s).Some?
    ensures 'v' !in s
  {
    var digits := if s != [] && s[0] in {'+', '-'} then s[1..] else s;
    forall c | c in s
      ensures c != 'v'
    {
      assert c in digits || c == s[0];
    }
  }

  /** What an accepted header looks like. */
  lemma AcceptedShape(text: string, prefix: string) returns (number: string)
    requires ExpectedVersion(Some(text), prefix).Ok?
    ensures text == "\"" + (prefix + "-v" + number) + "\""
    ensures ParseI64(number) == Some(ExpectedVersion(Some(text), prefix).value)
  {
    var head := "\"" + prefix + "-v";
    var rest := text[|head|..];
    number := rest[..|rest| - 1];
    assert text == head + rest && rest == number + "\"";
    assert head + (number + "\"") == "\"" + (prefix + "-v" + number) + "\"";
  }

  lemma PrintedHasNoMark(version: int)
    ensures 'v' !in PrintInt(version)
  {
    var printed := PrintInt(version);
    forall i | 0 <= i < |printed|
      ensures printed[i] != 'v'
    {
      assert version < 0 ==> printed == "-" + Print(-version);
    }
  }

  lemma Unquote(a: string, b: string)
    requires "\"" + a + "\"" == "\"" + b + "\""
    ensures a == b
  {
    assert ("\"" + a + "\"")[1..|a| + 1] == a;
    assert ("\"" + b + "\"")[1..|b| + 1] == b;
  }

  /** Equal tags have equal prefixes and equal version texts. */
  lemma TagSplits(a: string, m: string, b: string, n: string)
    requires "\"" + (a + "-v" + m) + "\"" == "\"" + (b + "-v" + n) + "\"" && 'v' !in m && 'v' !in n
    ensures a == b && m == n
  {
    Unquote(a + "-v" + m, b + "-v" + n);
    LastMarkSplits(a, m, b, n);
  }

  lemma TagTextShape(prefix: string, version: int)
    ensures TagText(prefix, version) == "\"" + (prefix + "-v" + PrintInt(version)) + "\""
  {
  }

  /** A tag is accepted only for the resource it was printed for, and then as its own version: no
      choice of prefixes makes one resource's tag pass for another's. */
  lemma TagNamesOneResource(prefix: string, version: int, other: string)
    requires ExpectedVersion(Some(TagText(prefix, version)), other).Ok?
    ensures prefix == other
    ensures ParseI64(PrintInt(version)) == Some(ExpectedVersion(Some(TagText(prefix, version)), other).value)
  {
    var number := AcceptedShape(TagText(prefix, version), other);
    TagTextShape(prefix, version);
    ParsedHasNoMark(number);
    PrintedHasNoMark(version);
    TagSplits(prefix, PrintInt(version), other, number);
  }
}
