/** The textual identities of a release: its name, its digests and its registry references. */
module ReleaseText {
  import opened Domain
  import opened Text

  /** The characters the standard library trims. */
  predicate IsWhite(c: char) {
    || '\t' <= c <= '\r' || c == ' ' || c == '\U{85}' || c == '\U{A0}' || c == '\U{1680}'
    || '\U{2000}' <= c <= '\U{200A}' || c == '\U{2028}' || c == '\U{2029}' || c == '\U{202F}'
    || c == '\U{205F}' || c == '\U{3000}'
  }

  predicate Blank(s: string) { forall i :: 0 <= i < |s| ==> IsWhite(s[i]) }

  predicate IsHex(c: char) { IsDigit(c) || 'a' <= c <= 'f' }

  predicate HexDigest(s: string, min: nat, max: nat) {
    min <= |s| <= max && forall i :: 0 <= i < |s| ==> IsHex(s[i])
  }

  predicate IsDigest(s: string) { "sha256:" <= s && HexDigest(s[7..], 64, 64) }

  predicate EndsWith(s: string, suffix: string) { |suffix| <= |s| && s[|s| - |suffix|..] == suffix }

  /** A registry reference that names its subject by digest. */
  predicate BoundReference(value: string, digest: string) {
    var suffix := "@" + digest;
    && !("http" <= value)
    && EndsWith(value, suffix)
    && !Blank(value[..|value| - |suffix|])
  }

  /** A bound reference carries the digest it was checked against, and no other digest of equal length. */
  lemma ReferenceBindsOneDigest(value: string, a: string, b: string)
    requires BoundReference(value, a) && BoundReference(value, b) && IsDigest(a) && IsDigest(b)
    ensures a == b
  {
    assert |a| == |b|;
    assert ("@" + a)[1..] == a && ("@" + b)[1..] == b;
  }

  predicate ReleaseId(value: string) {
    if !("odoo-" <= value) then false
    else
      var rest := value[5..];
      match LastIndex(rest, '-')
      case None => false
      case Some(i) =>
        var parts := Split(rest[..i], '.');
        && |parts| == 3 && |parts[0]| == 4 && |parts[1]| == 2 && |parts[2]| == 2
        && AllDigits(parts[0]) && AllDigits(parts[1]) && AllDigits(parts[2])
        && HexDigest(rest[i + 1..], 7, 64)
  }

  function Spelled(year: string, month: string, day: string, commit: string): string {
    "odoo-" + (year + "." + (month + "." + day) + "-" + commit)
  }

  predicate IdParts(year: string, month: string, day: string, commit: string) {
    && |year| == 4 && |month| == 2 && |day| == 2 && AllDigits(year) && AllDigits(month) && AllDigits(day)
    && HexDigest(commit, 7, 64)
  }

  lemma DateSplits(year: string, month: string, day: string)
    requires |year| == 4 && |month| == 2 && |day| == 2 && AllDigits(year) && AllDigits(month) && AllDigits(day)
    ensures Split(year + "." + (month + "." + day), '.') == [year, month, day]
  {
    SplitFirst(year, '.', month + "." + day);
    SplitFirst(month, '.', day);
    assert FirstIndex(day, '.') == 2;
    assert [month] + [day] == [month, day] && [year] + [month, day] == [year, month, day];
  }

  lemma CommitSplits(date: string, commit: string)
    requires HexDigest(commit, 7, 64)
    ensures var rest := date + "-" + commit;
            LastIndex(rest, '-') == Some(|date|) && rest[..|date|] == date && rest[|date| + 1..] == commit
  {
    LastIndexAt(date, '-', commit);
  }

  lemma SpelledIsReleaseId(year: string, month: string, day: string, commit: string)
    requires IdParts(year, month, day, commit)
    ensures ReleaseId(Spelled(year, month, day, commit))
  {
    var date := year + "." + (month + "." + day);
    var rest := date + "-" + commit;
    var value := "odoo-" + rest;
    assert value == Spelled(year, month, day, commit) && value[5..] == rest;
    CommitSplits(date, commit);
    DateSplits(year, month, day);
  }

  lemma ReleaseIdIsSpelled(value: string) returns (year: string, month: string, day: string, commit: string)
    requires ReleaseId(value)
    ensures IdParts(year, month, day, commit) && value == Spelled(year, month, day, commit)
  {
    var rest := value[5..];
    var i := LastIndex(rest, '-').value;
    var date := rest[..i];
    var parts := Split(date, '.');
    year, month, day, commit := parts[0], parts[1], parts[2], rest[i + 1..];
    var monthDay := SplitRejoins(date, '.');
    var lastPart := SplitRejoins(monthDay, '.');
    var none := SplitRejoins(lastPart, '.');
    assert rest == date + "-" + commit;
  }

  /** The scanner accepts exactly the identifiers made of a dotted date and a commit, in one reading. */
  lemma ReleaseIdForm(value: string)
    ensures ReleaseId(value) <==>
            exists year, month, day, commit :: IdParts(year, month, day, commit) && value == Spelled(year, month, day, commit)
  {
    if ReleaseId(value) {
      var year, month, day, commit := ReleaseIdIsSpelled(value);
    } else if exists y, m, d, c :: IdParts(y, m, d, c) && value == Spelled(y, m, d, c) {
      var y, m, d, c :| IdParts(y, m, d, c) && value == Spelled(y, m, d, c);
      SpelledIsReleaseId(y, m, d, c);
    }
  }
}
