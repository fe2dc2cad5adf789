/** Reading a printed amount whose thousands and decimal separators are not known in advance. */
module ContentDecimal {
  import opened Domain
  import opened Text

  /** An exact decimal, `mantissa / 10^scale`. */
  datatype Decimal = Decimal(mantissa: int, scale: nat)

  predicate Numeric(c: char) { IsDigit(c) || c in {'-', ',', '.'} }

  /** An optional minus sign, digits, and at most one point; at least one digit. */
  function ParseDecimal(s: string): Option<Decimal> {
    var negative := s != [] && s[0] == '-';
    ParseUnsigned(negative, if negative then s[1..] else s)
  }

  function ParseUnsigned(negative: bool, body: string): Option<Decimal> {
    match LastIndex(body, '.')
    case None => if body != [] && AllDigits(body) then Some(Signed(negative, body, [])) else None
    case Some(point) =>
      var whole, fraction := body[..point], body[point + 1..];
      if |body| > 1 && AllDigits(whole) && AllDigits(fraction) then Some(Signed(negative, whole, fraction)) else None
  }

  /** The number spelled by a sign, whole digits and fraction digits. */
  function Signed(negative: bool, whole: string, fraction: string): Decimal
    requires AllDigits(whole) && AllDigits(fraction)
  {
    var n := ValueOf(whole + fraction);
    Decimal(if negative then -(n as int) else n, |fraction|)
  }

  /** The later of the two separators is taken for the decimal mark; a lone comma counts as one. */
  function Normalize(numeric: string): string {
    match (LastIndex(numeric, ','), LastIndex(numeric, '.'))
    case (Some(comma), Some(dot)) =>
      if comma > dot then Replace(Remove(numeric, '.'), ',', '.') else Remove(numeric, ',')
    case (Some(_), None) => Replace(numeric, ',', '.')
    case _ => numeric
  }

  function Read(content: string): Option<Decimal> {
    var numeric := Filter(content, Numeric);
    if numeric == [] then None else ParseDecimal(Normalize(numeric))
  }

  // ---------------------------------------------------------------- printing

  /** Digits in groups of three from the right. */
  function Group(digits: string, separator: char): string {
    if |digits| <= 3 then digits
    else Group(digits[..|digits| - 3], separator) + [separator] + digits[|digits| - 3..]
  }

  function Sign(negative: bool): string { if negative then "-" else "" }

  function Printed(negative: bool, whole: string, fraction: string, separator: char, mark: char): string {
    Sign(negative) + Group(whole, separator) + [mark] + fraction
  }

  ghost predicate Plain(s: string) { forall c :: c in s ==> !Numeric(c) }

  // ---------------------------------------------------------------- proofs

  lemma {:induction false} GroupChars(digits: string, separator: char)
    requires AllDigits(digits) && !IsDigit(separator)
    ensures forall c :: c in Group(digits, separator) ==> IsDigit(c) || c == separator
    ensures |digits| > 3 <==> separator in Group(digits, separator)
  {
    if |digits| > 3 {
      GroupChars(digits[..|digits| - 3], separator);
    }
  }

  lemma RemoveSplit(head: string, c: char, tail: string)
    requires c !in tail
    ensures Remove(head + [c] + tail, c) == Remove(head, c) + tail
  {
    var keep := (x: char) => x != c;
    FilterConcat(head + [c], tail, keep);
    FilterConcat(head, [c], keep);
    FilterAll(tail, keep);
    FilterNone([c], keep);
  }

  lemma {:induction false} GroupRemoves(digits: string, separator: char)
    requires AllDigits(digits) && !IsDigit(separator)
    ensures Remove(Group(digits, separator), separator) == digits
  {
    if |digits| <= 3 {
      FilterAll(digits, (x: char) => x != separator);
    } else {
      var left, right := digits[..|digits| - 3], digits[|digits| - 3..];
      GroupRemoves(left, separator);
      RemoveSplit(Group(left, separator), separator, right);
      assert digits == left + right;
    }
  }

  lemma GroupShape(digits: string, separator: char)
    requires AllDigits(digits) && !IsDigit(separator)
    ensures Remove(Group(digits, separator), separator) == digits
    ensures forall c :: c in Group(digits, separator) ==> IsDigit(c) || c == separator
    ensures |digits| > 3 <==> separator in Group(digits, separator)
  {
    GroupChars(digits, separator);
    GroupRemoves(digits, separator);
  }

  lemma ReplaceSplit(a: string, c: char, b: string, d: char)
    requires c !in a && c !in b
    ensures Replace(a + [c] + b, c, d) == a + [d] + b
  {
  }

  lemma ParseSigned(negative: bool, body: string)
    requires body != [] && body[0] != '-'
    ensures ParseDecimal(Sign(negative) + body) == ParseUnsigned(negative, body)
  {
    assert negative ==> (Sign(negative) + body)[1..] == body;
    assert !negative ==> Sign(negative) + body == body;
  }

  /** The canonical spelling reads back as its number. */
  lemma ParseCanonical(negative: bool, whole: string, fraction: string)
    requires AllDigits(whole) && AllDigits(fraction) && whole != [] && fraction != []
    ensures ParseDecimal(Sign(negative) + whole + "." + fraction) == Some(Signed(negative, whole, fraction))
  {
    var body := whole + ['.'] + fraction;
    assert Sign(negative) + whole + "." + fraction == Sign(negative) + body;
    assert IsDigit(body[0]);
    ParseSigned(negative, body);
    LastIndexAt(whole, '.', fraction);
    assert body[..|whole|] == whole && body[|whole| + 1..] == fraction;
  }

  /** Where the separators of a printed amount are. */
  lemma PrintedMarks(negative: bool, whole: string, fraction: string, separator: char, mark: char)
    requires AllDigits(whole) && AllDigits(fraction) && (separator, mark) in {('.', ','), (',', '.')}
    ensures var text, head := Printed(negative, whole, fraction, separator, mark), Sign(negative) + Group(whole, separator);
            && LastIndex(text, mark) == Some(|head|) && LastIndex(text, separator) == LastIndex(head, separator)
            && (separator in head <==> |whole| > 3)
  {
    var head := Sign(negative) + Group(whole, separator);
    var text := Printed(negative, whole, fraction, separator, mark);
    assert text == head + [mark] + fraction && text == head + ([mark] + fraction);
    GroupShape(whole, separator);
    LastIndexAt(head, mark, fraction);
    LastIndexBefore(head, separator, [mark] + fraction);
  }

  lemma NormalizeGrouped(negative: bool, whole: string, fraction: string, separator: char, mark: char)
    requires AllDigits(whole) && AllDigits(fraction) && |whole| > 3 && (separator, mark) in {('.', ','), (',', '.')}
    ensures Normalize(Printed(negative, whole, fraction, separator, mark)) == Sign(negative) + whole + "." + fraction
  {
    PrintedMarks(negative, whole, fraction, separator, mark);
    RemoveFromPrinted(negative, whole, fraction, separator, mark);
    ReplaceSplit(Sign(negative) + whole, mark, fraction, '.');
  }

  lemma NormalizeUngrouped(negative: bool, whole: string, fraction: string, separator: char, mark: char)
    requires AllDigits(whole) && AllDigits(fraction) && |whole| <= 3 && (separator, mark) in {('.', ','), (',', '.')}
    ensures Normalize(Printed(negative, whole, fraction, separator, mark)) == Sign(negative) + whole + "." + fraction
  {
    PrintedMarks(negative, whole, fraction, separator, mark);
    ReplaceSplit(Sign(negative) + whole, mark, fraction, '.');
  }

  lemma NormalizePrinted(negative: bool, whole: string, fraction: string, separator: char, mark: char)
    requires AllDigits(whole) && AllDigits(fraction) && (separator, mark) in {('.', ','), (',', '.')}
    ensures Normalize(Printed(negative, whole, fraction, separator, mark)) == Sign(negative) + whole + "." + fraction
  {
    if |whole| > 3 {
      NormalizeGrouped(negative, whole, fraction, separator, mark);
    } else {
      NormalizeUngrouped(negative, whole, fraction, separator, mark);
    }
  }

  lemma RemoveFromPrinted(negative: bool, whole: string, fraction: string, separator: char, mark: char)
    requires AllDigits(whole) && AllDigits(fraction)
    requires (separator, mark) in {('.', ','), (',', '.')}
    ensures Remove(Printed(negative, whole, fraction, separator, mark), separator) == Sign(negative) + whole + [mark] + fraction
  {
    var keep := (x: char) => x != separator;
    var head := Sign(negative) + Group(whole, separator);
    GroupShape(whole, separator);
    FilterConcat(head + [mark], fraction, keep);
    FilterConcat(head, [mark], keep);
    FilterConcat(Sign(negative), Group(whole, separator), keep);
    FilterAll(fraction, keep);
    FilterAll([mark], keep);
    FilterAll(Sign(negative), keep);
  }

  lemma FilterSurrounded(before: string, text: string, after: string)
    requires Plain(before) && Plain(after) && forall c :: c in text ==> Numeric(c)
    ensures Filter(before + text + after, Numeric) == text
  {
    FilterConcat(before + text, after, Numeric);
    FilterConcat(before, text, Numeric);
    FilterNone(before, Numeric);
    FilterNone(after, Numeric);
    FilterAll(text, Numeric);
  }

  /** Whatever plain text surrounds it, and in either convention, an amount printed with a fraction
      reads back as itself, digit for digit. */
  lemma FractionReadsBack(before: string, negative: bool, whole: string, fraction: string, after: string,
                          separator: char, mark: char)
    requires Plain(before) && Plain(after)
    requires AllDigits(whole) && AllDigits(fraction) && whole != [] && fraction != []
    requires (separator, mark) in {('.', ','), (',', '.')}
    ensures Read(before + Printed(negative, whole, fraction, separator, mark) + after) ==
              Some(Signed(negative, whole, fraction))
  {
    var text := Printed(negative, whole, fraction, separator, mark);
    GroupShape(whole, separator);
    forall c | c in text
      ensures Numeric(c)
    {
      assert c in Sign(negative) || c in Group(whole, separator) || c == mark || c in fraction;
    }
    FilterSurrounded(before, text, after);
    assert mark in text;
    NormalizePrinted(negative, whole, fraction, separator, mark);
    ParseCanonical(negative, whole, fraction);
  }

  // ---------------------------------------------------------------- whole amounts

  function Pow10(n: nat): nat { if n == 0 then 1 else 10 * Pow10(n - 1) }

  /** The same number, whatever the scale it is written with. */
  predicate SameNumber(a: Decimal, b: Decimal) {
    a.mantissa * Pow10(b.scale) == b.mantissa * Pow10(a.scale)
  }

  /** Where at most one kind of separator occurs, it is taken for the decimal mark. */
  lemma NormalizeLone(text: string, separator: char)
    requires separator in {'.', ','} && (if separator == ',' then '.' else ',') !in text
    ensures Normalize(text) == Replace(text, separator, '.')
  {
    if separator == '.' || ',' !in text {
      assert Replace(text, separator, '.') == text;
    }
  }

  lemma NormalizeWhole(negative: bool, whole: string, separator: char)
    requires AllDigits(whole) && separator in {'.', ','}
    ensures Normalize(Sign(negative) + Group(whole, separator)) == Sign(negative) + Group(whole, '.')
  {
    var sign, grouped := Sign(negative), Group(whole, separator);
    GroupShape(whole, separator);
    NormalizeLone(sign + grouped, separator);
    ReplaceTail(sign, grouped, separator, '.');
    GroupedWith(whole, separator, '.');
  }

  lemma ReplaceTail(head: string, tail: string, c: char, d: char)
    requires c !in head
    ensures Replace(head + tail, c, d) == head + Replace(tail, c, d)
  {
  }

  /** Grouping with one separator is grouping with another, replaced. */
  lemma {:induction false} GroupedWith(digits: string, c: char, d: char)
    requires AllDigits(digits) && !IsDigit(c)
    ensures Replace(Group(digits, c), c, d) == Group(digits, d)
  {
    if |digits| > 3 {
      GroupedWith(digits[..|digits| - 3], c, d);
    }
  }

  /** Up to three digits are read as they stand; after a single separator the last group is taken for a
      fraction; two separators are refused. */
  function GroupedReading(negative: bool, whole: string): Option<Decimal>
    requires AllDigits(whole)
  {
    if |whole| <= 3 then Some(Signed(negative, whole, []))
    else if |whole| <= 6 then Some(Signed(negative, whole[..|whole| - 3], whole[|whole| - 3..]))
    else None
  }

  /** What a whole amount printed with groups and no fraction is read as, in every case. */
  lemma WholeReadsBack(before: string, negative: bool, whole: string, after: string, separator: char)
    requires Plain(before) && Plain(after)
    requires AllDigits(whole) && whole != [] && separator in {'.', ','}
    ensures Read(before + (Sign(negative) + Group(whole, separator)) + after) == GroupedReading(negative, whole)
  {
    var text := Sign(negative) + Group(whole, separator);
    GroupShape(whole, separator);
    forall c | c in text
      ensures Numeric(c)
    {
      assert c in Sign(negative) || c in Group(whole, separator);
    }
    FilterSurrounded(before, text, after);
    NormalizeWhole(negative, whole, separator);
    ParseGrouped(negative, whole);
  }

  lemma {:induction false} GroupStartsWithDigit(digits: string, separator: char)
    requires AllDigits(digits) && digits != []
    ensures Group(digits, separator) != [] && IsDigit(Group(digits, separator)[0])
  {
    if |digits| > 3 {
      GroupStartsWithDigit(digits[..|digits| - 3], separator);
    }
  }

  lemma ParseSplit(negative: bool, left: string, right: string)
    requires AllDigits(right) && right != []
    ensures ParseUnsigned(negative, left + ['.'] + right) ==
              if AllDigits(left) then Some(Signed(negative, left, right)) else None
  {
    var body := left + ['.'] + right;
    LastIndexAt(left, '.', right);
    assert body[..|left|] == left && body[|left| + 1..] == right;
  }

  lemma ParseGrouped(negative: bool, whole: string)
    requires AllDigits(whole) && whole != []
    ensures ParseDecimal(Sign(negative) + Group(whole, '.')) == GroupedReading(negative, whole)
  {
    GroupStartsWithDigit(whole, '.');
    ParseSigned(negative, Group(whole, '.'));
    if |whole| > 3 {
      var left, right := whole[..|whole| - 3], whole[|whole| - 3..];
      ParseSplit(negative, Group(left, '.'), right);
      GroupShape(left, '.');
    }
  }

  lemma {:induction false} NonzeroLead(s: string)
    requires AllDigits(s) && s != [] && s[0] != '0'
    ensures ValueOf(s) > 0
  {
    if |s| > 1 {
      NonzeroLead(s[..|s| - 1]);
    } else {
      assert s[..0] == [];
    }
  }

  lemma ShiftedDiffers(mantissa: int)
    ensures SameNumber(Decimal(mantissa, 3), Decimal(mantissa, 0)) <==> mantissa == 0
  {
    assert Pow10(3) == 10 * Pow10(2) && Pow10(2) == 10 * Pow10(1) && Pow10(1) == 10;
  }

  lemma ReadingKeepsValue(negative: bool, whole: string)
    requires AllDigits(whole) && whole != [] && (|whole| == 1 || whole[0] != '0')
    ensures KeepsValue(GroupedReading(negative, whole), negative, whole) <==> |whole| <= 3
  {
    if 3 < |whole| <= 6 {
      assert whole[..|whole| - 3] + whole[|whole| - 3..] == whole;
      assert whole + [] == whole;
      NonzeroLead(whole);
      ShiftedDiffers(Signed(negative, whole, []).mantissa);
    }
  }

  predicate KeepsValue(r: Option<Decimal>, negative: bool, whole: string)
    requires AllDigits(whole)
  {
    r.Some? && SameNumber(r.value, Signed(negative, whole, []))
  }

  /** A whole amount written without leading zeros keeps its value exactly when it needs no separator. */
  lemma WholeKeepsValueIffUngrouped(before: string, negative: bool, whole: string, after: string, separator: char)
    requires Plain(before) && Plain(after)
    requires AllDigits(whole) && whole != [] && separator in {'.', ','}
    requires |whole| == 1 || whole[0] != '0'
    ensures |whole| <= 3 <==>
            KeepsValue(Read(before + (Sign(negative) + Group(whole, separator)) + after), negative, whole)
  {
    WholeReadsBack(before, negative, whole, after, separator);
    ReadingKeepsValue(negative, whole);
  }
}
