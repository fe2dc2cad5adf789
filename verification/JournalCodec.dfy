/** That what the journal asks of its serializer can be had: a serializer with brackets that only enclose a record. */
module JournalCodec {
  import opened Domain
  import opened Journal
  import T = Text

  function Unary(n: nat): string { seq(n, _ => 'a') }

  function Body(ns: seq<nat>): string { if ns == [] then "" else Unary(ns[0]) + ['b'] + Body(ns[1..]) }

  function Numbers(r: Record): seq<nat> {
    [r.schemaVersion, r.eventId] + seq(|r.details|, i requires 0 <= i < |r.details| => r.details[i] as nat)
  }

  function Encode(r: Record): string { ['{'] + Body(Numbers(r)) + ['}'] }

  ghost function Decode(s: string): Option<Record> {
    if r: Record :| Encode(r) == s then Some(r) else None
  }

  lemma {:induction false} BodyChars(ns: seq<nat>, x: char)
    requires x in Body(ns)
    ensures x in {'a', 'b'}
  {
    if x !in Unary(ns[0]) + ['b'] {
      BodyChars(ns[1..], x);
    }
  }

  lemma {:induction false} BodyDetermines(m: seq<nat>, n: seq<nat>)
    requires Body(m) == Body(n)
    ensures m == n
  {
    if m != [] && n != [] {
      T.FirstIndexAt(Unary(m[0]), 'b', Body(m[1..]));
      T.FirstIndexAt(Unary(n[0]), 'b', Body(n[1..]));
      assert Body(m)[m[0] + 1..] == Body(m[1..]) && Body(n)[n[0] + 1..] == Body(n[1..]);
      BodyDetermines(m[1..], n[1..]);
    }
  }

  lemma EncodingDetermines(r: Record, q: Record)
    requires Encode(r) == Encode(q)
    ensures r == q
  {
    assert Encode(r)[1..|Encode(r)| - 1] == Body(Numbers(r)) && Encode(q)[1..|Encode(q)| - 1] == Body(Numbers(q));
    BodyDetermines(Numbers(r), Numbers(q));
    assert Numbers(r)[0] == r.schemaVersion && Numbers(r)[1] == r.eventId && |Numbers(r)| == |r.details| + 2;
    assert Numbers(q)[0] == q.schemaVersion && Numbers(q)[1] == q.eventId && |Numbers(q)| == |q.details| + 2;
    forall i | 0 <= i < |r.details|
      ensures r.details[i] == q.details[i]
    {
      assert Numbers(r)[i + 2] == r.details[i] as nat && Numbers(q)[i + 2] == q.details[i] as nat;
    }
  }

  /** The brackets stand at the ends of an encoded record and nowhere else. */
  lemma EncodingAt(r: Record, i: nat)
    requires i < |Encode(r)|
    ensures Encode(r)[i] == '{' <==> i == 0
    ensures Encode(r)[i] == '}' <==> i == |Encode(r)| - 1
    ensures Encode(r)[i] in {'a', 'b', '{', '}'}
  {
    if 0 < i < |Encode(r)| - 1 {
      BodyChars(Numbers(r), Encode(r)[i]);
    }
  }

  lemma CutOpensOnce(r: Record, n: nat)
    requires 0 < n <= |Encode(r)|
    ensures multiset(Cut(Encode(r), n))['{'] == 1
  {
    var rest := Encode(r)[1..n];
    assert Cut(Encode(r), n) == ['{'] + rest;
    forall i | 0 <= i < |rest|
      ensures rest[i] != '{'
    {
      EncodingAt(r, i + 1);
    }
    assert '{' !in rest;
  }

  lemma {:induction false} TextOpens(c: Codec, ps: seq<Piece>)
    requires c.encode == Encode && Sized(c, ps)
    ensures multiset(Text(c, ps))['{'] == |ps|
  {
    if ps != [] {
      var front, p := ps[..|ps| - 1], ps[|ps| - 1];
      TextOpens(c, front);
      CutOpensOnce(p.record, p.n);
    }
  }

  lemma CutIsWhole(q: Record, n: nat, r: Record)
    requires 0 < n <= |Encode(q)|
    ensures Encode(q)[..n] == Encode(r) <==> n == |Encode(q)| && q == r
  {
    if Encode(q)[..n] == Encode(r) {
      EncodingAt(r, n - 1);
      EncodingAt(q, n - 1);
      assert n == |Encode(q)|;
      assert Encode(q)[..n] == Encode(q);
      EncodingDetermines(q, r);
    }
  }

  lemma OneText(c: Codec, ps: seq<Piece>)
    requires c.encode == Encode && |ps| == 1 && Sized(c, ps)
    ensures 0 < ps[0].n <= |Encode(ps[0].record)| && Text(c, ps) == Encode(ps[0].record)[..ps[0].n]
  {
    assert ps[0] in ps && Text(c, ps[..0]) == "";
  }

  /** Only one whole encoded record has the text of an encoded record. */
  lemma EncodedTextIsWhole(c: Codec, ps: seq<Piece>, r: Record)
    requires c.encode == Encode && ps != [] && Sized(c, ps)
    ensures Text(c, ps) == Encode(r) <==> Reading(c, ps) == Some(r)
  {
    if |ps| == 1 {
      OneText(c, ps);
      CutIsWhole(ps[0].record, ps[0].n, r);
    } else {
      TextOpens(c, ps);
      CutOpensOnce(r, |Encode(r)|);
      assert Cut(Encode(r), |Encode(r)|) == Encode(r);
    }
  }

  lemma EncodingIsLine(r: Record)
    ensures IsLine(Encode(r))
  {
    forall x | x in Encode(r)
      ensures x != '\n' && x != '\r'
    {
      var i :| 0 <= i < |Encode(r)| && Encode(r)[i] == x;
      EncodingAt(r, i);
    }
  }

  lemma DecodingReads(c: Codec, ps: seq<Piece>)
    requires c == Codec(Encode, Decode) && ps != [] && Sized(c, ps)
    ensures c.decode(Text(c, ps)) == Reading(c, ps)
  {
    var s := Text(c, ps);
    if Decode(s).Some? {
      EncodedTextIsWhole(c, ps, Decode(s).value);
    } else if Reading(c, ps).Some? {
      EncodedTextIsWhole(c, ps, Reading(c, ps).value);
      assert false;
    }
  }

  /** There are strict serializers. */
  lemma StrictCodecExists() returns (c: Codec)
    ensures c.Strict()
  {
    c := Codec(Encode, Decode);
    forall r
      ensures IsLine(c.encode(r))
    {
      EncodingIsLine(r);
    }
    forall ps | ps != [] && Sized(c, ps)
      ensures c.decode(Text(c, ps)) == Reading(c, ps)
    {
      DecodingReads(c, ps);
    }
  }
}
