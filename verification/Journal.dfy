/** The mail gateway's journal of delivery events: one line per event, appended and synced before the event
    is published, and read back when the process starts. */
module Journal {
  import opened Domain
  import T = Text

  const MAX_EVENT_JOURNAL: nat := 64 * 1024 * 1024

  datatype Record = Record(schemaVersion: nat, eventId: Uuid, details: Json)

  /** The first `n` characters of an encoded record: all of it, or what a torn write left. */
  datatype Piece = Piece(record: Record, n: nat)

  /** The serializer in use. An encoded record is one line, and a line reads as a record exactly if it is one whole
      encoded record: no proper part of one reads, nor does anything that runs on after a part or a whole. */
  datatype Codec = Codec(encode: Record -> string, decode: string -> Option<Record>) {
    ghost predicate Strict() {
      && (forall r :: IsLine(encode(r)))
      && (forall ps :: ps != [] && Sized(this, ps) ==> decode(Text(this, ps)) == Reading(this, ps))
    }
  }

  predicate Whole(c: Codec, p: Piece) { p.n == |c.encode(p.record)| }

  predicate Sized(c: Codec, ps: seq<Piece>) { forall p :: p in ps ==> 0 < p.n <= |c.encode(p.record)| }

  predicate Readable(c: Codec, ps: seq<Piece>) { |ps| == 1 && Whole(c, ps[0]) }

  function Reading(c: Codec, ps: seq<Piece>): Option<Record> { if Readable(c, ps) then Some(ps[0].record) else None }

  function Cut(s: string, n: nat): string { if n <= |s| then s[..n] else s }

  function Text(c: Codec, ps: seq<Piece>): string {
    if ps == [] then "" else Text(c, ps[..|ps| - 1]) + Cut(c.encode(ps[|ps| - 1].record), ps[|ps| - 1].n)
  }

  predicate IsLine(s: string) { s != [] && '\n' !in s && '\r' !in s }

  // ---------------------------------------------------------------- the file

  /** A carriage return belongs to the line break it precedes. */
  function WithoutReturn(line: string): string {
    if line != [] && line[|line| - 1] == '\r' then line[..|line| - 1] else line
  }

  /** Lines as the standard library splits them: a final break opens no further line. */
  function Lines(s: string): seq<string>
    decreases |s|
  {
    if s == [] then []
    else
      var i := T.FirstIndex(s, '\n');
      if i == |s| then [s] else [WithoutReturn(s[..i])] + Lines(s[i + 1..])
  }

  predicate ValidLine(c: Codec, line: string) {
    line != [] && c.decode(line).Some? && c.decode(line).value.schemaVersion == 1
  }

  function EventOf(c: Codec, line: string): Uuid
    requires ValidLine(c, line)
  {
    c.decode(line).value.eventId
  }

  ghost predicate ValidLines(c: Codec, lines: seq<string>) {
    && (forall i :: 0 <= i < |lines| ==> ValidLine(c, lines[i]))
    && (forall i, j :: 0 <= i < j < |lines| ==> EventOf(c, lines[i]) != EventOf(c, lines[j]))
  }

  ghost predicate Loadable(c: Codec, file: string) {
    |file| <= MAX_EVENT_JOURNAL && ValidLines(c, Lines(file))
  }

  ghost function Events(c: Codec, lines: seq<string>): set<Uuid>
    requires ValidLines(c, lines)
  {
    set i | 0 <= i < |lines| :: EventOf(c, lines[i])
  }

  /** What a start finds: the events of the file, or nothing when the file is refused. */
  ghost function Loaded(c: Codec, file: string): Option<set<Uuid>> {
    if Loadable(c, file) then Some(Events(c, Lines(file))) else None
  }

  /** Reading the journal line by line with early refusal decides exactly whether the file is a bounded list of
      valid records with distinct events. */
  method Load(c: Codec, file: string) returns (r: Option<set<Uuid>>)
    ensures r == Loaded(c, file)
  {
    if |file| > MAX_EVENT_JOURNAL {
      return None;
    }
    var seen: set<Uuid> := {};
    var lines := Lines(file);
    for k := 0 to |lines|
      invariant ValidLines(c, lines[..k]) && seen == Events(c, lines[..k])
    {
      if lines[k] == [] {
        return None;
      }
      var record := c.decode(lines[k]);
      if record.None? || record.value.schemaVersion != 1 {
        return None;
      }
      var event := record.value.eventId;
      if event in seen {
        return None;
      }
      EventsGrow(c, lines[..k], lines[k]);
      assert lines[..k + 1] == lines[..k] + [lines[k]];
      seen := seen + {event};
    }
    assert lines[..|lines|] == lines;
    return Some(seen);
  }

  lemma EventsGrow(c: Codec, lines: seq<string>, line: string)
    requires ValidLines(c, lines) && ValidLine(c, line) && EventOf(c, line) !in Events(c, lines)
    ensures ValidLines(c, lines + [line])
    ensures Events(c, lines + [line]) == Events(c, lines) + {EventOf(c, line)}
  {
    var all := lines + [line];
    assert forall i :: 0 <= i < |lines| ==> all[i] == lines[i] && EventOf(c, lines[i]) in Events(c, lines);
    forall e | e in Events(c, lines) + {EventOf(c, line)}
      ensures e in Events(c, all)
    {
      if e in Events(c, lines) {
        var i :| 0 <= i < |lines| && e == EventOf(c, lines[i]);
        assert all[i] == lines[i];
      } else {
        assert all[|lines|] == line;
      }
    }
  }

  // ---------------------------------------------------------------- lines on file

  type Line = seq<Piece>

  function FileOf(c: Codec, lines: seq<Line>): string {
    if lines == [] then "" else Text(c, lines[0]) + "\n" + FileOf(c, lines[1..])
  }

  function Texts(c: Codec, lines: seq<Line>): seq<string> {
    seq(|lines|, i requires 0 <= i < |lines| => Text(c, lines[i]))
  }

  lemma {:induction false} FileGrows(c: Codec, lines: seq<Line>, line: Line)
    ensures FileOf(c, lines + [line]) == FileOf(c, lines) + Text(c, line) + "\n"
  {
    if lines == [] {
      assert lines + [line] == [line] && [line][1..] == [];
    } else {
      FileGrows(c, lines[1..], line);
      assert (lines + [line])[1..] == lines[1..] + [line];
    }
  }

  lemma TextGrows(c: Codec, ps: seq<Piece>, p: Piece)
    ensures Text(c, ps + [p]) == Text(c, ps) + Cut(c.encode(p.record), p.n)
  {
    assert (ps + [p])[..|ps|] == ps;
  }

  lemma {:induction false} TextHasNoBreak(c: Codec, ps: seq<Piece>)
    requires c.Strict()
    ensures '\n' !in Text(c, ps) && '\r' !in Text(c, ps)
    ensures ps != [] && Sized(c, ps) ==> IsLine(Text(c, ps))
  {
    if ps != [] {
      var front, p := ps[..|ps| - 1], ps[|ps| - 1];
      TextHasNoBreak(c, front);
      assert IsLine(c.encode(p.record)) && p in ps;
      assert forall x :: x in Cut(c.encode(p.record), p.n) ==> x in c.encode(p.record);
    }
  }

  lemma LinesFirst(line: string, rest: string)
    requires IsLine(line)
    ensures Lines(line + "\n" + rest) == [line] + Lines(rest)
  {
    var s := line + "\n" + rest;
    T.FirstIndexAt(line, '\n', rest);
    assert s[..|line|] == line && s[|line| + 1..] == rest;
  }

  function TailLines(tail: string): seq<string> { if tail == [] then [] else [tail] }

  lemma LinesOfTail(tail: string)
    requires '\n' !in tail
    ensures Lines(tail) == TailLines(tail)
  {
    assert T.FirstIndex(tail, '\n') == |tail|;
  }

  lemma LinesStep(line: string, file: string, tail: string, lines: seq<string>)
    requires IsLine(line) && Lines(file + tail) == lines + TailLines(tail)
    ensures Lines((line + "\n" + file) + tail) == ([line] + lines) + TailLines(tail)
  {
    assert (line + "\n" + file) + tail == line + "\n" + (file + tail);
    LinesFirst(line, file + tail);
  }

  lemma TextsFirst(c: Codec, lines: seq<Line>)
    requires lines != []
    ensures Texts(c, lines) == [Text(c, lines[0])] + Texts(c, lines[1..])
  {
  }

  ghost predicate LinesSized(c: Codec, lines: seq<Line>) { forall l :: l in lines ==> l != [] && Sized(c, l) }

  /** Every finished line is one line; an unfinished tail is one more. */
  lemma {:induction false} LinesOfFile(c: Codec, lines: seq<Line>, tail: string)
    requires c.Strict() && LinesSized(c, lines) && '\n' !in tail
    ensures Lines(FileOf(c, lines) + tail) == Texts(c, lines) + TailLines(tail)
  {
    if lines == [] {
      assert FileOf(c, lines) + tail == tail && Texts(c, lines) == [];
      LinesOfTail(tail);
    } else {
      assert lines[0] in lines && forall l :: l in lines[1..] ==> l in lines;
      LinesOfFile(c, lines[1..], tail);
      TextsFirst(c, lines);
      TextHasNoBreak(c, lines[0]);
      LinesStep(Text(c, lines[0]), FileOf(c, lines[1..]), tail, Texts(c, lines[1..]));
    }
  }

  // ---------------------------------------------------------------- reading back

  /** One whole record a line, and no event twice. */
  ghost predicate Good(c: Codec, lines: seq<Line>) {
    && (forall i :: 0 <= i < |lines| ==> Readable(c, lines[i]))
    && (forall i, j :: 0 <= i < j < |lines| ==> lines[i][0].record.eventId != lines[j][0].record.eventId)
  }

  ghost predicate Current(lines: seq<Line>) { forall l, p :: l in lines && p in l ==> p.record.schemaVersion == 1 }

  /** The events whose whole record is on some line. */
  ghost function Ids(c: Codec, lines: seq<Line>): set<Uuid> {
    set l, p | l in lines && p in l && Whole(c, p) :: p.record.eventId
  }

  lemma LineReads(c: Codec, line: Line)
    requires c.Strict() && line != [] && Sized(c, line) && forall p :: p in line ==> p.record.schemaVersion == 1
    ensures ValidLine(c, Text(c, line)) <==> Readable(c, line)
    ensures Readable(c, line) ==> EventOf(c, Text(c, line)) == line[0].record.eventId
  {
    TextHasNoBreak(c, line);
    assert c.decode(Text(c, line)) == Reading(c, line);
  }

  lemma GoodLinesRead(c: Codec, lines: seq<Line>)
    requires c.Strict() && LinesSized(c, lines) && Current(lines) && Good(c, lines)
    ensures ValidLines(c, Texts(c, lines))
  {
    var texts := Texts(c, lines);
    forall i | 0 <= i < |lines|
      ensures ValidLine(c, texts[i]) && EventOf(c, texts[i]) == lines[i][0].record.eventId
    {
      assert lines[i] in lines && Readable(c, lines[i]);
      LineReads(c, lines[i]);
    }
  }

  lemma ReadLinesAreGood(c: Codec, lines: seq<Line>)
    requires c.Strict() && LinesSized(c, lines) && Current(lines) && ValidLines(c, Texts(c, lines))
    ensures Good(c, lines)
  {
    var texts := Texts(c, lines);
    forall i | 0 <= i < |lines|
      ensures Readable(c, lines[i]) && EventOf(c, texts[i]) == lines[i][0].record.eventId
    {
      assert lines[i] in lines && ValidLine(c, texts[i]);
      LineReads(c, lines[i]);
    }
    forall i, j | 0 <= i < j < |lines|
      ensures lines[i][0].record.eventId != lines[j][0].record.eventId
    {
      assert EventOf(c, texts[i]) != EventOf(c, texts[j]);
    }
  }

  lemma LineEvent(c: Codec, lines: seq<Line>, i: nat)
    requires c.Strict() && LinesSized(c, lines) && Current(lines) && Good(c, lines) && i < |lines|
    ensures ValidLine(c, Texts(c, lines)[i]) && EventOf(c, Texts(c, lines)[i]) == lines[i][0].record.eventId
    ensures EventOf(c, Texts(c, lines)[i]) in Ids(c, lines)
  {
    assert lines[i] in lines && Readable(c, lines[i]) && lines[i][0] in lines[i];
    LineReads(c, lines[i]);
  }

  lemma IdOnLine(c: Codec, lines: seq<Line>, e: Uuid) returns (i: nat)
    requires Good(c, lines) && e in Ids(c, lines)
    ensures i < |lines| && lines[i][0].record.eventId == e
  {
    var l, p :| l in lines && p in l && Whole(c, p) && p.record.eventId == e;
    i :| 0 <= i < |lines| && lines[i] == l;
    assert Readable(c, lines[i]);
  }

  lemma EventsAreIds(c: Codec, lines: seq<Line>)
    requires c.Strict() && LinesSized(c, lines) && Current(lines) && Good(c, lines)
    requires ValidLines(c, Texts(c, lines))
    ensures Events(c, Texts(c, lines)) == Ids(c, lines)
  {
    var texts := Texts(c, lines);
    forall e | e in Events(c, texts)
      ensures e in Ids(c, lines)
    {
      var i :| 0 <= i < |texts| && EventOf(c, texts[i]) == e;
      LineEvent(c, lines, i);
    }
    forall e | e in Ids(c, lines)
      ensures e in Events(c, texts)
    {
      var i := IdOnLine(c, lines, e);
      LineEvent(c, lines, i);
    }
  }

  // ---------------------------------------------------------------- the running gateway

  /** How a write ended: on disk and synced, not on disk at all, on disk although the sync failed, or torn off after
      `n` characters. */
  datatype Fate = Synced | NotWritten | Unsynced | Torn(n: nat)

  /** The finished lines on file and what an interrupted write left after them; `accepted` are the events whose
      append returned successfully in this process. */
  datatype Gateway = Gateway(lines: seq<Line>, tail: Line, seen: set<Uuid>, accepted: set<Uuid>, up: bool)
  {
    function All(): seq<Line> { lines + (if tail == [] then [] else [tail]) }
  }

  datatype Event = Receive(eventId: Uuid, details: Json, fate: Fate) | Publish(published: Uuid) | Restart {
    predicate Enabled(g: Gateway) { Restart? || (g.up && (Publish? ==> published in g.accepted)) }
  }

  const EMPTY := Gateway([], [], {}, {}, true)

  function File(c: Codec, g: Gateway): string { FileOf(c, g.lines) + Text(c, g.tail) }

  predicate Fits(c: Codec, g: Gateway, r: Record) { |File(c, g)| + |c.encode(r)| + 1 <= MAX_EVENT_JOURNAL }

  /** The append gets as far as writing something. */
  predicate Writes(c: Codec, g: Gateway, r: Record, fate: Fate) {
    && r.eventId !in g.seen && Fits(c, g, r) && !fate.NotWritten?
    && (fate.Torn? ==> 0 < fate.n <= |c.encode(r)|)
  }

  function PieceOf(c: Codec, r: Record, fate: Fate): Piece { Piece(r, if fate.Torn? then fate.n else |c.encode(r)|) }

  function Appended(c: Codec, g: Gateway, r: Record, fate: Fate): Gateway {
    if r.eventId in g.seen then g.(accepted := g.accepted + {r.eventId})
    else if !Writes(c, g, r, fate) then g
    else if fate.Torn? then g.(tail := g.tail + [PieceOf(c, r, fate)])
    else
      var written := g.(lines := g.lines + [g.tail + [PieceOf(c, r, fate)]], tail := []);
      if fate.Unsynced? then written
      else written.(seen := g.seen + {r.eventId}, accepted := g.accepted + {r.eventId})
  }

  ghost function Restarted(c: Codec, g: Gateway): Gateway {
    match Loaded(c, File(c, g))
    case Some(events) => g.(seen := events, accepted := {}, up := true)
    case None => g.(seen := {}, accepted := {}, up := false)
  }

  ghost function Step(c: Codec, g: Gateway, e: Event): Gateway {
    if !e.Enabled(g) then g
    else match e
      case Receive(id, details, fate) => Appended(c, g, Record(1, id, details), fate)
      case Publish(_) => g
      case Restart => Restarted(c, g)
  }

  ghost function After(c: Codec, es: seq<Event>): Gateway {
    if es == [] then EMPTY else Step(c, After(c, es[..|es| - 1]), es[|es| - 1])
  }

  ghost predicate OnFile(c: Codec, g: Gateway) { LinesSized(c, g.All()) && Current(g.All()) && |File(c, g)| <= MAX_EVENT_JOURNAL }

  ghost predicate Inv(c: Codec, g: Gateway) { OnFile(c, g) && g.accepted <= g.seen <= Ids(c, g.All()) }

  /** A file is accepted again exactly when every line, the unfinished one included, is one whole record and no event
      occurs twice; and then it yields all events. */
  lemma ReloadIffGood(c: Codec, g: Gateway)
    requires c.Strict() && OnFile(c, g)
    ensures Loaded(c, File(c, g)) == if Good(c, g.All()) then Some(Ids(c, g.All())) else None
  {
    LinesOfAll(c, g);
    if Good(c, g.All()) {
      GoodLinesRead(c, g.All());
      EventsAreIds(c, g.All());
    } else if ValidLines(c, Texts(c, g.All())) {
      ReadLinesAreGood(c, g.All());
    }
  }

  lemma TextsLast(c: Codec, lines: seq<Line>, last: Line)
    ensures Texts(c, lines + [last]) == Texts(c, lines) + [Text(c, last)]
  {
  }

  lemma LinesOfAll(c: Codec, g: Gateway)
    requires c.Strict() && LinesSized(c, g.All())
    ensures Lines(File(c, g)) == Texts(c, g.All())
  {
    assert LinesSized(c, g.lines) by {
      assert forall l :: l in g.lines ==> l in g.All();
    }
    TextHasNoBreak(c, g.tail);
    LinesOfFile(c, g.lines, Text(c, g.tail));
    if g.tail == [] {
      assert g.All() == g.lines;
    } else {
      assert g.tail in g.All();
      TextsLast(c, g.lines, g.tail);
    }
  }

  // ---------------------------------------------------------------- one append

  lemma AppendedFile(c: Codec, g: Gateway, r: Record, fate: Fate)
    requires Writes(c, g, r, fate)
    ensures var piece := Cut(c.encode(r), PieceOf(c, r, fate).n);
            File(c, Appended(c, g, r, fate)) == File(c, g) + (if fate.Torn? then piece else piece + "\n")
  {
    var p := PieceOf(c, r, fate);
    var piece := Cut(c.encode(r), p.n);
    var file, rest := FileOf(c, g.lines), Text(c, g.tail);
    TextGrows(c, g.tail, p);
    if fate.Torn? {
      assert file + (rest + piece) == (file + rest) + piece;
    } else {
      FileGrows(c, g.lines, g.tail + [p]);
      assert Text(c, []) == "";
      assert file + (rest + piece) + "\n" + "" == (file + rest) + (piece + "\n");
    }
  }

  /** In characters: the encoded record and its line break, or the part of it that was written. */
  lemma AppendedText(c: Codec, g: Gateway, r: Record, fate: Fate)
    requires Writes(c, g, r, fate)
    ensures var encoded := c.encode(r) + "\n";
            File(c, Appended(c, g, r, fate)) == File(c, g) + (if fate.Torn? then encoded[..fate.n] else encoded)
  {
    AppendedFile(c, g, r, fate);
    if fate.Torn? {
      assert (c.encode(r) + "\n")[..fate.n] == c.encode(r)[..fate.n];
    }
  }

  /** What a write makes of the lines: a new one, or a longer last one. */
  lemma AppendedLines(c: Codec, g: Gateway, r: Record, fate: Fate)
    requires Writes(c, g, r, fate)
    ensures Appended(c, g, r, fate).All() == g.lines + [g.tail + [PieceOf(c, r, fate)]]
  {
  }

  lemma AppendedIds(c: Codec, g: Gateway, r: Record, fate: Fate)
    requires Writes(c, g, r, fate)
    ensures Ids(c, Appended(c, g, r, fate).All()) ==
              Ids(c, g.All()) + (if Whole(c, PieceOf(c, r, fate)) then {r.eventId} else {})
  {
    var p, after := PieceOf(c, r, fate), Appended(c, g, r, fate).All();
    AppendedLines(c, g, r, fate);
    var line := g.tail + [p];
    assert forall l :: l in after <==> l in g.lines || l == line;
    assert forall l :: l in g.All() <==> l in g.lines || (l == g.tail && g.tail != []);
    assert forall q :: q in line <==> q in g.tail || q == p;
    forall e | e in Ids(c, g.All())
      ensures e in Ids(c, after)
    {
      var l, q :| l in g.All() && q in l && Whole(c, q) && q.record.eventId == e;
      assert l in g.lines || q in line;
    }
    if Whole(c, p) {
      assert line in after && p in line;
    }
  }

  lemma AppendedSizes(c: Codec, g: Gateway, r: Record, fate: Fate)
    requires LinesSized(c, g.All()) && Current(g.All()) && r.schemaVersion == 1 && Writes(c, g, r, fate) && c.encode(r) != []
    ensures LinesSized(c, Appended(c, g, r, fate).All()) && Current(Appended(c, g, r, fate).All())
  {
    var p := PieceOf(c, r, fate);
    AppendedLines(c, g, r, fate);
    assert g.tail != [] ==> g.tail in g.All();
    assert forall l :: l in g.lines ==> l in g.All();
    assert forall q :: q in g.tail + [p] ==> q in g.tail || q == p;
  }

  lemma StepKeepsInv(c: Codec, g: Gateway, e: Event)
    requires c.Strict() && Inv(c, g)
    ensures Inv(c, Step(c, g, e)) && File(c, g) <= File(c, Step(c, g, e))
  {
    if e.Receive? && e.Enabled(g) {
      var r := Record(1, e.eventId, e.details);
      if Writes(c, g, r, e.fate) {
        assert IsLine(c.encode(r));
        AppendedFile(c, g, r, e.fate);
        AppendedIds(c, g, r, e.fate);
        AppendedSizes(c, g, r, e.fate);
      }
    } else if e.Restart? {
      ReloadIffGood(c, g);
    }
  }

  lemma {:induction false} RunKeepsInv(c: Codec, es: seq<Event>)
    requires c.Strict()
    ensures Inv(c, After(c, es))
  {
    if es != [] {
      RunKeepsInv(c, es[..|es| - 1]);
      StepKeepsInv(c, After(c, es[..|es| - 1]), es[|es| - 1]);
    }
  }

  /** What was written is never lost or overwritten. */
  lemma {:induction false} FileOnlyGrows(c: Codec, es: seq<Event>, k: nat)
    requires c.Strict() && k <= |es|
    ensures File(c, After(c, es[..k])) <= File(c, After(c, es))
    ensures Ids(c, After(c, es[..k]).All()) <= Ids(c, After(c, es).All())
  {
    if k == |es| {
      assert es[..k] == es;
    } else {
      var last := |es| - 1;
      FileOnlyGrows(c, es[..last], k);
      assert es[..last][..k] == es[..k];
      RunKeepsInv(c, es[..last]);
      StepKeepsInv(c, After(c, es[..last]), es[last]);
      IdsOnlyGrow(c, After(c, es[..last]), es[last]);
    }
  }

  lemma IdsOnlyGrow(c: Codec, g: Gateway, e: Event)
    ensures Ids(c, g.All()) <= Ids(c, Step(c, g, e).All())
  {
    if e.Receive? && e.Enabled(g) {
      var r := Record(1, e.eventId, e.details);
      if Writes(c, g, r, e.fate) {
        AppendedIds(c, g, r, e.fate);
      }
    }
  }

  // ---------------------------------------------------------------- when a start succeeds

  /** A write that spoils the journal: one torn off before its end, one after an unfinished line, or one of an event
      that is already on file without the process knowing. */
  ghost predicate Spoils(c: Codec, g: Gateway, e: Event) {
    && e.Receive? && g.up
    && var r := Record(1, e.eventId, e.details);
       && Writes(c, g, r, e.fate)
       && (!Whole(c, PieceOf(c, r, e.fate)) || g.tail != [] || r.eventId in Ids(c, g.All()))
  }

  lemma GoodGrows(c: Codec, lines: seq<Line>, p: Piece)
    ensures Good(c, lines + [[p]]) <==> Good(c, lines) && Whole(c, p) && p.record.eventId !in Ids(c, lines)
  {
    var all := lines + [[p]];
    assert all[|lines|] == [p];
    assert forall i :: 0 <= i < |lines| ==> all[i] == lines[i];
    if Good(c, lines) && p.record.eventId in Ids(c, lines) {
      var l, q :| l in lines && q in l && Whole(c, q) && q.record.eventId == p.record.eventId;
      var i :| 0 <= i < |lines| && lines[i] == l;
      assert Readable(c, lines[i]);
      assert all[i][0].record.eventId == all[|lines|][0].record.eventId;
    } else if Good(c, lines) && Whole(c, p) {
      forall i | 0 <= i < |lines|
        ensures lines[i][0].record.eventId != p.record.eventId
      {
        assert Readable(c, lines[i]) && lines[i] in lines && lines[i][0] in lines[i];
      }
    } else if Good(c, all) {
      GoodPrefix(c, lines, [p]);
    }
  }

  lemma GoodPrefix(c: Codec, lines: seq<Line>, line: Line)
    requires Good(c, lines + [line])
    ensures Good(c, lines) && Readable(c, line)
  {
    var all := lines + [line];
    assert all[|lines|] == line;
    assert forall i :: 0 <= i < |lines| ==> all[i] == lines[i];
    forall i | 0 <= i < |lines|
      ensures Readable(c, lines[i])
    {
      assert Readable(c, all[i]);
    }
    forall i, j | 0 <= i < j < |lines|
      ensures lines[i][0].record.eventId != lines[j][0].record.eventId
    {
      assert all[i][0].record.eventId != all[j][0].record.eventId;
    }
  }

  lemma StepGoodIff(c: Codec, g: Gateway, e: Event)
    ensures Good(c, Step(c, g, e).All()) <==> Good(c, g.All()) && !Spoils(c, g, e)
  {
    if e.Receive? && g.up {
      var r := Record(1, e.eventId, e.details);
      if Writes(c, g, r, e.fate) {
        AppendedLines(c, g, r, e.fate);
        if g.tail == [] {
          assert g.tail + [PieceOf(c, r, e.fate)] == [PieceOf(c, r, e.fate)] && g.All() == g.lines;
          GoodGrows(c, g.lines, PieceOf(c, r, e.fate));
        } else if Good(c, Step(c, g, e).All()) {
          GoodPrefix(c, g.lines, g.tail + [PieceOf(c, r, e.fate)]);
        }
      }
    }
  }

  ghost predicate NothingSpoiled(c: Codec, es: seq<Event>) {
    forall k :: 0 <= k < |es| ==> !SpoilsAt(c, es, k)
  }

  /** The run spoils the journal at step `k`. */
  ghost predicate SpoilsAt(c: Codec, es: seq<Event>, k: nat)
    requires k < |es|
  {
    Spoils(c, After(c, es[..k]), es[k])
  }

  lemma SpoilsEarlier(c: Codec, es: seq<Event>, last: nat, k: nat)
    requires k < last <= |es|
    ensures SpoilsAt(c, es, k) <==> SpoilsAt(c, es[..last], k)
  {
    assert es[..last][..k] == es[..k] && es[..last][k] == es[k];
  }

  lemma NothingSpoiledSplits(c: Codec, es: seq<Event>)
    requires es != []
    ensures NothingSpoiled(c, es) <==> NothingSpoiled(c, es[..|es| - 1]) && !SpoilsAt(c, es, |es| - 1)
  {
    var last := |es| - 1;
    forall k | 0 <= k < last
      ensures SpoilsAt(c, es, k) <==> SpoilsAt(c, es[..last], k)
    {
      SpoilsEarlier(c, es, last, k);
    }
  }

  lemma {:induction false} GoodIffNothingSpoiled(c: Codec, es: seq<Event>)
    ensures Good(c, After(c, es).All()) <==> NothingSpoiled(c, es)
  {
    if es != [] {
      GoodIffNothingSpoiled(c, es[..|es| - 1]);
      StepGoodIff(c, After(c, es[..|es| - 1]), es[|es| - 1]);
      NothingSpoiledSplits(c, es);
    }
  }

  /** With every way a write can fail, a start after any run succeeds exactly when no step of the run spoiled the
      journal. */
  lemma ReloadIffNothingSpoiled(c: Codec, es: seq<Event>)
    requires c.Strict()
    ensures Loaded(c, File(c, After(c, es))).Some? <==> NothingSpoiled(c, es)
  {
    RunKeepsInv(c, es);
    ReloadIffGood(c, After(c, es));
    GoodIffNothingSpoiled(c, es);
  }

  /** A spoiled journal stays spoiled: whatever is appended later, no start accepts it again. */
  lemma SpoiledForGood(c: Codec, es: seq<Event>, more: seq<Event>, k: nat)
    requires c.Strict() && k < |es| && SpoilsAt(c, es, k)
    ensures Loaded(c, File(c, After(c, es + more))).None?
  {
    assert (es + more)[..|es|] == es;
    SpoilsEarlier(c, es + more, |es|, k);
    assert SpoilsAt(c, es + more, k);
    ReloadIffNothingSpoiled(c, es + more);
  }

  // ---------------------------------------------------------------- what follows

  ghost predicate Faithful(c: Codec, g: Gateway) {
    g.up && g.tail == [] && Good(c, g.lines) && g.seen == Ids(c, g.lines)
  }

  lemma StepKeepsFaithful(c: Codec, g: Gateway, e: Event)
    requires c.Strict() && Inv(c, g) && Faithful(c, g)
    requires e.Receive? ==> e.fate in {Synced, NotWritten}
    ensures Faithful(c, Step(c, g, e))
  {
    assert g.All() == g.lines;
    if e.Receive? {
      var r := Record(1, e.eventId, e.details);
      if Writes(c, g, r, e.fate) {
        AppendedIds(c, g, r, e.fate);
        GoodGrows(c, g.lines, PieceOf(c, r, e.fate));
        assert g.tail + [PieceOf(c, r, e.fate)] == [PieceOf(c, r, e.fate)];
        assert Step(c, g, e).All() == Step(c, g, e).lines;
      }
    } else if e.Restart? {
      ReloadIffGood(c, g);
    }
  }

  /** When failed writes leave the file as it was, then after any deliveries and restarts the file's events are
      distinct, are exactly the remembered ones, fit the bound, and a start recovers them. */
  lemma {:induction false} JournalIsFaithful(c: Codec, es: seq<Event>)
    requires c.Strict()
    requires forall k :: 0 <= k < |es| && es[k].Receive? ==> es[k].fate in {Synced, NotWritten}
    ensures var g := After(c, es);
            Faithful(c, g) && |File(c, g)| <= MAX_EVENT_JOURNAL && Loaded(c, File(c, g)) == Some(g.seen)
  {
    RunKeepsInv(c, es);
    if es != [] {
      var before := es[..|es| - 1];
      JournalIsFaithful(c, before);
      RunKeepsInv(c, before);
      StepKeepsFaithful(c, After(c, before), es[|es| - 1]);
    }
    var g := After(c, es);
    assert g.All() == g.lines;
    ReloadIffGood(c, g);
  }

  /** One failed sync followed by the provider's redelivery leaves a journal no later start accepts. */
  lemma RedeliveryAfterFailedSyncBlocksRestart(c: Codec, id: Uuid, details: Json)
    requires c.Strict() && 2 * (|c.encode(Record(1, id, details))| + 1) <= MAX_EVENT_JOURNAL
    ensures !After(c, [Receive(id, details, Unsynced), Receive(id, details, Synced), Restart]).up
  {
    var first, second := Receive(id, details, Unsynced), Receive(id, details, Synced);
    var r := Record(1, id, details);
    var es := [first, second];
    assert es[..1] == [first] && [first][..0] == [] && [first, second, Restart][..2] == es;
    assert Text(c, []) == "" && File(c, EMPTY) == "";
    AppendedFile(c, EMPTY, r, Unsynced);
    AppendedIds(c, EMPTY, r, Unsynced);
    assert SpoilsAt(c, es, 1);
    ReloadIffNothingSpoiled(c, es);
  }

  /** Whenever an event is published, its whole record was in the file before, and it is there ever after. */
  lemma JournaledBeforePublished(c: Codec, es: seq<Event>, k: nat)
    requires c.Strict() && k < |es|
    requires es[k].Publish? && es[k].Enabled(After(c, es[..k]))
    ensures es[k].published in Ids(c, After(c, es[..k]).All())
    ensures es[k].published in Ids(c, After(c, es).All())
  {
    RunKeepsInv(c, es[..k]);
    FileOnlyGrows(c, es, k);
  }

  // ---------------------------------------------------------------- the process

  class Process {
    const codec: Codec
    var file: string
    var seen: set<Uuid>
    var up: bool
    ghost var lines: seq<Line>
    ghost var tail: Line
    ghost var accepted: set<Uuid>

    ghost predicate Valid()
      reads this
    {
      codec.Strict() && file == File(codec, View()) && Inv(codec, View())
    }

    ghost function View(): Gateway
      reads this
    {
      Gateway(lines, tail, seen, accepted, up)
    }

    constructor (c: Codec)
      requires c.Strict()
      ensures Valid() && codec == c && View() == EMPTY
    {
      codec, file, seen, up, lines, tail, accepted := c, "", {}, true, [], [], {};
    }

    /** Success means the whole record is on file. A failure forgets nothing and remembers nothing; it leaves bytes
        on file only if the write was torn or the sync failed. */
    method Append(r: Record, fate: Fate) returns (ok: bool)
      requires Valid() && up && r.schemaVersion == 1
      modifies this
      ensures Valid()
      ensures View() == Step(codec, old(View()), Receive(r.eventId, r.details, fate))
      ensures ok ==> r.eventId in accepted && r.eventId in Ids(codec, View().All())
      ensures !ok ==> seen == old(seen) && accepted == old(accepted)
      ensures !ok && file != old(file) ==> old(file) < file && (fate.Unsynced? || fate.Torn?)
    {
      ghost var before := View();
      StepKeepsInv(codec, before, Receive(r.eventId, r.details, fate));
      assert r == Record(1, r.eventId, r.details);
      if r.eventId in seen {
        accepted := accepted + {r.eventId};
        return true;
      }
      if |file| > MAX_EVENT_JOURNAL {
        return false;
      }
      var encoded := codec.encode(r) + "\n";
      if |file| + |encoded| > MAX_EVENT_JOURNAL {
        return false;
      }
      if fate.NotWritten? || (fate.Torn? && !(0 < fate.n < |encoded|)) {
        return false;
      }
      AppendedText(codec, before, r, fate);
      if fate.Torn? {
        file := file + encoded[..fate.n];
        tail := tail + [PieceOf(codec, r, fate)];
        return false;
      }
      file := file + encoded;
      lines, tail := lines + [tail + [PieceOf(codec, r, fate)]], [];
      if fate.Unsynced? {
        return false;
      }
      seen := seen + {r.eventId};
      accepted := accepted + {r.eventId};
      return true;
    }

    method Start() returns (ok: bool)
      requires Valid()
      modifies this
      ensures Valid() && file == old(file)
      ensures View() == Step(codec, old(View()), Restart) && ok == up
      ensures ok <==> Good(codec, View().All())
    {
      StepKeepsInv(codec, View(), Restart);
      ReloadIffGood(codec, View());
      var loaded := Load(codec, file);
      accepted := {};
      match loaded {
        case Some(events) =>
          seen, up := events, true;
        case None =>
          seen, up := {}, false;
      }
      return up;
    }
  }
}
