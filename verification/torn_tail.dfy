/**
 A log line cut off by a crash and continued by the next entry. Valid JSON keeps a scan of its
 brackets and quotes in step; the cut line leaves the scan somewhere from which the next entry,
 whose first bytes are fixed, cannot finish one value.
 */
module TornTail {
  import opened Basics
  import opened SessionLog
  import opened JsonFraming

  /** The scan: where it is, the open brackets, whether a string or the outermost bracket was just closed, and whether it failed. */
  datatype Scan = Scan(mode: Mode, depth: nat, quoted: bool, over: bool, bad: bool)

  predicate Opens(c: Byte) { c == 91 || c == 123 }

  predicate Closes(c: Byte) { c == 93 || c == 125 }

  /** What may follow a string: whitespace, a comma, a colon or a closing bracket. */
  predicate Follows(c: Byte) { IsWs(c) || c == 44 || c == 58 || Closes(c) }

  predicate Escapable(c: Byte) { c in {34, 92, 47, 98, 102, 110, 114, 116, 117} }

  function Fails(s: Scan, c: Byte): bool {
    match s.mode
    case Outside => (s.over && !IsWs(c)) || (s.quoted && !Follows(c)) || (Closes(c) && s.depth == 0)
    case Inside => false
    case Escaped => !Escapable(c)
  }

  function Depth(s: Scan, c: Byte): nat {
    if s.mode != Outside then s.depth
    else if Opens(c) then s.depth + 1
    else if Closes(c) && s.depth > 0 then s.depth - 1
    else s.depth
  }

  function Next(s: Scan, c: Byte): Scan {
    Scan(Step(s.mode, c), Depth(s, c),
         if s.mode == Outside && IsWs(c) then s.quoted else s.mode == Inside && c == Quote,
         s.over || (s.mode == Outside && Closes(c) && s.depth == 1),
         s.bad || Fails(s, c))
  }

  function Read(s: Scan, text: Bytes): Scan
    decreases text
  {
    if text == [] then s else Read(Next(s, text[0]), text[1..])
  }

  lemma {:induction false} ReadParts(s: Scan, a: Bytes, b: Bytes)
    ensures Read(s, a + b) == Read(Read(s, a), b)
    decreases a
  {
    if a == [] {
      assert a + b == b;
    } else {
      assert (a + b)[1..] == a[1..] + b;
      ReadParts(Next(s, a[0]), a[1..], b);
    }
  }

  lemma {:induction false} ReadOne(s: Scan, c: Byte)
    ensures Read(s, [c]) == Next(s, c)
  {
    assert [c][1..] == [];
    assert Read(Next(s, c), []) == Next(s, c);
  }

  lemma {:induction false} BadStays(s: Scan, text: Bytes)
    requires s.bad
    ensures Read(s, text).bad
    decreases text
  {
    if text != [] { BadStays(Next(s, text[0]), text[1..]); }
  }

  // ---- what valid text does to the scan ----

  /** Before a value, inside d brackets. */
  function Ready(d: nat): Scan { Scan(Outside, d, false, false, false) }

  /** After a value: as many brackets are open as before it. */
  predicate Settled(s: Scan, d: nat) { s.mode == Outside && s.depth == d && !s.bad && (s.over ==> d == 0) }

  lemma {:induction false} WsRead(s: Scan, ws: Bytes)
    requires s.mode == Outside && AllWs(ws)
    ensures Read(s, ws) == s
    decreases ws
  {
    if ws != [] {
      assert ws[0] in ws && forall c :: c in ws[1..] ==> c in ws;
      assert Next(s, ws[0]) == s;
      WsRead(s, ws[1..]);
    }
  }

  lemma {:induction false} WordRead(d: nat, text: Bytes)
    requires Word(text)
    ensures Read(Ready(d), text) == Ready(d)
    decreases text
  {
    if text != [] {
      assert text[0] in text && forall c :: c in text[1..] ==> c in text;
      assert Next(Ready(d), text[0]) == Ready(d);
      WordRead(d, text[1..]);
    }
  }

  function InString(d: nat): Scan { Scan(Inside, d, false, false, false) }

  lemma {:induction false} HexRead(d: nat, hex: Bytes)
    requires forall c :: c in hex ==> HexDigit(c)
    ensures Read(InString(d), hex) == InString(d)
    decreases hex
  {
    if hex != [] {
      assert hex[0] in hex && forall c :: c in hex[1..] ==> c in hex;
      assert Next(InString(d), hex[0]) == InString(d);
      HexRead(d, hex[1..]);
    }
  }

  lemma {:induction false} EscapeRead(d: nat, e: Byte)
    requires Escapable(e)
    ensures Read(InString(d), [Backslash, e]) == InString(d)
  {
    var s := Next(InString(d), Backslash);
    assert s == Scan(Escaped, d, false, false, false) && Next(s, e) == InString(d);
    assert [Backslash, e] == [Backslash] + [e];
    ReadParts(InString(d), [Backslash], [e]);
    ReadOne(InString(d), Backslash);
    ReadOne(s, e);
  }

  lemma {:induction false} CharRead(d: nat, ch: Char)
    requires CharOk(ch)
    ensures Read(InString(d), CharBytes(ch)) == InString(d)
  {
    match ch
    case Plain(c) => ReadOne(InString(d), c);
    case Escape(e) => EscapeRead(d, e);
    case Unicode(hex) =>
      ReadParts(InString(d), [Backslash, 117], hex);
      EscapeRead(d, 117);
      HexRead(d, hex);
  }

  lemma {:induction false} CharsRead(d: nat, chars: seq<Char>)
    requires CharsOk(chars)
    ensures Read(InString(d), CharsBytes(chars)) == InString(d)
    decreases chars
  {
    if chars != [] {
      CharRead(d, chars[0]);
      CharsRead(d, chars[1..]);
      ReadParts(InString(d), CharBytes(chars[0]), CharsBytes(chars[1..]));
    }
  }

  lemma {:induction false} StringRead(d: nat, chars: seq<Char>)
    requires CharsOk(chars)
    ensures Settled(Read(Ready(d), StringBytes(chars)), d)
  {
    var body := CharsBytes(chars);
    ReadParts(Ready(d), [Quote] + body, [Quote]);
    ReadParts(Ready(d), [Quote], body);
    ReadOne(Ready(d), Quote);
    CharsRead(d, chars);
    ReadOne(InString(d), Quote);
    assert Next(Ready(d), Quote) == InString(d) && Settled(Next(InString(d), Quote), d);
  }

  /** A comma or a colon after a value inside a bracket. */
  lemma {:induction false} SeparatorRead(s: Scan, d: nat, c: Byte)
    requires Settled(s, d) && d > 0 && (c == 44 || c == 58)
    ensures Read(s, [c]) == Ready(d)
  {
    ReadOne(s, c);
  }

  lemma {:induction false} OpenRead(d: nat, c: Byte)
    requires Opens(c)
    ensures Read(Ready(d), [c]) == Ready(d + 1)
  {
    ReadOne(Ready(d), c);
  }

  lemma {:induction false} CloseRead(s: Scan, d: nat, c: Byte)
    requires Settled(s, d + 1) && Closes(c)
    ensures Settled(Read(s, [c]), d)
  {
    ReadOne(s, c);
  }

  lemma {:induction false} EnclosedRead(d: nat, open: Byte, inner: Bytes, close: Byte)
    requires Opens(open) && Closes(close) && Settled(Read(Ready(d + 1), inner), d + 1)
    ensures Settled(Read(Ready(d), [open] + inner + [close]), d)
  {
    hide Read;
    ReadParts(Ready(d), [open] + inner, [close]);
    ReadParts(Ready(d), [open], inner);
    OpenRead(d, open);
    CloseRead(Read(Ready(d + 1), inner), d, close);
  }

  lemma {:induction false} PaddedRead(d: nat, before: Bytes, text: Bytes, after: Bytes)
    requires AllWs(before) && AllWs(after) && Settled(Read(Ready(d), text), d)
    ensures Settled(Read(Ready(d), before + text + after), d)
  {
    hide Read;
    ReadParts(Ready(d), before + text, after);
    ReadParts(Ready(d), before, text);
    WsRead(Ready(d), before);
    WsRead(Read(Ready(d), text), after);
  }

  lemma {:induction false} SeparatedRead(d: nat, a: Bytes, c: Byte, b: Bytes)
    requires d > 0 && (c == 44 || c == 58) && Settled(Read(Ready(d), a), d) && Settled(Read(Ready(d), b), d)
    ensures Settled(Read(Ready(d), a + ([c] + b)), d)
  {
    hide Read;
    ReadParts(Ready(d), a, [c] + b);
    ReadParts(Read(Ready(d), a), [c], b);
    SeparatorRead(Read(Ready(d), a), d, c);
  }

  /** A value leaves as many brackets open as there were. */
  lemma {:induction false} ValueRead(d: nat, v: Value)
    requires ValueOk(v)
    ensures Settled(Read(Ready(d), Render(v)), d)
    decreases v
  {
    hide Read;
    match v
    case Literal(text) => LiteralWord(text); WordRead(d, text);
    case Text(chars) => StringRead(d, chars);
    case Array(pad, elems) =>
      if elems.NoElem? { WsRead(Ready(d + 1), pad); } else { ElemsRead(d + 1, elems); }
      EnclosedRead(d, 91, if elems.NoElem? then pad else RenderElems(elems), 93);
    case Object(pad, members) =>
      if members.NoMember? { WsRead(Ready(d + 1), pad); } else { MembersRead(d + 1, members); }
      EnclosedRead(d, 123, if members.NoMember? then pad else RenderMembers(members), 125);
  }

  lemma {:induction false} ElemsRead(d: nat, es: Elems)
    requires d > 0 && es.Elem? && ElemsOk(es)
    ensures Settled(Read(Ready(d), RenderElems(es)), d)
    decreases es
  {
    hide Read;
    ValueRead(d, es.value);
    PaddedRead(d, es.before, Render(es.value), es.after);
    var text := es.before + Render(es.value) + es.after;
    if es.rest.NoElem? {
      assert text + [] == text;
    } else {
      ElemsRead(d, es.rest);
      SeparatedRead(d, text, 44, RenderElems(es.rest));
    }
  }

  lemma {:induction false} MembersRead(d: nat, ms: Members)
    requires d > 0 && ms.Member? && MembersOk(ms)
    ensures Settled(Read(Ready(d), RenderMembers(ms)), d)
    decreases ms
  {
    hide Read;
    ValueRead(d, ms.value);
    MemberRead(d, ms);
    if ms.rest.NoMember? {
      assert MemberText(ms) + [] == MemberText(ms);
    } else {
      MembersRead(d, ms.rest);
      SeparatedRead(d, MemberText(ms), 44, RenderMembers(ms.rest));
    }
  }

  lemma {:induction false} MemberRead(d: nat, ms: Members)
    requires d > 0 && ms.Member? && MembersOk(ms) && Settled(Read(Ready(d), Render(ms.value)), d)
    ensures Settled(Read(Ready(d), MemberText(ms)), d)
  {
    hide Read;
    StringRead(d, ms.key);
    PaddedRead(d, ms.before, StringBytes(ms.key), ms.afterKey);
    PaddedRead(d, ms.beforeValue, Render(ms.value), ms.after);
    SeparatedRead(d, ms.before + StringBytes(ms.key) + ms.afterKey, 58, ms.beforeValue + Render(ms.value) + ms.after);
  }

  lemma {:induction false} JsonRead(d: nat, text: Bytes)
    requires IsJson(text)
    ensures Settled(Read(Ready(d), text), d)
  {
    hide Read;
    var doc :| DocumentOk(doc) && RenderDocument(doc) == text;
    ValueRead(d, doc.value);
    PaddedRead(d, doc.before, Render(doc.value), doc.after);
  }

  // ---- a cut line and the next entry ----

  /** Once the outermost bracket is open, it stays open until it is closed. */
  lemma {:induction false} OpenOrOver(s: Scan, text: Bytes)
    requires s.over || s.depth > 0
    ensures Read(s, text).over || Read(s, text).depth > 0
    decreases text
  {
    if text != [] { OpenOrOver(Next(s, text[0]), text[1..]); }
  }

  lemma {:induction false} HeadStarts(line: Bytes)
    requires Ascii(IdHead) <= line
    ensures |line| > 3 && line[0] == 123 && line[1] == Quote && line[2] == 105
  {
    assert |IdHead| > 3 && Ascii(IdHead)[0] == 123 && Ascii(IdHead)[1] == 34 && Ascii(IdHead)[2] == 105;
  }

  lemma {:induction false} FirstThree(s: Scan, line: Bytes)
    requires |line| > 3
    ensures Next(s, line[0]).bad || Next(Next(Next(s, line[0]), line[1]), line[2]).bad ==> Read(s, line).bad
  {
    var s1 := Next(s, line[0]);
    var s2 := Next(s1, line[1]);
    assert line[1..][1..] == line[2..] && line[2..][1..] == line[3..];
    assert Read(s, line) == Read(s1, line[1..]) && Read(s1, line[1..]) == Read(s2, line[2..]) && Read(s2, line[2..]) == Read(Next(s2, line[2]), line[3..]);
    hide Read, Next;
    if s1.bad { BadStays(s1, line[1..]); }
    if Next(s2, line[2]).bad { BadStays(Next(s2, line[2]), line[3..]); }
  }

  /** Wherever the cut left the scan, the next entry fails it or leaves a bracket open. */
  lemma {:induction false} NextEntryFails(s: Scan, line: Bytes)
    requires Ascii(IdHead) <= line && IsJson(line) && (s.over || s.depth > 0)
    ensures Read(s, line).bad || Read(s, line).depth > 0
  {
    HeadStarts(line);
    if s == Ready(s.depth) {
      JsonRead(s.depth, line);
    } else {
      FirstThree(s, line);
      if s.bad { BadStays(s, line); }
    }
  }

  /** Some of an entry's line followed by another entry's line is not one JSON text. */
  lemma {:induction false} NeverJson(torn: Bytes, line: Bytes)
    requires torn != [] && torn[0] == 123 && Ascii(IdHead) <= line && IsJson(line)
    ensures !IsJson(torn + line)
  {
    hide IsJson;
    OpenRead(0, 123);
    ReadOne(Ready(0), 123);
    OpenOrOver(Next(Ready(0), 123), torn[1..]);
    NextEntryFails(Read(Ready(0), torn), line);
    ReadParts(Ready(0), torn, line);
    if IsJson(torn + line) {
      JsonRead(0, torn + line);
    }
  }

  /**
   A log that ended inside an entry's line and is appended to reads if and only if nothing of that
   line was left: with any byte of it the whole log is refused, the entries before the crash
   included. The decoder may be any that takes only JSON.
   */
  lemma {:induction false} ReopenedReadsIffWhole<E>(dec: Bytes -> Option<E>, whole: seq<Bytes>, es: seq<E>, cut: Entry, torn: Bytes,
                                                    next: Entry, more: seq<Bytes>, later: seq<E>)
    requires forall b :: dec(b).Some? ==> IsJson(b)
    requires |es| == |whole| && forall i :: 0 <= i < |es| ==> IsLine(whole[i]) && dec(whole[i]) == Some(es[i])
    requires IsLine(EntryText(cut)) && torn <= EntryText(cut) && IsLine(EntryText(next)) && dec(EntryText(next)).Some?
    requires |later| == |more| && forall i :: 0 <= i < |later| ==> IsLine(more[i]) && dec(more[i]) == Some(later[i])
    ensures var r := Parse(dec, Stream(whole) + torn + Stream([EntryText(next)] + more), 1);
            && (r.Entries? <==> torn == [])
            && (torn == [] ==> r == Entries(es + [dec(EntryText(next)).value] + later, None))
            && (torn != [] ==> r == Malformed(|whole| + 1))
  {
    hide Parse, Stream, IsJson;
    var line := EntryText(next);
    ReopenedReadsIff(dec, whole, es, torn, line, more, later);
    if torn == [] {
      assert torn + line == line;
    } else {
      HeadStarts(EntryText(cut));
      NeverJson(torn, line);
    }
  }

  // ---- a run that falls short ----

  /** A string of bytes written as themselves. */
  function Plains(s: Bytes): seq<Char> { if s == [] then [] else [Plain(s[0])] + Plains(s[1..]) }

  ghost predicate AllPlain(s: Bytes) { forall c :: c in s ==> CharOk(Plain(c)) }

  lemma {:induction false} PlainsText(s: Bytes)
    requires AllPlain(s)
    ensures CharsOk(Plains(s)) && StringBytes(Plains(s)) == [Quote] + s + [Quote]
  {
    if s != [] {
      assert s[0] in s && forall c :: c in s[1..] ==> c in s;
      PlainsText(s[1..]);
      assert Plains(s)[1..] == Plains(s[1..]) && s == [s[0]] + s[1..];
      assert StringBytes(Plains(s[1..]))[1..|s|] == s[1..];
    }
  }

  function Named(key: Bytes, text: Bytes, rest: Members): Members { Member([], Plains(key), [], [], Text(Plains(text)), [], rest) }

  /** A member's key, its quotes and the quote its text starts with. */
  function KeyText(key: Bytes): Bytes { [Quote] + key + [Quote, 58, Quote] }

  lemma {:induction false} NamedText(key: Bytes, text: Bytes, rest: Members)
    requires MembersOk(rest) && AllPlain(key) && AllPlain(text)
    ensures MembersOk(Named(key, text, rest))
    ensures RenderMembers(Named(key, text, rest)) == KeyText(key) + text + [Quote] + (if rest.NoMember? then [] else [44] + RenderMembers(rest))
  {
    PlainsText(key);
    PlainsText(text);
    hide Plains, RenderMembers, StringBytes, AllPlain, CharsOk;
    NamedParts(key, text, rest);
    Unpadded([Quote] + key + [Quote], [Quote] + text + [Quote]);
    assert [Quote] + key + [Quote] + ([58] + ([Quote] + text + [Quote])) == KeyText(key) + text + [Quote];
  }

  lemma {:induction false} Unpadded(k: Bytes, v: Bytes)
    ensures [] + k + [] + ([58] + ([] + v + [])) == k + ([58] + v)
  {
    assert [] + k + [] == k && [] + v + [] == v;
  }

  lemma {:induction false} NamedParts(key: Bytes, text: Bytes, rest: Members)
    ensures RenderMembers(Named(key, text, rest)) == MemberText(Named(key, text, rest)) + (if rest.NoMember? then [] else [44] + RenderMembers(rest))
  {
    hide Plains, StringBytes;
  }

  lemma {:induction false} ObjectIsJson(ms: Members)
    requires ms.Member? && MembersOk(ms)
    ensures IsJson([123] + RenderMembers(ms) + [125])
  {
    hide MembersOk, RenderMembers;
    var doc := Document([], Object([], ms), []);
    assert DocumentOk(doc) && RenderDocument(doc) == [123] + RenderMembers(ms) + [125];
  }

  const IdKey: Bytes := [105, 100]
  const AtKey: Bytes := [97, 116]
  const KindKey: Bytes := [107, 105, 110, 100]
  const ModeKey: Bytes := [109, 111, 100, 101]
  const ModeChangeKind: Bytes := [109, 111, 100, 101, 95, 99, 104, 97, 110, 103, 101]

  /** A mode_change entry: its payload is one text field. */
  function ModeChange(id: Bytes, at: Bytes, mode: Bytes): Entry {
    Entry(id, at, ModeChangeKind, Some(ModeChangeKind), true, [123] + (KeyText(ModeKey) + mode + [Quote]) + [125], [], false, None)
  }

  lemma HeadTexts()
    ensures Ascii(IdHead) == [123] + KeyText(IdKey)
    ensures Ascii(AtHead) == [Quote, 44] + KeyText(AtKey)
    ensures Ascii(KindHead) == [Quote, 44] + KeyText(KindKey)
  {
  }

  lemma {:induction false} ModeText(id: Bytes, at: Bytes, mode: Bytes)
    ensures var e := ModeChange(id, at, mode);
            EnvelopeText(e) == [123] + KeyText(IdKey) + id + ([Quote, 44] + KeyText(AtKey)) + at + ([Quote, 44] + KeyText(KindKey)) + ModeChangeKind + [Quote]
    ensures EntryText(ModeChange(id, at, mode)) == EnvelopeText(ModeChange(id, at, mode)) + ([44] + (KeyText(ModeKey) + mode + [Quote])) + [125]
  {
    HeadTexts();
    hide Ascii, KeyText;
    var e, field := ModeChange(id, at, mode), KeyText(ModeKey) + mode + [Quote];
    assert e.scalars[1..] == field + [125] && (field + [125])[..|field|] == field;
    assert ScalarsText(e) == [44] + field && InputText(e) == [] && ContentText(e) == [];
    hide EnvelopeText;
    assert EnvelopeText(e) + ([44] + field) + [] + [] + [125] == EnvelopeText(e) + ([44] + field) + [125];
  }

  lemma {:induction false} ModeIsLine(id: Bytes, at: Bytes, mode: Bytes)
    requires AllPlain(id) && AllPlain(at) && AllPlain(mode)
    ensures IsLine(EntryText(ModeChange(id, at, mode)))
  {
    ModeText(id, at, mode);
    hide EntryText, EnvelopeText;
    assert NL !in KeyText(IdKey) && NL !in KeyText(AtKey) && NL !in KeyText(KindKey) && NL !in KeyText(ModeKey) && NL !in ModeChangeKind;
    assert NL !in id && NL !in at && NL !in mode;
    hide KeyText, AllPlain;
    assert NL !in EnvelopeText(ModeChange(id, at, mode));
  }

  /** Fields as an object's members are written, and as the line is. */
  lemma {:induction false} Regroup(k1: Bytes, t1: Bytes, k2: Bytes, t2: Bytes, k3: Bytes, t3: Bytes, k4: Bytes)
    ensures [123] + (k1 + t1 + [Quote] + ([44] + (k2 + t2 + [Quote] + ([44] + (k3 + t3 + [Quote] + ([44] + k4)))))) + [125] ==
            [123] + k1 + t1 + ([Quote, 44] + k2) + t2 + ([Quote, 44] + k3) + t3 + [Quote] + ([44] + k4) + [125]
  {
    assert [Quote] + ([44] + (k2 + t2 + [Quote])) == [Quote, 44] + k2 + t2 + [Quote];
  }

  lemma KeysPlain()
    ensures AllPlain(IdKey) && AllPlain(AtKey) && AllPlain(KindKey) && AllPlain(ModeKey) && AllPlain(ModeChangeKind)
  {
  }

  /** The text of the members, innermost last. */
  function ModeFields(id: Bytes, at: Bytes, mode: Bytes): Bytes {
    KeyText(IdKey) + id + [Quote] + ([44] + (KeyText(AtKey) + at + [Quote] + ([44] +
      (KeyText(KindKey) + ModeChangeKind + [Quote] + ([44] + (KeyText(ModeKey) + mode + [Quote]))))))
  }

  lemma {:induction false} ModeMembers(id: Bytes, at: Bytes, mode: Bytes) returns (ms: Members)
    requires AllPlain(id) && AllPlain(at) && AllPlain(mode)
    ensures ms.Member? && MembersOk(ms) && RenderMembers(ms) == ModeFields(id, at, mode)
  {
    KeysPlain();
    hide KeyText, Plains, RenderMembers, AllPlain;
    assert MembersOk(NoMember);
    hide MembersOk;
    NamedText(ModeKey, mode, NoMember);
    ms := Named(ModeKey, mode, NoMember);
    assert KeyText(ModeKey) + mode + [Quote] + [] == KeyText(ModeKey) + mode + [Quote];
    NamedText(KindKey, ModeChangeKind, ms);
    ms := Named(KindKey, ModeChangeKind, ms);
    NamedText(AtKey, at, ms);
    ms := Named(AtKey, at, ms);
    NamedText(IdKey, id, ms);
    ms := Named(IdKey, id, ms);
  }

  /** Such an entry is written as valid JSON. */
  lemma {:induction false} ModeIsJson(id: Bytes, at: Bytes, mode: Bytes)
    requires AllPlain(id) && AllPlain(at) && AllPlain(mode)
    ensures IsJson(EntryText(ModeChange(id, at, mode)))
  {
    hide KeyText, RenderMembers, MembersOk, EntryText, EnvelopeText, AllPlain, IsJson;
    var ms := ModeMembers(id, at, mode);
    ObjectIsJson(ms);
    Regroup(KeyText(IdKey), id, KeyText(AtKey), at, KeyText(KindKey), ModeChangeKind, KeyText(ModeKey) + mode + [Quote]);
    ModeText(id, at, mode);
  }

  /**
   A log of one mode change and one byte of the next line reads, as truncated. Loading appends to
   it as it is, and then not even the first entry can be read.
   */
  lemma {:induction false} ReopenedLosesAll(id: Bytes, at: Bytes, mode: Bytes) returns (dec: Bytes -> Option<nat>, line: Bytes, torn: Bytes)
    requires AllPlain(id) && AllPlain(at) && AllPlain(mode)
    ensures forall b :: dec(b).Some? ==> IsJson(b)
    ensures EntryWritable(ModeChange(id, at, mode)) && line == EntryText(ModeChange(id, at, mode)) && torn <= line && dec(line) == Some(0)
    ensures Parse(dec, Stream([line]) + torn, 1) == Entries([0], Some(2))
    ensures Parse(dec, Stream([line]) + torn + Stream([line]), 1) == Malformed(2)
  {
    var e := ModeChange(id, at, mode);
    ModeIsJson(id, at, mode);
    ModeIsLine(id, at, mode);
    line, torn := EntryText(e), [123];
    HeadStarts(line);
    dec := b => if b == EntryText(e) then Some(0) else None;
    assert EntryWritable(e);
    hide Parse, Stream, EntryText, IsJson, AllPlain, ModeChange, EntryWritable;
    assert [line] + [] == [line];
    ReopenedReadsIffWhole(dec, [line], [0], e, torn, e, [], []);
    TornReads(dec, line, torn);
  }

  lemma {:induction false} TornReads<E>(dec: Bytes -> Option<E>, line: Bytes, torn: Bytes)
    requires IsLine(line) && dec(line).Some? && torn != [] && NL !in torn
    ensures Parse(dec, Stream([line]) + torn, 1) == Entries([dec(line).value], Some(2))
  {
    var e := dec(line).value;
    hide Parse, Stream;
    ParseAfter(dec, [line], [e], torn, 1);
    ParseStep(dec, torn, 2);
    LineEndAt(torn, []);
    assert torn + [] == torn && [e] + [] == [e];
  }
}
