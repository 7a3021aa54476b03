/**
 How JSON bytes from elsewhere get into a log line. Valid JSON is a tree of concrete syntax in
 the grammar of RFC 8259, whitespace included; compacting it removes exactly the insignificant
 whitespace, so what is copied stays on one line and says the same.
 */
module JsonFraming {
  import opened Basics
  import opened SessionLog

  const CR: Byte := 13
  const Quote: Byte := 34
  const Backslash: Byte := 92

  /** No byte that would end a line. */
  predicate Unbroken(s: Bytes) { NL !in s && CR !in s }

  predicate IsWs(c: Byte) { c == 32 || c == 9 || c == 10 || c == 13 }

  // ---- concrete syntax ----

  /** One character of a string as written: itself, an escape, or a Unicode escape. */
  datatype Char = Plain(c: Byte) | Escape(e: Byte) | Unicode(hex: Bytes)

  datatype Value = Literal(text: Bytes) | Text(chars: seq<Char>) | Array(pad: Bytes, elems: Elems) | Object(pad: Bytes, members: Members)

  datatype Elems = NoElem | Elem(before: Bytes, value: Value, after: Bytes, rest: Elems)

  datatype Members =
    | NoMember
    | Member(before: Bytes, key: seq<Char>, afterKey: Bytes, beforeValue: Bytes, value: Value, after: Bytes, rest: Members)

  /** A whole text: a value and the whitespace around it. */
  datatype Document = Document(before: Bytes, value: Value, after: Bytes)

  predicate AllWs(s: Bytes) { forall c :: c in s ==> IsWs(c) }

  predicate Digit(c: Byte) { 48 <= c <= 57 }

  predicate HexDigit(c: Byte) { Digit(c) || 65 <= c <= 70 || 97 <= c <= 102 }

  predicate Digits(s: Bytes) { s != [] && forall c :: c in s ==> Digit(c) }

  /** -? int frac? exp?, with the parts named. */
  ghost predicate IsNumber(s: Bytes) {
    exists sign: Bytes, whole: Bytes, frac: Bytes, exp: Bytes ::
      s == NumberText(sign, whole, frac, exp) && NumberParts(sign, whole, frac, exp)
  }

  function NumberText(sign: Bytes, whole: Bytes, frac: Bytes, exp: Bytes): Bytes { sign + whole + frac + exp }

  predicate NumberParts(sign: Bytes, whole: Bytes, frac: Bytes, exp: Bytes) {
    && (sign == [] || sign == [45])
    && Digits(whole) && (whole[0] == 48 ==> |whole| == 1)
    && (frac == [] || (frac[0] == 46 && Digits(frac[1..])))
    && (exp == [] ||
        (exp[0] in {69, 101} && (Digits(exp[1..]) || (|exp| > 1 && exp[1] in {43, 45} && Digits(exp[2..])))))
  }

  const True: Bytes := [116, 114, 117, 101]
  const False: Bytes := [102, 97, 108, 115, 101]
  const Null: Bytes := [110, 117, 108, 108]

  ghost predicate CharOk(ch: Char) {
    match ch
    case Plain(c) => c >= 32 && c != Quote && c != Backslash
    case Escape(e) => e in {34, 92, 47, 98, 102, 110, 114, 116}
    case Unicode(hex) => |hex| == 4 && forall c :: c in hex ==> HexDigit(c)
  }

  ghost predicate CharsOk(chars: seq<Char>) { forall i :: 0 <= i < |chars| ==> CharOk(chars[i]) }

  ghost predicate ValueOk(v: Value) {
    match v
    case Literal(text) => text == True || text == False || text == Null || IsNumber(text)
    case Text(chars) => CharsOk(chars)
    case Array(pad, elems) => AllWs(pad) && ElemsOk(elems)
    case Object(pad, members) => AllWs(pad) && MembersOk(members)
  }

  ghost predicate ElemsOk(es: Elems) {
    es.Elem? ==> AllWs(es.before) && ValueOk(es.value) && AllWs(es.after) && ElemsOk(es.rest)
  }

  ghost predicate MembersOk(ms: Members) {
    ms.Member? ==>
      && AllWs(ms.before) && CharsOk(ms.key) && AllWs(ms.afterKey) && AllWs(ms.beforeValue) && ValueOk(ms.value) && AllWs(ms.after)
      && MembersOk(ms.rest)
  }

  ghost predicate DocumentOk(d: Document) { AllWs(d.before) && ValueOk(d.value) && AllWs(d.after) }

  function CharBytes(ch: Char): Bytes {
    match ch case Plain(c) => [c] case Escape(e) => [Backslash, e] case Unicode(hex) => [Backslash, 117] + hex
  }

  function CharsBytes(chars: seq<Char>): Bytes {
    if chars == [] then [] else CharBytes(chars[0]) + CharsBytes(chars[1..])
  }

  function StringBytes(chars: seq<Char>): Bytes { [Quote] + CharsBytes(chars) + [Quote] }

  /** The text of a value. */
  function Render(v: Value): Bytes {
    match v
    case Literal(text) => text
    case Text(chars) => StringBytes(chars)
    case Array(pad, elems) => [91] + (if elems.NoElem? then pad else RenderElems(elems)) + [93]
    case Object(pad, members) => [123] + (if members.NoMember? then pad else RenderMembers(members)) + [125]
  }

  function RenderElems(es: Elems): Bytes {
    if es.NoElem? then []
    else es.before + Render(es.value) + es.after + (if es.rest.NoElem? then [] else [44] + RenderElems(es.rest))
  }

  function RenderMembers(ms: Members): Bytes {
    if ms.NoMember? then []
    else
      ms.before + StringBytes(ms.key) + ms.afterKey + ([58] + (ms.beforeValue + Render(ms.value) + ms.after)) +
      (if ms.rest.NoMember? then [] else [44] + RenderMembers(ms.rest))
  }

  function RenderDocument(d: Document): Bytes { d.before + Render(d.value) + d.after }

  /** The same value, every literal and string as written, without whitespace. */
  function Tight(v: Value): Value {
    match v
    case Array(_, elems) => Array([], TightElems(elems))
    case Object(_, members) => Object([], TightMembers(members))
    case _ => v
  }

  function TightElems(es: Elems): Elems {
    if es.NoElem? then es else Elem([], Tight(es.value), [], TightElems(es.rest))
  }

  function TightMembers(ms: Members): Members {
    if ms.NoMember? then ms else Member([], ms.key, [], [], Tight(ms.value), [], TightMembers(ms.rest))
  }

  // ---- the scan ----

  /** Where the scan is: outside strings, in one, or right after a backslash in one. */
  datatype Mode = Outside | Inside | Escaped

  function Step(m: Mode, c: Byte): Mode {
    match m
    case Outside => if c == Quote then Inside else Outside
    case Inside => if c == Quote then Outside else if c == Backslash then Escaped else Inside
    case Escaped => Inside
  }

  function Kept(m: Mode, c: Byte): Bytes { if m == Outside && IsWs(c) then [] else [c] }

  function After(m: Mode, s: Bytes): Mode
    decreases s
  {
    if s == [] then m else After(Step(m, s[0]), s[1..])
  }

  function Squeezed(m: Mode, s: Bytes): Bytes
    decreases s
  {
    if s == [] then [] else Kept(m, s[0]) + Squeezed(Step(m, s[0]), s[1..])
  }

  /** json.Compact's loop, on text it accepts. */
  method Compact(src: Bytes) returns (dst: Bytes)
    ensures dst == Squeezed(Outside, src)
  {
    dst := [];
    var mode := Outside;
    var i := 0;
    while i < |src|
      invariant 0 <= i <= |src|
      invariant dst + Squeezed(mode, src[i..]) == Squeezed(Outside, src)
    {
      var c := src[i];
      assert src[i..][0] == c && src[i..][1..] == src[i + 1..];
      if !(mode == Outside && IsWs(c)) {
        dst := dst + [c];
      }
      mode := Step(mode, c);
      i := i + 1;
    }
  }

  lemma {:induction false} ScanParts(m: Mode, s: Bytes, t: Bytes)
    ensures After(m, s + t) == After(After(m, s), t)
    ensures Squeezed(m, s + t) == Squeezed(m, s) + Squeezed(After(m, s), t)
    decreases s
  {
    if s == [] {
      assert s + t == t;
    } else {
      assert (s + t)[1..] == s[1..] + t;
      ScanParts(Step(m, s[0]), s[1..], t);
    }
  }

  /** Scanning s from outside comes back outside and leaves r. */
  ghost predicate Scans(s: Bytes, r: Bytes) {
    After(Outside, s) == Outside && Squeezed(Outside, s) == r
  }

  lemma {:induction false} ScansBoth(s: Bytes, r: Bytes, s': Bytes, r': Bytes)
    requires Scans(s, r) && Scans(s', r')
    ensures Scans(s + s', r + r')
  {
    ScanParts(Outside, s, s');
  }

  lemma {:induction false} WsScans(s: Bytes)
    requires AllWs(s)
    ensures Scans(s, [])
  {
    if s != [] {
      assert s[0] in s && forall c :: c in s[1..] ==> c in s;
      WsScans(s[1..]);
    }
  }

  /** Neither whitespace nor a quote. */
  predicate Bare(s: Bytes) { forall c :: c in s ==> !IsWs(c) && c != Quote }

  lemma {:induction false} BareScans(s: Bytes)
    requires Bare(s)
    ensures Scans(s, s)
  {
    if s != [] {
      assert s[0] in s && forall c :: c in s[1..] ==> c in s;
      BareScans(s[1..]);
      assert s == [s[0]] + s[1..];
    }
  }

  /** A byte of a number or of a name: a digit, a sign, a point or a letter. */
  predicate WordByte(c: Byte) { Digit(c) || c in {43, 45, 46, 69} || 97 <= c <= 122 }

  predicate Word(s: Bytes) { forall c :: c in s ==> WordByte(c) }

  lemma {:induction false} NumberWord(sign: Bytes, whole: Bytes, frac: Bytes, exp: Bytes)
    requires NumberParts(sign, whole, frac, exp)
    ensures Word(NumberText(sign, whole, frac, exp))
  {
    assert Word(sign) && Word(whole);
    assert Word(frac) by { if frac != [] { assert frac == [frac[0]] + frac[1..]; } }
    ExponentWord(exp);
    hide NumberParts;
  }

  lemma {:induction false} ExponentWord(exp: Bytes)
    requires exp == [] || (exp[0] in {69, 101} && (Digits(exp[1..]) || (|exp| > 1 && exp[1] in {43, 45} && Digits(exp[2..]))))
    ensures Word(exp)
  {
    if exp != [] {
      assert exp == [exp[0]] + exp[1..];
      if !Digits(exp[1..]) { assert exp[1..] == [exp[1]] + exp[2..]; }
    }
  }

  lemma {:induction false} LiteralWord(text: Bytes)
    requires ValueOk(Literal(text))
    ensures Word(text) && Bare(text)
  {
    if text != True && text != False && text != Null {
      var sign, whole, frac, exp :| text == NumberText(sign, whole, frac, exp) && NumberParts(sign, whole, frac, exp);
      NumberWord(sign, whole, frac, exp);
    }
  }

  lemma {:induction false} HexInside(hex: Bytes)
    requires forall c :: c in hex ==> HexDigit(c)
    ensures After(Inside, hex) == Inside && Squeezed(Inside, hex) == hex
  {
    if hex != [] {
      assert hex[0] in hex && forall c :: c in hex[1..] ==> c in hex;
      HexInside(hex[1..]);
      assert hex == [hex[0]] + hex[1..];
    }
  }

  lemma CharInside(ch: Char)
    requires CharOk(ch)
    ensures After(Inside, CharBytes(ch)) == Inside && Squeezed(Inside, CharBytes(ch)) == CharBytes(ch)
  {
    match ch
    case Plain(c) => assert [c][1..] == [];
    case Escape(e) =>
      assert [Backslash, e][1..] == [e] && [e][1..] == [];
      assert Squeezed(Inside, [Backslash, e]) == [Backslash] + Squeezed(Escaped, [e]) && Squeezed(Escaped, [e]) == [e] + Squeezed(Inside, []);
      assert After(Inside, [Backslash, e]) == After(Escaped, [e]) && After(Escaped, [e]) == After(Inside, []);
    case Unicode(hex) =>
      HexInside(hex);
      var s := CharBytes(ch);
      assert s[1..] == [117] + hex && ([117] + hex)[1..] == hex;
  }

  lemma {:induction false} CharsInside(chars: seq<Char>)
    requires CharsOk(chars)
    ensures After(Inside, CharsBytes(chars)) == Inside && Squeezed(Inside, CharsBytes(chars)) == CharsBytes(chars)
  {
    if chars != [] {
      CharInside(chars[0]);
      CharsInside(chars[1..]);
      ScanParts(Inside, CharBytes(chars[0]), CharsBytes(chars[1..]));
    }
  }

  lemma {:induction false} StringScans(chars: seq<Char>)
    requires CharsOk(chars)
    ensures Scans(StringBytes(chars), StringBytes(chars))
  {
    CharsInside(chars);
    var body := CharsBytes(chars);
    ScanParts(Inside, body, [Quote]);
    assert StringBytes(chars)[1..] == body + [Quote];
    assert [Quote][1..] == [];
  }

  lemma {:induction false} PunctScans(c: Byte)
    requires !IsWs(c) && c != Quote
    ensures Scans([c], [c])
  {
    BareScans([c]);
  }

  /** Compacting a value's text gives the text of the tight value. */
  lemma {:induction false} ValueScans(v: Value)
    requires ValueOk(v)
    ensures Scans(Render(v), Render(Tight(v)))
    decreases v
  {
    hide Scans;
    match v
    case Literal(text) => LiteralWord(text); BareScans(text);
    case Text(chars) => StringScans(chars);
    case Array(pad, elems) =>
      if elems.NoElem? { WsScans(pad); } else { ElemsScan(elems); }
      Enclosed(91, if elems.NoElem? then pad else RenderElems(elems), RenderElems(TightElems(elems)), 93);
    case Object(pad, members) =>
      if members.NoMember? { WsScans(pad); } else { MembersScan(members); }
      Enclosed(123, if members.NoMember? then pad else RenderMembers(members), RenderMembers(TightMembers(members)), 125);
  }

  lemma {:induction false} Enclosed(open: Byte, s: Bytes, r: Bytes, close: Byte)
    requires Scans(s, r) && !IsWs(open) && open != Quote && !IsWs(close) && close != Quote
    ensures Scans([open] + s + [close], [open] + r + [close])
  {
    hide Scans;
    PunctScans(open);
    PunctScans(close);
    ScansBoth([open], [open], s, r);
    ScansBoth([open] + s, [open] + r, [close], [close]);
  }

  /** Whitespace on either side of something goes. */
  lemma {:induction false} Padded(before: Bytes, s: Bytes, r: Bytes, after: Bytes)
    requires AllWs(before) && Scans(s, r) && AllWs(after)
    ensures Scans(before + s + after, r)
  {
    hide Scans;
    WsScans(before);
    WsScans(after);
    ScansBoth(before, [], s, r);
    ScansBoth(before + s, [] + r, after, []);
    assert [] + r + [] == r;
  }

  lemma {:induction false} Followed(s: Bytes, r: Bytes, c: Byte, t: Bytes, u: Bytes)
    requires Scans(s, r) && !IsWs(c) && c != Quote && Scans(t, u)
    ensures Scans(s + ([c] + t), r + ([c] + u))
  {
    hide Scans;
    PunctScans(c);
    ScansBoth([c], [c], t, u);
    ScansBoth(s, r, [c] + t, [c] + u);
  }

  lemma {:induction false} ElemsScan(es: Elems)
    requires ElemsOk(es)
    ensures Scans(RenderElems(es), RenderElems(TightElems(es)))
    decreases es
  {
    if es.NoElem? {
      WsScans([]);
    } else {
      ValueScans(es.value);
      ElemsScan(es.rest);
      hide Scans;
      var s, r := es.before + Render(es.value) + es.after, Render(Tight(es.value));
      Padded(es.before, Render(es.value), r, es.after);
      assert [] + r + [] == r;
      if es.rest.NoElem? {
        assert s + [] == s && r + [] == r;
      } else {
        Followed(s, r, 44, RenderElems(es.rest), RenderElems(TightElems(es.rest)));
      }
    }
  }

  lemma {:induction false} MembersScan(ms: Members)
    requires MembersOk(ms)
    ensures Scans(RenderMembers(ms), RenderMembers(TightMembers(ms)))
    decreases ms
  {
    if ms.NoMember? {
      WsScans([]);
    } else {
      ValueScans(ms.value);
      MembersScan(ms.rest);
      MemberScans(ms);
      hide Scans;
      var s, r := MemberText(ms), StringBytes(ms.key) + ([58] + Render(Tight(ms.value)));
      TightMember(ms);
      if ms.rest.NoMember? {
        assert s + [] == s && r + [] == r;
      } else {
        Followed(s, r, 44, RenderMembers(ms.rest), RenderMembers(TightMembers(ms.rest)));
      }
    }
  }

  lemma {:induction false} TightMember(ms: Members)
    requires ms.Member?
    ensures RenderMembers(TightMembers(ms)) ==
            StringBytes(ms.key) + ([58] + Render(Tight(ms.value))) +
            (if ms.rest.NoMember? then [] else [44] + RenderMembers(TightMembers(ms.rest)))
  {
    var k, v := StringBytes(ms.key), Render(Tight(ms.value));
    assert [] + k + [] == k && [] + v + [] == v;
    hide StringBytes;
  }

  function MemberText(ms: Members): Bytes
    requires ms.Member?
  {
    ms.before + StringBytes(ms.key) + ms.afterKey + ([58] + (ms.beforeValue + Render(ms.value) + ms.after))
  }

  lemma {:induction false} MemberScans(ms: Members)
    requires ms.Member? && MembersOk(ms) && Scans(Render(ms.value), Render(Tight(ms.value)))
    ensures Scans(MemberText(ms), StringBytes(ms.key) + ([58] + Render(Tight(ms.value))))
  {
    hide Scans;
    StringScans(ms.key);
    Padded(ms.before, StringBytes(ms.key), StringBytes(ms.key), ms.afterKey);
    Padded(ms.beforeValue, Render(ms.value), Render(Tight(ms.value)), ms.after);
    Followed(ms.before + StringBytes(ms.key) + ms.afterKey, StringBytes(ms.key), 58,
             ms.beforeValue + Render(ms.value) + ms.after, Render(Tight(ms.value)));
  }

  // ---- one line, the same tokens ----

  lemma {:induction false} CharsUnbroken(chars: seq<Char>)
    requires CharsOk(chars)
    ensures Unbroken(CharsBytes(chars))
  {
    if chars != [] {
      CharsUnbroken(chars[1..]);
      assert Unbroken(CharBytes(chars[0]));
    }
  }

  /** The tight value is valid, and its text has no line break. */
  lemma {:induction false} TightUnbroken(v: Value)
    requires ValueOk(v)
    ensures ValueOk(Tight(v)) && Unbroken(Render(Tight(v)))
    decreases v
  {
    match v
    case Literal(text) => LiteralWord(text);
    case Text(chars) => CharsUnbroken(chars);
    case Array(_, elems) => ElemsUnbroken(elems);
    case Object(_, members) => MembersUnbroken(members);
  }

  lemma {:induction false} ElemsUnbroken(es: Elems)
    requires ElemsOk(es)
    ensures ElemsOk(TightElems(es)) && Unbroken(RenderElems(TightElems(es)))
    decreases es
  {
    if es.Elem? {
      TightUnbroken(es.value);
      ElemsUnbroken(es.rest);
    }
  }

  lemma {:induction false} MembersUnbroken(ms: Members)
    requires MembersOk(ms)
    ensures MembersOk(TightMembers(ms)) && Unbroken(RenderMembers(TightMembers(ms)))
    decreases ms
  {
    if ms.Member? {
      TightUnbroken(ms.value);
      MembersUnbroken(ms.rest);
      CharsUnbroken(ms.key);
    }
  }

  /**
   Compacting any valid text gives the text of the same value, its literals and strings byte for
   byte as written, on one line; and compacting that changes nothing.
   */
  lemma {:induction false} CompactMeans(d: Document)
    requires DocumentOk(d)
    ensures Squeezed(Outside, RenderDocument(d)) == Render(Tight(d.value))
    ensures ValueOk(Tight(d.value)) && Unbroken(Render(Tight(d.value)))
    ensures Squeezed(Outside, Render(Tight(d.value))) == Render(Tight(d.value))
  {
    ValueScans(d.value);
    Padded(d.before, Render(d.value), Render(Tight(d.value)), d.after);
    TightUnbroken(d.value);
    ValueScans(Tight(d.value));
    TightTwice(d.value);
  }

  lemma {:induction false} TightTwice(v: Value)
    ensures Tight(Tight(v)) == Tight(v)
    decreases v
  {
    match v
    case Array(_, elems) => TightElemsTwice(elems);
    case Object(_, members) => TightMembersTwice(members);
    case _ =>
  }

  lemma {:induction false} TightElemsTwice(es: Elems)
    ensures TightElems(TightElems(es)) == TightElems(es)
    decreases es
  {
    if es.Elem? {
      TightTwice(es.value);
      TightElemsTwice(es.rest);
    }
  }

  lemma {:induction false} TightMembersTwice(ms: Members)
    ensures TightMembers(TightMembers(ms)) == TightMembers(ms)
    decreases ms
  {
    if ms.Member? {
      TightTwice(ms.value);
      TightMembersTwice(ms.rest);
    }
  }

  // ---- appending to a line ----

  ghost predicate IsJson(raw: Bytes) { exists d :: DocumentOk(d) && RenderDocument(d) == raw }

  /** What is copied for raw: itself, or its compacted form when it has a line break. */
  function Copied(raw: Bytes): Bytes { if Unbroken(raw) then raw else Squeezed(Outside, raw) }

  /** valid is the JSON library's own judgement. */
  method AppendRawJSON(dst: Bytes, raw: Bytes, valid: bool) returns (out: Option<Bytes>)
    requires valid ==> IsJson(raw)
    ensures out.None? <==> !Unbroken(raw) && !valid
    ensures out.Some? ==> out.value == dst + Copied(raw) && Unbroken(Copied(raw))
    ensures out.Some? && Unbroken(raw) ==> out.value == dst + raw
    ensures forall d :: out.Some? && !Unbroken(raw) && DocumentOk(d) && RenderDocument(d) == raw ==> out.value == dst + Render(Tight(d.value))
  {
    if Unbroken(raw) {
      return Some(dst + raw);
    }
    if !valid {
      return None;
    }
    var buf := Compact(raw);
    forall d | DocumentOk(d) && RenderDocument(d) == raw ensures buf == Render(Tight(d.value)) && Unbroken(buf) {
      CompactMeans(d);
    }
    return Some(dst + buf);
  }

  function Hex(n: nat): Byte
    requires n < 16
  {
    if n < 10 then 48 + n else 87 + n
  }

  /** One byte of a string, with the escapes the encoder uses. */
  function Escaped1(c: Byte): (r: Bytes)
    ensures Unbroken(r)
  {
    if c == Quote || c == Backslash then [Backslash, c]
    else if c == 8 then [Backslash, 98]
    else if c == 9 then [Backslash, 116]
    else if c == 10 then [Backslash, 110]
    else if c == 12 then [Backslash, 102]
    else if c == 13 then [Backslash, 114]
    else if c < 32 then [Backslash, 117, 48, 48, Hex(c / 16), Hex(c % 16)]
    else [c]
  }

  function EscapedAll(s: Bytes): Bytes {
    if s == [] then [] else Escaped1(s[0]) + EscapedAll(s[1..])
  }

  function Quoted(s: Bytes): Bytes { [Quote] + EscapedAll(s) + [Quote] }

  lemma {:induction false} QuotedUnbroken(s: Bytes)
    ensures Unbroken(Quoted(s))
  {
    if s != [] {
      QuotedUnbroken(s[1..]);
      assert Quoted(s) == [Quote] + (Escaped1(s[0]) + EscapedAll(s[1..])) + [Quote];
      assert forall c :: c in EscapedAll(s[1..]) ==> c in Quoted(s[1..]);
    }
  }

  datatype Block =
    | TextBlock(text: Bytes)
    | ImageBlock(mediaType: Bytes, sha256: Bytes)
    | ThinkingBlock(thought: Bytes, signature: Bytes)
    | ToolUseBlock(id: Bytes, name: Bytes, input: Bytes, valid: bool)
    | UnknownBlock

  /** A block can be written: its type is known, and a tool input is absent or valid. */
  predicate Writable(b: Block) { !b.UnknownBlock? && (b.ToolUseBlock? ==> b.input == [] || b.valid) }

  /** The bytes of a text that is all ASCII. */
  function Ascii(s: string): Bytes {
    seq(|s|, i requires 0 <= i < |s| => if s[i] < 128 as char then s[i] as int else 63)
  }

  /** Fixed text of a line: it has no line break. */
  type Fixed = s: string | '\n' !in s && '\r' !in s witness ""

  const ToolUseHead: Fixed := "{\"type\":\"tool_use\",\"id\":"
  const NameHead: Fixed := ",\"name\":"
  const InputHead: Fixed := ",\"input\":"
  const TextHead: Fixed := "{\"type\":\"text\",\"text\":"
  const ImageHead: Fixed := "{\"type\":\"image\",\"media_type\":"
  const Sha256Head: Fixed := ",\"sha256\":"
  const ThinkingHead: Fixed := "{\"type\":\"thinking\",\"text\":"
  const SignatureHead: Fixed := ",\"signature\":"
  const IdHead: Fixed := "{\"id\":\""
  const AtHead: Fixed := "\",\"at\":\""
  const KindHead: Fixed := "\",\"kind\":\""
  const ContentHead: Fixed := ",\"content\":"

  /** The pieces of a text, one after the other. */
  function Flat(pieces: seq<Bytes>): Bytes {
    if pieces == [] then [] else Flat(pieces[..|pieces| - 1]) + pieces[|pieces| - 1]
  }

  /** Text written behind dst so far, and one piece more. */
  lemma {:induction false} FlatMore(dst: Bytes, pieces: seq<Bytes>, x: Bytes, all: seq<Bytes>)
    requires all == pieces + [x]
    ensures dst + Flat(pieces) + x == dst + Flat(all)
  {
    assert all[..|all| - 1] == pieces;
  }

  lemma {:induction false} FlatParts(dst: Bytes, a: seq<Bytes>, b: seq<Bytes>)
    ensures dst + Flat(a) + Flat(b) == dst + Flat(a + b)
    decreases b
  {
    if b == [] {
      assert a + b == a;
    } else {
      var front, last := b[..|b| - 1], b[|b| - 1];
      assert Flat(b) == Flat(front) + last;
      hide Flat;
      FlatParts(dst, a, front);
      FlatMore(dst, a + front, last, a + b);
      assert dst + Flat(a) + (Flat(front) + last) == dst + Flat(a) + Flat(front) + last;
    }
  }

  /** A block's text, piece by piece: fixed text, quoted fields, and a tool's input as copied. */
  function BlockPieces(b: Block): seq<Bytes> {
    match b
    case TextBlock(text) => [Ascii(TextHead), Quoted(text), [125]]
    case ImageBlock(mediaType, sha256) => [Ascii(ImageHead), Quoted(mediaType), Ascii(Sha256Head), Quoted(sha256), [125]]
    case ThinkingBlock(thought, signature) => [Ascii(ThinkingHead), Quoted(thought), Ascii(SignatureHead), Quoted(signature), [125]]
    case ToolUseBlock(id, name, input, _) =>
      [Ascii(ToolUseHead), Quoted(id), Ascii(NameHead), Quoted(name), Ascii(InputHead), if input == [] then [123, 125] else Copied(input), [125]]
    case UnknownBlock => []
  }

  /** An array's text up to its closing bracket. */
  function ArrayPieces(blocks: seq<Block>): seq<Bytes> {
    if blocks == [] then [[91]]
    else ArrayPieces(blocks[..|blocks| - 1]) + (if |blocks| > 1 then [[44]] else []) + BlockPieces(blocks[|blocks| - 1])
  }

  /** Adds fixed text to a line. */
  method AppendFixed(dst: Bytes, s: Fixed) returns (out: Bytes)
    ensures out == dst + Ascii(s) && (Unbroken(dst) ==> Unbroken(out))
  {
    assert NL !in Ascii(s) && CR !in Ascii(s) by {
      assert forall i :: 0 <= i < |s| ==> s[i] in s;
    }
    return dst + Ascii(s);
  }

  method AppendString(dst: Bytes, s: Bytes) returns (out: Bytes)
    ensures out == dst + Quoted(s) && (Unbroken(dst) ==> Unbroken(out))
  {
    QuotedUnbroken(s);
    return dst + Quoted(s);
  }

  method AppendPair(dst: Bytes, first: Fixed, s: Bytes, second: Fixed, s': Bytes) returns (out: Bytes)
    ensures out == dst + Flat([Ascii(first), Quoted(s), Ascii(second), Quoted(s')])
    ensures Unbroken(dst) ==> Unbroken(out)
  {
    hide Quoted, Ascii, Flat, Unbroken;
    FlatStart(dst);
    out := AppendFixed(dst, first);
    FlatMore(dst, [], Ascii(first), [Ascii(first)]);
    out := AppendString(out, s);
    FlatMore(dst, [Ascii(first)], Quoted(s), [Ascii(first), Quoted(s)]);
    out := AppendFixed(out, second);
    FlatMore(dst, [Ascii(first), Quoted(s)], Ascii(second), [Ascii(first), Quoted(s), Ascii(second)]);
    out := AppendString(out, s');
    FlatMore(dst, [Ascii(first), Quoted(s), Ascii(second)], Quoted(s'), [Ascii(first), Quoted(s), Ascii(second), Quoted(s')]);
  }

  lemma FlatStart(dst: Bytes)
    ensures dst == dst + Flat([])
  {
  }

  method AppendToolUse(dst: Bytes, b: Block) returns (out: Option<Bytes>)
    requires b.ToolUseBlock? && (b.valid ==> IsJson(b.input))
    ensures out.Some? <==> Writable(b)
    ensures out.Some? ==> out.value + [125] == dst + Flat(BlockPieces(b)) && (Unbroken(dst) ==> Unbroken(out.value))
  {
    var d := AppendPair(dst, ToolUseHead, b.id, NameHead, b.name);
    ghost var pieces := [Ascii(ToolUseHead), Quoted(b.id), Ascii(NameHead), Quoted(b.name)];
    hide Quoted, Ascii, Flat;
    FlatMore(dst, pieces, Ascii(InputHead), pieces + [Ascii(InputHead)]);
    d := AppendFixed(d, InputHead);
    ghost var input := if b.input == [] then [123, 125] else Copied(b.input);
    FlatMore(dst, pieces + [Ascii(InputHead)], input, pieces + [Ascii(InputHead)] + [input]);
    FlatMore(dst, pieces + [Ascii(InputHead)] + [input], [125], BlockPieces(b));
    if |b.input| == 0 {
      return Some(d + [123, 125]);
    }
    if !b.valid {
      return None;
    }
    hide Copied;
    out := AppendRawJSON(d, b.input, b.valid);
  }

  method AppendBlock(dst: Bytes, b: Block) returns (out: Option<Bytes>)
    requires b.ToolUseBlock? && b.valid ==> IsJson(b.input)
    ensures out.Some? <==> Writable(b)
    ensures out.Some? ==> out.value == dst + Flat(BlockPieces(b)) && (Unbroken(dst) ==> Unbroken(out.value))
  {
    hide Quoted, Ascii, Flat, Copied;
    var d: Bytes;
    match b {
      case TextBlock(text) =>
        FlatStart(dst);
        d := AppendFixed(dst, TextHead);
        FlatMore(dst, [], Ascii(TextHead), [Ascii(TextHead)]);
        d := AppendString(d, text);
        FlatMore(dst, [Ascii(TextHead)], Quoted(text), [Ascii(TextHead), Quoted(text)]);
        FlatMore(dst, [Ascii(TextHead), Quoted(text)], [125], BlockPieces(b));
      case ImageBlock(mediaType, sha256) =>
        d := AppendPair(dst, ImageHead, mediaType, Sha256Head, sha256);
        FlatMore(dst, [Ascii(ImageHead), Quoted(mediaType), Ascii(Sha256Head), Quoted(sha256)], [125], BlockPieces(b));
      case ThinkingBlock(thought, signature) =>
        d := AppendPair(dst, ThinkingHead, thought, SignatureHead, signature);
        FlatMore(dst, [Ascii(ThinkingHead), Quoted(thought), Ascii(SignatureHead), Quoted(signature)], [125], BlockPieces(b));
      case ToolUseBlock(_, _, _, _) =>
        out := AppendToolUse(dst, b);
        if out.None? {
          return;
        }
        d := out.value;
      case UnknownBlock => return None;
    }
    return Some(d + [125]);
  }

  /** A block array's exact text, on one line; it can be written exactly when every block can. */
  method AppendBlocks(dst: Bytes, blocks: seq<Block>) returns (out: Option<Bytes>)
    requires forall b :: b in blocks && b.ToolUseBlock? && b.valid ==> IsJson(b.input)
    ensures out.Some? <==> forall b :: b in blocks ==> Writable(b)
    ensures out.Some? ==> out.value == dst + Flat(ArrayPieces(blocks) + [[93]]) && (Unbroken(dst) ==> Unbroken(out.value))
  {
    hide Flat, BlockPieces;
    var d := dst + [91];
    FlatStart(dst);
    FlatMore(dst, [], [91], ArrayPieces(blocks[..0]));
    var i := 0;
    while i < |blocks|
      invariant 0 <= i <= |blocks| && d == dst + Flat(ArrayPieces(blocks[..i])) && (Unbroken(dst) ==> Unbroken(d))
      invariant forall j :: 0 <= j < i ==> Writable(blocks[j])
    {
      NextBlock(dst, blocks, i);
      if i > 0 {
        d := d + [44];
      }
      assert blocks[i] in blocks;
      var r := AppendBlock(d, blocks[i]);
      if r.None? {
        return None;
      }
      d := r.value;
      i := i + 1;
    }
    assert blocks[..i] == blocks;
    FlatMore(dst, ArrayPieces(blocks), [93], ArrayPieces(blocks) + [[93]]);
    return Some(d + [93]);
  }

  /** One more block of an array. */
  lemma {:induction false} NextBlock(dst: Bytes, blocks: seq<Block>, i: nat)
    requires i < |blocks|
    ensures dst + Flat(ArrayPieces(blocks[..i])) + (if i > 0 then [44] else []) + Flat(BlockPieces(blocks[i])) ==
            dst + Flat(ArrayPieces(blocks[..i + 1]))
  {
    var before, comma := ArrayPieces(blocks[..i]), if i > 0 then [[44]] else [];
    assert blocks[..i + 1][..i] == blocks[..i];
    hide Flat, BlockPieces;
    assert ArrayPieces(blocks[..i + 1]) == before + comma + BlockPieces(blocks[i]);
    if i > 0 {
      FlatMore(dst, before, [44], before + comma);
    } else {
      assert before + comma == before;
    }
    FlatParts(dst, before + comma, BlockPieces(blocks[i]));
  }

  /** What an entry's line is made of: the parts the encoder gives on one line, the raw input, the blocks. */
  datatype Entry = Entry(id: Bytes, at: Bytes, kind: Bytes, payloadKind: Option<Bytes>, validates: bool,
                         scalars: Bytes, input: Bytes, inputValid: bool, blocks: Option<seq<Block>>)

  /** An entry can be written: its payload is there, of its kind and valid, its input can be copied and its blocks written. */
  predicate EntryWritable(e: Entry) {
    e.payloadKind == Some(e.kind) && e.validates &&
    (Unbroken(e.input) || e.inputValid) && (e.blocks.Some? ==> forall b :: b in e.blocks.value ==> Writable(b))
  }

  /** The interior of the scalars' own braces. */
  function Interior(s: Bytes): Bytes {
    var s1 := if s != [] && s[0] == 123 then s[1..] else s;
    if s1 != [] && s1[|s1| - 1] == 125 then s1[..|s1| - 1] else s1
  }

  /** The id, the time and the kind. */
  function EnvelopeText(e: Entry): Bytes {
    Ascii(IdHead) + e.id + Ascii(AtHead) + e.at + Ascii(KindHead) + e.kind + [Quote]
  }

  function ScalarsText(e: Entry): Bytes {
    var interior := Interior(e.scalars);
    if interior == [] then [] else [44] + interior
  }

  function InputText(e: Entry): Bytes { if e.input == [] then [] else Ascii(InputHead) + Copied(e.input) }

  function ContentText(e: Entry): Bytes {
    if e.blocks.None? then [] else Ascii(ContentHead) + Flat(ArrayPieces(e.blocks.value) + [[93]])
  }

  /** An entry's line: one object, its content last. */
  function EntryText(e: Entry): (r: Bytes)
    ensures Ascii(IdHead) <= r
  {
    hide Ascii;
    EnvelopeText(e) + ScalarsText(e) + InputText(e) + ContentText(e) + [125]
  }

  method MarshalEnvelope(e: Entry) returns (d: Bytes)
    requires Unbroken(e.id) && Unbroken(e.at) && Unbroken(e.kind)
    ensures d == EnvelopeText(e) && Unbroken(d)
  {
    hide Ascii;
    d := AppendFixed([], IdHead);
    d := AppendFixed(d + e.id, AtHead);
    d := AppendFixed(d + e.at, KindHead);
    d := d + e.kind + [Quote];
  }

  method MarshalInput(dst: Bytes, e: Entry) returns (out: Option<Bytes>)
    requires e.inputValid ==> IsJson(e.input)
    ensures out.Some? <==> Unbroken(e.input) || e.inputValid
    ensures out.Some? ==> out.value == dst + InputText(e) && (Unbroken(dst) ==> Unbroken(out.value))
  {
    if |e.input| == 0 {
      return Some(dst);
    }
    hide Ascii, Copied;
    var d := AppendFixed(dst, InputHead);
    out := AppendRawJSON(d, e.input, e.inputValid);
  }

  method MarshalContent(dst: Bytes, e: Entry) returns (out: Option<Bytes>)
    requires e.blocks.Some? ==> forall b :: b in e.blocks.value && b.ToolUseBlock? && b.valid ==> IsJson(b.input)
    ensures out.Some? <==> (e.blocks.Some? ==> forall b :: b in e.blocks.value ==> Writable(b))
    ensures out.Some? ==> out.value == dst + ContentText(e) && (Unbroken(dst) ==> Unbroken(out.value))
  {
    if e.blocks.None? {
      return Some(dst);
    }
    hide Ascii, Flat, ArrayPieces;
    var d := AppendFixed(dst, ContentHead);
    out := AppendBlocks(d, e.blocks.value);
  }

  /** Every entry that can be written is written as one line with exactly this text. */
  method MarshalEntry(e: Entry) returns (out: Option<Bytes>)
    requires Unbroken(e.id) && Unbroken(e.at) && Unbroken(e.kind) && Unbroken(e.scalars)
    requires e.inputValid ==> IsJson(e.input)
    requires e.blocks.Some? ==> forall b :: b in e.blocks.value && b.ToolUseBlock? && b.valid ==> IsJson(b.input)
    ensures out.Some? <==> EntryWritable(e)
    ensures out.Some? ==> out.value == EntryText(e) && IsLine(out.value)
  {
    if e.payloadKind.None? || e.kind != e.payloadKind.value || !e.validates {
      return None;
    }
    hide Ascii, EnvelopeText, InputText, ContentText;
    var d := MarshalEnvelope(e);
    var interior := Interior(e.scalars);
    if |interior| > 0 {
      d := d + [44] + interior;
    }
    assert d == EnvelopeText(e) + ScalarsText(e);
    hide ScalarsText;
    out := MarshalInput(d, e);
    if out.Some? {
      out := MarshalContent(out.value, e);
    }
    if out.Some? {
      out := Some(out.value + [125]);
    }
  }
}
