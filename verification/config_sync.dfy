/**
 The config sync: it reads which keys a file sets, line by line, and adds the documented keys
 that are missing, each under its table, changing no line that is there.
 */
module ConfigSync {
  import opened Basics
  import opened ConfigText

  /** A line without its comment and surrounding space. */
  function Clean(raw: string): string { TrimSpace(Strip(raw, false)) }

  // ---- the reading of `entries` ----

  /** The table in force, and how many brackets a value has open. */
  datatype Place = Place(table: seq<string>, depth: int)

  const Top := Place([], 0)

  /** A header that is closed names a table. */
  predicate IsHeader(line: string) { line != "" && line[0] == '[' && LastIndex(line, ']') > 0 }

  function HeaderPath(line: string): seq<string>
    requires IsHeader(line)
  {
    SplitKey(Trim(line[..LastIndex(line, ']') + 1], IsBracket))
  }

  predicate SetsKey(line: string) { line != "" && line[0] != '[' && Index(line, '=') < |line| }

  function KeyName(line: string): string { TrimSpace(line[..Index(line, '=')]) }

  function PlaceStep(p: Place, raw: string): Place {
    var line := Clean(raw);
    if p.depth > 0 then p.(depth := p.depth + Depth(line, false))
    else if IsHeader(line) then p.(table := HeaderPath(line))
    else if SetsKey(line) then p.(depth := p.depth + Depth(line, false))
    else p
  }

  /** The key a line sets, as a full path. */
  function KeyOf(p: Place, raw: string): Option<seq<string>> {
    var line := Clean(raw);
    if p.depth > 0 || !SetsKey(line) then None else Some(p.table + SplitKey(KeyName(line)))
  }

  function PlaceAfter(p: Place, lines: seq<string>): Place
    decreases lines
  {
    if lines == [] then p else PlaceAfter(PlaceStep(p, lines[0]), lines[1..])
  }

  /** Every line with the key it sets. */
  function Read(p: Place, lines: seq<string>): (r: seq<(string, Option<seq<string>>)>)
    ensures |r| == |lines|
    decreases lines
  {
    if lines == [] then [] else [(lines[0], KeyOf(p, lines[0]))] + Read(PlaceStep(p, lines[0]), lines[1..])
  }

  lemma {:induction false} ReadParts(p: Place, a: seq<string>, b: seq<string>)
    ensures PlaceAfter(p, a + b) == PlaceAfter(PlaceAfter(p, a), b)
    ensures Read(p, a + b) == Read(p, a) + Read(PlaceAfter(p, a), b)
    decreases a
  {
    if a == [] {
      assert a + b == b;
    } else {
      assert (a + b)[1..] == a[1..] + b;
      ReadParts(PlaceStep(p, a[0]), a[1..], b);
    }
  }

  /** The keys of lines so read, in order, as dotted keys. */
  function Keys(read: seq<(string, Option<seq<string>>)>): seq<string> {
    if read == [] then [] else (if read[0].1.Some? then [Join(read[0].1.value)] else []) + Keys(read[1..])
  }

  lemma {:induction false} KeysParts(a: seq<(string, Option<seq<string>>)>, b: seq<(string, Option<seq<string>>)>)
    ensures Keys(a + b) == Keys(a) + Keys(b)
  {
    if a == [] {
      assert a + b == b;
    } else {
      assert (a + b)[1..] == a[1..] + b;
      KeysParts(a[1..], b);
    }
  }

  /** A file's keys. */
  function FileKeys(lines: seq<string>): seq<string> { Keys(Read(Top, lines)) }

  datatype Entry = Entry(line: nat, path: seq<string>, table: bool)

  /** What line n names: a table, a key, or nothing. */
  function EntryOf(p: Place, raw: string, n: nat): seq<Entry> {
    if p.depth <= 0 && IsHeader(Clean(raw)) then [Entry(n, HeaderPath(Clean(raw)), true)]
    else if KeyOf(p, raw).Some? then [Entry(n, KeyOf(p, raw).value, false)]
    else []
  }

  /** Every header and key from line n on. */
  function Listed(p: Place, lines: seq<string>, n: nat): seq<Entry>
    decreases lines
  {
    if lines == [] then [] else EntryOf(p, lines[0], n) + Listed(PlaceStep(p, lines[0]), lines[1..], n + 1)
  }

  method Entries(lines: seq<string>) returns (out: seq<Entry>)
    ensures out == Listed(Top, lines, 1)
  {
    hide EntryOf, PlaceStep;
    out := [];
    var p := Top;
    for i := 0 to |lines|
      invariant out + Listed(p, lines[i..], i + 1) == Listed(Top, lines, 1)
    {
      assert lines[i..][0] == lines[i] && lines[i..][1..] == lines[i + 1..];
      var entry, next := ReadEntry(p.table, p.depth, lines[i], i + 1);
      assert out + (entry + Listed(next, lines[i + 1..], i + 2)) == out + entry + Listed(next, lines[i + 1..], i + 2);
      out := out + entry;
      p := next;
    }
  }

  /** The loop's body: one line. */
  method ReadEntry(table: seq<string>, depth: int, raw: string, n: nat) returns (out: seq<Entry>, next: Place)
    ensures out == EntryOf(Place(table, depth), raw, n) && next == PlaceStep(Place(table, depth), raw)
  {
    var stripped := StripComment(raw);
    var line := TrimSpace(stripped);
    var d := Brackets(line);
    if depth > 0 {
      return [], Place(table, depth + d);
    }
    if line == "" {
      return [], Place(table, depth);
    }
    if line[0] == '[' {
      var end := LastIndex(line, ']');
      if end <= 0 {
        return [], Place(table, depth);
      }
      var path := SplitKeyLoop(Trim(line[..end + 1], IsBracket));
      return [Entry(n, path, true)], Place(path, depth);
    }
    var eq := Index(line, '=');
    if eq == |line| {
      return [], Place(table, depth);
    }
    var segs := SplitKeyLoop(TrimSpace(line[..eq]));
    return [Entry(n, table + segs, false)], Place(table, depth + d);
  }

  /** The entries that are keys are the file's keys. */
  lemma {:induction false} ListedKeys(p: Place, lines: seq<string>, n: nat)
    ensures Keys(Read(p, lines)) == EntryKeys(Listed(p, lines, n))
    decreases lines
  {
    if lines != [] {
      var next := PlaceStep(p, lines[0]);
      EntryOfKeys(p, lines[0], n);
      hide EntryOf, PlaceStep, KeyOf;
      ListedKeys(next, lines[1..], n + 1);
      EntryKeysParts(EntryOf(p, lines[0], n), Listed(next, lines[1..], n + 1));
      assert Read(p, lines)[0] == (lines[0], KeyOf(p, lines[0])) && Read(p, lines)[1..] == Read(next, lines[1..]);
    }
  }

  lemma {:induction false} EntryOfKeys(p: Place, raw: string, n: nat)
    ensures EntryKeys(EntryOf(p, raw, n)) == if KeyOf(p, raw).Some? then [Join(KeyOf(p, raw).value)] else []
  {
    var es := EntryOf(p, raw, n);
    if es != [] { assert es[1..] == []; }
    hide Join;
  }

  function EntryKeys(es: seq<Entry>): seq<string> {
    if es == [] then [] else (if es[0].table then [] else [Join(es[0].path)]) + EntryKeys(es[1..])
  }

  lemma {:induction false} EntryKeysParts(a: seq<Entry>, b: seq<Entry>)
    ensures EntryKeys(a + b) == EntryKeys(a) + EntryKeys(b)
  {
    if a == [] {
      assert a + b == b;
    } else {
      assert (a + b)[1..] == a[1..] + b;
      EntryKeysParts(a[1..], b);
    }
  }

  lemma {:induction false} OneMoreKey(es: seq<Entry>, i: nat)
    ensures EntryKeys([]) == []
    ensures i < |es| ==> EntryKeys(es[..i + 1]) == EntryKeys(es[..i]) + (if es[i].table then [] else [Join(es[i].path)])
  {
    if i < |es| {
      assert es[..i + 1] == es[..i] + [es[i]];
      EntryKeysParts(es[..i], [es[i]]);
    }
  }

  method KeysIn(lines: seq<string>) returns (have: set<string>)
    ensures have == set k | k in FileKeys(lines)
  {
    var es := Entries(lines);
    ListedKeys(Top, lines, 1);
    hide EntryKeys, Listed, Read, Keys;
    have := {};
    assert es[..0] == [];
    OneMoreKey(es, 0);
    for i := 0 to |es|
      invariant have == set k | k in EntryKeys(es[..i])
    {
      OneMoreKey(es, i);
      if !es[i].table {
        have := have + {Join(es[i].path)};
      }
    }
    assert es[..|es|] == es;
  }

  // ---- the reading of `tableEnd` ----

  datatype Mark = Mark(name: string, depth: int)

  const Start := Mark("", 0)

  predicate IsTitle(line: string) { line != "" && line[0] == '[' && Index(line, ']') < |line| }

  function Title(line: string): string
    requires IsTitle(line)
  {
    TrimSpace(line[1..Index(line, ']')])
  }

  function MarkStep(m: Mark, raw: string): Mark {
    var line := Clean(raw);
    if m.depth > 0 then m.(depth := m.depth + Depth(line, false))
    else if line != "" && line[0] == '[' then (if IsTitle(line) then m.(name := Title(line)) else m)
    else if line == "" then m
    else m.(depth := m.depth + Depth(line, false))
  }

  function MarkAfter(m: Mark, lines: seq<string>): Mark {
    if lines == [] then m else MarkStep(MarkAfter(m, lines[..|lines| - 1]), lines[|lines| - 1])
  }

  /** A line read at m is part of the table: its header, a key or other text under it, or a value's further line. */
  predicate Part(m: Mark, raw: string, table: string) {
    var line := Clean(raw);
    if m.depth > 0 then m.name == table
    else if line != "" && line[0] == '[' then IsTitle(line) && Title(line) == table
    else line != "" && m.name == table
  }

  predicate InTable(lines: seq<string>, i: nat, table: string)
    requires i < |lines|
  {
    Part(MarkAfter(Start, lines[..i]), lines[i], table)
  }

  /** The place right after the table's last line; the keys above every table have one in any file. */
  method TableEnd(lines: seq<string>, table: string) returns (at: nat, found: bool)
    ensures at <= |lines|
    ensures at > 0 ==> found && InTable(lines, at - 1, table)
    ensures forall i :: at <= i < |lines| ==> !InTable(lines, i, table)
    ensures at == 0 ==> found == (table == "")
  {
    hide Part, MarkStep;
    var m, last := Start, -1;
    found := false;
    for i := 0 to |lines|
      invariant MarkAfter(Start, lines[..i]) == m
      invariant -1 <= last < i && found == (last >= 0)
      invariant last >= 0 ==> InTable(lines, last, table)
      invariant forall j :: last < j < i ==> !InTable(lines, j, table)
    {
      assert lines[..i + 1][..i] == lines[..i];
      var part;
      part, m := ReadMark(m.name, m.depth, lines[i], table);
      if part {
        found, last := true, i;
      }
    }
    assert lines[..|lines|] == lines;
    if !found {
      return 0, table == "";
    }
    return last + 1, true;
  }

  /** The loop's body: one line. */
  method ReadMark(current: string, depth: int, raw: string, table: string) returns (part: bool, next: Mark)
    ensures part == Part(Mark(current, depth), raw, table) && next == MarkStep(Mark(current, depth), raw)
  {
    var stripped := StripComment(raw);
    var line := TrimSpace(stripped);
    var d := Brackets(line);
    if depth > 0 {
      return current == table, Mark(current, depth + d);
    }
    if line != "" && line[0] == '[' {
      var end := Index(line, ']');
      if end < |line| {
        var name := TrimSpace(line[1..end]);
        return name == table, Mark(name, depth);
      }
      return false, Mark(current, depth);
    }
    if line == "" {
      return false, Mark(current, depth);
    }
    return current == table, Mark(current, depth + d);
  }

  // ---- well-formed files ----

  /**
   A line outside a multi-line value is blank, sets a key, or is a closed, named header. Of a
   header whose name is plain both readers make the same; an array of tables or a quoted name
   has none the catalogue could mean.
   */
  predicate LineOk(p: Place, raw: string) {
    var line := Clean(raw);
    p.depth > 0 || line == "" || SetsKey(line) ||
    (IsHeader(line) && IsTitle(line) && Title(line) != "" && (PlainName(Title(line)) ==> HeaderPath(line) == SplitKey(Title(line))))
  }

  /** From p on every line is well formed and brackets never close more than was open. */
  predicate Sound(p: Place, lines: seq<string>)
    decreases lines
  {
    p.depth >= 0 && (lines == [] || (LineOk(p, lines[0]) && Sound(PlaceStep(p, lines[0]), lines[1..])))
  }

  /** Every line is well formed and the brackets balance. */
  predicate WellFormed(lines: seq<string>) { Sound(Top, lines) && PlaceAfter(Top, lines).depth == 0 }

  lemma {:induction false} SoundParts(p: Place, a: seq<string>, b: seq<string>)
    ensures Sound(p, a + b) <==> Sound(p, a) && Sound(PlaceAfter(p, a), b)
    decreases a
  {
    if a == [] {
      assert a + b == b;
    } else {
      assert (a + b)[1..] == a[1..] + b;
      SoundParts(PlaceStep(p, a[0]), a[1..], b);
    }
  }

  /** The path a table's name stands for; the keys above every table have none. */
  function PathOf(name: string): seq<string> { if name == "" then [] else SplitKey(name) }

  /** A name the catalogue could mean stands for the path the other reader has. */
  predicate Agrees(table: seq<string>, name: string) { name == "" || PlainName(name) ==> table == PathOf(name) }

  /** The two readers agree on where they are. */
  lemma {:induction false} ReadersAgree(lines: seq<string>)
    requires Sound(Top, lines)
    ensures MarkAfter(Start, lines).depth == PlaceAfter(Top, lines).depth >= 0
    ensures Agrees(PlaceAfter(Top, lines).table, MarkAfter(Start, lines).name)
  {
    if lines != [] {
      var front, last := lines[..|lines| - 1], lines[|lines| - 1];
      assert lines == front + [last];
      SoundParts(Top, front, [last]);
      ReadParts(Top, front, [last]);
      ReadersAgree(front);
      StepsAgree(PlaceAfter(Top, front), MarkAfter(Start, front), last);
    }
  }

  lemma {:induction false} StepsAgree(p: Place, m: Mark, raw: string)
    requires p.depth == m.depth >= 0 && Agrees(p.table, m.name) && LineOk(p, raw) && Sound(p, [raw])
    ensures PlaceAfter(p, [raw]).depth == MarkStep(m, raw).depth >= 0 && Agrees(PlaceAfter(p, [raw]).table, MarkStep(m, raw).name)
  {
    assert PlaceAfter(p, [raw]) == PlaceStep(p, raw) by { assert [raw][1..] == []; }
    assert Sound(PlaceStep(p, raw), []) by { assert [raw][1..] == []; }
    hide HeaderPath, SplitKey, Title, Clean, Depth, PlainName;
  }

  lemma OpenIsInTable(lines: seq<string>, at: nat, table: string)
    requires at < |lines| && MarkAfter(Start, lines[..at]).name == table && !InTable(lines, at, table)
    ensures MarkAfter(Start, lines[..at]).depth <= 0
  {
  }

  /** The place TableEnd finds is in the table, between values. */
  lemma {:induction false} EndIsInTable(lines: seq<string>, table: string, at: nat)
    requires WellFormed(lines) && at <= |lines| && (table == "" || PlainName(table))
    requires if at > 0 then InTable(lines, at - 1, table) else table == ""
    requires forall i :: at <= i < |lines| ==> !InTable(lines, i, table)
    ensures PlaceAfter(Top, lines[..at]) == Place(PathOf(table), 0)
  {
    if at == 0 {
      assert lines[..0] == [];
    } else {
      assert lines == lines[..at] + lines[at..] && lines[..at][..at - 1] == lines[..at - 1];
      SoundParts(Top, lines[..at], lines[at..]);
      ReadersAgree(lines[..at]);
      assert MarkAfter(Start, lines[..at]) == MarkStep(MarkAfter(Start, lines[..at - 1]), lines[at - 1]);
      assert MarkAfter(Start, lines[..at]).name == table;
      hide PlaceAfter, Clean, Title, Depth;
      if at == |lines| {
        assert lines[..at] == lines;
      } else {
        OpenIsInTable(lines, at, table);
      }
    }
  }

  // ---- what is written ----

  datatype Doc = Doc(key: string, comment: string, example: string, literal: string)

  datatype Section = Section(table: string, comment: seq<string>, keys: seq<Doc>)

  function Comment(text: string): string { if text == "" then "#" else "# " + text }

  function Leaf(key: string): string { key[LastIndex(key, '.') + 1..] }

  function KeyLine(d: Doc): string { Leaf(d.key) + " = " + d.literal }

  function DocLines(d: Doc): seq<string> {
    [Comment(d.comment)] + (if d.example == "" then [] else [Comment("e.g. " + d.example)]) + [KeyLine(d)]
  }

  function Written(docs: seq<Doc>): seq<string> {
    if docs == [] then [] else DocLines(docs[0]) + Written(docs[1..])
  }

  /** A default as TOML writes it: brackets balance, and no hash or space is taken off it. */
  predicate LiteralOk(s: string) { s != "" && !IsSpace(s[|s| - 1]) && Strip(s, false) == s && Depth(s, false) == 0 }

  /** A documented key sits under its table, with a bare name of its own. */
  predicate DocOk(table: string, d: Doc) {
    BareKey(Leaf(d.key)) && d.key == (if table == "" then Leaf(d.key) else table + "." + Leaf(d.key)) && LiteralOk(d.literal)
  }

  predicate SectionOk(s: Section) { (s.table == "" || PlainName(s.table)) && forall d :: d in s.keys ==> DocOk(s.table, d) }

  /** Read from p, these lines are well formed, set exactly these keys and end at p'. */
  predicate Adds(p: Place, lines: seq<string>, keys: seq<string>, p': Place) {
    Sound(p, lines) && PlaceAfter(p, lines) == p' && Keys(Read(p, lines)) == keys
  }

  lemma {:induction false} AddsBoth(p: Place, a: seq<string>, ks: seq<string>, q: Place, b: seq<string>, ls: seq<string>, r: Place)
    requires Adds(p, a, ks, q) && Adds(q, b, ls, r)
    ensures Adds(p, a + b, ks + ls, r)
  {
    SoundParts(p, a, b);
    ReadParts(p, a, b);
    KeysParts(Read(p, a), Read(q, b));
  }

  lemma {:induction false} AddsNothing(p: Place)
    requires p.depth >= 0
    ensures Adds(p, [], [], p)
  {
  }

  lemma {:induction false} AddsLine(p: Place, raw: string)
    requires p.depth >= 0 && LineOk(p, raw) && PlaceStep(p, raw).depth >= 0
    ensures Adds(p, [raw], if KeyOf(p, raw).Some? then [Join(KeyOf(p, raw).value)] else [], PlaceStep(p, raw))
  {
    hide LineOk, KeyOf, Clean, PlaceStep;
    assert [raw][1..] == [];
    assert Sound(PlaceStep(p, raw), []) && Sound(p, [raw]);
    assert PlaceAfter(p, [raw]) == PlaceAfter(PlaceStep(p, raw), []);
    var one := (raw, KeyOf(p, raw));
    assert Read(p, [raw]) == [one] + Read(PlaceStep(p, raw), []);
    assert [one][1..] == [] && Keys([one]) == (if one.1.Some? then [Join(one.1.value)] else []) + Keys([]);
  }

  lemma {:induction false} BlankAdds(p: Place, raw: string)
    requires p.depth == 0 && Clean(raw) == ""
    ensures Adds(p, [raw], [], p)
  {
    AddsLine(p, raw);
  }

  lemma {:induction false} CommentBlank(text: string)
    ensures Clean(Comment(text)) == "" && Clean("") == ""
  {
    assert Comment(text)[0] == '#';
  }

  lemma {:induction false} KeyLineClean(leaf: string, literal: string)
    requires BareKey(leaf) && LiteralOk(literal)
    ensures Clean(leaf + " = " + literal) == leaf + " = " + literal
  {
    var line := leaf + " = " + literal;
    assert line == (leaf + " = ") + literal;
    StripPlain(leaf + " = ", literal);
    assert line[0] == leaf[0] && leaf[0] in leaf && line[|line| - 1] == literal[|literal| - 1];
    TrimNothing(line, IsSpace);
  }

  lemma {:induction false} KeyLineSets(leaf: string, literal: string)
    requires BareKey(leaf) && LiteralOk(literal)
    ensures var line := leaf + " = " + literal; SetsKey(line) && KeyName(line) == leaf && SplitKey(leaf) == [leaf] && Depth(line, false) == 0
  {
    var line := leaf + " = " + literal;
    assert line == (leaf + " ") + ['='] + (" " + literal);
    IndexAfter(leaf + " ", '=', " " + literal);
    assert line[..|leaf| + 1] == leaf + " ";
    assert leaf[0] in leaf && leaf[|leaf| - 1] in leaf;
    TrimOneSpace(leaf);
    assert line == (leaf + " = ") + literal && line[0] == leaf[0];
    DepthPlain(leaf + " = ", literal);
    assert forall c :: c in leaf + "" ==> c in leaf;
    BareSegments(leaf, "");
    assert "" + leaf == leaf;
  }

  lemma {:induction false} KeyLineAdds(table: string, d: Doc)
    requires DocOk(table, d) && (table == "" || PlainName(table))
    ensures Adds(Place(PathOf(table), 0), [KeyLine(d)], [d.key], Place(PathOf(table), 0))
  {
    var leaf, p := Leaf(d.key), Place(PathOf(table), 0);
    KeyLineClean(leaf, d.literal);
    KeyLineSets(leaf, d.literal);
    hide Clean, SetsKey, KeyName, SplitKey, Depth, LiteralOk, Leaf;
    AddsLine(p, KeyLine(d));
    if table != "" {
      JoinSplit(table);
      JoinMore(SplitKey(table), leaf);
    } else {
      assert [] + [leaf] == [leaf];
    }
  }

  lemma {:induction false} DocAdds(table: string, d: Doc)
    requires DocOk(table, d) && (table == "" || PlainName(table))
    ensures Adds(Place(PathOf(table), 0), DocLines(d), [d.key], Place(PathOf(table), 0))
  {
    var p := Place(PathOf(table), 0);
    CommentBlank(d.comment);
    BlankAdds(p, Comment(d.comment));
    KeyLineAdds(table, d);
    hide Adds, Comment, KeyLine;
    var head := [Comment(d.comment)];
    if d.example != "" {
      CommentBlank("e.g. " + d.example);
      BlankAdds(p, Comment("e.g. " + d.example));
      AddsBoth(p, head, [], p, [Comment("e.g. " + d.example)], [], p);
      head := head + [Comment("e.g. " + d.example)];
      AddsBoth(p, head, [] + [], p, [KeyLine(d)], [d.key], p);
    } else {
      AddsBoth(p, head, [], p, [KeyLine(d)], [d.key], p);
      assert head + [] + [KeyLine(d)] == head + [KeyLine(d)];
    }
    assert [] + [d.key] == [d.key];
  }

  function DocKeys(docs: seq<Doc>): (r: seq<string>)
    ensures |r| == |docs| && forall i :: 0 <= i < |docs| ==> r[i] == docs[i].key
  {
    seq(|docs|, i requires 0 <= i < |docs| => docs[i].key)
  }

  lemma {:induction false} ConsKeys(docs: seq<Doc>)
    requires docs != []
    ensures [docs[0].key] + DocKeys(docs[1..]) == DocKeys(docs)
  {
  }

  lemma {:induction false} WrittenAdds(table: string, docs: seq<Doc>)
    requires (forall d :: d in docs ==> DocOk(table, d)) && (table == "" || PlainName(table))
    ensures Adds(Place(PathOf(table), 0), Written(docs), DocKeys(docs), Place(PathOf(table), 0))
  {
    var p := Place(PathOf(table), 0);
    if docs == [] {
      AddsNothing(p);
    } else {
      hide Adds, DocLines, DocOk, PathOf, PlainName, DocKeys;
      DocAdds(table, docs[0]);
      WrittenAdds(table, docs[1..]);
      AddsBoth(p, DocLines(docs[0]), [docs[0].key], p, Written(docs[1..]), DocKeys(docs[1..]), p);
      ConsKeys(docs);
    }
  }

  /** A plain header is read alike by both readers. */
  lemma {:induction false} PlainHeader(name: string)
    requires PlainName(name)
    ensures var line := "[" + name + "]";
            Clean(line) == line && IsHeader(line) && HeaderPath(line) == SplitKey(name) && IsTitle(line) && Title(line) == name && !SetsKey(line)
  {
    var line := "[" + name + "]";
    PlainTitle(name);
    PlainPath(name);
    assert line + "" == line;
    StripPlain(line, "");
    TrimNothing(line, IsSpace);
    hide HeaderPath, Title, SplitKey;
  }

  lemma {:induction false} PlainTitle(name: string)
    requires PlainName(name)
    ensures IsTitle("[" + name + "]") && Title("[" + name + "]") == name
  {
    var line := "[" + name + "]";
    assert name[0] in name && name[|name| - 1] in name;
    assert line == ("[" + name) + [']'] + "";
    IndexAfter("[" + name, ']', "");
    assert line[1..|name| + 1] == name;
    TrimNothing(name, IsSpace);
  }

  lemma {:induction false} PlainPath(name: string)
    requires PlainName(name)
    ensures IsHeader("[" + name + "]") && HeaderPath("[" + name + "]") == SplitKey(name)
  {
    var line := "[" + name + "]";
    assert name[0] in name && name[|name| - 1] in name;
    assert line[..|line|] == line;
    assert line[1..] == name + "]" && (name + "]")[..|name|] == name;
    assert TrimLeft(line, IsBracket) == name + "]" && TrimRight(name, IsBracket) == name;
    hide SplitKey;
  }

  lemma {:induction false} HeaderAdds(p: Place, name: string)
    requires p.depth == 0 && PlainName(name)
    ensures Adds(p, ["[" + name + "]"], [], Place(SplitKey(name), 0))
  {
    PlainHeader(name);
    assert name != "";
    hide Clean, IsHeader, HeaderPath, IsTitle, Title, SetsKey, SplitKey, Adds, PlainName;
    AddsLine(p, "[" + name + "]");
  }

  /** An array of tables is a well-formed header, whatever its name. */
  lemma {:induction false} ArrayHeaderOk(p: Place, name: string)
    requires p.depth == 0 && PlainName(name)
    ensures LineOk(p, "[[" + name + "]]") && PlaceStep(p, "[[" + name + "]]") == Place(SplitKey(name), 0)
  {
    var line := "[[" + name + "]]";
    assert name[0] in name && name[|name| - 1] in name;
    assert line + "" == line;
    StripPlain(line, "");
    TrimNothing(line, IsSpace);
    ArrayTitle(name);
    ArrayPath(name);
    hide Title, HeaderPath, SplitKey;
  }

  lemma {:induction false} ArrayTitle(name: string)
    requires PlainName(name)
    ensures var line := "[[" + name + "]]"; IsTitle(line) && Title(line) == "[" + name && !PlainName("[" + name)
  {
    var line := "[[" + name + "]]";
    assert name[0] in name && name[|name| - 1] in name;
    assert line == ("[[" + name) + [']'] + "]";
    IndexAfter("[[" + name, ']', "]");
    assert line[1..|name| + 2] == "[" + name;
    TrimNothing("[" + name, IsSpace);
    assert '[' in "[" + name;
  }

  lemma {:induction false} ArrayPath(name: string)
    requires PlainName(name)
    ensures var line := "[[" + name + "]]"; IsHeader(line) && HeaderPath(line) == SplitKey(name)
  {
    var line := "[[" + name + "]]";
    assert name[0] in name && name[|name| - 1] in name;
    assert line[..|line|] == line;
    assert line[1..] == "[" + name + "]]" && ("[" + name + "]]")[1..] == name + "]]";
    assert (name + "]]")[..|name| + 1] == name + "]" && (name + "]")[..|name|] == name;
    assert TrimLeft(line, IsBracket) == TrimLeft("[" + name + "]]", IsBracket);
    assert TrimLeft("[" + name + "]]", IsBracket) == TrimLeft(name + "]]", IsBracket);
    assert TrimLeft(name + "]]", IsBracket) == name + "]]";
    assert TrimRight(name + "]]", IsBracket) == TrimRight(name + "]", IsBracket) && TrimRight(name + "]", IsBracket) == TrimRight(name, IsBracket);
    hide SplitKey;
  }
}
