/** Writing the missing keys into a file, and what that keeps. */
module ConfigMerge {
  import opened Basics
  import opened ConfigText
  import opened ConfigSync

  type Reading = seq<(string, Option<seq<string>>)>

  /** Every line of xs is in ys, in order and with the key it set. */
  ghost predicate Embeds(xs: Reading, ys: Reading)
    decreases ys
  {
    xs == [] || (ys != [] && ((xs[0] == ys[0] && Embeds(xs[1..], ys[1..])) || Embeds(xs, ys[1..])))
  }

  lemma {:induction false} EmbedsSelf(xs: Reading)
    ensures Embeds(xs, xs)
  {
    if xs != [] { EmbedsSelf(xs[1..]); }
  }

  lemma {:induction false} EmbedsBehind(m: Reading, xs: Reading)
    ensures Embeds(xs, m + xs)
  {
    if m == [] {
      assert m + xs == xs;
      EmbedsSelf(xs);
    } else {
      EmbedsBehind(m[1..], xs);
      assert (m + xs)[1..] == m[1..] + xs;
    }
  }

  lemma {:induction false} EmbedsInsert(a: Reading, m: Reading, b: Reading)
    ensures Embeds(a + b, a + m + b)
  {
    if a == [] {
      assert a + b == b && a + m + b == m + b;
      EmbedsBehind(m, b);
    } else {
      EmbedsInsert(a[1..], m, b);
      assert (a + b)[1..] == a[1..] + b && (a + m + b)[1..] == a[1..] + m + b;
    }
  }

  lemma {:induction false} EmbedsTrans(xs: Reading, ys: Reading, zs: Reading)
    requires Embeds(xs, ys) && Embeds(ys, zs)
    ensures Embeds(xs, zs)
    decreases |ys| + |zs|
  {
    if xs != [] {
      if ys[0] == zs[0] && Embeds(ys[1..], zs[1..]) {
        if xs[0] == ys[0] && Embeds(xs[1..], ys[1..]) { EmbedsTrans(xs[1..], ys[1..], zs[1..]); }
        else { EmbedsTrans(xs, ys[1..], zs[1..]); }
      } else {
        EmbedsTrans(xs, ys, zs[1..]);
      }
    }
  }

  /** The file keeps every line, in order and with the key it sets, and gains exactly these keys. */
  ghost predicate Gains(lines: seq<string>, lines': seq<string>, keys: seq<string>) {
    && WellFormed(lines') && Embeds(Read(Top, lines), Read(Top, lines'))
    && multiset(FileKeys(lines')) == multiset(FileKeys(lines)) + multiset(keys)
  }

  lemma {:induction false} GainsBoth(a: seq<string>, b: seq<string>, c: seq<string>, ks: seq<string>, ls: seq<string>)
    requires Gains(a, b, ks) && Gains(b, c, ls)
    ensures Gains(a, c, ks + ls)
  {
    EmbedsTrans(Read(Top, a), Read(Top, b), Read(Top, c));
    assert multiset(ks + ls) == multiset(ks) + multiset(ls);
  }

  /** Inserting lines that leave the reader where it was changes nothing of what follows. */
  lemma {:induction false} InsertGains(a: seq<string>, block: seq<string>, b: seq<string>, keys: seq<string>, p: Place)
    requires WellFormed(a + b) && PlaceAfter(Top, a) == p && Adds(p, block, keys, p)
    ensures Gains(a + b, a + block + b, keys)
  {
    SoundParts(Top, a, b);
    ReadParts(Top, a, b);
    SoundParts(Top, a, block);
    ReadParts(Top, a, block);
    SoundParts(Top, a + block, b);
    ReadParts(Top, a + block, b);
    var ra, rm, rb := Read(Top, a), Read(p, block), Read(p, b);
    GainsCount(ra, rm, rb);
    EmbedsInsert(ra, rm, rb);
  }

  lemma {:induction false} GainsCount(ra: Reading, rm: Reading, rb: Reading)
    ensures multiset(Keys(ra + rm + rb)) == multiset(Keys(ra + rb)) + multiset(Keys(rm))
  {
    KeysParts(ra + rm, rb);
    KeysParts(ra, rm);
    KeysParts(ra, rb);
  }

  /** Appending a table at the end of the file. */
  lemma {:induction false} AppendGains(lines: seq<string>, block: seq<string>, keys: seq<string>, p': Place)
    requires WellFormed(lines) && Adds(PlaceAfter(Top, lines), block, keys, p') && p'.depth == 0
    ensures Gains(lines, lines + block, keys)
  {
    SoundParts(Top, lines, block);
    ReadParts(Top, lines, block);
    var ra, rm := Read(Top, lines), Read(PlaceAfter(Top, lines), block);
    GainsCount(ra, rm, []);
    EmbedsInsert(ra, rm, []);
    assert ra + [] == ra && ra + rm + [] == ra + rm;
  }

  /** A table the file has never had: a blank line, its comment, its header. */
  function Head(lines: seq<string>, s: Section): seq<string> {
    (if lines != [] && TrimSpace(lines[|lines| - 1]) != "" then [""] else []) + Comments(s.comment) +
    (if s.table != "" then ["[" + s.table + "]"] else [])
  }

  function Comments(cs: seq<string>): seq<string> {
    if cs == [] then [] else [Comment(cs[0])] + Comments(cs[1..])
  }

  lemma {:induction false} CommentsAdd(p: Place, cs: seq<string>)
    requires p.depth == 0
    ensures Adds(p, Comments(cs), [], p)
  {
    if cs == [] {
      AddsNothing(p);
    } else {
      CommentBlank(cs[0]);
      BlankAdds(p, Comment(cs[0]));
      CommentsAdd(p, cs[1..]);
      AddsBoth(p, [Comment(cs[0])], [], p, Comments(cs[1..]), [], p);
    }
  }

  lemma {:induction false} HeadAdds(lines: seq<string>, s: Section, p: Place)
    requires p.depth == 0 && PlainName(s.table)
    ensures Adds(p, Head(lines, s), [], Place(PathOf(s.table), 0))
  {
    var gap: seq<string> := if lines != [] && TrimSpace(lines[|lines| - 1]) != "" then [""] else [];
    CommentBlank("");
    if gap == [] { AddsNothing(p); } else { BlankAdds(p, ""); }
    CommentsAdd(p, s.comment);
    HeaderAdds(p, s.table);
    hide Adds, TrimSpace, Comments;
    AddsBoth(p, gap, [], p, Comments(s.comment), [], p);
    AddsBoth(p, gap + Comments(s.comment), [] + [], p, ["[" + s.table + "]"], [], Place(SplitKey(s.table), 0));
  }

  lemma {:induction false} NewTableGains(lines: seq<string>, s: Section, missing: seq<Doc>)
    requires WellFormed(lines) && PlainName(s.table) && forall d :: d in missing ==> DocOk(s.table, d)
    ensures Gains(lines, lines + (Head(lines, s) + Written(missing)), DocKeys(missing))
  {
    var p, q := PlaceAfter(Top, lines), Place(PathOf(s.table), 0);
    HeadAdds(lines, s, p);
    WrittenAdds(s.table, missing);
    hide Adds, Head, Written, PathOf;
    AddsBoth(p, Head(lines, s), [], q, Written(missing), DocKeys(missing), q);
    assert [] + DocKeys(missing) == DocKeys(missing);
    AppendGains(lines, Head(lines, s) + Written(missing), DocKeys(missing), q);
  }

  lemma {:induction false} OldTableGains(lines: seq<string>, table: string, missing: seq<Doc>, at: nat)
    requires WellFormed(lines) && (table == "" || PlainName(table)) && forall d :: d in missing ==> DocOk(table, d)
    requires at <= |lines| && PlaceAfter(Top, lines[..at]) == Place(PathOf(table), 0)
    ensures Gains(lines, lines[..at] + Written(missing) + lines[at..], DocKeys(missing))
  {
    WrittenAdds(table, missing);
    assert lines[..at] + lines[at..] == lines;
    hide Adds, Written, Gains;
    InsertGains(lines[..at], Written(missing), lines[at..], DocKeys(missing), Place(PathOf(table), 0));
  }

  method WrittenLines(missing: seq<Doc>) returns (out: seq<string>)
    ensures out == Written(missing)
  {
    hide DocLines;
    out := [];
    for i := 0 to |missing|
      invariant out + Written(missing[i..]) == Written(missing)
    {
      assert missing[i..][0] == missing[i] && missing[i..][1..] == missing[i + 1..];
      var doc := WrittenDoc(missing[i]);
      assert out + (doc + Written(missing[i + 1..])) == out + doc + Written(missing[i + 1..]);
      out := out + doc;
    }
  }

  method WrittenDoc(d: Doc) returns (out: seq<string>)
    ensures out == DocLines(d)
  {
    hide Comment, KeyLine;
    out := [Comment(d.comment)];
    if d.example != "" {
      out := out + [Comment("e.g. " + d.example)];
    }
    out := out + [KeyLine(d)];
  }

  method HeadLines(lines: seq<string>, s: Section) returns (head: seq<string>)
    ensures head == Head(lines, s)
  {
    head := [];
    if |lines| > 0 && TrimSpace(lines[|lines| - 1]) != "" {
      head := head + [""];
    }
    ghost var gap := head;
    for i := 0 to |s.comment|
      invariant head + Comments(s.comment[i..]) == gap + Comments(s.comment)
    {
      assert s.comment[i..][0] == s.comment[i] && s.comment[i..][1..] == s.comment[i + 1..];
      head := head + [Comment(s.comment[i])];
    }
    assert s.comment[|s.comment|..] == [] && head == gap + Comments(s.comment);
    assert head + [] == head;
    if s.table != "" {
      head := head + ["[" + s.table + "]"];
    }
  }

  /** Puts a section's missing keys into its table, or adds the table at the end. */
  method Insert(lines: seq<string>, s: Section, missing: seq<Doc>) returns (out: seq<string>)
    requires forall d :: d in missing ==> d in s.keys
    ensures WellFormed(lines) && SectionOk(s) ==> Gains(lines, out, DocKeys(missing))
  {
    var block := WrittenLines(missing);
    var at, found := TableEnd(lines, s.table);
    if !found {
      var head := HeadLines(lines, s);
      if WellFormed(lines) && SectionOk(s) { NewTableGains(lines, s, missing); }
      return lines + (head + block);
    }
    if WellFormed(lines) && SectionOk(s) {
      EndIsInTable(lines, s.table, at);
      OldTableGains(lines, s.table, missing, at);
    }
    return lines[..at] + block + lines[at..];
  }

  // ---- the whole merge ----

  /** The section's documented keys that are not there, in order. */
  function Missing(keys: seq<Doc>, have: set<string>): (r: seq<Doc>)
    ensures forall d :: d in r <==> d in keys && d.key !in have
  {
    Filter(keys, (d: Doc) => d.key !in have)
  }

  /** What a merge adds, section by section. */
  function ToAdd(sections: seq<Section>, have: set<string>): seq<string> {
    if sections == [] then []
    else ToAdd(sections[..|sections| - 1], have) + DocKeys(Missing(sections[|sections| - 1].keys, have))
  }

  predicate Catalogue(sections: seq<Section>) { forall s :: s in sections ==> SectionOk(s) }

  method MissingKeys(keys: seq<Doc>, have: set<string>) returns (missing: seq<Doc>)
    ensures missing == Missing(keys, have)
  {
    missing := [];
    for i := 0 to |keys|
      invariant missing == Missing(keys[..i], have)
    {
      FilterAppend(keys[..i], keys[i], (d: Doc) => d.key !in have);
      assert keys[..i + 1] == keys[..i] + [keys[i]];
      if keys[i].key !in have {
        missing := missing + [keys[i]];
      }
    }
    assert keys[..|keys|] == keys;
  }

  /** Writes every documented key the file lacks, each once, and nothing else. */
  method Merge(sections: seq<Section>, lines: seq<string>, have: set<string>) returns (merged: seq<string>, added: seq<string>)
    ensures added == ToAdd(sections, have)
    ensures added == [] ==> merged == lines
    ensures WellFormed(lines) && Catalogue(sections) ==> Gains(lines, merged, added)
  {
    hide Gains, WellFormed;
    merged, added := lines, [];
    if WellFormed(lines) { GainsNothing(lines); }
    for i := 0 to |sections|
      invariant added == ToAdd(sections[..i], have)
      invariant added == [] ==> merged == lines
      invariant WellFormed(lines) && Catalogue(sections) ==> Gains(lines, merged, added)
    {
      assert sections[..i + 1][..i] == sections[..i];
      var s := sections[i];
      assert s in sections;
      var missing := MissingKeys(s.keys, have);
      if |missing| > 0 {
        var next := Insert(merged, s, missing);
        if WellFormed(lines) && Catalogue(sections) {
          GainsWell(lines, merged, added);
          GainsBoth(lines, merged, next, added, DocKeys(missing));
        }
        added := added + DocKeys(missing);
        merged := next;
      }
    }
    assert sections[..|sections|] == sections;
  }

  lemma GainsWell(a: seq<string>, b: seq<string>, ks: seq<string>)
    requires Gains(a, b, ks)
    ensures WellFormed(b)
  {
  }

  lemma {:induction false} GainsNothing(lines: seq<string>)
    requires WellFormed(lines)
    ensures Gains(lines, lines, [])
  {
    EmbedsSelf(Read(Top, lines));
  }

  // ---- what a merge means ----

  ghost predicate Documented(sections: seq<Section>, key: string) {
    exists s :: s in sections && exists d :: d in s.keys && d.key == key
  }

  lemma {:induction false} MissingMeans(keys: seq<Doc>, have: set<string>, key: string)
    ensures key in DocKeys(Missing(keys, have)) <==> key !in have && exists d :: d in keys && d.key == key
  {
    var m := Missing(keys, have);
    if key in DocKeys(m) {
      var i :| 0 <= i < |m| && DocKeys(m)[i] == key;
      assert m[i] in m;
    }
    if d :| d in keys && d.key == key && key !in have {
      assert d in m;
      var i :| 0 <= i < |m| && m[i] == d;
      assert DocKeys(m)[i] == key;
    }
  }

  lemma {:induction false} ToAddMeans(sections: seq<Section>, have: set<string>, key: string)
    ensures key in ToAdd(sections, have) <==> Documented(sections, key) && key !in have
  {
    if sections != [] {
      var front, last := sections[..|sections| - 1], sections[|sections| - 1];
      ToAddMeans(front, have, key);
      assert sections == front + [last];
      MissingMeans(last.keys, have, key);
      hide Missing, DocKeys;
    }
  }

  /**
   After a merge the file sets exactly its old keys and all documented ones, every old line is
   still there in order setting what it set, and a second merge adds nothing.
   */
  lemma {:induction false} MergeMeans(sections: seq<Section>, lines: seq<string>, merged: seq<string>, added: seq<string>)
    requires added == ToAdd(sections, set k | k in FileKeys(lines)) && Gains(lines, merged, added)
    ensures forall k :: k in FileKeys(merged) <==> k in FileKeys(lines) || Documented(sections, k)
    ensures Embeds(Read(Top, lines), Read(Top, merged))
    ensures ToAdd(sections, set k | k in FileKeys(merged)) == []
  {
    var have, now := set k | k in FileKeys(lines), set k | k in FileKeys(merged);
    forall k ensures k in FileKeys(merged) <==> k in FileKeys(lines) || Documented(sections, k) {
      ToAddMeans(sections, have, k);
      assert k in FileKeys(merged) <==> multiset(FileKeys(merged))[k] > 0;
    }
    var again := ToAdd(sections, now);
    if again != [] {
      ToAddMeans(sections, now, again[0]);
    }
  }
}
