/** The text primitives the config sync reads lines with. */
module ConfigText {
  predicate IsSpace(c: char) { c == ' ' || c == '\t' || c == '\n' || c == '\r' || c as int == 11 || c as int == 12 }

  predicate IsBracket(c: char) { c == '[' || c == ']' }

  function TrimLeft(s: string, cut: char -> bool): string {
    if s != "" && cut(s[0]) then TrimLeft(s[1..], cut) else s
  }

  function TrimRight(s: string, cut: char -> bool): string {
    if s != "" && cut(s[|s| - 1]) then TrimRight(s[..|s| - 1], cut) else s
  }

  function Trim(s: string, cut: char -> bool): string { TrimRight(TrimLeft(s, cut), cut) }

  function TrimSpace(s: string): string { Trim(s, IsSpace) }

  /** Where c first is, or the length. */
  function Index(s: string, c: char): (i: nat)
    ensures i <= |s|
  {
    if s == "" || s[0] == c then 0 else 1 + Index(s[1..], c)
  }

  /** Where c last is, or -1. */
  function LastIndex(s: string, c: char): (i: int)
    ensures -1 <= i < |s|
  {
    if s == "" then -1 else if s[|s| - 1] == c then |s| - 1 else LastIndex(s[..|s| - 1], c)
  }

  /** The text up to a hash outside quotes; q says whether it starts inside. */
  function Strip(line: string, q: bool): string
    decreases line
  {
    if line == "" || (line[0] == '#' && !q) then ""
    else [line[0]] + Strip(line[1..], if line[0] == '"' then !q else q)
  }

  method StripComment(line: string) returns (r: string)
    ensures r == Strip(line, false)
  {
    var q := false;
    var i := 0;
    while i < |line|
      invariant 0 <= i <= |line| && Strip(line, false) == line[..i] + Strip(line[i..], q)
    {
      assert line[i..][1..] == line[i + 1..] && line[..i + 1] == line[..i] + [line[i]];
      if line[i] == '"' {
        q := !q;
      } else if line[i] == '#' && !q {
        return line[..i];
      }
      i := i + 1;
    }
    assert line[..i] == line;
    return line;
  }

  /** Opening less closing brackets outside quotes. */
  function Depth(line: string, q: bool): int
    decreases line
  {
    if line == "" then 0
    else
      (if q then 0 else if line[0] == '[' then 1 else if line[0] == ']' then -1 else 0) +
      Depth(line[1..], if line[0] == '"' then !q else q)
  }

  method Brackets(line: string) returns (d: int)
    ensures d == Depth(line, false)
  {
    d := 0;
    var q := false;
    for i := 0 to |line|
      invariant Depth(line, false) == d + Depth(line[i..], q)
    {
      assert line[i..][1..] == line[i + 1..];
      if line[i] == '"' {
        q := !q;
      } else if line[i] == '[' && !q {
        d := d + 1;
      } else if line[i] == ']' && !q {
        d := d - 1;
      }
    }
  }

  /** A dotted key's segments from here on: quote is the open quote (none is a space), cur the segment so far. */
  function Segments(s: string, quote: char, cur: string): (r: seq<string>)
    ensures |r| > 0
    decreases s
  {
    if s == "" then [TrimSpace(cur)]
    else if quote == ' ' && (s[0] == '"' || s[0] == '\'') then Segments(s[1..], s[0], cur)
    else if quote != ' ' && quote == s[0] then Segments(s[1..], ' ', cur)
    else if s[0] == '.' && quote == ' ' then [TrimSpace(cur)] + Segments(s[1..], ' ', "")
    else Segments(s[1..], quote, cur + [s[0]])
  }

  function SplitKey(s: string): seq<string> { Segments(s, ' ', "") }

  method SplitKeyLoop(s: string) returns (out: seq<string>)
    ensures out == SplitKey(s)
  {
    out := [];
    var cur: string := "";
    var quote := ' ';
    for i := 0 to |s|
      invariant out + Segments(s[i..], quote, cur) == SplitKey(s)
    {
      var r := s[i];
      assert s[i..][0] == r && s[i..][1..] == s[i + 1..];
      if quote == ' ' && (r == '"' || r == '\'') {
        quote := r;
      } else if quote != ' ' && quote == r {
        quote := ' ';
      } else if r == '.' && quote == ' ' {
        out := out + [TrimSpace(cur)];
        cur := "";
      } else {
        cur := cur + [r];
      }
    }
    return out + [TrimSpace(cur)];
  }

  function Join(segs: seq<string>): string {
    if segs == [] then "" else if |segs| == 1 then segs[0] else segs[0] + "." + Join(segs[1..])
  }

  // ---- what these do to plain text ----

  /** A character of a bare key: nothing the readers treat specially. */
  predicate BareChar(c: char) { !IsSpace(c) && c !in "\"'#[]=." }

  predicate BareKey(s: string) { s != "" && forall c :: c in s ==> BareChar(c) }

  /** A dotted name of bare characters. */
  predicate PlainName(s: string) { s != "" && forall c :: c in s ==> BareChar(c) || c == '.' }

  lemma {:induction false} StripPlain(a: string, b: string)
    requires forall c :: c in a ==> c != '"' && c != '#'
    ensures Strip(a + b, false) == a + Strip(b, false)
  {
    if a == "" {
      assert a + b == b;
    } else {
      assert a[0] in a && (a + b)[1..] == a[1..] + b && forall c :: c in a[1..] ==> c in a;
      StripPlain(a[1..], b);
    }
  }

  lemma {:induction false} DepthPlain(a: string, b: string)
    requires forall c :: c in a ==> c != '"' && !IsBracket(c)
    ensures Depth(a + b, false) == Depth(b, false)
  {
    if a == "" {
      assert a + b == b;
    } else {
      assert a[0] in a && (a + b)[1..] == a[1..] + b && forall c :: c in a[1..] ==> c in a;
      DepthPlain(a[1..], b);
    }
  }

  lemma {:induction false} IndexAfter(a: string, c: char, b: string)
    requires c !in a
    ensures Index(a + [c] + b, c) == |a|
  {
    if a == "" {
      assert a + [c] + b == [c] + b;
    } else {
      assert a[0] in a && (a + [c] + b)[1..] == a[1..] + [c] + b;
      IndexAfter(a[1..], c, b);
    }
  }

  lemma TrimNothing(s: string, cut: char -> bool)
    requires s != "" ==> !cut(s[0]) && !cut(s[|s| - 1])
    ensures Trim(s, cut) == s
  {
  }

  lemma BareTrim(s: string)
    requires forall c :: c in s ==> BareChar(c)
    ensures TrimSpace(s) == s
  {
    if s != "" { assert s[0] in s && s[|s| - 1] in s; }
    TrimNothing(s, IsSpace);
  }

  /** One trailing space goes. */
  lemma TrimOneSpace(s: string)
    requires s != "" && !IsSpace(s[0]) && !IsSpace(s[|s| - 1])
    ensures TrimSpace(s + " ") == s
  {
    assert (s + " ")[0] == s[0];
    assert (s + " ")[..|s|] == s;
    assert TrimRight(s, IsSpace) == s;
  }

  /** Splitting a plain name from cur on and joining again gives it back. */
  lemma {:induction false} JoinSegments(s: string, cur: string)
    requires forall c :: c in s ==> BareChar(c) || c == '.'
    requires forall c :: c in cur ==> BareChar(c)
    ensures Join(Segments(s, ' ', cur)) == cur + s
  {
    if s == "" {
      BareTrim(cur);
      assert cur + s == cur;
    } else {
      assert s[0] in s && forall c :: c in s[1..] ==> c in s;
      assert s == [s[0]] + s[1..];
      if s[0] == '.' {
        BareTrim(cur);
        JoinSegments(s[1..], "");
      } else {
        JoinSegments(s[1..], cur + [s[0]]);
      }
    }
  }

  lemma JoinSplit(s: string)
    requires PlainName(s)
    ensures Join(SplitKey(s)) == s
  {
    JoinSegments(s, "");
  }

  lemma {:induction false} BareSegments(s: string, cur: string)
    requires forall c :: c in s + cur ==> BareChar(c)
    ensures Segments(s, ' ', cur) == [cur + s]
  {
    assert forall c :: c in s ==> c in s + cur;
    assert forall c :: c in cur ==> c in s + cur;
    if s == "" {
      BareTrim(cur);
      assert cur + s == cur;
    } else {
      assert s[0] in s && s == [s[0]] + s[1..];
      assert forall c :: c in s[1..] + (cur + [s[0]]) ==> c in s + cur;
      assert BareChar(s[0]) && cur + [s[0]] + s[1..] == cur + s;
      BareSegments(s[1..], cur + [s[0]]);
    }
  }

  lemma {:induction false} JoinMore(segs: seq<string>, leaf: string)
    requires segs != []
    ensures Join(segs + [leaf]) == Join(segs) + "." + leaf
  {
    if |segs| == 1 {
      assert (segs + [leaf])[1..] == [leaf];
    } else {
      assert (segs + [leaf])[1..] == segs[1..] + [leaf];
      JoinMore(segs[1..], leaf);
    }
  }
}
