/** The edit distance behind "did you mean": a two-row loop, and what its result means. */
module Distance {
  function Min(x: nat, y: nat): nat { if x < y then x else y }

  function Front(a: string): string
    requires a != []
  {
    a[..|a| - 1]
  }

  function Last(a: string): char
    requires a != []
  {
    a[|a| - 1]
  }

  function Cost(x: char, y: char): nat { if x == y then 0 else 1 }

  /** The Levenshtein distance, by its textbook recursion. */
  function Lev(a: string, b: string): nat
    decreases |a| + |b|
  {
    if a == [] then |b|
    else if b == [] then |a|
    else Min(Lev(Front(a), Front(b)) + Cost(Last(a), Last(b)), Min(Lev(Front(a), b) + 1, Lev(a, Front(b)) + 1))
  }

  /** The two-row loop: prev is the table's row for the part of a already read. */
  method Distance(a: string, b: string) returns (d: nat)
    ensures d == Lev(a, b)
  {
    var prev := new nat[|b| + 1];
    var cur := new nat[|b| + 1];
    prev[0] := 0;
    for j := 0 to |b|
      invariant forall k :: 0 <= k <= j ==> prev[k] == k
    {
      prev[j + 1] := j + 1;
    }
    for i := 0 to |a|
      invariant prev != cur && prev.Length == cur.Length == |b| + 1 && fresh(prev) && fresh(cur)
      invariant Row(prev, a, i, b, |b|)
    {
      FillRow(prev, cur, a, b, i);
      prev, cur := cur, prev;
    }
    assert a[..|a|] == a && b[..|b|] == b;
    return prev[|b|];
  }

  /** One pass of the inner loop: the row for a's next character from the row before it. */
  method FillRow(prev: array<nat>, cur: array<nat>, a: string, b: string, i: nat)
    requires i < |a| && prev != cur && prev.Length == cur.Length == |b| + 1 && Row(prev, a, i, b, |b|)
    modifies cur
    ensures Row(cur, a, i + 1, b, |b|)
  {
    assert Table(a, i + 1, b, 0) == i + 1;
    hide Table;
    cur[0] := i + 1;
    for j := 0 to |b|
      invariant Row(prev, a, i, b, |b|) && Row(cur, a, i + 1, b, j)
    {
      var cost := if a[i] == b[j] then 0 else 1;
      Cell(a, b, i, j);
      cur[j + 1] := Min(prev[j] + cost, Min(prev[j + 1] + 1, cur[j] + 1));
    }
  }

  /** The recursion, read as a table. */
  lemma {:induction false} Cell(a: string, b: string, i: nat, j: nat)
    requires i < |a| && j < |b|
    ensures Table(a, i + 1, b, j + 1) ==
            Min(Table(a, i, b, j) + Cost(a[i], b[j]), Min(Table(a, i, b, j + 1) + 1, Table(a, i + 1, b, j) + 1))
  {
    hide Lev;
    LevStep(a[..i + 1], b[..j + 1]);
    assert Front(a[..i + 1]) == a[..i] && Front(b[..j + 1]) == b[..j];
  }

  lemma {:induction false} LevEmpty(a: string)
    ensures Lev([], a) == |a| && Lev(a, []) == |a|
  {
  }

  lemma {:induction false} LevStep(a: string, b: string)
    requires a != [] && b != []
    ensures Lev(a, b) == Min(Lev(Front(a), Front(b)) + Cost(Last(a), Last(b)), Min(Lev(Front(a), b) + 1, Lev(a, Front(b)) + 1))
  {
  }

  /** The distance from the first i characters of a to the first j of b. */
  ghost function Table(a: string, i: nat, b: string, j: nat): nat
    requires i <= |a| && j <= |b|
  {
    Lev(a[..i], b[..j])
  }

  /** Cells 0 to upto hold row i of the table. */
  ghost predicate Row(row: array<nat>, a: string, i: nat, b: string, upto: nat)
    requires row.Length == |b| + 1 && i <= |a|
    reads row
  {
    upto <= |b| && forall k :: 0 <= k <= upto ==> row[k] == Table(a, i, b, k)
  }

  // ---- single-character edits ----

  /** y is x without its character i. */
  ghost predicate DeletedAt(x: string, y: string, i: nat) {
    i < |x| && y == x[..i] + x[i + 1..]
  }

  /** y is x with another character at i. */
  ghost predicate ReplacedAt(x: string, y: string, i: nat) {
    i < |x| == |y| && y == x[..i] + [y[i]] + x[i + 1..]
  }

  ghost predicate EditedAt(x: string, y: string, i: nat) {
    DeletedAt(x, y, i) || DeletedAt(y, x, i) || ReplacedAt(x, y, i)
  }

  /** One character deleted, inserted or replaced. */
  ghost predicate OneEdit(x: string, y: string) {
    exists i: nat :: EditedAt(x, y, i)
  }

  /** n edits turn a into b. */
  ghost predicate Reach(a: string, b: string, n: nat)
    decreases n
  {
    if n == 0 then a == b else exists m :: OneEdit(a, m) && Reach(m, b, n - 1)
  }

  lemma {:induction false} DeletedAfter(x: string, y: string, i: nat, c: char)
    requires DeletedAt(x, y, i)
    ensures DeletedAt(x + [c], y + [c], i)
  {
    assert (x + [c])[..i] == x[..i] && (x + [c])[i + 1..] == x[i + 1..] + [c];
  }

  lemma {:induction false} ReplacedAfter(x: string, y: string, i: nat, c: char)
    requires ReplacedAt(x, y, i)
    ensures ReplacedAt(x + [c], y + [c], i)
  {
    assert (x + [c])[..i] == x[..i] && (x + [c])[i + 1..] == x[i + 1..] + [c] && (y + [c])[i] == y[i];
  }

  lemma {:induction false} EditAfter(x: string, y: string, c: char)
    requires OneEdit(x, y)
    ensures OneEdit(x + [c], y + [c])
  {
    var i: nat :| EditedAt(x, y, i);
    if DeletedAt(x, y, i) { DeletedAfter(x, y, i, c); }
    else if DeletedAt(y, x, i) { DeletedAfter(y, x, i, c); }
    else { ReplacedAfter(x, y, i, c); }
    hide DeletedAt, ReplacedAt;
    assert EditedAt(x + [c], y + [c], i);
  }

  lemma {:induction false} ReachAfter(a: string, b: string, n: nat, c: char)
    requires Reach(a, b, n)
    ensures Reach(a + [c], b + [c], n)
    decreases n
  {
    if n > 0 {
      var m :| OneEdit(a, m) && Reach(m, b, n - 1);
      EditAfter(a, m, c);
      ReachAfter(m, b, n - 1, c);
    }
  }

  lemma {:induction false} ReachThen(a: string, m: string, b: string, n: nat)
    requires Reach(a, m, n) && OneEdit(m, b)
    ensures Reach(a, b, n + 1)
    decreases n
  {
    if n == 0 {
      assert Reach(b, b, 0);
    } else {
      var x :| OneEdit(a, x) && Reach(x, m, n - 1);
      ReachThen(x, m, b, n - 1);
    }
  }

  lemma {:induction false} DropLast(a: string)
    requires a != []
    ensures OneEdit(a, Front(a)) && OneEdit(Front(a), a)
  {
    assert DeletedAt(a, Front(a), |a| - 1);
    assert EditedAt(a, Front(a), |a| - 1) && EditedAt(Front(a), a, |a| - 1);
  }

  lemma {:induction false} ReplaceLast(a: string, c: char, e: char)
    ensures OneEdit(a + [c], a + [e])
  {
    assert EditedAt(a + [c], a + [e], |a|);
  }

  /** The distance is achieved: that many edits do turn a into b. */
  lemma {:induction false} Achieved(a: string, b: string)
    ensures Reach(a, b, Lev(a, b))
    decreases |a| + |b|
  {
    hide Lev, OneEdit;
    LevEmpty(a);
    LevEmpty(b);
    if a != [] { LevEmpty(Front(a)); }
    if b != [] { LevEmpty(Front(b)); }
    if a != [] && b != [] { LevStep(a, b); }
    if a != [] && Lev(a, b) == Lev(Front(a), b) + 1 {
      Achieved(Front(a), b);
      DropLast(a);
      FirstEdit(a, Front(a), b, Lev(Front(a), b));
    } else if b != [] && Lev(a, b) == Lev(a, Front(b)) + 1 {
      hide Reach;
      Achieved(a, Front(b));
      DropLast(b);
      ReachThen(a, Front(b), b, Lev(a, Front(b)));
    } else if a != [] && b != [] {
      hide Reach;
      Achieved(Front(a), Front(b));
      AchievedLast(a, b, Lev(Front(a), Front(b)));
    }
  }

  lemma {:induction false} FirstEdit(a: string, m: string, b: string, n: nat)
    requires OneEdit(a, m) && Reach(m, b, n)
    ensures Reach(a, b, n + 1)
  {
  }

  lemma {:induction false} AchievedLast(a: string, b: string, n: nat)
    requires a != [] && b != [] && Reach(Front(a), Front(b), n)
    ensures Reach(a, b, n + Cost(Last(a), Last(b)))
  {
    ReachAfter(Front(a), Front(b), n, Last(a));
    assert a == Front(a) + [Last(a)] && b == Front(b) + [Last(b)];
    hide Reach, OneEdit;
    if Last(a) != Last(b) {
      ReplaceLast(Front(b), Last(a), Last(b));
      ReachThen(a, Front(b) + [Last(a)], b, n);
    }
  }

  // ---- and no fewer do ----

  lemma {:induction false} Triangle(a: string, b: string, c: string)
    ensures Lev(a, c) <= Lev(a, b) + Lev(b, c)
    decreases |a| + |b| + |c|
  {
    if a == [] {
      LengthGap(b, c);
    } else if c == [] {
      LengthGap(a, b);
    } else if b == [] {
      Bounded(a, c);
    } else if Lev(a, b) == Lev(Front(a), b) + 1 {
      Triangle(Front(a), b, c);
    } else if Lev(b, c) == Lev(b, Front(c)) + 1 {
      Triangle(a, b, Front(c));
    } else if Lev(a, b) == Lev(a, Front(b)) + 1 {
      if Lev(b, c) == Lev(Front(b), c) + 1 { Triangle(a, Front(b), c); } else { Triangle(a, Front(b), Front(c)); }
    } else if Lev(b, c) == Lev(Front(b), c) + 1 {
      Triangle(Front(a), Front(b), c);
    } else {
      Triangle(Front(a), Front(b), Front(c));
    }
  }

  /** Lengths differ by at most the distance. */
  lemma {:induction false} LengthGap(a: string, b: string)
    ensures |a| <= |b| + Lev(a, b) && |b| <= |a| + Lev(a, b)
    decreases |a| + |b|
  {
    if a != [] && b != [] {
      LengthGap(Front(a), Front(b));
      LengthGap(Front(a), b);
      LengthGap(a, Front(b));
    }
  }

  lemma {:induction false} Bounded(a: string, b: string)
    ensures Lev(a, b) <= |a| + |b|
    decreases |a| + |b|
  {
    if a != [] && b != [] { Bounded(Front(a), b); }
  }

  lemma {:induction false} Same(a: string)
    ensures Lev(a, a) == 0
  {
    if a != [] { Same(Front(a)); }
  }

  /** Zero only for equal strings. */
  lemma {:induction false} ZeroIffEqual(a: string, b: string)
    ensures Lev(a, b) == 0 <==> a == b
  {
    Same(a);
    if Lev(a, b) == 0 && a != [] && b != [] {
      ZeroIffEqual(Front(a), Front(b));
      assert a == Front(a) + [Last(a)] && b == Front(b) + [Last(b)];
    }
  }

  lemma {:induction false} Symmetric(a: string, b: string)
    ensures Lev(a, b) == Lev(b, a)
    decreases |a| + |b|
  {
    if a != [] && b != [] {
      Symmetric(Front(a), Front(b));
      Symmetric(Front(a), b);
      Symmetric(a, Front(b));
    }
  }

  lemma {:induction false} CommonEnd(x: string, y: string, q: string)
    ensures Lev(x + q, y + q) <= Lev(x, y)
  {
    if q == [] {
      assert x + q == x && y + q == y;
    } else {
      CommonEnd(x, y, Front(q));
      assert Front(x + q) == x + Front(q) && Front(y + q) == y + Front(q);
    }
  }

  lemma {:induction false} EditCostsOne(x: string, y: string)
    requires OneEdit(x, y)
    ensures Lev(x, y) <= 1
  {
    var i: nat :| EditedAt(x, y, i);
    if DeletedAt(x, y, i) { DeletionCostsOne(x, i); }
    else if DeletedAt(y, x, i) { DeletionCostsOne(y, i); Symmetric(x, y); }
    else { ReplacementCostsOne(x, y, i); }
  }

  lemma {:induction false} DeletionCostsOne(x: string, i: nat)
    requires i < |x|
    ensures Lev(x, x[..i] + x[i + 1..]) <= 1
  {
    var p, q := x[..i], x[i + 1..];
    Same(p);
    assert Front(p + [x[i]]) == p && x == p + [x[i]] + q;
    CommonEnd(p + [x[i]], p, q);
  }

  lemma {:induction false} ReplacementCostsOne(x: string, y: string, i: nat)
    requires ReplacedAt(x, y, i)
    ensures Lev(x, y) <= 1
  {
    var p, q := x[..i], x[i + 1..];
    Same(p);
    assert Front(p + [x[i]]) == p && Front(p + [y[i]]) == p && x == p + [x[i]] + q;
    CommonEnd(p + [x[i]], p + [y[i]], q);
  }

  lemma {:induction false} NoFewer(a: string, b: string, n: nat)
    requires Reach(a, b, n)
    ensures Lev(a, b) <= n
    decreases n
  {
    if n == 0 {
      Same(a);
    } else {
      var m :| OneEdit(a, m) && Reach(m, b, n - 1);
      EditCostsOne(a, m);
      NoFewer(m, b, n - 1);
      Triangle(a, m, b);
    }
  }

  /** So the recursion is the least number of single-character edits. */
  lemma {:induction false} LeastEdits(a: string, b: string)
    ensures Reach(a, b, Lev(a, b))
    ensures forall n: nat :: Reach(a, b, n) ==> Lev(a, b) <= n
  {
    Achieved(a, b);
    forall n: nat | Reach(a, b, n) ensures Lev(a, b) <= n { NoFewer(a, b, n); }
  }

  // ---- the key the operator probably meant ----

  function LowerChar(c: char): char { if 'A' <= c <= 'Z' then (c as int + 32) as char else c }

  function Lower(s: string): (r: string)
    ensures |r| == |s|
  {
    if s == "" then "" else [LowerChar(s[0])] + Lower(s[1..])
  }

  function Dotted(path: seq<string>): string {
    if path == [] then "" else if |path| == 1 then path[0] else path[0] + "." + Dotted(path[1..])
  }

  /** Name i is the first of the closest to want, and close enough for a slip. */
  ghost predicate Meant(want: string, names: seq<string>, i: nat) {
    && i < |names| && Lev(want, names[i]) <= 2 && Lev(want, names[i]) < |want|
    && (forall j :: 0 <= j < |names| ==> Lev(want, names[i]) <= Lev(want, names[j]))
    && forall j :: 0 <= j < i ==> Lev(want, names[i]) < Lev(want, names[j])
  }

  /** The full key with its last segment replaced by the name that was meant, or "" when no name is close enough. */
  method Nearest(path: seq<string>, names: seq<string>) returns (r: string)
    requires path != [] && forall i :: 0 <= i < |names| ==> names[i] != ""
    ensures var want := Lower(path[|path| - 1]);
            || (r == "" && forall i: nat :: !Meant(want, names, i))
            || exists i: nat :: Meant(want, names, i) && r == Dotted(path[..|path| - 1] + [names[i]])
  {
    if |names| == 0 {
      return "";
    }
    var want := Lower(path[|path| - 1]);
    var best, bestAt := "", 0;
    ghost var at: nat := 0;
    for k := 0 to |names|
      invariant best == "" <==> k == 0
      invariant k > 0 ==> at < k && best == names[at] && bestAt == Lev(want, best)
      invariant forall j :: 0 <= j < k ==> bestAt <= Lev(want, names[j])
      invariant k > 0 ==> forall j :: 0 <= j < at ==> bestAt < Lev(want, names[j])
    {
      var d := Distance(want, names[k]);
      if best == "" || d < bestAt {
        best, bestAt := names[k], d;
        at := k;
      }
    }
    if bestAt > 2 || bestAt >= |want| {
      return "";
    }
    assert Meant(want, names, at);
    return Dotted(path[..|path| - 1] + [best]);
  }
}
