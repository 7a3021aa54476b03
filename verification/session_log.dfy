/**
 The append-only log of one session: entries are encoded one per line, written through a
 buffered writer, made durable by Sync, and read back after a crash that may have cut the file
 at any byte past the last durable one.
 */
module SessionLog {
  import opened Basics

  type Byte = b: int | 0 <= b < 256
  type Bytes = seq<Byte>

  const NL: Byte := 10

  /** What a line holds: something, and no newline. */
  predicate IsLine(line: Bytes) { line != [] && NL !in line }

  /** The file that holds exactly these lines. */
  function Stream(lines: seq<Bytes>): Bytes {
    if lines == [] then [] else lines[0] + [NL] + Stream(lines[1..])
  }

  lemma {:induction false} StreamAppend(lines: seq<Bytes>, line: Bytes)
    ensures Stream(lines + [line]) == Stream(lines) + line + [NL]
  {
    if lines == [] {
      assert ([line])[1..] == [];
    } else {
      assert (lines + [line])[1..] == lines[1..] + [line];
      StreamAppend(lines[1..], line);
    }
  }

  datatype Status = Ok | MarshalFailed | IoFailed | Closed

  /** The buffered writer's capacity. */
  const Size: nat := 65536

  class Log {
    var open: bool
    var data: Bytes       // what the operating system has been given
    var durable: nat      // how much of it a crash cannot take back
    var buf: Bytes        // the buffered writer's buffer
    var failed: bool      // and its sticky error
    ghost var lines: seq<Bytes>  // the entries appended, as lines
    ghost var synced: nat        // how many of them the last successful sync covered
    ghost var torn: Bytes        // what a failed append may have left behind them

    ghost predicate Valid()
      reads this
    {
      && durable <= |data| && |buf| <= Size
      && (forall i :: 0 <= i < |lines| ==> IsLine(lines[i]))
      && NL !in torn
      && (if failed then data <= Stream(lines) + torn else data + buf == Stream(lines) && torn == [])
      && synced <= |lines| && |Stream(lines[..synced])| <= durable
    }

    /**
     Opens a file for append. It may already hold whole lines, of which a crash cannot take back
     the first `safe` bytes; a new file holds none.
     */
    constructor (whole: seq<Bytes>, safe: nat, covered: nat)
      requires forall i :: 0 <= i < |whole| ==> IsLine(whole[i])
      requires safe <= |Stream(whole)| && covered <= |whole| && |Stream(whole[..covered])| <= safe
      ensures Valid() && open && data == Stream(whole) && durable == safe && lines == whole && synced == covered
    {
      open, data, durable, buf, failed := true, Stream(whole), safe, [], false;
      lines, synced, torn := whole, covered, [];
    }

    /** The operating system takes p, or fails having taken some of it. */
    method WriteFile(p: Bytes)
      requires !failed
      modifies this`data, this`failed
      ensures old(data) <= data <= old(data) + p
      ensures !failed ==> data == old(data) + p
    {
      var n: nat :| n <= |p|;
      data := data + p[..n];
      failed := n < |p|;
    }

    method Flush()
      requires |buf| <= Size
      modifies this`data, this`failed, this`buf
      ensures |buf| <= Size && old(data) <= data <= old(data) + old(buf)
      ensures old(failed) ==> failed && data == old(data)
      ensures !failed ==> buf == [] && data == old(data) + old(buf)
    {
      if !failed && |buf| > 0 {
        WriteFile(buf);
        if !failed {
          buf := [];
        }
      }
    }

    /** The buffered writer's Write: whatever does not fit is passed on, the rest is buffered. */
    method Write(p: Bytes)
      requires |buf| <= Size && !failed
      modifies this`data, this`failed, this`buf
      ensures |buf| <= Size && old(data) <= data <= old(data) + old(buf) + p
      ensures !failed ==> data + buf == old(data) + old(buf) + p
    {
      var rest := p;
      ghost var all := data + buf + p;
      while |rest| > Size - |buf| && !failed
        invariant |buf| <= Size && old(data) <= data <= all
        invariant !failed ==> data + buf + rest == all
        decreases |rest|, |buf|, !failed
      {
        if |buf| == 0 {
          WriteFile(rest);
          rest := if failed then rest else [];
        } else {
          var n := Size - |buf|;
          ghost var whole := data + buf + rest;
          buf := buf + rest[..n];
          rest := rest[n..];
          assert data + buf + rest == whole;
          Flush();
        }
      }
      if !failed {
        buf := buf + rest;
      }
    }

    /** One entry as one line. Nothing is durable yet. */
    method Append(line: Option<Bytes>) returns (r: Status)
      requires Valid() && (line.Some? ==> IsLine(line.value))
      modifies this
      ensures Valid() && open == old(open) && synced == old(synced) && durable == old(durable)
      ensures r == Ok ==> line.Some? && old(open) && lines == old(lines) + [line.value]
      ensures r != Ok ==> lines == old(lines)
      ensures old(open) && line.Some? && r != Ok ==> r == IoFailed && failed
      ensures !old(open) && line.Some? ==> r == Closed
    {
      if line.None? {
        return MarshalFailed;
      }
      if !open {
        return Closed;
      }
      if failed {
        return IoFailed;
      }
      ghost var before := data + buf;
      Write(line.value);
      if !failed && |buf| == Size {
        Flush();
      }
      if failed {
        torn := line.value;
        return IoFailed;
      }
      buf := buf + [NL];
      StreamAppend(lines, line.value);
      assert (lines + [line.value])[..synced] == lines[..synced];
      lines := lines + [line.value];
      return Ok;
    }

    /** Hands everything to the disk; after Ok every entry appended so far survives a crash. */
    method Sync() returns (r: Status)
      requires Valid()
      modifies this
      ensures Valid() && open == old(open) && lines == old(lines)
      ensures r == Ok ==> synced == |lines| && durable == |data| && data == Stream(lines)
      ensures r != Ok ==> synced == old(synced)
      ensures !open <==> r == Closed
    {
      if !open {
        return Closed;
      }
      r := SyncLocked();
    }

    method SyncLocked() returns (r: Status)
      requires Valid()
      modifies this`data, this`failed, this`buf, this`durable, this`synced, this`torn
      ensures Valid() && r in {Ok, IoFailed}
      ensures r == Ok ==> synced == |lines| && durable == |data| && data == Stream(lines)
      ensures r != Ok ==> synced == old(synced)
    {
      ghost var all := data + buf;
      Flush();
      if failed {
        return IoFailed;
      }
      var ok: bool := *;
      if !ok {
        return IoFailed;
      }
      durable := |data|;
      synced := |lines|;
      assert lines[..synced] == lines;
      return Ok;
    }

    /** Syncs and closes; closing a closed log does nothing. */
    method Close() returns (r: Status)
      requires Valid()
      modifies this
      ensures Valid() && !open && lines == old(lines)
      ensures r == Ok && old(open) ==> synced == |lines| && durable == |data|
      ensures !old(open) ==> r == Ok && synced == old(synced)
    {
      if !open {
        return Ok;
      }
      r := SyncLocked();
      var ok: bool := *;
      if r == Ok && !ok {
        r := IoFailed;
      }
      open := false;
    }

    /**
     A crash at any moment: whatever byte prefix of the file is left, as long as it holds the
     durable bytes, reading it gives exactly a prefix of the entries the file held when it was
     opened followed by those appended since, in order, with every entry the last successful sync
     covered; and Truncated names the line after them exactly when the bytes end in the middle of
     a line.
     */
    lemma {:induction false} CrashRead<E>(dec: Bytes -> Option<E>, es: seq<E>, kept: Bytes) returns (m: nat)
      requires Valid() && kept <= data && durable <= |kept|
      requires |es| == |lines| && forall i :: 0 <= i < |es| ==> dec(lines[i]) == Some(es[i])
      ensures synced <= m <= |es|
      ensures Parse(dec, kept, 1) == Entries(es[..m], if MidLine(kept) then Some(m + 1) else None)
    {
      InStream(lines, torn, data, buf, kept);
      hide Parse, Stream, LineEnd;
      m := ParsePrefix(dec, lines, es, torn, kept, 1);
      if m < synced {
        StreamShorter(lines, m, synced);
      }
    }
  }

  lemma InStream(lines: seq<Bytes>, torn: Bytes, data: Bytes, buf: Bytes, kept: Bytes)
    requires kept <= data && (data <= Stream(lines) + torn || data + buf == Stream(lines))
    ensures kept <= Stream(lines) + torn
  {
    hide Stream;
    if data + buf == Stream(lines) {
      assert data == Stream(lines)[..|data|];
    }
  }

  // ---- reading it back ----

  /** What reading gives: the entries, and the line dropped as truncated; or the line that is malformed. */
  datatype ReadResult<E> = Entries(es: seq<E>, truncated: Option<nat>) | Malformed(line: nat)

  /** The bytes end in the middle of a line. */
  predicate MidLine(data: Bytes) { data != [] && data[|data| - 1] != NL }

  /** Where the first newline is, or the length. */
  function LineEnd(data: Bytes): (k: nat)
    ensures k <= |data| && NL !in data[..k] && (k < |data| ==> data[k] == NL)
  {
    if data == [] || data[0] == NL then 0 else 1 + LineEnd(data[1..])
  }

  function Consed<E>(e: E, r: ReadResult<E>): ReadResult<E> {
    match r case Entries(es, t) => Entries([e] + es, t) case Malformed(n) => Malformed(n)
  }

  /** The meaning of a file from line n on: blank lines are skipped, an unfinished line is dropped, a bad one is fatal. */
  function Parse<E>(dec: Bytes -> Option<E>, data: Bytes, n: nat): ReadResult<E>
    decreases |data|
  {
    var k := LineEnd(data);
    if k == |data| then Entries([], if data == [] then None else Some(n))
    else if k == 0 then Parse(dec, data[1..], n + 1)
    else if dec(data[..k]).None? then Malformed(n)
    else Consed(dec(data[..k]).value, Parse(dec, data[k + 1..], n + 1))
  }

  function Joined<E>(es: seq<E>, r: ReadResult<E>): ReadResult<E> {
    match r case Entries(rest, t) => Entries(es + rest, t) case Malformed(n) => Malformed(n)
  }

  /** ReadLog's loop over the lines of a file. */
  method ReadLog<E>(dec: Bytes -> Option<E>, data: Bytes) returns (r: ReadResult<E>)
    ensures r == Parse(dec, data, 1)
  {
    hide Parse;
    var entries: seq<E> := [];
    var rest := data;
    var line := 0;
    while true
      invariant Parse(dec, data, 1) == Joined(entries, Parse(dec, rest, line + 1))
      decreases |rest|
    {
      line := line + 1;
      ParseStep(dec, rest, line);
      var k := ReadBytes(rest);
      var eof := k == |rest|;
      var raw := rest[..k];
      if |raw| == 0 {
        if eof {
          return Entries(entries, None);
        }
        rest := rest[k + 1..];
        continue;
      }
      var e := dec(raw);
      if e.None? || eof {
        if eof {
          return Entries(entries, Some(line));
        }
        return Malformed(line);
      }
      rest := rest[k + 1..];
      JoinedCons(entries, e.value, Parse(dec, rest, line + 1));
      entries := entries + [e.value];
    }
  }

  lemma {:induction false} ParseStep<E>(dec: Bytes -> Option<E>, data: Bytes, n: nat)
    ensures var k := LineEnd(data);
            Parse(dec, data, n) ==
            if k == |data| then Entries([], if data == [] then None else Some(n))
            else if k == 0 then Parse(dec, data[k + 1..], n + 1)
            else if dec(data[..k]).None? then Malformed(n)
            else Consed(dec(data[..k]).value, Parse(dec, data[k + 1..], n + 1))
  {
  }

  lemma JoinedCons<E>(es: seq<E>, e: E, r: ReadResult<E>)
    ensures Joined(es, Consed(e, r)) == Joined(es + [e], r)
  {
    if r.Entries? { assert es + ([e] + r.es) == es + [e] + r.es; }
  }

  /** Scans for the newline. */
  method ReadBytes(data: Bytes) returns (k: nat)
    ensures k == LineEnd(data)
  {
    k := 0;
    while k < |data| && data[k] != NL
      invariant k <= |data| && LineEnd(data) == k + LineEnd(data[k..])
    {
      assert data[k..][1..] == data[k + 1..];
      k := k + 1;
    }
  }

  lemma {:induction false} LineEndAt(line: Bytes, tail: Bytes)
    requires NL !in line && (tail == [] || tail[0] == NL)
    ensures LineEnd(line + tail) == |line|
  {
    if line != [] {
      assert (line + tail)[1..] == line[1..] + tail;
      LineEndAt(line[1..], tail);
    } else {
      assert line + tail == tail;
    }
  }

  /** Any byte prefix of the lines and a torn tail parses to a prefix of the entries. */
  lemma {:induction false} ParsePrefix<E>(dec: Bytes -> Option<E>, lines: seq<Bytes>, es: seq<E>, torn: Bytes, kept: Bytes, n: nat)
    returns (m: nat)
    requires |es| == |lines| && NL !in torn && kept <= Stream(lines) + torn
    requires forall i :: 0 <= i < |es| ==> IsLine(lines[i]) && dec(lines[i]) == Some(es[i])
    ensures m <= |es| && Parse(dec, kept, n) == Entries(es[..m], if MidLine(kept) then Some(n + m) else None)
    ensures m < |lines| ==> |kept| < |Stream(lines[..m + 1])|
    decreases |lines|
  {
    if lines == [] {
      m := 0;
      assert NL !in kept;
      LineEndAt(kept, []);
      assert kept + [] == kept;
    } else if |kept| <= |lines[0]| {
      m := 0;
      assert kept == lines[0][..|kept|];
      LineEndAt(kept, []);
      assert kept + [] == kept;
      assert lines[..1] == [lines[0]];
      assert Stream([lines[0]]) == lines[0] + [NL] + [];
    } else {
      m := ParseHead(dec, lines, es, torn, kept, n);
    }
  }

  lemma {:induction false} ParseHead<E>(dec: Bytes -> Option<E>, lines: seq<Bytes>, es: seq<E>, torn: Bytes, kept: Bytes, n: nat)
    returns (m: nat)
    requires |es| == |lines| > 0 && NL !in torn && kept <= Stream(lines) + torn && |lines[0]| < |kept|
    requires forall i :: 0 <= i < |es| ==> IsLine(lines[i]) && dec(lines[i]) == Some(es[i])
    ensures m <= |es| && Parse(dec, kept, n) == Entries(es[..m], if MidLine(kept) then Some(n + m) else None)
    ensures m < |lines| ==> |kept| < |Stream(lines[..m + 1])|
    decreases |lines|, 0
  {
    hide Parse, Stream, LineEnd, MidLine;
    var rest := FirstLine(dec, lines, torn, kept, n);
    var m' := ParsePrefix(dec, lines[1..], es[1..], torn, rest, n + 1);
    m := m' + 1;
    TakeHead(es, m');
    if m < |lines| { StreamHead(lines, m'); }
  }

  lemma {:induction false} StreamHead(lines: seq<Bytes>, m: nat)
    requires m + 1 < |lines|
    ensures |Stream(lines[..m + 2])| == |lines[0]| + 1 + |Stream(lines[1..][..m + 1])|
  {
    assert lines[..m + 2][0] == lines[0] && lines[..m + 2][1..] == lines[1..][..m + 1];
  }

  lemma TakeHead<E>(es: seq<E>, m: nat)
    requires m < |es|
    ensures es[..m + 1] == [es[0]] + es[1..][..m]
  {
  }

  lemma {:induction false} FirstLine<E>(dec: Bytes -> Option<E>, lines: seq<Bytes>, torn: Bytes, kept: Bytes, n: nat) returns (rest: Bytes)
    requires lines != [] && kept <= Stream(lines) + torn && |lines[0]| < |kept| && IsLine(lines[0]) && dec(lines[0]).Some?
    ensures |kept| == |lines[0]| + 1 + |rest| && rest <= Stream(lines[1..]) + torn
    ensures MidLine(kept) <==> MidLine(rest)
    ensures Parse(dec, kept, n) == Consed(dec(lines[0]).value, Parse(dec, rest, n + 1))
  {
    hide Parse, LineEnd;
    var all := Stream(lines) + torn;
    assert all == lines[0] + [NL] + (Stream(lines[1..]) + torn);
    rest := kept[|lines[0]| + 1..];
    assert kept == all[..|kept|];
    assert kept == lines[0] + [NL] + rest;
    ParseLine(dec, lines[0], rest, n);
  }

  lemma {:induction false} ParseLine<E>(dec: Bytes -> Option<E>, line: Bytes, rest: Bytes, n: nat)
    requires IsLine(line) && dec(line).Some?
    ensures Parse(dec, line + [NL] + rest, n) == Consed(dec(line).value, Parse(dec, rest, n + 1))
  {
    var data := line + [NL] + rest;
    assert data == line + ([NL] + rest);
    LineEndAt(line, [NL] + rest);
    assert data[..|line|] == line && data[|line| + 1..] == rest;
  }

  lemma {:induction false} StreamShorter(lines: seq<Bytes>, i: nat, j: nat)
    requires i < j <= |lines|
    ensures |Stream(lines[..i + 1])| <= |Stream(lines[..j])|
    decreases lines
  {
    assert lines[..i + 1][1..] == lines[1..][..i] && lines[..j][1..] == lines[1..][..j - 1];
    if i > 0 {
      StreamShorter(lines[1..], i - 1, j - 1);
    } else {
      assert lines[1..][..0] == [];
    }
  }

  // ---- a file that ends inside a line and is appended to ----

  /** The lines before a point are read first. */
  lemma {:induction false} ParseAfter<E>(dec: Bytes -> Option<E>, whole: seq<Bytes>, es: seq<E>, rest: Bytes, n: nat)
    requires |es| == |whole| && forall i :: 0 <= i < |es| ==> IsLine(whole[i]) && dec(whole[i]) == Some(es[i])
    ensures Parse(dec, Stream(whole) + rest, n) == Joined(es, Parse(dec, rest, n + |whole|))
    decreases whole
  {
    hide Parse;
    if whole == [] {
      assert Stream(whole) + rest == rest;
    } else {
      ParseAfter(dec, whole[1..], es[1..], rest, n + 1);
      var tail := Stream(whole[1..]) + rest;
      assert Stream(whole) + rest == whole[0] + [NL] + tail;
      ParseLine(dec, whole[0], tail, n);
      assert [es[0]] + es[1..] == es;
      ConsJoined(es[0], es[1..], Parse(dec, rest, n + |whole|));
    }
  }

  lemma ConsJoined<E>(e: E, es: seq<E>, r: ReadResult<E>)
    ensures Consed(e, Joined(es, r)) == Joined([e] + es, r)
  {
    if r.Entries? { assert [e] + (es + r.es) == [e] + es + r.es; }
  }

  lemma {:induction false} ParseBad<E>(dec: Bytes -> Option<E>, line: Bytes, rest: Bytes, n: nat)
    requires IsLine(line) && dec(line).None?
    ensures Parse(dec, line + [NL] + rest, n) == Malformed(n)
  {
    var data := line + [NL] + rest;
    assert data == line + ([NL] + rest);
    LineEndAt(line, [NL] + rest);
    assert data[..|line|] == line;
  }

  /**
   Loading a session accepts a truncated log and opens it for append as it is, so the next line
   continues the torn one. The file then reads exactly when the two together decode; otherwise
   the whole log is refused as malformed, the entries before the crash included. With no torn
   tail that is the new line alone, and the file reads as the old entries and the new ones.
   */
  lemma {:induction false} ReopenedReadsIff<E>(dec: Bytes -> Option<E>, whole: seq<Bytes>, es: seq<E>, torn: Bytes, line: Bytes,
                                               more: seq<Bytes>, later: seq<E>)
    requires |es| == |whole| && forall i :: 0 <= i < |es| ==> IsLine(whole[i]) && dec(whole[i]) == Some(es[i])
    requires NL !in torn && IsLine(line)
    requires |later| == |more| && forall i :: 0 <= i < |later| ==> IsLine(more[i]) && dec(more[i]) == Some(later[i])
    ensures var r := Parse(dec, Stream(whole) + torn + Stream([line] + more), 1);
            && (r.Entries? <==> dec(torn + line).Some?)
            && (dec(torn + line).None? ==> r == Malformed(|whole| + 1))
            && (dec(torn + line).Some? ==> r == Entries(es + [dec(torn + line).value] + later, None))
  {
    hide Parse;
    var rest := Stream(more) + [];
    assert ([line] + more)[1..] == more && rest == Stream(more);
    var tail := torn + line + [NL] + rest;
    assert Stream(whole) + torn + Stream([line] + more) == Stream(whole) + tail;
    ParseAfter(dec, whole, es, tail, 1);
    if dec(torn + line).None? {
      ParseBad(dec, torn + line, rest, 1 + |whole|);
    } else {
      ParseLine(dec, torn + line, rest, 1 + |whole|);
      ParseAfter(dec, more, later, [], 2 + |whole|);
      ParseStep(dec, [], 2 + |whole| + |more|);
      assert later + [] == later && es + ([dec(torn + line).value] + later) == es + [dec(torn + line).value] + later;
    }
  }
}
