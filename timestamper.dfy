/** timestamper/writer.go: an io.Writer that puts the current date and time
    in front of every line it passes on to the writer downstream. The clock
    is a parameter: each Write call is given the formatted time text. */
module Timestamper {
  import opened Results

  type Byte = bv8

  const Newline: Byte := 10
  const Space: Byte := 32

  /** The time.Format layout New uses. */
  const DefaultFormat: string := "01/02/06 15:04:05.000"

  function Min(a: int, b: int): int { if a <= b then a else b }

  /** A downstream writer with room for `room` more bytes: a write that does
      not fit is accepted up to the room left and reported as an error, as
      io.Writer demands of a short write. */
  class Sink {
    var data: seq<Byte>
    var room: nat

    constructor (room: nat)
      ensures data == [] && this.room == room
    {
      data := [];
      this.room := room;
    }

    method Write(p: seq<Byte>) returns (nw: nat, err: Option<Error>)
      modifies this
      ensures err.None? <==> |p| <= old(room)
      ensures err.None? ==> nw == |p| && data == old(data) + p && room == old(room) - |p|
      ensures err.Some? ==> nw == old(room) && data == old(data) + p[..nw] && room == 0
    {
      if |p| <= room {
        data := data + p;
        room := room - |p|;
        return |p|, None;
      }
      nw := room;
      data := data + p[..nw];
      room := 0;
      return nw, Some(Failure("write limit exceeded"));
    }
  }

  /** The bytes sent downstream for payload `p` when every write succeeds,
      `stampit` telling whether a line starts with the first byte: the stamp
      goes in front of the first byte of every line. */
  function Stamped(p: seq<Byte>, stampit: bool, stamp: seq<Byte>): seq<Byte>
    decreases |p|
  {
    if |p| == 0 then []
    else (if stampit then stamp else []) + [p[0]] + Stamped(p[1..], p[0] == Newline, stamp)
  }

  /** All bytes one Write sends downstream: an empty payload still gets a
      stamp when a line is due, and then no longer has one due. */
  function WriteBytes(p: seq<Byte>, stampit: bool, stamp: seq<Byte>): seq<Byte>
  {
    if |p| == 0 then (if stampit then stamp else []) else Stamped(p, stampit, stamp)
  }

  /** Whether a line starts with the next byte after `p` was written. */
  function After(p: seq<Byte>, stampit: bool): bool
  {
    if |p| == 0 then stampit else p[|p| - 1] == Newline
  }

  /** How many payload bytes lie within the first k bytes of Stamped(p, ...). */
  function PayloadIn(p: seq<Byte>, stampit: bool, stamp: seq<Byte>, k: int): nat
    decreases |p|
  {
    if |p| == 0 then 0
    else
      var s := if stampit then |stamp| else 0;
      if k <= s then 0 else 1 + PayloadIn(p[1..], p[0] == Newline, stamp, k - s - 1)
  }

  lemma SeqAssoc(a: seq<Byte>, b: seq<Byte>, c: seq<Byte>)
    ensures a + (b + c) == (a + b) + c
  {
  }

  /** Writing two payloads one after the other sends what writing them at
      once sends: a line split across two writes gets one stamp. */
  lemma {:induction false} StampedConcat(p1: seq<Byte>, p2: seq<Byte>, stampit: bool, stamp: seq<Byte>)
    ensures Stamped(p1 + p2, stampit, stamp) ==
            Stamped(p1, stampit, stamp) + Stamped(p2, After(p1, stampit), stamp)
    decreases |p1|
  {
    if |p1| == 0 {
      assert p1 + p2 == p2;
    } else {
      var q := p1 + p2;
      var pre := if stampit then stamp else [];
      assert q[0] == p1[0] && q[1..] == p1[1..] + p2;
      assert After(p1[1..], p1[0] == Newline) == After(p1, stampit);
      StampedConcat(p1[1..], p2, p1[0] == Newline, stamp);
      calc {
        Stamped(q, stampit, stamp);
        pre + [p1[0]] + Stamped(p1[1..] + p2, p1[0] == Newline, stamp);
        pre + [p1[0]] + (Stamped(p1[1..], p1[0] == Newline, stamp) + Stamped(p2, After(p1, stampit), stamp));
        { SeqAssoc(pre + [p1[0]], Stamped(p1[1..], p1[0] == Newline, stamp), Stamped(p2, After(p1, stampit), stamp)); }
        (pre + [p1[0]] + Stamped(p1[1..], p1[0] == Newline, stamp)) + Stamped(p2, After(p1, stampit), stamp);
        Stamped(p1, stampit, stamp) + Stamped(p2, After(p1, stampit), stamp);
      }
    }
  }

  /** A piece of a line, ending at the latest with its newline, gets at most
      one stamp, in front. */
  lemma {:induction false} StampedLine(chunk: seq<Byte>, stampit: bool, stamp: seq<Byte>)
    requires forall j :: 0 <= j < |chunk| - 1 ==> chunk[j] != Newline
    ensures Stamped(chunk, stampit, stamp) ==
            (if |chunk| > 0 && stampit then stamp else []) + chunk
    decreases |chunk|
  {
    if |chunk| > 0 {
      StampedLine(chunk[1..], false, stamp);
    }
  }

  /** Every payload byte is counted once all bytes are through. */
  lemma {:induction false} PayloadInAll(p: seq<Byte>, stampit: bool, stamp: seq<Byte>)
    ensures PayloadIn(p, stampit, stamp, |Stamped(p, stampit, stamp)|) == |p|
    decreases |p|
  {
    if |p| > 0 {
      PayloadInAll(p[1..], p[0] == Newline, stamp);
    }
  }

  /** Counting payload bytes across two pieces. */
  lemma {:induction false} PayloadInConcat(p1: seq<Byte>, p2: seq<Byte>, stampit: bool, stamp: seq<Byte>, k: int)
    requires k >= |Stamped(p1, stampit, stamp)|
    ensures PayloadIn(p1 + p2, stampit, stamp, k) ==
            |p1| + PayloadIn(p2, After(p1, stampit), stamp, k - |Stamped(p1, stampit, stamp)|)
    decreases |p1|
  {
    if |p1| == 0 {
      assert p1 + p2 == p2;
    } else {
      assert (p1 + p2)[1..] == p1[1..] + p2;
      var s := if stampit then |stamp| else 0;
      PayloadInConcat(p1[1..], p2, p1[0] == Newline, stamp, k - s - 1);
      if |p1| > 1 {
        assert p1[1..][|p1| - 2] == p1[|p1| - 1];
      }
    }
  }

  /** Payload bytes within a prefix of a line piece: none of the stamp, then
      one per byte. */
  lemma {:induction false} PayloadInLine(chunk: seq<Byte>, stampit: bool, stamp: seq<Byte>, k: int)
    requires forall j :: 0 <= j < |chunk| - 1 ==> chunk[j] != Newline
    requires 0 <= k
    ensures var s := if |chunk| > 0 && stampit then |stamp| else 0;
      PayloadIn(chunk, stampit, stamp, k) == (if k <= s then 0 else Min(k - s, |chunk|))
    decreases |chunk|
  {
    if |chunk| > 0 {
      var s := if stampit then |stamp| else 0;
      if k > s {
        PayloadInLine(chunk[1..], false, stamp, k - s - 1);
      }
    }
  }

  /** The stamp is never counted as payload, and the count never exceeds
      the payload. */
  lemma {:induction false} PayloadInBound(p: seq<Byte>, stampit: bool, stamp: seq<Byte>, k: int)
    ensures PayloadIn(p, stampit, stamp, k) <= |p|
    ensures stampit && k <= |stamp| ==> PayloadIn(p, stampit, stamp, k) == 0
    decreases |p|
  {
    if |p| > 0 {
      var s := if stampit then |stamp| else 0;
      PayloadInBound(p[1..], p[0] == Newline, stamp, k - s - 1);
    }
  }

  /** Counting within the stamped first piece ignores what follows it. */
  lemma {:induction false} PayloadInPrefix(q1: seq<Byte>, q2: seq<Byte>, stampit: bool, stamp: seq<Byte>, k: int)
    requires k <= |Stamped(q1, stampit, stamp)|
    ensures PayloadIn(q1 + q2, stampit, stamp, k) == PayloadIn(q1, stampit, stamp, k)
    decreases |q1|
  {
    if |q1| > 0 {
      assert (q1 + q2)[1..] == q1[1..] + q2;
      var s := if stampit then |stamp| else 0;
      if k > s {
        PayloadInPrefix(q1[1..], q2, q1[0] == Newline, stamp, k - s - 1);
      }
    }
  }

  /** Regrouping a concatenation whose tail is known under another name. */
  lemma Regroup(a: seq<Byte>, b: seq<Byte>, c: seq<Byte>, d: seq<Byte>)
    requires b + c == d
    ensures a + b + c == a + d
  {
  }

  /** A prefix reaching into the middle part of a concatenation. */
  lemma PrefixInto(x: seq<Byte>, y: seq<Byte>, z: seq<Byte>, k: int)
    requires |x| <= k <= |x| + |y|
    ensures (x + y + z)[..k] == x + y[..k - |x|]
  {
  }

  /** The output for `q` split after its first line piece q[..len]: the
      piece, with the stamp in front when a line is due, then the output for
      the rest. */
  lemma LinePiece(q: seq<Byte>, len: nat, stampit: bool, stamp: seq<Byte>)
    requires 0 < len <= |q|
    requires forall j :: 0 <= j < len - 1 ==> q[j] != Newline
    ensures Stamped(q, stampit, stamp) ==
            (if stampit then stamp else []) + q[..len] + Stamped(q[len..], q[len - 1] == Newline, stamp)
  {
    assert q == q[..len] + q[len..];
    StampedConcat(q[..len], q[len..], stampit, stamp);
    StampedLine(q[..len], stampit, stamp);
  }

  /** The payload bytes within the first k output bytes for `q`, counted
      within and beyond its first line piece q[..len]. */
  lemma PayloadPiece(q: seq<Byte>, len: nat, stampit: bool, stamp: seq<Byte>, k: int)
    requires 0 < len <= |q| && 0 <= k
    requires forall j :: 0 <= j < len - 1 ==> q[j] != Newline
    ensures var pre := if stampit then |stamp| else 0;
            k <= pre + len ==> PayloadIn(q, stampit, stamp, k) == (if k <= pre then 0 else k - pre)
    ensures var pre := if stampit then |stamp| else 0;
            k >= pre + len ==>
              PayloadIn(q, stampit, stamp, k) == len + PayloadIn(q[len..], q[len - 1] == Newline, stamp, k - pre - len)
  {
    var pre := if stampit then |stamp| else 0;
    assert q == q[..len] + q[len..];
    StampedLine(q[..len], stampit, stamp);
    if k <= pre + len {
      PayloadInPrefix(q[..len], q[len..], stampit, stamp, k);
      PayloadInLine(q[..len], stampit, stamp, k);
    } else {
      PayloadInConcat(q[..len], q[len..], stampit, stamp, k);
    }
  }

  /** A round of Write whose stamp does not fit: downstream gets part of
      the stamp and no payload byte. */
  lemma RoundStampCut(done: seq<Byte>, rest: seq<Byte>, stamp: seq<Byte>, room: int)
    requires |rest| > 0 && |done| <= room < |done| + |stamp|
    ensures var out := done + Stamped(rest, true, stamp);
            |out| > room && out[..room] == done + stamp[..room - |done|] &&
            PayloadIn(rest, true, stamp, room - |done|) == 0
  {
    LinePiece(rest, 1, true, stamp);
    var after := Stamped(rest[1..], rest[0] == Newline, stamp);
    assert done + Stamped(rest, true, stamp) == done + stamp + (rest[..1] + after);
    PrefixInto(done, stamp, rest[..1] + after, room);
    PayloadInBound(rest, true, stamp, room - |done|);
  }

  /** The last round of Write: the piece is the rest of the payload, or it
      does not fit. Downstream gets all it has room for and the count is the
      payload bytes written in this round. */
  lemma RoundLast(done: seq<Byte>, rest: seq<Byte>, idx: nat, stampit: bool, stamp: seq<Byte>, room: int, nw: nat)
    requires 0 < idx <= |rest|
    requires forall j :: 0 <= j < idx - 1 ==> rest[j] != Newline
    requires var pre := if stampit then stamp else [];
             |done| + |pre| <= room && nw == Min(idx, room - |done| - |pre|) &&
             (idx == |rest| || idx > room - |done| - |pre|)
    ensures var pre := if stampit then stamp else [];
            var out := done + Stamped(rest, stampit, stamp);
            var k := Min(|out|, room);
            out[..k] == done + pre + rest[..idx][..nw] &&
            (|out| > room <==> idx > room - |done| - |pre|) &&
            PayloadIn(rest, stampit, stamp, k - |done|) == nw
  {
    var pre := if stampit then stamp else [];
    var line := rest[..idx];
    var after := Stamped(rest[idx..], rest[idx - 1] == Newline, stamp);
    LinePiece(rest, idx, stampit, stamp);
    var out := done + Stamped(rest, stampit, stamp);
    assert out == (done + pre) + line + after;
    var k := Min(|out|, room);
    if idx > room - |done| - |pre| {
      PrefixInto(done + pre, line, after, k);
      PayloadPiece(rest, idx, stampit, stamp, k - |done|);
    } else {
      assert rest[idx..] == [] && after == [];
      assert out == (done + pre) + line;
      PayloadPiece(rest, idx, stampit, stamp, k - |done|);
      assert line[..nw] == line;
    }
  }

  /** A round of Write that leaves payload behind: the output continues with
      the output for the remaining payload, a line being due. */
  lemma RoundNext(done: seq<Byte>, rest: seq<Byte>, idx: nat, stampit: bool, stamp: seq<Byte>, room: int)
    requires 0 < idx < |rest| && rest[idx - 1] == Newline
    requires forall j :: 0 <= j < idx - 1 ==> rest[j] != Newline
    requires var pre := if stampit then stamp else [];
             |done| + |pre| + idx <= room
    ensures var pre := if stampit then stamp else [];
            var out := done + Stamped(rest, stampit, stamp);
            var k := Min(|out|, room);
            out == (done + pre + rest[..idx]) + Stamped(rest[idx..], true, stamp) &&
            PayloadIn(rest, stampit, stamp, k - |done|) ==
              idx + PayloadIn(rest[idx..], true, stamp, k - |done + pre + rest[..idx]|)
  {
    LinePiece(rest, idx, stampit, stamp);
    var out := done + Stamped(rest, stampit, stamp);
    PayloadPiece(rest, idx, stampit, stamp, Min(|out|, room) - |done|);
  }

  /** The length of the first line piece of `rest`: up to and including
      its first newline, or all of `rest` when it has none. */
  function PieceLen(rest: seq<Byte>): (len: nat)
    ensures len <= |rest| && (|rest| > 0 ==> len > 0)
  {
    if |rest| == 0 then 0
    else if rest[0] == Newline then 1
    else 1 + PieceLen(rest[1..])
  }

  /** The first line piece ends with the first newline, or holds all of
      `rest` when `rest` has no newline. */
  lemma {:induction false} PieceLenEnds(rest: seq<Byte>)
    ensures var len := PieceLen(rest);
      (forall j :: 0 <= j < len - 1 ==> rest[j] != Newline) &&
      (len < |rest| ==> rest[len - 1] == Newline) &&
      (len == |rest| && len > 0 && rest[len - 1] != Newline ==> Newline !in rest)
  {
    if |rest| > 0 && rest[0] != Newline {
      PieceLenEnds(rest[1..]);
      assert rest == [rest[0]] + rest[1..];
    }
  }

  /** A length that ends at the first newline, or at the end when there is
      none before the last byte, is the first line piece's length. */
  lemma {:induction false} PieceLenUnique(rest: seq<Byte>, idx: nat)
    requires idx <= |rest| && (|rest| > 0 ==> idx > 0)
    requires forall j :: 0 <= j < idx - 1 ==> rest[j] != Newline
    requires idx < |rest| ==> rest[idx - 1] == Newline
    ensures idx == PieceLen(rest)
  {
    if |rest| > 0 && rest[0] != Newline && idx > 1 {
      PieceLenUnique(rest[1..], idx - 1);
    }
  }

  /** Whether a line is due after Write, `stampit` telling whether one was
      due before it and downstream having room for `room` bytes. Each round
      clears the flag before it writes a stamp and sets it again when its
      line piece ends with a newline; a write that comes short ends the
      rounds. */
  function DueAfter(p: seq<Byte>, stampit: bool, stamp: seq<Byte>, room: int): bool
    decreases |p|
  {
    var pre := if stampit then stamp else [];
    if |pre| > room then false
    else
      var idx := PieceLen(p);
      if idx > room - |pre| || idx >= |p| then idx > 0 && p[idx - 1] == Newline
      else DueAfter(p[idx..], true, stamp, room - |pre| - idx)
  }

  /** When the stamp and the first line piece of `p` fit downstream, what
      is due after `p` is what is due after the rest of it. */
  lemma DueAfterPiece(p: seq<Byte>, stampit: bool, stamp: seq<Byte>, room: int)
    requires |p| > 0 && (if stampit then |stamp| else 0) + PieceLen(p) <= room
    ensures var idx := PieceLen(p);
      DueAfter(p, stampit, stamp, room) ==
        if idx < |p| then DueAfter(p[idx..], true, stamp, room - (if stampit then |stamp| else 0) - idx)
        else p[idx - 1] == Newline
  {
  }

  /** When the whole output fits downstream, a line is due after Write
      exactly when the payload ended with a newline. */
  lemma {:induction false} DueAfterFits(p: seq<Byte>, stampit: bool, stamp: seq<Byte>, room: int)
    requires |WriteBytes(p, stampit, stamp)| <= room
    ensures DueAfter(p, stampit, stamp, room) == (|p| > 0 && p[|p| - 1] == Newline)
    decreases |p|
  {
    if |p| > 0 {
      var pre := if stampit then stamp else [];
      var idx := PieceLen(p);
      PieceLenEnds(p);
      LinePiece(p, idx, stampit, stamp);
      var q := p[idx..];
      assert |pre| + idx + |Stamped(q, p[idx - 1] == Newline, stamp)| <= room;
      DueAfterPiece(p, stampit, stamp, room);
      if idx < |p| {
        assert p[idx - 1] == Newline && |q| > 0;
        assert q[|q| - 1] == p[|p| - 1];
        DueAfterFits(q, true, stamp, room - |pre| - idx);
        assert DueAfter(p, stampit, stamp, room) == DueAfter(q, true, stamp, room - |pre| - idx);
      }
    }
  }

  /** What one round of Write does downstream, given that a line is due
      (`stampit`) and that downstream has room for `room` bytes: `sent` is
      what downstream takes, `nw` the payload bytes among it, `idx` the
      length of the line piece, `failed` whether a write came short and
      `after` whether a line is due next. */
  ghost predicate Round(rest: seq<Byte>, stampit: bool, stamp: seq<Byte>, room: int,
                        idx: nat, nw: nat, sent: seq<Byte>, failed: bool, after: bool)
  {
    var pre := if stampit then stamp else [];
    if |pre| > room then failed && !after && nw == 0 && 0 <= room && sent == pre[..room]
    else
      idx <= |rest| && (|rest| > 0 ==> idx > 0) &&
      (forall j :: 0 <= j < idx - 1 ==> rest[j] != Newline) &&
      (idx < |rest| ==> rest[idx - 1] == Newline) &&
      after == (idx > 0 && rest[idx - 1] == Newline) &&
      nw == Min(idx, room - |pre|) && sent == pre + rest[..idx][..nw] &&
      (failed <==> idx > room - |pre|)
  }

  /** The rest of the output after `done` is the output for the rest of the
      payload, and the payload count within the first k output bytes is
      `off` plus the count within the rest. */
  ghost predicate Tail(out: seq<Byte>, k: int, count: int, rest: seq<Byte>, stampit: bool,
                       stamp: seq<Byte>, done: seq<Byte>, off: int)
  {
    out == done + Stamped(rest, stampit, stamp) &&
    count == off + PayloadIn(rest, stampit, stamp, k - |done|)
  }

  /** Write's loop invariant for the output: `off` payload bytes are
      through, downstream took `done`, and the rest of the output is the
      output for the rest of the payload. */
  ghost predicate Through(p: seq<Byte>, st0: bool, stamp: seq<Byte>, room: int,
                          off: nat, stampit: bool, done: seq<Byte>)
  {
    var out := WriteBytes(p, st0, stamp);
    var k := Min(|out|, room);
    off <= |p| && |done| <= room &&
    (off > 0 ==> off < |p| && stampit) &&
    (off == 0 ==> stampit == st0 && done == []) &&
    (|p| > 0 ==> Tail(out, k, PayloadIn(p, st0, stamp, k), p[off..], stampit, stamp, done, off))
  }

  /** Write's loop invariant: the output so far, and the flag. */
  ghost predicate Progress(p: seq<Byte>, st0: bool, stamp: seq<Byte>, room: int,
                           off: nat, stampit: bool, done: seq<Byte>)
  {
    Through(p, st0, stamp, room, off, stampit, done) &&
    DueFrom(p, st0, stamp, room, off, stampit, room - |done|)
  }

  /** Nothing is through before the first round. */
  lemma ProgressStart(p: seq<Byte>, st0: bool, stamp: seq<Byte>, room: nat)
    ensures Progress(p, st0, stamp, room, 0, st0, [])
  {
    assert p[0..] == p;
  }

  /** A round that leaves payload behind moves the tail on by its piece. */
  lemma TailNext(out: seq<Byte>, room: int, count: int, rest: seq<Byte>, stampit: bool,
                 stamp: seq<Byte>, done: seq<Byte>, off: int, idx: nat, nw: nat, sent: seq<Byte>, after: bool)
    requires Tail(out, Min(|out|, room), count, rest, stampit, stamp, done, off)
    requires Round(rest, stampit, stamp, room - |done|, idx, nw, sent, false, after)
    requires idx < |rest|
    ensures nw == idx && after && |done + sent| <= room
    ensures Tail(out, Min(|out|, room), count, rest[idx..], true, stamp, done + sent, off + idx)
  {
    var pre := if stampit then stamp else [];
    assert |pre| <= room - |done|;
    assert rest[..idx][..nw] == rest[..idx];
    RoundNext(done, rest, idx, stampit, stamp, room);
    assert done + pre + rest[..idx] == done + sent;
  }

  /** A round that leaves payload behind keeps the invariant. */
  lemma ProgressNext(p: seq<Byte>, st0: bool, stamp: seq<Byte>, room: int, off: nat, stampit: bool,
                     done: seq<Byte>, idx: nat, nw: nat, sent: seq<Byte>, after: bool)
    requires Through(p, st0, stamp, room, off, stampit, done)
    requires Round(p[off..], stampit, stamp, room - |done|, idx, nw, sent, false, after)
    requires idx < |p[off..]|
    ensures nw == idx && after && |sent| <= room - |done|
    ensures Through(p, st0, stamp, room, off + nw, after, done + sent)
  {
    var out := WriteBytes(p, st0, stamp);
    var k := Min(|out|, room);
    TailNext(out, room, PayloadIn(p, st0, stamp, k), p[off..], stampit, stamp, done, off, idx, nw, sent, after);
    assert p[off..][idx..] == p[off + idx..];
  }

  /** The last round on the tail: downstream took all it had room for, and
      the count is complete. */
  lemma TailLast(out: seq<Byte>, room: int, count: int, rest: seq<Byte>, stampit: bool,
                 stamp: seq<Byte>, done: seq<Byte>, off: int, idx: nat, nw: nat, sent: seq<Byte>,
                 failed: bool, after: bool)
    requires |rest| > 0 && |done| <= room
    requires Tail(out, Min(|out|, room), count, rest, stampit, stamp, done, off)
    requires Round(rest, stampit, stamp, room - |done|, idx, nw, sent, failed, after)
    requires failed || idx >= |rest|
    ensures var k := Min(|out|, room);
            done + sent == out[..k] && (failed <==> |out| > room) && off + nw == count &&
            (!failed ==> nw == |rest| && after == (rest[|rest| - 1] == Newline))
  {
    var pre := if stampit then stamp else [];
    if |pre| > room - |done| {
      RoundStampCut(done, rest, stamp, room);
    } else {
      RoundLast(done, rest, idx, stampit, stamp, room, nw);
      assert done + sent == done + pre + rest[..idx][..nw];
    }
  }

  /** The last round: what downstream took in all, whether the write failed
      and the payload count are those Write promises. */
  lemma ProgressLast(p: seq<Byte>, st0: bool, stamp: seq<Byte>, room: int, off: nat, stampit: bool,
                     done: seq<Byte>, idx: nat, nw: nat, sent: seq<Byte>, failed: bool, after: bool)
    requires Through(p, st0, stamp, room, off, stampit, done)
    requires Round(p[off..], stampit, stamp, room - |done|, idx, nw, sent, failed, after)
    requires failed || idx >= |p[off..]|
    ensures var out := WriteBytes(p, st0, stamp);
            var k := Min(|out|, room);
            done + sent == out[..k] &&
            (failed <==> |out| > room) &&
            off + nw == PayloadIn(p, st0, stamp, k) &&
            (!failed ==> off + nw == |p| && after == (|p| > 0 && p[|p| - 1] == Newline))
  {
    var out := WriteBytes(p, st0, stamp);
    var k := Min(|out|, room);
    if |p| == 0 {
      var pre := if stampit then stamp else [];
      assert out == pre && done == [];
      if |pre| <= room {
        assert idx == 0 && out[..k] == out && sent == pre;
      }
    } else {
      var rest := p[off..];
      TailLast(out, room, PayloadIn(p, st0, stamp, k), rest, stampit, stamp, done, off, idx, nw, sent, failed, after);
      if !failed {
        assert rest[|rest| - 1] == p[|p| - 1];
      }
    }
  }

  /** One round of Write on values: either the last round, with what Write
      promises, or a round that keeps the invariant. */
  lemma ProgressStep(p: seq<Byte>, st0: bool, stamp: seq<Byte>, room: int, off: nat, stampit: bool,
                     done: seq<Byte>, left: int, idx: nat, nw: nat, sent: seq<Byte>, failed: bool, after: bool)
    requires Progress(p, st0, stamp, room, off, stampit, done)
    requires left == room - |done|
    requires Round(p[off..], stampit, stamp, left, idx, nw, sent, failed, after)
    ensures var out := WriteBytes(p, st0, stamp);
            var k := Min(|out|, room);
            (failed || idx >= |p| - off) ==>
              done + sent == out[..k] &&
              (failed <==> |out| > room) &&
              off + nw == PayloadIn(p, st0, stamp, k) &&
              (!failed ==> off + nw == |p| && after == (|p| > 0 && p[|p| - 1] == Newline)) &&
              after == DueAfter(p, st0, stamp, room)
    ensures !(failed || idx >= |p| - off) ==>
              nw == idx && |sent| <= left && Progress(p, st0, stamp, room, off + nw, after, done + sent)
  {
    if failed || idx >= |p| - off {
      ProgressLast(p, st0, stamp, room, off, stampit, done, idx, nw, sent, failed, after);
      DueLast(p, st0, stamp, room, off, stampit, left, idx, nw, sent, failed, after);
    } else {
      DueNext(p, st0, stamp, room, off, stampit, left, idx, nw, sent, after, room - |done + sent|);
      ProgressNext(p, st0, stamp, room, off, stampit, done, idx, nw, sent, after);
    }
  }

  /** A round's effect on whether a line is due: the last round leaves
      what DueAfter says; a round that goes on leaves it to the rest. */
  lemma RoundDue(rest: seq<Byte>, stampit: bool, stamp: seq<Byte>, room: int,
                 idx: nat, nw: nat, sent: seq<Byte>, failed: bool, after: bool)
    requires Round(rest, stampit, stamp, room, idx, nw, sent, failed, after)
    ensures failed || idx >= |rest| ==> after == DueAfter(rest, stampit, stamp, room)
    ensures !(failed || idx >= |rest|) ==>
              DueAfter(rest, stampit, stamp, room) == DueAfter(rest[idx..], true, stamp, room - |sent|)
  {
    var pre := if stampit then stamp else [];
    if |pre| <= room {
      PieceLenUnique(rest, idx);
    }
  }

  /** Write's loop invariant for the flag: what is due after the rest of
      the payload is what is due after all of it. */
  ghost predicate DueFrom(p: seq<Byte>, st0: bool, stamp: seq<Byte>, room0: int,
                          off: nat, stampit: bool, left: int)
  {
    off <= |p| && DueAfter(p[off..], stampit, stamp, left) == DueAfter(p, st0, stamp, room0)
  }

  /** The last round of Write leaves what is due after the whole payload. */
  lemma DueLast(p: seq<Byte>, st0: bool, stamp: seq<Byte>, room0: int, off: nat, stampit: bool,
                left: int, idx: nat, nw: nat, sent: seq<Byte>, failed: bool, after: bool)
    requires DueFrom(p, st0, stamp, room0, off, stampit, left)
    requires Round(p[off..], stampit, stamp, left, idx, nw, sent, failed, after)
    requires failed || idx >= |p| - off
    ensures after == DueAfter(p, st0, stamp, room0)
  {
    RoundDue(p[off..], stampit, stamp, left, idx, nw, sent, failed, after);
  }

  /** A round of Write that goes on keeps the invariant for the flag. */
  lemma DueNext(p: seq<Byte>, st0: bool, stamp: seq<Byte>, room0: int, off: nat, stampit: bool,
                left: int, idx: nat, nw: nat, sent: seq<Byte>, after: bool, left': int)
    requires DueFrom(p, st0, stamp, room0, off, stampit, left)
    requires Round(p[off..], stampit, stamp, left, idx, nw, sent, false, after)
    requires idx < |p| - off && nw == idx && left' == left - |sent|
    ensures DueFrom(p, st0, stamp, room0, off + nw, after, left')
  {
    var rest := p[off..];
    assert rest[idx..] == p[off + idx..];
    RoundDue(rest, stampit, stamp, left, idx, nw, sent, false, after);
  }

  /** The length of the first line piece of `rest`: up to and including
      the first newline, or all of `rest` when it has none. */
  method LineEnd(rest: seq<Byte>) returns (idx: nat)
    ensures idx <= |rest|
    ensures forall j :: 0 <= j < idx - 1 ==> rest[j] != Newline
    ensures idx < |rest| ==> idx > 0 && rest[idx - 1] == Newline
    ensures idx == |rest| && idx > 0 && rest[idx - 1] != Newline ==> Newline !in rest
    ensures idx == PieceLen(rest)
  {
    idx := 0;
    var found := false;
    while idx < |rest| && !found
      invariant 0 <= idx <= |rest|
      invariant forall j :: 0 <= j < idx - 1 ==> rest[j] != Newline
      invariant !found ==> forall j :: 0 <= j < idx ==> rest[j] != Newline
      invariant found ==> idx > 0 && rest[idx - 1] == Newline
    {
      var b := rest[idx];
      idx := idx + 1;
      if b == Newline {
        found := true;
      }
    }
    PieceLenUnique(rest, idx);
  }

  /** A time-stamping writer in front of a downstream writer. */
  class Writer {
    var w: Sink
    var stampit: bool
    var format: string

    /** New: the default time format. */
    constructor New(w: Sink)
      ensures this.w == w && stampit && format == DefaultFormat
    {
      this.w := w;
      stampit := true;
      format := DefaultFormat;
    }

    /** NewWithFormat: a line is due, so the first byte gets a stamp. */
    constructor NewWithFormat(w: Sink, format: string)
      ensures this.w == w && stampit && this.format == format
    {
      this.w := w;
      stampit := true;
      this.format := format;
    }

    /** One round of Write's loop: the stamp when a line is due, then the
        first line piece of `rest` (up to and including its first newline). */
    method WritePiece(rest: seq<Byte>, stamp: seq<Byte>)
      returns (idx: nat, nw: nat, err: Option<Error>, ghost sent: seq<Byte>)
      modifies this, w
      ensures w == old(w) && format == old(format)
      ensures w.data == old(w.data) + sent && w.room == old(w.room) - |sent|
      ensures Round(rest, old(stampit), stamp, old(w.room), idx, nw, sent, err.Some?, stampit)
    {
      idx, nw, sent := 0, 0, [];
      if stampit {
        stampit := false;
        var _, e := w.Write(stamp);
        if e.Some? {
          return 0, 0, e, stamp[..old(w.room)];
        }
        sent := stamp;
      }
      idx := LineEnd(rest);
      stampit := idx > 0 && rest[idx - 1] == Newline;
      ghost var pre := sent;
      nw, err := w.Write(rest[..idx]);
      sent := sent + rest[..idx][..nw];
      Regroup(old(w.data), pre, rest[..idx][..nw], sent);
    }

    /** Write p, `timeText` being the current time formatted by `format`.
        Downstream receives as much of WriteBytes(...) as it takes; the count
        returned is the payload bytes among them, so |p| on success. */
    method Write(p: seq<Byte>, timeText: seq<Byte>) returns (n: nat, err: Option<Error>)
      modifies this, w
      ensures w == old(w) && format == old(format)
      ensures var out := WriteBytes(p, old(stampit), timeText + [Space]);
              var k := Min(|out|, old(w.room));
              w.data == old(w.data) + out[..k] && w.room == old(w.room) - k &&
              (err.Some? <==> |out| > old(w.room)) &&
              n == PayloadIn(p, old(stampit), timeText + [Space], k)
      ensures err.None? ==> n == |p| && stampit == (|p| > 0 && p[|p| - 1] == Newline)
      ensures stampit == DueAfter(p, old(stampit), timeText + [Space], old(w.room))
    {
      var stamp := timeText + [Space];
      ghost var st0 := stampit;
      ghost var data0 := w.data;
      ghost var room0 := w.room;
      ghost var done: seq<Byte> := [];
      ProgressStart(p, st0, stamp, room0);
      n := 0;
      while true
        invariant w == old(w) && format == old(format)
        invariant Progress(p, st0, stamp, room0, n, stampit, done)
        invariant w.data == data0 + done && w.room == room0 - |done|
        decreases |p| - n
      {
        var rest := p[n..];
        ghost var st := stampit;
        ghost var left := w.room;
        var idx, nw, e, sent := WritePiece(rest, stamp);
        ProgressStep(p, st0, stamp, room0, n, st, done, left, idx, nw, sent, e.Some?, stampit);
        Regroup(data0, done, sent, done + sent);
        assert w.data == data0 + (done + sent) && w.room == room0 - |done + sent|;
        if e.Some? || idx >= |rest| {
          return n + nw, e;
        }
        done := done + sent;
        n := n + nw;
      }
    }
  }
}
