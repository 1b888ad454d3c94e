/** The two ends of the pre-image and hint channels, on a stream of bytes. */
module Preimage {
  import opened Options
  import opened Format
  import opened Wire
  import opened WireRuns

  // ---- messages on a stream

  /** The message with a length of w bytes that a stream starts with, and what follows it. */
  function ReadFrame(stream: Bytes, w: nat): (Option<Bytes>, Bytes) {
    if |stream| < w then (None, [])
    else
      var end := w + FromBigEndian(stream[..w]);
      if |stream| < end then (None, []) else (Some(stream[w..end]), stream[end..])
  }

  /** A frame is read in two reads. */
  lemma TwoReads(stream: Bytes, w: nat, n: nat)
    requires w + n <= |stream|
    ensures stream[w..][..n] == stream[w..w + n] && stream[w..][n..] == stream[w + n..]
  {
  }

  /** Reading a frame takes exactly the message that the reader's needs delimit. */
  lemma ReadFrameDelimited(m: Bytes, rest: Bytes, w: nat)
    requires w > 0 && Delimits(Prefixed(w), m)
    ensures ReadFrame(m + rest, w) == (Some(Prefixed(w).Payload(m)), rest)
  {
    assert (m + rest)[..w] == m[..w];
    var end := w + FromBigEndian(m[..w]);
    assert m[..end][..w] == m[..w];
    assert (m + rest)[w..end] == m[w..] && (m + rest)[end..] == rest;
  }

  datatype ReadResult = Full(bytes: Bytes) | Eof | Short

  /** A connection: what the peer sends and was not read yet, and what was written to it. */
  class Stream {
    var incoming: Bytes
    var outgoing: Bytes

    constructor (incoming: Bytes)
      ensures this.incoming == incoming && outgoing == []
    {
      this.incoming := incoming;
      outgoing := [];
    }

    method Write(b: Bytes)
      modifies `outgoing
      ensures outgoing == old(outgoing) + b
    {
      outgoing := outgoing + b;
    }

    /** Reads n bytes, or all that there are if there are fewer. */
    method ReadFull(n: nat) returns (r: ReadResult)
      modifies `incoming
      ensures n <= |old(incoming)| ==> r == Full(old(incoming)[..n]) && incoming == old(incoming)[n..]
      ensures n > |old(incoming)| ==> r == (if old(incoming) == [] then Eof else Short) && incoming == []
    {
      if n <= |incoming| {
        r := Full(incoming[..n]);
        incoming := incoming[n..];
      } else {
        r := if incoming == [] then Eof else Short;
        incoming := [];
      }
    }
  }

  // ---- pre-images

  const KEY_SIZE := 32

  class OracleClient {
    const rw: Stream

    constructor (rw: Stream)
      ensures this.rw == rw
    {
      this.rw := rw;
    }

    /** None stands for a panic. */
    method Get(key: Bytes) returns (r: Option<Bytes>)
      modifies rw
      ensures rw.outgoing == old(rw.outgoing) + key
      ensures (r, rw.incoming) == ReadFrame(old(rw.incoming), 8)
    {
      hide FromBigEndian;
      rw.Write(key);
      var prefix := rw.ReadFull(8);
      if !prefix.Full? {
        return None;
      }
      var length := FromBigEndian(prefix.bytes);
      var payload := rw.ReadFull(length);
      if !payload.Full? {
        return None;
      }
      TwoReads(old(rw.incoming), 8, length);
      return Some(payload.bytes);
    }
  }

  datatype Request = Answered | NoMoreRequests | BadKey | NoPreimage

  class OracleServer {
    const rw: Stream

    constructor (rw: Stream)
      ensures this.rw == rw
    {
      this.rw := rw;
    }

    method NextPreimageRequest(getPreimage: Bytes -> Option<Bytes>) returns (r: Request)
      modifies rw
      ensures |old(rw.incoming)| < KEY_SIZE ==>
                && r == (if old(rw.incoming) == [] then NoMoreRequests else BadKey)
                && rw.incoming == [] && rw.outgoing == old(rw.outgoing)
      ensures |old(rw.incoming)| >= KEY_SIZE ==>
                var v := getPreimage(old(rw.incoming)[..KEY_SIZE]);
                && rw.incoming == old(rw.incoming)[KEY_SIZE..]
                && r == (if v.Some? then Answered else NoPreimage)
                && rw.outgoing == old(rw.outgoing) + if v.Some? then Framed(v.value, 8) else []
    {
      var key := rw.ReadFull(KEY_SIZE);
      if key.Eof? {
        return NoMoreRequests;
      }
      if key.Short? {
        return BadKey;
      }
      var value := getPreimage(key.bytes);
      if value.None? {
        return NoPreimage;
      }
      rw.Write(BigEndian(|value.value|, 8));
      if |value.value| == 0 {
        assert Framed(value.value, 8) == BigEndian(0, 8);
        return Answered;
      }
      rw.Write(value.value);
      assert rw.outgoing == old(rw.outgoing) + Framed(value.value, 8);
      return Answered;
    }
  }

  const ORACLE := Protocol(Fixed(KEY_SIZE), Prefixed(8))

  function OracleAnswer(getPreimage: Bytes -> Option<Bytes>): Bytes -> Answer {
    key => if getPreimage(key).Some? then Reply(Framed(getPreimage(key).value, 8)) else Fail
  }

  /** However reads and writes are cut up and scheduled, the client gets exactly the server's
      value of each key, and both streams are empty in the end. */
  lemma PreimagesInSync(keys: seq<Bytes>, getPreimage: Bytes -> Option<Bytes>, moves: seq<Move>, s: Session)
    requires forall i | 0 <= i < |keys| :: |keys[i]| == 32
    requires forall i | 0 <= i < |keys| :: getPreimage(keys[i]).Some? ==> |getPreimage(keys[i]).value| < TWO64
    requires Reaches(WireRuns.Start(keys), ORACLE, OracleAnswer(getPreimage), moves, s)
    ensures |s.results| <= |keys| && s.seen <= keys
    ensures forall i | 0 <= i < |s.results| ::
              getPreimage(keys[i]).Some? && ReadFrame(s.results[i], 8) == (Some(getPreimage(keys[i]).value), [])
    ensures s.client.Receiving? ==> s.todo != []
    ensures Stuck(s, ORACLE, OracleAnswer(getPreimage)) ==>
              && s.toServer == [] && s.toClient == []
              && (|s.results| == |keys| || getPreimage(keys[|s.results|]).None?)
  {
    hide Reaches, Framed, Delimits, ReadFrame, Stuck;
    var answer := OracleAnswer(getPreimage);
    forall i | 0 <= i < |keys| ensures Framable(ORACLE, answer, keys[i]) {
      PreimageFrames(keys[i], getPreimage);
    }
    OracleSound();
    InSync(keys, ORACLE, answer, moves, s);
    forall i | 0 <= i < |s.results|
      ensures getPreimage(keys[i]).Some? && ReadFrame(s.results[i], 8) == (Some(getPreimage(keys[i]).value), [])
    {
      assert answer(keys[i]) == Reply(s.results[i]);
      ReplyReads(getPreimage(keys[i]).value);
    }
  }

  lemma OracleSound()
    ensures Sound(ORACLE)
  {
  }

  lemma PreimageFrames(key: Bytes, getPreimage: Bytes -> Option<Bytes>)
    requires |key| == KEY_SIZE && (getPreimage(key).Some? ==> |getPreimage(key).value| < TWO64)
    ensures Framable(ORACLE, OracleAnswer(getPreimage), key)
  {
    FixedDelimits(key);
    if getPreimage(key).Some? {
      Widths();
      FramedDelimits(getPreimage(key).value, 8);
    }
  }

  lemma ReplyReads(value: Bytes)
    requires |value| < TWO64
    ensures ReadFrame(Framed(value, 8), 8) == (Some(value), [])
  {
    Widths();
    FramedDelimits(value, 8);
    ReadFrameDelimited(Framed(value, 8), [], 8);
    assert Framed(value, 8) + [] == Framed(value, 8);
  }

  // ---- hints

  const ACK: Bytes := [0]

  class HintWriter {
    const rw: Stream

    constructor (rw: Stream)
      ensures this.rw == rw
    {
      this.rw := rw;
    }

    /** The flag is false for a panic. */
    method Hint(hint: Bytes) returns (ok: bool)
      modifies rw
      ensures rw.outgoing == old(rw.outgoing) + Framed(hint, 4)
      ensures ok == (old(rw.incoming) != [])
      ensures rw.incoming == if ok then old(rw.incoming)[1..] else []
    {
      var hintBytes := BigEndian(|hint|, 4);
      hintBytes := hintBytes + hint;
      rw.Write(hintBytes);
      var ack := rw.ReadFull(1);
      return ack.Full?;
    }
  }

  datatype HintResult = Handled | NoMoreHints | BadLength | BadHint | HandlerFailed

  class HintReader {
    const rw: Stream

    constructor (rw: Stream)
      ensures this.rw == rw
    {
      this.rw := rw;
    }

    /** The router gets the hint, and says whether it could handle it. The writer is unblocked
        either way. */
    method NextHint(router: Bytes -> bool) returns (r: HintResult, ghost hint: Option<Bytes>)
      modifies rw
      ensures (hint, rw.incoming) == ReadFrame(old(rw.incoming), 4)
      ensures hint.Some? ==> r == (if router(hint.value) then Handled else HandlerFailed)
      ensures r == NoMoreHints <==> old(rw.incoming) == []
      ensures r == BadLength <==> 0 < |old(rw.incoming)| < 4
      ensures r == BadHint <==> hint.None? && |old(rw.incoming)| >= 4
      ensures rw.outgoing == old(rw.outgoing) + if hint.Some? then ACK else []
    {
      hide FromBigEndian;
      hint := None;
      var prefix := rw.ReadFull(4);
      if prefix.Eof? {
        return NoMoreHints, None;
      }
      if prefix.Short? {
        return BadLength, None;
      }
      var length := FromBigEndian(prefix.bytes);
      var payload := [];
      if length > 0 {
        var read := rw.ReadFull(length);
        if !read.Full? {
          return BadHint, None;
        }
        payload := read.bytes;
      }
      TwoReads(old(rw.incoming), 4, length);
      hint := Some(payload);
      if !router(payload) {
        rw.Write(ACK);
        return HandlerFailed, hint;
      }
      rw.Write(ACK);
      return Handled, hint;
    }
  }

  const HINTS := Protocol(Prefixed(4), Fixed(1))

  function HintAnswer(): Bytes -> Answer { _ => Reply(ACK) }

  function Frames(hints: seq<Bytes>): (r: seq<Bytes>)
    ensures |r| == |hints| && forall i | 0 <= i < |r| :: r[i] == Framed(hints[i], 4)
  {
    seq(|hints|, i requires 0 <= i < |hints| => Framed(hints[i], 4))
  }

  /** However reads and writes are cut up and scheduled, the reader gets exactly the hints, the
      writer gets one acknowledgement for each, and both streams are empty in the end. */
  lemma HintsInSync(hints: seq<Bytes>, moves: seq<Move>, s: Session)
    requires forall i | 0 <= i < |hints| :: |hints[i]| < TWO32
    requires Reaches(WireRuns.Start(Frames(hints)), HINTS, HintAnswer(), moves, s)
    ensures |s.results| <= |s.seen| <= |hints|
    ensures forall i | 0 <= i < |s.seen| :: ReadFrame(s.seen[i], 4) == (Some(hints[i]), [])
    ensures forall i | 0 <= i < |s.results| :: s.results[i] == ACK
    ensures s.client.Receiving? ==> s.todo != []
    ensures Stuck(s, HINTS, HintAnswer()) ==> s.toServer == [] && s.toClient == [] && |s.results| == |hints|
  {
    hide Reaches, Framed, Delimits, ReadFrame, Stuck;
    forall i | 0 <= i < |hints|
      ensures Framable(HINTS, HintAnswer(), Frames(hints)[i])
      ensures ReadFrame(Framed(hints[i], 4), 4) == (Some(hints[i]), [])
    {
      HintFrames(hints[i]);
    }
    HintsSound();
    InSync(Frames(hints), HINTS, HintAnswer(), moves, s);
    forall i | 0 <= i < |s.results| ensures s.results[i] == ACK {
      assert HintAnswer()(Frames(hints)[i]) == Reply(s.results[i]);
    }
    forall i | 0 <= i < |s.seen| ensures ReadFrame(s.seen[i], 4) == (Some(hints[i]), []) {
      assert s.seen[i] == Frames(hints)[i];
    }
  }

  lemma HintsSound()
    ensures Sound(HINTS)
  {
  }

  lemma HintFrames(hint: Bytes)
    requires |hint| < TWO32
    ensures Framable(HINTS, HintAnswer(), Framed(hint, 4))
    ensures ReadFrame(Framed(hint, 4), 4) == (Some(hint), [])
  {
    Widths();
    FramedDelimits(hint, 4);
    FixedDelimits(ACK);
    ReadFrameDelimited(Framed(hint, 4), [], 4);
    assert Framed(hint, 4) + [] == Framed(hint, 4);
  }

  /** A hint is read as it was written, leaving what follows it on the stream, if and only if it
      is shorter than 2^32 bytes. */
  lemma HintFits(hint: Bytes, rest: Bytes)
    ensures ReadFrame(Framed(hint, 4) + rest, 4) == (Some(hint), rest) <==> |hint| < TWO32
  {
    hide Framed, Delimits, ReadFrame, BigEndian, FromBigEndian;
    Widths();
    FramedDelimits(hint, 4);
    if |hint| < TWO32 {
      ReadFrameDelimited(Framed(hint, 4), rest, 4);
    } else {
      CutOff(hint, 4);
      var r := |hint| % TWO32;
      var m, all := Framed(hint, 4)[..4 + r], Framed(hint, 4);
      ReadFrameDelimited(m, all[4 + r..] + rest, 4);
      assert m + (all[4 + r..] + rest) == all + rest;
    }
  }

  // ---- the poller

  /** What one poll of the file does: the deadline cannot be set, or up to `size` bytes are
      moved, possibly until the deadline, at which point the context may have been cancelled. */
  datatype Poll = Poll(size: nat, noDeadline: bool, timedOut: bool, cancelled: bool, failed: bool)

  datatype PollResult = Done(failed: bool) | Cancelled | DeadlineFailed | Polling

  /** How many bytes are moved in all, of `space` bytes with `available` to be had, and how the
      call ends; Polling if it goes on after these polls. */
  function Polls(polls: seq<Poll>, space: nat, available: nat, moved: nat): (r: (nat, PollResult))
    requires moved <= space && moved <= available
    ensures moved <= r.0 <= space && r.0 <= available
    ensures r.1.Done? ==> r.0 == space
    decreases |polls|
  {
    if polls == [] then (moved, Polling)
    else
      var p := polls[0];
      if p.noDeadline then (moved, DeadlineFailed)
      else
        var now := moved + Min(p.size, Min(space - moved, available - moved));
        if p.timedOut then (if p.cancelled then (now, Cancelled) else Polls(polls[1..], space, available, now))
        else if now >= space then (now, Done(p.failed))
        else Polls(polls[1..], space, available, now)
  }

  lemma PollsFrom(polls: seq<Poll>, i: nat, space: nat, available: nat, moved: nat)
    requires i <= |polls| && moved <= space && moved <= available
    ensures var r := Polls(polls[i..], space, available, moved);
            if i == |polls| then r == (moved, Polling)
            else if polls[i].noDeadline then r == (moved, DeadlineFailed)
            else
              var p, now := polls[i], moved + Min(polls[i].size, Min(space - moved, available - moved));
              if p.timedOut && p.cancelled then r == (now, Cancelled)
              else if !p.timedOut && now >= space then r == (now, Done(p.failed))
              else r == Polls(polls[i + 1..], space, available, now)
  {
    if i < |polls| {
      assert polls[i..][1..] == polls[i + 1..];
    }
  }

  function Offered(polls: seq<Poll>): nat { if polls == [] then 0 else polls[0].size + Offered(polls[1..]) }

  /** A call that is not interrupted is done at the first poll that is not cut off by its
      deadline once enough bytes were offered, and goes on if there is none. */
  lemma {:induction false} DoneWhenEnough(polls: seq<Poll>, space: nat, available: nat, moved: nat)
    requires moved <= space <= available
    requires forall i | 0 <= i < |polls| :: !polls[i].noDeadline && !polls[i].cancelled
    ensures Polls(polls, space, available, moved).1.Done? <==> Enough(polls, space, moved)
    ensures !Polls(polls, space, available, moved).1.Done? ==> Polls(polls, space, available, moved).1.Polling?
    decreases |polls|
  {
    if polls != [] {
      var p, rest := polls[0], polls[1..];
      var now := moved + Min(p.size, space - moved);
      OfferedFirst(polls, 0);
      if p.timedOut || now < space {
        DoneWhenEnough(rest, space, available, now);
        EnoughLater(polls, space, moved, now);
      } else {
        assert !polls[0].timedOut && moved + Offered(polls[..0 + 1]) >= space;
      }
    }
  }

  lemma OfferedFirst(polls: seq<Poll>, i: nat)
    requires i < |polls|
    ensures Offered(polls[..i + 1]) == polls[0].size + Offered(polls[1..][..i])
  {
    assert polls[..i + 1][1..] == polls[1..][..i];
  }

  ghost predicate Enough(polls: seq<Poll>, space: nat, moved: nat) {
    exists i :: 0 <= i < |polls| && !polls[i].timedOut && moved + Offered(polls[..i + 1]) >= space
  }

  lemma EnoughLater(polls: seq<Poll>, space: nat, moved: nat, now: nat)
    requires polls != [] && moved <= space && now == moved + Min(polls[0].size, space - moved)
    requires polls[0].timedOut || now < space
    ensures Enough(polls, space, moved) <==> Enough(polls[1..], space, now)
  {
    var rest := polls[1..];
    hide Offered;
    OfferedNone(rest);
    if Enough(polls, space, moved) {
      var i :| 0 <= i < |polls| && !polls[i].timedOut && moved + Offered(polls[..i + 1]) >= space;
      OfferedFirst(polls, i);
      var j := i - 1;
      assert polls[i] == rest[j] && rest[..i] == rest[..j + 1];
    }
    if Enough(rest, space, now) {
      var i :| 0 <= i < |rest| && !rest[i].timedOut && now + Offered(rest[..i + 1]) >= space;
      OfferedFirst(polls, i + 1);
      var j := i + 1;
      assert polls[j] == rest[i] && moved + Offered(polls[..j + 1]) >= space;
    }
  }

  lemma OfferedNone(polls: seq<Poll>)
    ensures Offered(polls[..0]) == 0
  {
  }

  // ---- how a call ends

  /** The call ends with poll i if it gets there: its deadline cannot be set, or it is cut off by the
      deadline and the context is done, or it is not cut off and the buffer is full. */
  predicate Stops(polls: seq<Poll>, i: nat, space: nat, available: nat, moved: nat)
    requires i < |polls|
  {
    || polls[i].noDeadline
    || (if polls[i].timedOut then polls[i].cancelled
        else space <= available && moved + Offered(polls[..i + 1]) >= space)
  }

  /** The result of a call that ends with poll i. */
  ghost predicate EndsWith(polls: seq<Poll>, i: nat, space: nat, available: nat, moved: nat, r: (nat, PollResult))
    requires i < |polls|
  {
    && Stops(polls, i, space, available, moved) && (forall j | 0 <= j < i :: !Stops(polls, j, space, available, moved))
    && var n := if polls[i].noDeadline then i else i + 1;
       && r.0 == Min(Min(space, available), moved + Offered(polls[..n]))
       && r.1 == if polls[i].noDeadline then DeadlineFailed
                 else if polls[i].timedOut then Cancelled else Done(polls[i].failed)
  }

  /** A call ends with the first poll that stops it, with the bytes offered until then, as far as
      there are bytes and space; without such a poll it goes on. */
  lemma {:induction false} EndsExactly(polls: seq<Poll>, space: nat, available: nat, moved: nat) returns (i: nat)
    requires moved <= space && moved <= available
    ensures var r := Polls(polls, space, available, moved);
            && i <= |polls|
            && (i < |polls| ==> EndsWith(polls, i, space, available, moved, r))
            && (i == |polls| ==>
                  && (forall j | 0 <= j < |polls| :: !Stops(polls, j, space, available, moved))
                  && r == (Min(Min(space, available), moved + Offered(polls)), Polling))
    decreases |polls|
  {
    hide Stops, EndsWith;
    i := 0;
    if polls != [] {
      FirstPoll(polls, space, available, moved);
      if !Stops(polls, 0, space, available, moved) {
        var now := moved + Min(polls[0].size, Min(space - moved, available - moved));
        var k := EndsExactly(polls[1..], space, available, now);
        i := k + 1;
        if i < |polls| {
          LaterEnds(polls, i, space, available, moved, now, Polls(polls, space, available, moved));
        } else {
          forall j | 0 <= j < |polls| ensures !Stops(polls, j, space, available, moved) {
            if j > 0 {
              LaterStops(polls, j, space, available, moved, now);
            }
          }
        }
      }
    }
  }

  lemma FirstPoll(polls: seq<Poll>, space: nat, available: nat, moved: nat)
    requires polls != [] && moved <= space && moved <= available
    ensures var r := Polls(polls, space, available, moved);
            if Stops(polls, 0, space, available, moved) then EndsWith(polls, 0, space, available, moved, r)
            else
              && !polls[0].noDeadline
              && r == Polls(polls[1..], space, available,
                            moved + Min(polls[0].size, Min(space - moved, available - moved)))
  {
    OfferedFirst(polls, 0);
    OfferedNone(polls);
    OfferedNone(polls[1..]);
  }

  /** A later poll stops the call if it does so from what the first one moved. */
  lemma LaterStops(polls: seq<Poll>, i: nat, space: nat, available: nat, moved: nat, now: nat)
    requires 0 < i < |polls| && moved <= space && moved <= available
    requires now == moved + Min(polls[0].size, Min(space - moved, available - moved))
    ensures Stops(polls, i, space, available, moved) <==> Stops(polls[1..], i - 1, space, available, now)
  {
    OfferedFirst(polls, i);
    var k := i - 1;
    assert polls[1..][..i] == polls[1..][..k + 1];
    hide Offered;
  }

  lemma LaterEnds(polls: seq<Poll>, i: nat, space: nat, available: nat, moved: nat, now: nat, r: (nat, PollResult))
    requires 0 < i < |polls| && moved <= space && moved <= available
    requires now == moved + Min(polls[0].size, Min(space - moved, available - moved))
    requires !Stops(polls, 0, space, available, moved) && EndsWith(polls[1..], i - 1, space, available, now, r)
    ensures EndsWith(polls, i, space, available, moved, r)
  {
    hide Stops, Offered;
    forall j | 0 < j <= i
      ensures Stops(polls, j, space, available, moved) <==> Stops(polls[1..], j - 1, space, available, now)
    {
      LaterStops(polls, j, space, available, moved, now);
    }
    forall j | 0 <= j < i ensures !Stops(polls, j, space, available, moved) {
      if j > 0 {
        var k := j - 1;
        assert !Stops(polls[1..], k, space, available, now);
      }
    }
    OfferedFirst(polls, i - 1);
    OfferedFirst(polls, i);
    var k := i - 1;
    assert polls[..k + 1] == polls[..i];
  }

  /** For instance, a poll that moves one of two bytes until its deadline, and one whose deadline
      cannot be set: the byte was moved, but the call reports none. */
  lemma MovedButNotReported()
    ensures Polls([Poll(1, false, true, false, false), Poll(1, true, false, false, false)], 2, 2, 0) ==
            (1, DeadlineFailed)
  {
    var p, q := Poll(1, false, true, false, false), Poll(1, true, false, false, false);
    assert [p, q][1..] == [q];
    assert Polls([q], 2, 2, 1) == (1, DeadlineFailed);
  }

  /** The first `n` bytes of `all`, then what `buffer` has there. */
  ghost function Filling(all: Bytes, buffer: Bytes, n: nat): Bytes
    requires n <= |all| && n <= |buffer|
  {
    all[..n] + buffer[n..]
  }

  /** `buffer` with `part` written at `at`. */
  ghost function Patched(buffer: Bytes, at: nat, part: Bytes): Bytes
    requires at + |part| <= |buffer|
  {
    buffer[..at] + part + buffer[at + |part|..]
  }

  lemma FillNone(all: Bytes, buffer: Bytes)
    ensures Filling(all, buffer, 0) == buffer && all == all[0..]
  {
  }

  lemma FillOn(all: Bytes, buffer: Bytes, n: nat, m: nat)
    requires n + m <= |buffer| && n + m <= |all|
    ensures |Filling(all, buffer, n)| == |buffer|
    ensures Patched(Filling(all, buffer, n), n, all[n..][..m]) == Filling(all, buffer, n + m)
    ensures all[n..][m..] == all[n + m..]
  {
  }

  /** Reads and writes of a file in pieces, retried until they are complete. */
  class FilePoller {
    var incoming: Bytes
    var outgoing: Bytes

    constructor (incoming: Bytes)
      ensures this.incoming == incoming && outgoing == []
    {
      this.incoming := incoming;
      outgoing := [];
    }

    /** Takes bytes off the stream in order and puts them at the start of the buffer, none lost
        and none twice; a read that is done has filled the buffer. */
    method Read(b: array<Byte>, polls: seq<Poll>) returns (n: nat, r: PollResult)
      modifies `incoming, b
      ensures var (k, end) := Polls(polls, b.Length, |old(incoming)|, 0);
              && r == end && n == (if end.DeadlineFailed? then 0 else k)
              && b[..] == Filling(old(incoming), old(b[..]), k)
              && incoming == old(incoming)[k..]
    {
      hide Polls, Filling, Patched;
      var read: nat := 0;
      assert polls[0..] == polls;
      assert b[..] == Filling(incoming, b[..], 0) && incoming == incoming[0..] by {
        FillNone(incoming, b[..]);
      }
      var i := 0;
      while i < |polls|
        invariant i <= |polls| && read <= b.Length && read <= |old(incoming)|
        invariant b[..] == Filling(old(incoming), old(b[..]), read)
        invariant incoming == old(incoming)[read..]
        invariant Polls(polls[i..], b.Length, |old(incoming)|, read) == Polls(polls, b.Length, |old(incoming)|, 0)
      {
        var p := polls[i];
        PollsFrom(polls, i, b.Length, |old(incoming)|, read);
        if p.noDeadline {
          return 0, DeadlineFailed;
        }
        var m := Min(p.size, Min(b.Length - read, |incoming|));
        FillOn(old(incoming), old(b[..]), read, m);
        Fill(b, read, m);
        read := read + m;
        if p.timedOut {
          if p.cancelled {
            return read, Cancelled;
          }
        } else if read >= b.Length {
          return read, Done(p.failed);
        }
        i := i + 1;
      }
      PollsFrom(polls, i, b.Length, |old(incoming)|, read);
      return read, Polling;
    }

    /** The file's own read: m bytes into the buffer from `at` on. */
    method Fill(b: array<Byte>, at: nat, m: nat)
      requires at + m <= b.Length && m <= |incoming|
      modifies `incoming, b
      ensures b[..] == Patched(old(b[..]), at, old(incoming)[..m])
      ensures incoming == old(incoming)[m..]
    {
      forall j | 0 <= j < m {
        b[at + j] := incoming[j];
      }
      incoming := incoming[m..];
    }

    /** Appends the buffer's bytes to the stream in order, none lost and none twice; a write that
        is done has written all of them. */
    method Write(b: array<Byte>, polls: seq<Poll>) returns (n: nat, r: PollResult)
      modifies `outgoing
      ensures var (k, end) := Polls(polls, b.Length, b.Length, 0);
              && r == end && n == (if end.DeadlineFailed? then 0 else k)
              && outgoing == old(outgoing) + b[..k]
    {
      hide Polls;
      var written: nat := 0;
      assert polls[0..] == polls;
      var i := 0;
      while i < |polls|
        invariant i <= |polls| && written <= b.Length
        invariant outgoing == old(outgoing) + b[..written]
        invariant Polls(polls[i..], b.Length, b.Length, written) == Polls(polls, b.Length, b.Length, 0)
      {
        var p := polls[i];
        PollsFrom(polls, i, b.Length, b.Length, written);
        if p.noDeadline {
          return 0, DeadlineFailed;
        }
        var m := Min(p.size, b.Length - written);
        outgoing := outgoing + b[written..written + m];
        assert b[..written] + b[written..written + m] == b[..written + m];
        written := written + m;
        if p.timedOut {
          if p.cancelled {
            return written, Cancelled;
          }
        } else if written >= b.Length {
          return written, Done(p.failed);
        }
        i := i + 1;
      }
      PollsFrom(polls, i, b.Length, b.Length, written);
      return written, Polling;
    }
  }
}
