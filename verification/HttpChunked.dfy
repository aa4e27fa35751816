/**
 The chunked response writer, against a decoder written from section 7.1 of
 RFC 9112. A response that is sent decodes to what the handler produced; one
 that is cut short by the socket never decodes to a complete body.
 */
module HttpChunked {

  import opened Common

  const CR: byte := 13
  const LF: byte := 10
  const CRLF: seq<byte> := [13, 10]
  /** The five bytes that close the body: a zero size, no trailer. */
  const LAST_CHUNK: seq<byte> := [48, 13, 10, 13, 10]

  // ---------------------------------------------------------------- decoding, by RFC 9112

  datatype Decoded = Done(data: seq<byte>, rest: seq<byte>) | NeedMore | Bad

  datatype Size = Size(n: nat) | NoSize

  predicate HexDigit(b: byte) {
    48 <= b <= 57 || 65 <= b <= 70 || 97 <= b <= 102
  }

  function DigitValue(b: byte): nat
    requires HexDigit(b)
  {
    if b <= 57 then b - 48 else if b <= 70 then b - 55 else b - 87
  }

  /** The position of the first CRLF, or -1. */
  function FindCrlf(s: seq<byte>): int
    ensures -1 <= FindCrlf(s) <= |s| - 2 || FindCrlf(s) == -1
  {
    if |s| < 2 then -1
    else if s[0] == CR && s[1] == LF then 0
    else var i := FindCrlf(s[1..]); if i < 0 then -1 else i + 1
  }

  /** The value of leading hexadecimal digits, given the value `acc` of those before; an extension ends them. */
  function ParseSize(acc: nat, line: seq<byte>): Size
    decreases |line|
  {
    if line == [] || line[0] in [59, 32, 9] then Size(acc)
    else if HexDigit(line[0]) then ParseSize(16 * acc + DigitValue(line[0]), line[1..])
    else NoSize
  }

  function ParseTrailer(s: seq<byte>): Decoded
    decreases |s|
  {
    var i := FindCrlf(s);
    if i < 0 then NeedMore
    else if i == 0 then Done([], s[2..])
    else ParseTrailer(s[i + 2..])
  }

  function Decode(s: seq<byte>): Decoded
    decreases |s|
  {
    var i := FindCrlf(s);
    if i < 0 then NeedMore
    else if i == 0 || !HexDigit(s[0]) then Bad
    else
      match ParseSize(0, s[..i])
      case NoSize => Bad
      case Size(n) =>
        var t := s[i + 2..];
        if n == 0 then ParseTrailer(t)
        else if |t| < n + 2 then NeedMore
        else if t[n] != CR || t[n + 1] != LF then Bad
        else
          match Decode(t[n + 2..])
          case Done(data, rest) => Done(t[..n] + data, rest)
          case NeedMore => NeedMore
          case Bad => Bad
  }

  // ---------------------------------------------------------------- what the writer emits

  function LowerDigit(d: nat): byte
    requires d < 16
  {
    if d < 10 then 48 + d else 87 + d
  }

  /** `%x`. */
  function Hex(n: nat): seq<byte> {
    if n < 16 then [LowerDigit(n)] else Hex(n / 16) + [LowerDigit(n % 16)]
  }

  /** One buffer: nothing at all if it is empty. */
  function Chunk(data: seq<byte>): seq<byte> {
    if data == [] then [] else Hex(|data|) + CRLF + data + CRLF
  }

  function Chunks(bufs: seq<seq<byte>>): seq<byte> {
    if bufs == [] then [] else Chunk(bufs[0]) + Chunks(bufs[1..])
  }

  function Encoded(bufs: seq<seq<byte>>): seq<byte> {
    Chunks(bufs) + LAST_CHUNK
  }

  function Concat(bufs: seq<seq<byte>>): seq<byte> {
    if bufs == [] then [] else bufs[0] + Concat(bufs[1..])
  }

  // ---------------------------------------------------------------- sizes

  predicate Digits(s: seq<byte>) {
    forall i :: 0 <= i < |s| ==> HexDigit(s[i])
  }

  lemma {:induction false} HexDigits(n: nat)
    ensures Hex(n) != [] && Digits(Hex(n))
  {
    if n >= 16 {
      HexDigits(n / 16);
    }
  }

  /** The value of a row of digits, most significant first. */
  function Value(acc: nat, s: seq<byte>): nat
    requires Digits(s)
    decreases |s|
  {
    if s == [] then acc else Value(16 * acc + DigitValue(s[0]), s[1..])
  }

  lemma {:induction false} ValueSnoc(acc: nat, s: seq<byte>, d: byte)
    requires Digits(s) && HexDigit(d)
    ensures Value(acc, s + [d]) == 16 * Value(acc, s) + DigitValue(d)
    decreases |s|
  {
    if s == [] {
      assert s + [d] == [d];
      assert Value(16 * acc + DigitValue(d), []) == 16 * acc + DigitValue(d);
    } else {
      assert (s + [d])[1..] == s[1..] + [d];
      ValueSnoc(16 * acc + DigitValue(s[0]), s[1..], d);
    }
  }

  /** `%x` read back as hexadecimal. */
  lemma {:induction false} HexValue(n: nat)
    ensures Digits(Hex(n)) && Value(0, Hex(n)) == n
  {
    HexDigits(n);
    if n < 16 {
      assert Value(DigitValue(LowerDigit(n)), []) == n;
    } else {
      HexDigits(n / 16);
      HexValue(n / 16);
      ValueSnoc(0, Hex(n / 16), LowerDigit(n % 16));
    }
  }

  lemma {:induction false} SizeOfDigits(acc: nat, s: seq<byte>)
    requires Digits(s)
    ensures ParseSize(acc, s) == Size(Value(acc, s))
    decreases |s|
  {
    if s != [] {
      SizeOfDigits(16 * acc + DigitValue(s[0]), s[1..]);
    }
  }

  /** The header buffer of 16 characters holds any 32-bit size, its CRLF and the final zero. */
  lemma HexLength(n: nat)
    requires n < 0x1_0000_0000
    ensures |Hex(n)| + |CRLF| + 1 <= 16
  {
    HexLengthBound(n, 8);
  }

  function Power16(k: nat): nat {
    if k == 0 then 1 else 16 * Power16(k - 1)
  }

  lemma {:induction false} HexLengthBound(n: nat, k: nat)
    requires k > 0 && n < Power16(k)
    ensures |Hex(n)| <= k
    decreases k
  {
    if n >= 16 {
      assert k > 1;
      assert n / 16 < Power16(k - 1);
      HexLengthBound(n / 16, k - 1);
    }
  }

  // ---------------------------------------------------------------- lines

  lemma {:induction false} CrlfAfter(a: seq<byte>, t: seq<byte>)
    requires CR !in a
    ensures FindCrlf(a + CRLF + t) == |a|
    decreases |a|
  {
    var s := a + CRLF + t;
    if a != [] {
      assert s[1..] == a[1..] + CRLF + t;
      CrlfAfter(a[1..], t);
    }
  }

  /** Nothing that stops before the end of a CRLF is a line. */
  lemma {:induction false} CrlfMissing(a: seq<byte>)
    requires forall i :: 0 <= i < |a| - 1 ==> a[i] != CR
    ensures FindCrlf(a) == -1
    decreases |a|
  {
    if |a| >= 2 {
      CrlfMissing(a[1..]);
    }
  }

  lemma NoCr(s: seq<byte>)
    requires Digits(s)
    ensures CR !in s
  {
  }

  // ---------------------------------------------------------------- round trip

  /** The decoder behind a size line. */
  lemma DecodeSized(s: seq<byte>, i: nat, n: nat)
    requires FindCrlf(s) == i && 0 < i && i + 2 <= |s| && HexDigit(s[0]) && ParseSize(0, s[..i]) == Size(n) && n > 0
    requires n + 2 <= |s| - i - 2 && s[i + 2..][n] == CR && s[i + 2..][n + 1] == LF
    ensures Decode(s) ==
      match Decode(s[i + 2..][n + 2..])
      case Done(d, rest) => Done(s[i + 2..][..n] + d, rest)
      case NeedMore => NeedMore
      case Bad => Bad
  {
    hide FindCrlf, ParseSize;
  }

  /** The decoder on one emitted chunk: it takes the chunk's data and goes on behind it. */
  lemma DecodeChunk(data: seq<byte>, tail: seq<byte>)
    requires data != []
    ensures Decode(Chunk(data) + tail) ==
      match Decode(tail)
      case Done(d, rest) => Done(data + d, rest)
      case NeedMore => NeedMore
      case Bad => Bad
  {
    hide Decode, FindCrlf, ParseSize, Hex;
    var h := Hex(|data|);
    var s := Chunk(data) + tail;
    HexValue(|data|);
    HexDigits(|data|);
    NoCr(h);
    assert s == h + CRLF + (data + CRLF + tail);
    CrlfAfter(h, data + CRLF + tail);
    assert s[..|h|] == h;
    SizeOfDigits(0, h);
    var t := s[|h| + 2..];
    assert t == data + CRLF + tail;
    assert t[..|data|] == data && t[|data| + 2..] == tail;
    DecodeSized(s, |h|, |data|);
  }

  lemma DecodeLast(tail: seq<byte>)
    ensures Decode(LAST_CHUNK + tail) == Done([], tail)
  {
    var s := LAST_CHUNK + tail;
    CrlfAfter([48], CRLF + tail);
    assert s == [48] + CRLF + (CRLF + tail);
    assert s[..1] == [48];
    assert ParseSize(0, [48]) == ParseSize(0, []);
    assert s[3..] == [] + CRLF + tail;
    CrlfAfter([], tail);
    assert s[3..][2..] == tail;
  }

  /** Whatever follows on the connection, decoding gives the concatenation and leaves exactly that. */
  lemma {:induction false} RoundTrip(bufs: seq<seq<byte>>, tail: seq<byte>)
    ensures Decode(Encoded(bufs) + tail) == Done(Concat(bufs), tail)
    decreases |bufs|
  {
    if bufs == [] {
      assert Encoded(bufs) == LAST_CHUNK;
      DecodeLast(tail);
    } else {
      RoundTrip(bufs[1..], tail);
      assert Encoded(bufs) + tail == Chunk(bufs[0]) + (Encoded(bufs[1..]) + tail);
      if bufs[0] != [] {
        DecodeChunk(bufs[0], Encoded(bufs[1..]) + tail);
      } else {
        assert Chunk(bufs[0]) == [];
        assert Encoded(bufs) + tail == Encoded(bufs[1..]) + tail;
        assert Concat(bufs) == Concat(bufs[1..]);
      }
    }
  }

  // ---------------------------------------------------------------- truncation

  lemma CutChunk(data: seq<byte>, k: nat)
    requires data != [] && k < |Chunk(data)|
    ensures Decode(Chunk(data)[..k]) == NeedMore
  {
    var h, s := Hex(|data|), Chunk(data)[..k];
    HexValue(|data|);
    HexDigits(|data|);
    NoCr(h);
    if k <= |h| + 1 {
      forall i | 0 <= i < |s| - 1
        ensures s[i] != CR
      {
        assert s[i] == h[i];
      }
      CrlfMissing(s);
    } else {
      var t := s[|h| + 2..];
      assert s == h + CRLF + t;
      CrlfAfter(h, t);
      assert s[..|h|] == h;
      SizeOfDigits(0, h);
    }
  }

  lemma CutLast(k: nat)
    requires k < |LAST_CHUNK|
    ensures Decode(LAST_CHUNK[..k]) == NeedMore
  {
    var s := LAST_CHUNK[..k];
    if k <= 2 {
      CrlfMissing(s);
    } else {
      var t := s[3..];
      assert s == [48] + CRLF + t;
      CrlfAfter([48], t);
      assert s[..1] == [48] && ParseSize(0, [48]) == ParseSize(0, []);
      CrlfMissing(t);
    }
  }

  /** No part of the emitted body passes for a complete one: its end cannot come early. */
  lemma {:induction false} Truncated(bufs: seq<seq<byte>>, k: nat)
    requires k < |Encoded(bufs)|
    ensures Decode(Encoded(bufs)[..k]) == NeedMore
    decreases |bufs|
  {
    if bufs == [] {
      assert Encoded(bufs) == LAST_CHUNK;
      CutLast(k);
    } else {
      var c, rest := Chunk(bufs[0]), Encoded(bufs[1..]);
      assert Encoded(bufs) == c + rest;
      if k < |c| {
        assert Encoded(bufs)[..k] == c[..k];
        CutChunk(bufs[0], k);
      } else {
        Truncated(bufs[1..], k - |c|);
        assert Encoded(bufs)[..k] == c + rest[..k - |c|];
        if bufs[0] != [] {
          DecodeChunk(bufs[0], rest[..k - |c|]);
        } else {
          assert c == [] && Encoded(bufs)[..k] == rest[..k - |c|];
        }
      }
    }
  }

  // ---------------------------------------------------------------- the writer

  /** One `send`: it accepts up to `n` bytes, asks to try again, or fails. */
  datatype Send = Accepts(n: Positive) | Again | Fails

  type Positive = n: int | n > 0 witness 1

  /** What one call of the response handler leaves in the buffer. */
  datatype Reply = Reply(status: nat, complete: bool, data: seq<byte>)

  datatype Outcome = Sent | Mismatch | Closed

  /** The buffers of the calls made: a status without payload drops the first one and ends there. */
  function Produced(first: bool, replies: seq<Reply>): seq<seq<byte>> {
    if replies == [] then []
    else if first && !HasPayload(replies[0].status) then [[]]
    else if replies[0].complete then [replies[0].data]
    else [replies[0].data] + Produced(false, replies[1..])
  }

  /** The buffers of the first `n` calls. */
  function Buffers(replies: seq<Reply>, n: nat): seq<seq<byte>>
    requires n <= |replies|
  {
    seq(n, i requires 0 <= i < n => replies[i].data)
  }

  /** Call `n`, counted from 0, is the first that leaves the response complete. */
  predicate CompletesAt(replies: seq<Reply>, n: nat) {
    n < |replies| && replies[n].complete && forall i :: 0 <= i < n ==> !replies[i].complete
  }

  /** By index: the buffers of all calls up to the one that completes, that one included. */
  lemma {:induction false} ProducedIs(first: bool, replies: seq<Reply>, n: nat)
    requires CompletesAt(replies, n) && (first ==> HasPayload(replies[0].status))
    ensures Produced(first, replies) == Buffers(replies, n + 1)
    decreases n
  {
    if n > 0 {
      assert CompletesAt(replies[1..], n - 1);
      ProducedIs(false, replies[1..], n - 1);
      assert Buffers(replies, n + 1) == [replies[0].data] + Buffers(replies[1..], n);
    }
  }

  /** What the client is to read: the buffers one after the other, or nothing for a status without payload. */
  ghost predicate IsAnswer(replies: seq<Reply>, data: seq<byte>) {
    && replies != []
    && if HasPayload(replies[0].status)
       then exists n: nat :: CompletesAt(replies, n) && n >= 1 && data == Concat(Buffers(replies, n + 1))
       else data == []
  }

  /** The response is never completed by the calls at hand. */
  predicate NeverCompletes(replies: seq<Reply>) {
    (replies != [] ==> HasPayload(replies[0].status)) && forall i :: 0 <= i < |replies| ==> !replies[i].complete
  }

  /** The sends that accept something: each takes at least one byte. */
  function Accepting(answers: seq<Send>): nat {
    if answers == [] then 0 else (if answers[0].Accepts? then 1 else 0) + Accepting(answers[1..])
  }

  /** From `before` to `after` the socket has used up its answers without failing, or for one byte each. */
  predicate UsedUp(ok: bool, before: seq<Send>, sentBefore: nat, after: seq<Send>, sentAfter: nat) {
    && |after| <= |before| && after == before[|before| - |after|..]
    && sentAfter + Accepting(after) >= sentBefore + Accepting(before)
    && (!ok ==> after == [] || Fails in before)
  }

  lemma UsedUpThen(a: seq<Send>, x: nat, b: seq<Send>, y: nat, c: seq<Send>, z: nat, ok: bool)
    requires UsedUp(true, a, x, b, y) && UsedUp(ok, b, y, c, z)
    ensures UsedUp(ok, a, x, c, z)
  {
    if Fails in b { assert Fails in a; }
  }

  class Session {
    /** All that the socket has accepted. */
    var wire: seq<byte>
    /** How it will answer. */
    var answers: seq<Send>

    constructor (answers: seq<Send>)
      ensures wire == [] && this.answers == answers
    {
      wire, this.answers := [], answers;
    }

    /** `sendall`. */
    method SendAll(buf: seq<byte>) returns (ok: bool)
      modifies this
      ensures ok ==> wire == old(wire) + buf
      ensures !ok ==> Cut(old(wire), buf, wire)
      ensures UsedUp(ok, old(answers), |old(wire)|, answers, |wire|)
    {
      var sent := 0;
      assert buf[..0] == [];
      while sent < |buf| && answers != []
        invariant 0 <= sent <= |buf| && wire == old(wire) + buf[..sent]
        invariant UsedUp(true, old(answers), |old(wire)|, answers, |wire|)
        decreases |answers|
      {
        var a := answers[0];
        assert a in old(answers);
        answers := answers[1..];
        match a
        case Fails =>
          return false;
        case Again =>
        case Accepts(n) =>
          var ret := if n < |buf| - sent then n else |buf| - sent;
          assert buf[..sent] + buf[sent..sent + ret] == buf[..sent + ret];
          wire := wire + buf[sent..sent + ret];
          sent := sent + ret;
      }
      assert sent == |buf| ==> buf[..sent] == buf;
      ok := sent == |buf|;
    }

    /** `send_chunk`. */
    method SendChunk(data: seq<byte>) returns (ok: bool)
      modifies this
      ensures ok ==> wire == old(wire) + Chunk(data)
      ensures !ok ==> Cut(old(wire), Chunk(data), wire)
      ensures UsedUp(ok, old(answers), |old(wire)|, answers, |wire|)
    {
      if data == [] { return true; }
      ghost var before := wire;
      ghost var a0, n0 := answers, |wire|;
      var header := Hex(|data|) + CRLF;
      assert Chunk(data) == [] + header + (data + CRLF) == header + data + CRLF == (header + data) + CRLF + [];
      hide Chunk, Hex, Cut, UsedUp;
      ok := SendAll(header);
      ghost var a1, n1 := answers, |wire|;
      if !ok {
        assert before + [] == before;
        CutWithin(before, [], header, data + CRLF, wire);
        return;
      }
      ok := SendAll(data);
      UsedUpThen(a0, n0, a1, n1, answers, |wire|, ok);
      ghost var a2, n2 := answers, |wire|;
      if !ok {
        CutWithin(before, header, data, CRLF, wire);
        return;
      }
      ok := SendAll(CRLF);
      UsedUpThen(a0, n0, a2, n2, answers, |wire|, ok);
      Joins(before, header, data);
      if !ok {
        CutWithin(before, header + data, CRLF, [], wire);
      } else {
        Joins(before, header + data, CRLF);
      }
    }

    /** A buffer of a body of which `rest` is still to come; if the socket fails, that is where the body is cut. */
    method SendPart(data: seq<byte>, ghost rest: seq<byte>, ghost all: seq<byte>) returns (ok: bool)
      requires all == wire + Chunk(data) + rest
      modifies this
      ensures ok ==> all == wire + rest
      ensures !ok ==> Cut([], all, wire)
      ensures UsedUp(ok, old(answers), |old(wire)|, answers, |wire|)
    {
      ghost var before := wire;
      ok := SendChunk(data);
      if !ok {
        assert [] + before == before;
        CutWithin([], before, Chunk(data), rest, wire);
      }
    }

    method SendWhole(buf: seq<byte>, ghost rest: seq<byte>, ghost all: seq<byte>) returns (ok: bool)
      requires all == wire + buf + rest
      modifies this
      ensures ok ==> all == wire + rest
      ensures !ok ==> Cut([], all, wire)
      ensures UsedUp(ok, old(answers), |old(wire)|, answers, |wire|)
    {
      ghost var before := wire;
      ok := SendAll(buf);
      if !ok {
        assert [] + before == before;
        CutWithin([], before, buf, rest, wire);
      }
    }

    /** The loop of `send_response` for a response made chunked; `header` is the encoded response header. */
    method SendResponse(header: seq<byte>, replies: seq<Reply>) returns (outcome: Outcome)
      requires wire == [] && header != []
      modifies this
      ensures outcome == Mismatch <==> replies != [] && HasPayload(replies[0].status) && replies[0].complete
      ensures outcome == Mismatch ==> wire == []
      ensures outcome == Sent ==> wire == header + Encoded(Produced(true, replies))
      ensures outcome == Closed ==> Cut([], header + Encoded(Produced(true, replies)), wire)
      ensures outcome == Sent ==> !NeverCompletes(replies)
      ensures outcome == Closed ==> NeverCompletes(replies) || UsedUp(false, old(answers), 0, answers, |wire|)
    {
      ghost var a0 := answers;
      ghost var all := header + Encoded(Produced(true, replies));
      var i, complete, headersSent := 0, false, 0;
      assert replies[0..] == replies;
      Joins([], header, Encoded(Produced(true, replies)));
      hide Encoded, Chunk, Cut, UsedUp, Ongoing, NeverCompletes, HasPayload;
      NothingUsed(answers);
      NoneMade(replies);
      while !complete && i < |replies|
        invariant UsedUp(true, a0, 0, answers, |wire|)
        invariant 0 <= i <= |replies| && headersSent == (if i == 0 then 0 else |header|)
        invariant Ongoing(replies, i, complete)
        invariant i == 0 ==> wire == [] && !complete
        invariant i > 0 ==> !(HasPayload(replies[0].status) && replies[0].complete)
        invariant i > 0 ==> all == wire + Encoded(if complete then [] else Produced(false, replies[i..]))
      {
        var r := replies[i];
        complete := r.complete;
        var data := r.data;
        ghost var bufs := Produced(i == 0, replies[i..]);
        if headersSent == 0 {
          if HasPayload(r.status) {
            if complete { return Mismatch; }
          } else {
            complete, data := true, [];
          }
          assert wire + header == header;
          ghost var a1, n1 := answers, |wire|;
          var ok := SendWhole(header, Encoded(bufs), all);
          UsedUpThen(a0, 0, a1, n1, answers, |wire|, ok);
          if !ok { return Closed; }
          headersSent := |header|;
        }
        ghost var rest := if complete then [] else Produced(false, replies[i + 1..]);
        assert replies[i..][1..] == replies[i + 1..];
        assert bufs[0] == data && bufs[1..] == rest;
        EncodedFirst(bufs);
        Joins(wire, Chunk(data), Encoded(rest));
        ghost var a2, n2 := answers, |wire|;
        var ok := SendPart(data, Encoded(rest), all);
        UsedUpThen(a0, 0, a2, n2, answers, |wire|, ok);
        if !ok { return Closed; }
        OneMade(replies, i, complete);
        i := i + 1;
      }
      LastIsAll();
      AllMade(replies, i, complete);
      if complete {
        ghost var a3, n3 := answers, |wire|;
        outcome := SendEnd(all);
        UsedUpThen(a0, 0, a3, n3, answers, |wire|, outcome == Sent);
      } else {
        outcome := Closed;
        assert i == 0 ==> all == wire + (header + LAST_CHUNK);
        Unfinished(wire, if i == 0 then header + LAST_CHUNK else LAST_CHUNK, all);
      }
    }

    /** `send_end_of_chunked_encoding`. */
    method SendEnd(ghost all: seq<byte>) returns (outcome: Outcome)
      requires all == wire + LAST_CHUNK
      modifies this
      ensures outcome == Sent ==> wire == all
      ensures outcome == Closed ==> Cut([], all, wire)
      ensures outcome != Mismatch
      ensures UsedUp(outcome == Sent, old(answers), |old(wire)|, answers, |wire|)
    {
      assert wire + LAST_CHUNK + [] == wire + LAST_CHUNK;
      var ok := SendWhole(LAST_CHUNK, [], all);
      assert wire + [] == wire;
      outcome := if ok then Sent else Closed;
    }
  }

  /** After `i` calls: none before the last has completed the response, and it is complete if the last one has. */
  predicate Ongoing(replies: seq<Reply>, i: nat, complete: bool) {
    && i <= |replies| && (forall k :: 0 <= k < i - 1 ==> !replies[k].complete)
    && (i > 0 && !complete ==> HasPayload(replies[0].status) && !replies[i - 1].complete)
    && (complete ==> i > 0 && (replies[i - 1].complete || !HasPayload(replies[0].status)))
  }

  lemma NoneMade(replies: seq<Reply>)
    ensures Ongoing(replies, 0, false)
  {
  }

  lemma OneMade(replies: seq<Reply>, i: nat, complete: bool)
    requires i < |replies| && Ongoing(replies, i, false)
    requires complete == (replies[i].complete || (i == 0 && !HasPayload(replies[0].status)))
    ensures Ongoing(replies, i + 1, complete)
  {
  }

  lemma AllMade(replies: seq<Reply>, i: nat, complete: bool)
    requires Ongoing(replies, i, complete) && (complete || i == |replies|)
    ensures NeverCompletes(replies) <==> !complete
  {
  }

  lemma NothingUsed(answers: seq<Send>)
    ensures UsedUp(true, answers, 0, answers, 0)
  {
  }

  lemma EncodedFirst(bufs: seq<seq<byte>>)
    requires bufs != []
    ensures Encoded(bufs) == Chunk(bufs[0]) + Encoded(bufs[1..])
  {
    assert Chunk(bufs[0]) + Chunks(bufs[1..]) + LAST_CHUNK == Chunk(bufs[0]) + (Chunks(bufs[1..]) + LAST_CHUNK);
  }

  lemma LastIsAll()
    ensures Encoded([]) == LAST_CHUNK && LAST_CHUNK + [] == LAST_CHUNK
  {
  }

  /** The socket took a proper part of `buf`, after what it had before. */
  ghost predicate Cut(before: seq<byte>, buf: seq<byte>, wire: seq<byte>) {
    exists k :: 0 <= k < |buf| && wire == before + buf[..k]
  }

  lemma Unfinished(wire: seq<byte>, rest: seq<byte>, all: seq<byte>)
    requires all == wire + rest && rest != []
    ensures Cut([], all, wire)
  {
    assert wire == [] + all[..|wire|];
  }

  lemma Joins(a: seq<byte>, b: seq<byte>, c: seq<byte>)
    ensures a + b + c == a + (b + c)
  {
  }

  lemma CutWithin(before: seq<byte>, a: seq<byte>, b: seq<byte>, c: seq<byte>, wire: seq<byte>)
    requires Cut(before + a, b, wire)
    ensures Cut(before, a + b + c, wire)
  {
    var k :| 0 <= k < |b| && wire == before + a + b[..k];
    var all := a + b + c;
    assert all[..|a| + k] == a + b[..k];
    assert wire == before + all[..|a| + k];
  }

  /**
   A chunked response as the client sees it: sent, its body decodes to the buffers
   of all calls up to the one that completes it, and nothing is left over; cut
   short, it is recognisably so. It is cut short only if the calls never complete
   it, or the socket fails or accepts no more.
   */
  method Respond(header: seq<byte>, replies: seq<Reply>, answers: seq<Send>) returns (outcome: Outcome, wire: seq<byte>)
    requires header != []
    ensures outcome == Mismatch <==> replies != [] && HasPayload(replies[0].status) && replies[0].complete
    ensures outcome == Sent ==>
      && header <= wire && Decode(wire[|header|..]).Done?
      && Decode(wire[|header|..]).rest == [] && IsAnswer(replies, Decode(wire[|header|..]).data)
    ensures outcome == Closed ==> NeverCompletes(replies) || Fails in answers || Accepting(answers) <= |wire|
    ensures outcome == Closed ==>
      if |wire| < |header| then wire <= header else header <= wire && Decode(wire[|header|..]) == NeedMore
  {
    var session := new Session(answers);
    outcome := session.SendResponse(header, replies);
    wire := session.wire;
    hide Decode, Encoded, Concat, Cut;
    if outcome == Sent {
      SentDecodes(header, Produced(true, replies), wire);
      AnswerIs(replies);
    } else if outcome == Closed {
      CutDecodes(header, Produced(true, replies), wire);
    }
  }

  lemma AnswerIs(replies: seq<Reply>)
    requires !NeverCompletes(replies) && !(replies != [] && HasPayload(replies[0].status) && replies[0].complete)
    ensures IsAnswer(replies, Concat(Produced(true, replies)))
  {
    if replies != [] && HasPayload(replies[0].status) {
      var n := FirstComplete(replies, 0);
      ProducedIs(true, replies, n);
    } else {
      assert Concat([[]]) == [];
    }
  }

  lemma {:induction false} FirstComplete(replies: seq<Reply>, k: nat) returns (n: nat)
    requires k <= |replies| && exists i :: 0 <= i < |replies| && replies[i].complete
    requires forall i :: 0 <= i < k ==> !replies[i].complete
    ensures CompletesAt(replies, n)
    decreases |replies| - k
  {
    if replies[k].complete { n := k; } else { n := FirstComplete(replies, k + 1); }
  }

  lemma SentDecodes(header: seq<byte>, bufs: seq<seq<byte>>, wire: seq<byte>)
    requires wire == header + Encoded(bufs)
    ensures header <= wire && Decode(wire[|header|..]) == Done(Concat(bufs), [])
  {
    RoundTrip(bufs, []);
    hide Decode, Encoded;
    assert wire[|header|..] == Encoded(bufs) + [];
  }

  lemma CutDecodes(header: seq<byte>, bufs: seq<seq<byte>>, wire: seq<byte>)
    requires Cut([], header + Encoded(bufs), wire)
    ensures if |wire| < |header| then wire <= header else header <= wire && Decode(wire[|header|..]) == NeedMore
  {
    var body := Encoded(bufs);
    var k :| 0 <= k < |header + body| && wire == [] + (header + body)[..k];
    if k >= |header| {
      Truncated(bufs, k - |header|);
      hide Decode, Encoded;
      assert wire[|header|..] == body[..k - |header|];
    }
  }
}
