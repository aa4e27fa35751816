/**
 Reception of one Content-Length request (`handle_request` and the parser
 callbacks it drives): the receive loop fills one shared buffer, in pieces whose
 sizes the network chooses, and either keeps the whole request in it or, once
 the route turns out to stream, reuses the same place for every piece.
 */
module HttpReceive {

  import opened Common

  /** What the route lookup says: whether the route streams, and whether it exists with a response handler. */
  datatype Route = Route(streaming: bool, accepted: bool)

  /** One `recv`: up to `n` bytes, with the outcome of the streaming handler if it gets called; EAGAIN; or the end. */
  datatype Recv = Got(n: nat, handled: bool) | Again | Closed

  datatype Discard = Kept | TooLarge | Refused | HandlerFailed

  function Gots(rs: seq<Recv>): nat {
    if rs == [] then 0 else Gots(rs[..|rs| - 1]) + if rs[|rs| - 1].Got? then 1 else 0
  }

  lemma SubSlice(s: seq<byte>, at: nat, len: nat, h: nat, n: nat)
    requires at + len <= |s| && h + n <= len
    ensures s[at..at + len][h..h + n] == s[at + h..at + h + n]
  {
    var x, y := s[at..at + len][h..h + n], s[at + h..at + h + n];
    forall i | 0 <= i < n
      ensures x[i] == y[i]
    {
    }
    assert x == y;
  }

  lemma PrefixGrows(s: seq<byte>, i: nat, n: nat)
    requires i + n <= |s|
    ensures s[..i] + s[i..i + n] == s[..i + n]
  {
  }

  /** A request on its way through the server: what the peer sends, the buffer, and `struct http_request`. */
  class Connection {
    const head: seq<byte>
    const body: seq<byte>
    const extra: seq<byte>
    const route: Route
    const buffer: array<byte>

    var parsed: nat
    var headersComplete: bool
    var complete: bool
    var streaming: bool
    var discard: Discard
    /** Offset in the buffer, or -1 for none. */
    var payloadLoc: int
    var payloadLen: nat
    /** All the bytes shown to the streaming handler, in order. */
    var given: seq<byte>

    constructor (head: seq<byte>, body: seq<byte>, extra: seq<byte>, route: Route, size: nat)
      requires head != [] && size > 0
      ensures this.head == head && this.body == body && this.extra == extra && this.route == route
      ensures fresh(buffer) && buffer.Length == size
      ensures parsed == 0 && discard == Kept && Agrees() && Sized()
    {
      this.head, this.body, this.extra, this.route := head, body, extra, route;
      buffer := new byte[size];
      parsed, headersComplete, complete, streaming := 0, false, false, false;
      discard, payloadLoc, payloadLen, given := Kept, -1, 0, [];
    }

    function Total(): nat { |head| + |body| }

    function Sent(): seq<byte> { head + body + extra }

    /** What the request fields say about the bytes parsed so far. */
    ghost predicate Agrees()
      reads this
    {
      && head != [] && parsed <= Total()
      && (headersComplete <==> parsed >= |head|)
      && (complete <==> parsed == Total())
      && (streaming <==> headersComplete && route.streaming)
      && (headersComplete && !route.accepted ==> discard == Refused)
      && (discard == Refused ==> !route.accepted)
      && (discard == HandlerFailed ==> streaming)
      && given <= body && (!streaming ==> given == [])
      && (discard == Kept ==>
            if streaming then given == body[..parsed - |head|]
            else payloadLoc == (if parsed > |head| then |head| else -1) &&
                 payloadLen == (if parsed > |head| then parsed - |head| else 0))
    }

    /** Why a request is, or is not, too large: what has to fit in the buffer at once. */
    ghost predicate Sized()
      reads this
    {
      && buffer.Length > 0
      && (discard == TooLarge ==> Oversized(route.streaming, |head|, |body|, buffer.Length))
      && (discard != TooLarge && streaming ==> |head| <= buffer.Length || !route.accepted)
      && (discard == Kept && !streaming ==> parsed <= buffer.Length)
    }

    /** `on_headers_complete`. */
    method OnHeadersComplete()
      modifies this`headersComplete, this`streaming, this`discard
      ensures headersComplete && streaming == route.streaming
      ensures discard == if route.accepted then old(discard) else Refused
    {
      headersComplete := true;
      streaming := route.streaming;
      if !route.accepted {
        discard := Refused;
      }
    }

    /** `on_body`, for the `n` bytes at offset `at` of the buffer. */
    method OnBody(at: nat, n: nat, handled: bool)
      requires n > 0 && at + n <= buffer.Length
      modifies this`payloadLoc, this`payloadLen, this`given, this`discard
      ensures old(discard) != Kept ==> discard == old(discard) && given == old(given)
      ensures old(discard) == Kept && streaming ==>
        given == old(given) + buffer[at..at + n] && discard == if handled then Kept else HandlerFailed
      ensures old(discard) == Kept && !streaming ==>
        && discard == Kept && given == old(given)
        && payloadLoc == (if old(payloadLoc) < 0 then at else old(payloadLoc))
        && payloadLen == (if old(payloadLoc) < 0 then n else old(payloadLen) + n)
    {
      if discard != Kept { return; }
      if streaming {
        payloadLoc, payloadLen := at, n;
        given := given + buffer[at..at + n];
        if handled {
          payloadLoc, payloadLen := -1, 0;
        } else {
          discard := HandlerFailed;
        }
      } else if payloadLoc < 0 {
        payloadLoc, payloadLen := at, n;
      } else {
        payloadLen := payloadLen + n;
      }
    }

    /** The parser's callbacks on `h` bytes of the head. */
    method ParseHead(h: nat)
      requires Agrees() && h > 0 && parsed + h <= |head|
      modifies this`parsed, this`headersComplete, this`complete, this`streaming, this`discard
      ensures Agrees() && parsed == old(parsed) + h
      ensures discard == if headersComplete && !route.accepted then Refused else old(discard)
      ensures old(streaming) ==> streaming
    {
      parsed := parsed + h;
      if parsed == |head| {
        OnHeadersComplete();
        complete := body == [];
      }
    }

    /** The parser's callbacks on `n` bytes of the body, at offset `at` of the buffer. */
    method ParseBody(at: nat, n: nat, handled: bool)
      requires Agrees() && n > 0 && |head| <= parsed && parsed + n <= Total()
      requires at + n <= buffer.Length && buffer[at..at + n] == body[parsed - |head|..parsed - |head| + n]
      requires discard == Kept && !streaming ==> at == parsed
      modifies this`parsed, this`complete, this`payloadLoc, this`payloadLen, this`given, this`discard
      ensures Agrees() && parsed == old(parsed) + n
      ensures discard == if old(discard) == Kept && streaming && !handled then HandlerFailed else old(discard)
    {
      PrefixGrows(body, parsed - |head|, n);
      OnBody(at, n, handled);
      parsed := parsed + n;
      complete := parsed == Total();
    }

    /** `http_request_parse_buf`: `rc` received bytes through the parser, which stops where the request ends. */
    method ParseBuf(p: nat, rc: nat, handled: bool) returns (success: bool)
      requires Agrees() && !complete && rc > 0
      requires p + rc <= buffer.Length && parsed + rc <= |Sent()|
      requires buffer[p..p + rc] == Sent()[parsed..parsed + rc]
      requires discard == Kept && !streaming ==> p == parsed
      modifies this
      ensures Agrees()
      ensures parsed == Min(old(parsed) + rc, Total()) && success == (old(parsed) + rc <= Total())
      ensures discard != old(discard) ==> discard == Refused || (discard == HandlerFailed && old(discard) == Kept)
      ensures old(streaming) ==> streaming
    {
      assert parsed < Total();
      hide Agrees;
      var end := Min(parsed + rc, Total());
      success := end == parsed + rc;
      var h := if parsed < |head| then Min(|head| - parsed, rc) else 0;
      var n := end - parsed - h;
      if n > 0 {
        BodySlice(buffer[..], p, parsed, rc, h, n);
      }
      if h > 0 {
        ParseHead(h);
      }
      if n > 0 {
        ParseBody(p + h, n, handled);
      }
    }

    /** The body bytes among those just received. */
    lemma BodySlice(buf: seq<byte>, p: nat, pos: nat, rc: nat, h: nat, n: nat)
      requires p + rc <= |buf| && pos + rc <= |Sent()| && h + n <= rc
      requires pos + h >= |head| && pos + h + n <= Total()
      requires buf[p..p + rc] == Sent()[pos..pos + rc]
      ensures buf[p + h..p + h + n] == body[pos + h - |head|..pos + h - |head| + n]
    {
      SubSlice(buf, p, rc, h, n);
      SubSlice(Sent(), pos, rc, h, n);
      assert Sent()[pos + h..pos + h + n] == body[pos + h - |head|..pos + h - |head| + n];
    }

    /** A complete message kept in the buffer: the payload region holds the body. */
    lemma PayloadIsBody(buf: seq<byte>)
      requires Agrees() && complete && discard == Kept && !streaming
      requires parsed <= |buf| && parsed <= |Sent()| && buf[..parsed] == Sent()[..parsed]
      ensures payloadLoc < 0 ==> body == [] && payloadLen == 0
      ensures payloadLoc >= 0 ==> payloadLoc + payloadLen <= |buf| && buf[payloadLoc..payloadLoc + payloadLen] == body
    {
      assert Sent()[..parsed] == head + body;
      if payloadLoc >= 0 {
        assert buf[|head|..parsed] == buf[..parsed][|head|..];
      }
    }

    /** `sock_recv`: the next bytes the peer sent, into the buffer at `p`. */
    method SockRecv(p: nat, rc: nat)
      requires p + rc <= buffer.Length && parsed + rc <= |Sent()|
      modifies buffer
      ensures buffer[p..p + rc] == Sent()[parsed..parsed + rc]
      ensures buffer[..p] == old(buffer[..p])
    {
      var i := 0;
      while i < rc
        invariant 0 <= i <= rc
        invariant buffer[p..p + i] == Sent()[parsed..parsed + i]
        invariant buffer[..p] == old(buffer[..p])
      {
        buffer[p + i] := Sent()[parsed + i];
        i := i + 1;
      }
    }

    /** The place for the next bytes: after what is kept, or anywhere with room once nothing needs keeping. */
    ghost predicate Placed(p: nat, remaining: nat)
      reads this, buffer
    {
      && p + remaining == buffer.Length
      && (discard == Kept && !streaming ==> p == parsed && p <= |Sent()| && buffer[..p] == Sent()[..p])
      && (discard != Kept || streaming ==> remaining > 0)
    }

    /** `handle_request`, over the results of its `recv` calls; `done`: the request is complete. */
    method HandleRequest(schedule: seq<Recv>) returns (done: bool)
      requires Agrees() && Sized() && parsed == 0 && discard == Kept
      requires forall r :: r in schedule ==> r.Got? ==> r.n > 0
      modifies this, buffer
      ensures Agrees() && Sized() && (done ==> complete)
      ensures done && discard == Kept && !streaming ==> parsed <= buffer.Length && buffer[..parsed] == Sent()[..parsed]
      ensures !done ==> Closed in schedule || extra != [] || Gots(schedule) < Total()
    {
      var i, p, remaining := 0, 0, buffer.Length;
      assert Placed(p, remaining);
      hide Agrees, Sized;
      while !complete && i < |schedule|
        invariant 0 <= i <= |schedule| && p >= 0 && remaining >= 0
        invariant Agrees() && Sized() && Placed(p, remaining) && (!complete ==> parsed < Total())
        invariant !complete ==> parsed >= Gots(schedule[..i])
        decreases |schedule| - i
      {
        if remaining <= 0 {
          GiveUp(p);
          p, remaining := 0, buffer.Length;
        }
        assert schedule[..i + 1][..i] == schedule[..i];
        var r := schedule[i];
        i := i + 1;
        match r
        case Closed =>
          return false;
        case Again =>
        case Got(n, handled) =>
          var rc := Min(n, Min(remaining, |Sent()| - parsed));
          var success := Take(p, remaining, rc, handled);
          if !success { return false; }
          if !streaming && discard == Kept {
            p, remaining := p + rc, remaining - rc;
          }
      }
      done := complete;
      assert schedule[..|schedule|] == schedule;
    }

    /** The buffer is full and the request is not complete: nothing of it needs keeping any more. */
    method GiveUp(ghost p: nat)
      requires Agrees() && Sized() && Placed(p, 0) && !complete
      modifies this`discard
      ensures Agrees() && Sized() && Placed(0, buffer.Length) && discard == TooLarge
    {
      discard := TooLarge;
    }

    /** One `recv` and the parsing of what it brought. */
    method Take(p: nat, remaining: nat, rc: nat, handled: bool) returns (success: bool)
      requires Agrees() && Sized() && Placed(p, remaining) && !complete
      requires 0 < rc <= remaining && parsed + rc <= |Sent()|
      modifies this, buffer
      ensures Agrees() && Sized() && (!complete ==> parsed < Total())
      ensures success == (old(parsed) + rc <= Total()) && (success ==> parsed == old(parsed) + rc)
      ensures success && discard == Kept && !streaming ==> Placed(p + rc, remaining - rc)
      ensures success && (discard != Kept || streaming) ==> Placed(p, remaining)
    {
      SockRecv(p, rc);
      success := ParseBuf(p, rc, handled);
    }
  }

  /**
   A request sent as `head` and `body`, perhaps with `extra` bytes behind it, cut
   by the network as `schedule` says: what the server ends up with.
   */
  method Receive(head: seq<byte>, body: seq<byte>, extra: seq<byte>, route: Route, size: nat, schedule: seq<Recv>)
    returns (done: bool, discard: Discard, payload: seq<byte>, given: seq<byte>)
    requires head != [] && size > 0
    requires forall r :: r in schedule ==> r.Got? ==> r.n > 0
    ensures done && route.accepted && !route.streaming ==>
      && discard == (if Oversized(false, |head|, |body|, size) then TooLarge else Kept)
      && (discard == Kept ==> payload == body)
    ensures done && route.accepted && route.streaming ==>
      && (discard == TooLarge <==> Oversized(true, |head|, |body|, size))
      && (discard == Kept ==> given == body)
      && discard != Refused
    ensures done && !route.accepted ==> discard == Refused
    ensures given <= body && (!route.streaming ==> given == [])
    ensures !done ==> Closed in schedule || extra != [] || Gots(schedule) < |head| + |body|
  {
    var c := new Connection(head, body, extra, route, size);
    done := c.HandleRequest(schedule);
    discard, given, payload := c.discard, c.given, [];
    if done && discard == Kept && !c.streaming && c.payloadLoc >= 0 {
      payload := c.buffer[c.payloadLoc..c.payloadLoc + c.payloadLen];
      c.PayloadIsBody(c.buffer[..]);
    }
  }
}
