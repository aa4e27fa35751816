/**
 The reconnection delays: constant, exponential with jitter, or decorrelated
 jitter. Random numbers are inputs, one per delay, so every statement holds for
 all of them. The 32-bit intermediate results are proved not to overflow.
 */
module Backoff {

  import opened Common

  const BASE: nat := 1_000
  const CAP: nat := 1_800_000
  const MAX_EXPONENT: nat := 21

  datatype Method = Constant | Exponential | Decorrelated

  function Pow(b: nat, n: nat): nat {
    if n == 0 then 1 else b * Pow(b, n - 1)
  }

  /** `get_random_in_range`, for the number drawn. */
  function InRange(a: nat, b: nat, random: nat): (r: nat)
    ensures b <= a ==> r == a
    ensures a < b ==> a <= r < b
  {
    if b <= a then a else a + random % (b - a)
  }

  /** The ceiling of an exponential delay after so many attempts. */
  function Ceiling(attempts: nat): nat {
    Min(CAP, BASE * Pow(2, Min(attempts, MAX_EXPONENT)))
  }

  lemma {:induction false} PowGrows(b: nat, m: nat, n: nat)
    requires b > 0 && m <= n
    ensures 0 < Pow(b, m) <= Pow(b, n)
    decreases n - m, m
  {
    if m < n {
      PowGrows(b, m, n - 1);
      assert Pow(b, n) == b * Pow(b, n - 1) >= Pow(b, n - 1);
    } else if m > 0 {
      PowGrows(b, m - 1, m - 1);
    }
  }

  lemma CeilingGrows(m: nat, n: nat)
    requires m <= n
    ensures Ceiling(m) <= Ceiling(n) <= CAP
  {
    PowGrows(2, Min(m, MAX_EXPONENT), Min(n, MAX_EXPONENT));
  }

  lemma ElevenDoublings()
    ensures Pow(2, 10) == 1024 && Pow(2, 11) == 2048
  {
    assert Pow(2, 5) == 32;
  }

  /** The ceiling is the base, doubled with each attempt up to the tenth, and the cap from then on. */
  lemma CeilingDoubles(n: nat)
    ensures Ceiling(0) == 1_000
    ensures n < 10 ==> Ceiling(n + 1) == 2 * Ceiling(n)
    ensures n >= 11 ==> Ceiling(n) == 1_800_000
  {
    ElevenDoublings();
    if n < 10 {
      PowGrows(2, n + 1, 10);
    } else if n >= 11 {
      PowGrows(2, 11, Min(n, MAX_EXPONENT));
    }
  }

  /** The shifted base fits in 32 bits, and every ceiling is even, so halving it loses nothing. */
  lemma CeilingFits(n: nat)
    ensures BASE * Pow(2, Min(n, MAX_EXPONENT)) < U32 && Ceiling(n) % 2 == 0 && Ceiling(n) >= BASE
  {
    PowGrows(2, 0, Min(n, MAX_EXPONENT));
    PowGrows(2, Min(n, MAX_EXPONENT), MAX_EXPONENT);
    assert Pow(2, 7) == 128 && Pow(2, 14) == 128 * Pow(2, 7) && Pow(2, 21) == 128 * Pow(2, 14);
  }

  /** The bounds of the delay that follows `attempts` attempts (the last one included) of a row without reset. */
  predicate Bounded(m: Method, attempts: nat, delay: nat) {
    match m
    case Constant => delay == BASE
    case Exponential => Ceiling(attempts) / 2 <= delay < Ceiling(attempts)
    case Decorrelated => BASE <= delay <= CAP && (attempts > 0 ==> delay <= BASE * Pow(3, attempts - 1))
  }

  /** `struct backoff`. */
  class Backoff {
    const kind: Method
    var attempts: nat
    var delay: nat

    constructor (kind: Method)
      ensures this.kind == kind && attempts == 0 && delay == 0
    {
      this.kind, attempts, delay := kind, 0, 0;
    }

    /** After `n` delays without reset; the counter has 32 bits. */
    ghost predicate Counted(n: nat)
      reads this
    {
      && attempts == n % U32 && (n == 0 ==> delay == 0)
      && (n > 0 ==> delay <= CAP)
      && (n > 0 && kind == Decorrelated ==> Bounded(kind, n, delay))
    }

    /** `backoff_next`. */
    method Next(random: nat, ghost n: nat)
      requires Counted(n)
      modifies this`attempts, this`delay
      ensures Counted(n + 1) && Bounded(kind, if kind == Exponential then (n + 1) % U32 else n + 1, delay)
    {
      attempts := (attempts + 1) % U32;
      match kind
      case Constant =>
        delay := BASE;
      case Exponential =>
        CeilingFits(attempts);
        var tmp := Min(CAP, BASE * Pow(2, Min(attempts, MAX_EXPONENT)));
        delay := tmp / 2 + InRange(0, tmp / 2, random);
      case Decorrelated =>
        assert 3 * delay < U32;
        PowGrows(3, 0, n);
        assert n > 0 ==> Pow(3, n) == 3 * Pow(3, n - 1);
        delay := Min(CAP, InRange(BASE, 3 * delay, random));
    }

    /** `backoff_reset`. */
    method Reset()
      modifies this`attempts, this`delay
      ensures Counted(0)
    {
      attempts, delay := 0, 0;
    }
  }

  /** A call on the backoff: the next delay, with the number drawn, or a reset. */
  datatype Call = Draw(random: nat) | Restart

  /** The delays asked for since the last reset. */
  function Attempts(calls: seq<Call>): nat {
    if calls == [] || calls[|calls| - 1].Restart? then 0 else 1 + Attempts(calls[..|calls| - 1])
  }

  /** The delay after the calls so far is within the bounds of its row. */
  predicate InRow(kind: Method, calls: seq<Call>, delay: nat) {
    var n := Attempts(calls);
    if n == 0 then delay == 0 else Bounded(kind, if kind == Exponential then n % U32 else n, delay)
  }

  /** Any calls on a backoff, and the delay that stands after each: a row of attempts begins anew at every reset. */
  method Delays(kind: Method, calls: seq<Call>) returns (delays: seq<nat>)
    ensures |delays| == |calls|
    ensures forall i :: 0 <= i < |calls| ==> InRow(kind, calls[..i + 1], delays[i])
  {
    var bo := new Backoff(kind);
    delays := [];
    hide Bounded;
    while |delays| < |calls|
      invariant |delays| <= |calls| && fresh(bo) && bo.kind == kind && bo.Counted(Attempts(calls[..|delays|]))
      invariant forall i :: 0 <= i < |delays| ==> InRow(kind, calls[..i + 1], delays[i])
    {
      var i := |delays|;
      assert calls[..i + 1][..i] == calls[..i];
      match calls[i] {
        case Draw(random) => bo.Next(random, Attempts(calls[..i]));
        case Restart => bo.Reset();
      }
      delays := delays + [bo.delay];
    }
  }

  /**
   `mqttc_try_connect`: `connects` tells how each try ends. It stops at the first
   success, or after `maxAttempts` tries, but never without one.
   */
  method TryConnect(maxAttempts: nat, connects: nat -> bool, draws: nat -> nat) returns (connected: bool, tries: nat)
    requires maxAttempts < U32
    ensures 1 <= tries <= if maxAttempts > 1 then maxAttempts else 1
    ensures forall i :: 0 <= i < tries - 1 ==> !connects(i)
    ensures connected == connects(tries - 1)
    ensures !connected ==> tries == if maxAttempts > 1 then maxAttempts else 1
  {
    var bo := new Backoff(Decorrelated);
    connected := connects(0);
    tries := 1;
    if !connected {
      bo.Next(draws(0), 0);
    }
    while !connected && bo.attempts < maxAttempts
      invariant fresh(bo) && 1 <= tries && connected == connects(tries - 1)
      invariant forall i :: 0 <= i < tries - 1 ==> !connects(i)
      invariant tries <= if maxAttempts > 1 then maxAttempts else 1
      invariant !connected ==> bo.Counted(tries) && bo.attempts == tries
      decreases maxAttempts - tries
    {
      connected := connects(tries);
      tries := tries + 1;
      if !connected {
        bo.Next(draws(tries - 1), tries - 1);
      }
    }
  }
}
