/** The load generator's rate limiter. Times are nanoseconds on a clock that never goes back. */
module TokenBucket {
  import opened Arithmetic

  const SECOND: nat := 1_000_000_000

  class Bucket {
    const timePerToken: nat
    const burstTime: nat
    var last: int

    constructor (rate: nat, burst: nat, now: int)
      requires rate > 0
      ensures timePerToken == SECOND / rate && burstTime == burst * timePerToken && last == now
    {
      timePerToken := SECOND / rate;
      burstTime := burst * (SECOND / rate);
      last := now;
    }

    /**
     `consume`, entered at time `now`: grants the tokens and returns at `done`, at once or after
     sleeping. The stored time is the simpler update: the burst term never changes it.
     */
    method Consume(tokens: nat, now: int) returns (done: int)
      modifies this`last
      ensures last == Next(old(last), timePerToken, tokens, now)
      ensures done == last && now <= done
    {
      var needed := tokens * timePerToken;
      var earliest := if last + needed >= now - burstTime then last + needed else now - burstTime;
      if earliest <= now {
        last := now;
        done := now;
      } else {
        done := earliest;
        last := earliest;
      }
    }
  }

  function Max(a: int, b: int): int
  {
    if a >= b then a else b
  }

  /** The stored time after a call at `now`. */
  function Next(last: int, perToken: nat, tokens: nat, now: int): (r: int)
  {
    Max(now, last + tokens * perToken)
  }

  datatype Call = Call(tokens: nat, now: int)

  function Granted(calls: seq<Call>): (n: nat)
  {
    if calls == [] then 0 else Granted(calls[..|calls| - 1]) + calls[|calls| - 1].tokens
  }

  /** The stored time after a sequence of calls; each call returns at the value stored by it. */
  function LastAfter(start: int, perToken: nat, calls: seq<Call>): (r: int)
  {
    if calls == [] then start
    else
      var n := |calls| - 1;
      Next(LastAfter(start, perToken, calls[..n]), perToken, calls[n].tokens, calls[n].now)
  }

  /** The stored time moves on by at least the cost of all tokens granted. */
  lemma {:induction false} TimeCoversTokens(start: int, perToken: nat, calls: seq<Call>)
    ensures start + perToken * Granted(calls) <= LastAfter(start, perToken, calls)
  {
    if calls != [] {
      var n := |calls| - 1;
      TimeCoversTokens(start, perToken, calls[..n]);
      Distribute(perToken, Granted(calls[..n]), calls[n].tokens);
    }
  }

  lemma Distribute(p: nat, a: nat, b: nat)
    ensures p * (a + b) == p * a + b * p
  {
  }

  /** Rate bound: tokens granted by calls that have returned by `t` fit the time since the start. */
  lemma RateBound(start: int, perToken: nat, calls: seq<Call>, t: int)
    requires perToken > 0 && LastAfter(start, perToken, calls) <= t
    ensures start <= t && Granted(calls) <= (t - start) / perToken
  {
    TimeCoversTokens(start, perToken, calls);
    var g := Granted(calls);
    assert perToken * g == g * perToken >= 0;
    QuotientAtLeast(t - start, perToken, g);
  }
}
