/** The delays between connection attempts. */
module Backoff {

  const FIRST_BACKOFF: nat := 50
  const MAX_BACKOFF: nat := 30_000

  function Min(a: nat, b: nat): nat {
    if a <= b then a else b
  }

  function NextBackoff(b: nat): nat {
    Min(b * 2, MAX_BACKOFF)
  }

  function Pow2(k: nat): nat {
    if k == 0 then 1 else 2 * Pow2(k - 1)
  }

  /** The delay after failure number `k`, counted from zero, in milliseconds. */
  function Delay(k: nat): nat {
    Min(FIRST_BACKOFF * Pow2(k), MAX_BACKOFF)
  }

  lemma {:induction false} DelayStep(k: nat)
    ensures NextBackoff(Delay(k)) == Delay(k + 1)
    ensures FIRST_BACKOFF <= Delay(k) <= Delay(k + 1) <= MAX_BACKOFF
  {
    PowPositive(k);
  }

  lemma {:induction false} PowPositive(k: nat)
    ensures Pow2(k) >= 1
  {
    if k > 0 {
      PowPositive(k - 1);
    }
  }

  function Sum(xs: seq<nat>): nat {
    if xs == [] then 0 else Sum(xs[..|xs| - 1]) + xs[|xs| - 1]
  }

  /** The delays of a run of failures, in numerals. */
  lemma {:induction false} DelaysLaw(sleeps: seq<nat>)
    requires forall k :: 0 <= k < |sleeps| ==> sleeps[k] == Delay(k)
    ensures sleeps != [] ==> sleeps[0] == 50
    ensures forall k :: 0 <= k < |sleeps| - 1 ==>
      sleeps[k + 1] == (if 2 * sleeps[k] < 30000 then 2 * sleeps[k] else 30000) && sleeps[k] <= sleeps[k + 1]
    ensures forall k :: 0 <= k < |sleeps| ==> 50 <= sleeps[k] <= 30000
    ensures Sum(sleeps) <= 30000 * |sleeps|
    decreases |sleeps|
  {
    if sleeps != [] {
      var n := |sleeps| - 1;
      DelaysLaw(sleeps[..n]);
      DelayStep(n);
      if n > 0 {
        assert sleeps[n - 1] == sleeps[..n][n - 1];
        DelayStep(n - 1);
      }
    }
  }

  /**
   * The retry loop against a script of attempt results, ending at the first success or with the
   * script. It sleeps once per failure, 50 ms first and each time twice as long, up to 30 s.
   */
  method ReconnectDelays(attempts: seq<bool>) returns (connected: bool, sleeps: seq<nat>)
    ensures |sleeps| <= |attempts|
    ensures forall k :: 0 <= k < |sleeps| ==> !attempts[k] && sleeps[k] == Delay(k)
    ensures connected <==> |sleeps| < |attempts|
    ensures connected ==> attempts[|sleeps|]
    ensures sleeps != [] ==> sleeps[0] == 50
    ensures forall k :: 0 <= k < |sleeps| - 1 ==>
      sleeps[k + 1] == (if 2 * sleeps[k] < 30000 then 2 * sleeps[k] else 30000) && sleeps[k] <= sleeps[k + 1]
    ensures forall k :: 0 <= k < |sleeps| ==> 50 <= sleeps[k] <= 30000
    ensures Sum(sleeps) <= 30000 * |sleeps|
  {
    var backoff := FIRST_BACKOFF;
    sleeps, connected := [], false;
    for i := 0 to |attempts|
      invariant |sleeps| == i && backoff == Delay(i) && !connected
      invariant forall k :: 0 <= k < i ==> !attempts[k] && sleeps[k] == Delay(k)
    {
      if attempts[i] {
        connected := true;
        break;
      }
      DelayStep(i);
      sleeps := sleeps + [backoff];
      backoff := NextBackoff(backoff);
    }
    DelaysLaw(sleeps);
  }
}
