/**
 * The retry-with-growth discipline around miniz's one-shot `uncompress`
 * (and `compress`): call it with an output buffer of some capacity, and
 * while it answers `Z_BUF_ERROR` ("output buffer too small") grow the
 * buffer five-fold and call again. The (de)compressor itself is an oracle.
 */
module Miniz {
  import opened Common

  /** miniz result codes the loop distinguishes. */
  const Z_OK: int := 0
  const Z_DATA_ERROR: int := -3
  const Z_BUF_ERROR: int := -5

  /** Factor by which the output buffer grows between attempts. */
  const Growth: nat := 5

  /** A call's result code and the bytes it left in the output buffer. */
  datatype ZResult = ZResult(code: int, out: seq<byte>)

  /**
   * A one-shot (de)compressor: `run(data, cap)` processes `data` into an
   * output buffer of capacity `cap`. `room(data)` is a capacity from which
   * on it no longer asks for a bigger buffer for `data` (see `Settles`).
   */
  datatype Engine = Engine(run: (seq<byte>, nat) -> ZResult, room: seq<byte> -> nat)

  /** miniz's two entry points. */
  datatype Zlib = Zlib(compress: Engine, uncompress: Engine)

  /** For every input, a large enough buffer ends the `Z_BUF_ERROR` answers. */
  ghost predicate Settles(e: Engine) {
    forall data: seq<byte>, cap: nat :: cap >= e.room(data) ==> e.run(data, cap).code != Z_BUF_ERROR
  }

  /** Growing from `cap0` can get anywhere: it starts above zero, or zero is already enough. */
  predicate CanGrow(e: Engine, data: seq<byte>, cap0: nat) {
    cap0 > 0 || e.run(data, 0).code != Z_BUF_ERROR
  }

  /** The capacity of attempt `k` when the first attempt has `cap0`: `cap0 * 5^k`. */
  function Grown(cap0: nat, k: nat): (cap: nat)
    ensures cap == 0 <==> cap0 == 0
    ensures cap0 <= cap
    ensures k > 0 ==> cap == Growth * Grown(cap0, k - 1)
  {
    if k == 0 then cap0 else Growth * Grown(cap0, k - 1)
  }

  /**
   * The index of the first attempt at or after `k` that does not answer
   * `Z_BUF_ERROR`: every attempt between `k` and it does.
   */
  ghost function Attempts(e: Engine, data: seq<byte>, cap0: nat, k: nat): (r: nat)
    requires Settles(e) && CanGrow(e, data, cap0)
    ensures k <= r
    ensures e.run(data, Grown(cap0, r)).code != Z_BUF_ERROR
    ensures forall t :: k <= t < r ==> e.run(data, Grown(cap0, t)).code == Z_BUF_ERROR
    decreases if Grown(cap0, k) < e.room(data) then e.room(data) - Grown(cap0, k) else 0
  {
    if e.run(data, Grown(cap0, k)).code != Z_BUF_ERROR then k
    else Attempts(e, data, cap0, k + 1)
  }

  /** What the retry loop ends with: the first attempt that does not answer `Z_BUF_ERROR`. */
  ghost function Settled(e: Engine, data: seq<byte>, cap0: nat): ZResult
    requires Settles(e) && CanGrow(e, data, cap0)
  {
    e.run(data, Grown(cap0, Attempts(e, data, cap0, 0)))
  }

  /**
   * The do-while of `load_table`: call with capacity `cap0`, and on
   * `Z_BUF_ERROR` multiply the capacity by five and call again. The loop
   * exits on the first other code, which it returns with the output.
   */
  method RetryGrowing(e: Engine, data: seq<byte>, cap0: nat) returns (res: ZResult)
    requires Settles(e) && CanGrow(e, data, cap0)
    ensures res == Settled(e, data, cap0)
    ensures res.code != Z_BUF_ERROR
  {
    var cap := cap0;
    ghost var k: nat := 0;
    res := e.run(data, cap);
    while res.code == Z_BUF_ERROR
      invariant cap == Grown(cap0, k)
      invariant res == e.run(data, cap)
      invariant Attempts(e, data, cap0, k) == Attempts(e, data, cap0, 0)
      decreases e.room(data) - cap
    {
      // output buffer too small: make it bigger and try again
      cap := cap * Growth;
      k := k + 1;
      res := e.run(data, cap);
    }
  }

  /**
   * If every attempt on `data` either asks for a bigger buffer or returns
   * `v`, the retry loop returns `v`.
   */
  lemma SettledIsTheOnlyOtherAnswer(e: Engine, data: seq<byte>, cap0: nat, v: ZResult)
    requires Settles(e) && CanGrow(e, data, cap0)
    requires forall cap: nat :: e.run(data, cap).code == Z_BUF_ERROR || e.run(data, cap) == v
    ensures Settled(e, data, cap0) == v
  {
  }
}
