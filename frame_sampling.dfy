/** The stride frame sampler shared by the integrity checks and the posture analysis: read the
    decoded frames one by one and keep every `interval`-th, starting with the first. */
module FrameSampling {
  import opened Wrappers

  function Abs(k: int): nat
  {
    if k < 0 then -k else k
  }

  /** The frames a stride-`k` reader keeps: those whose decode index is a multiple of `k`,
      in decode order (a negative `k` keeps the multiples of `-k`, as Python's `%` does). */
  function Kept<T>(decoded: seq<T>, k: int): seq<T>
    requires k != 0
  {
    if |decoded| == 0 then []
    else
      var last := |decoded| - 1;
      Kept(decoded[..last], k) + (if last % k == 0 then [decoded[last]] else [])
  }

  /** Whether an index is a multiple of `k` does not depend on the sign of `k`. */
  lemma ModAbs(i: nat, k: int)
    requires k != 0
    ensures (i % k == 0) <==> (i % Abs(k) == 0)
  {
    if k < 0 {
      var q := i / k;
      assert i == k * q + i % k;
      assert i == Abs(k) * (-q) + i % k;
      DivModUnique(i, Abs(k), -q, i % k);
    }
  }

  lemma DivModUnique(x: int, m: int, q: int, r: int)
    requires m > 0 && 0 <= r < m && x == m * q + r
    ensures x / m == q && x % m == r
  {
    var q', r' := x / m, x % m;
    assert x == m * q' + r' && 0 <= r' < m;
    if q' > q {
      MulAtLeast(m, q' - q);
      assert false;
    } else if q' < q {
      MulAtLeast(m, q - q');
      assert false;
    }
  }

  lemma {:induction false} MulAtLeast(m: int, d: int)
    requires m > 0 && d >= 1
    ensures m * d >= m
  {
    if d > 1 {
      MulAtLeast(m, d - 1);
      assert m * d == m * (d - 1) + m;
    }
  }

  /** One more decoded frame adds one kept frame exactly when its index is a multiple of m. */
  lemma CeilStep(a: nat, m: nat)
    requires m > 0
    ensures (a + 1 + m - 1) / m == (a + m - 1) / m + (if a % m == 0 then 1 else 0)
  {
    var q, r := a / m, a % m;
    assert a == m * q + r;
    DivModUnique(a + m, m, q + 1, r);
    if r == 0 {
      DivModUnique(a + m - 1, m, q, m - 1);
    } else {
      DivModUnique(a + m - 1, m, q + 1, r - 1);
    }
  }

  /** The sampler keeps ⌈n/|k|⌉ of n decoded frames. */
  lemma {:induction false} KeptLength<T>(decoded: seq<T>, k: int)
    requires k != 0
    ensures |Kept(decoded, k)| == (|decoded| + Abs(k) - 1) / Abs(k)
  {
    var m := Abs(k);
    if |decoded| == 0 {
      DivModUnique(m - 1, m, 0, m - 1);
    } else {
      var last := |decoded| - 1;
      KeptLength(decoded[..last], k);
      ModAbs(last, k);
      CeilStep(last, m);
    }
  }

  /** The j-th kept frame is decoded frame j·|k|. */
  lemma {:induction false} KeptAt<T>(decoded: seq<T>, k: int, j: nat)
    requires k != 0
    requires j < |Kept(decoded, k)|
    ensures j * Abs(k) < |decoded|
    ensures Kept(decoded, k)[j] == decoded[j * Abs(k)]
  {
    var m := Abs(k);
    var idx := j * m;
    var last := |decoded| - 1;
    var init := decoded[..last];
    var front := Kept(init, k);
    assert Kept(decoded, k) == front + (if last % k == 0 then [decoded[last]] else []);
    if j < |front| {
      KeptAt(init, k, j);
      assert idx < |init|;
      assert init[idx] == decoded[idx];
    } else {
      KeptLength(init, k);
      ModAbs(last, k);
      LastKept(last, m, j);
    }
  }

  /** If `last` is a multiple of m and j = ⌈last/m⌉, then j·m = last. */
  lemma LastKept(last: nat, m: nat, j: nat)
    requires m > 0 && last % m == 0 && j == (last + m - 1) / m
    ensures j * m == last
  {
    var q := last / m;
    assert last == m * q;
    DivModUnique(last + m - 1, m, q, m - 1);
  }

  /** The sampling loop. `None` stands for the ZeroDivisionError that `frame_count % 0` raises
      on the first frame; a source that cannot be opened decodes to no frames at all. */
  method SampleFrames<T>(decoded: seq<T>, interval: int) returns (r: Option<seq<T>>)
    ensures r.None? <==> interval == 0 && |decoded| > 0
    ensures r.Some? && interval != 0 ==> r.value == Kept(decoded, interval)
    ensures r.Some? && interval == 0 ==> r.value == []
  {
    var frames: seq<T> := [];
    var frameCount := 0;
    while frameCount < |decoded|
      invariant 0 <= frameCount <= |decoded|
      invariant interval == 0 ==> frameCount == 0 && frames == []
      invariant interval != 0 ==> frames == Kept(decoded[..frameCount], interval)
    {
      if interval == 0 {
        return None;
      }
      assert decoded[..frameCount + 1][..frameCount] == decoded[..frameCount];
      if frameCount % interval == 0 {
        frames := frames + [decoded[frameCount]];
      }
      frameCount := frameCount + 1;
    }
    assert decoded[..frameCount] == decoded;
    return Some(frames);
  }

  /** What a caller with a positive stride may rely on: exactly ⌈n/k⌉ frames, and frame j of
      the result is decoded frame j·k. */
  lemma SampledFrames<T>(decoded: seq<T>, k: nat)
    requires k > 0
    ensures |Kept(decoded, k)| == (|decoded| + k - 1) / k
    ensures forall j :: 0 <= j < |Kept(decoded, k)| ==> j * k < |decoded| && Kept(decoded, k)[j] == decoded[j * k]
  {
    KeptLength(decoded, k);
    forall j | 0 <= j < |Kept(decoded, k)|
      ensures j * k < |decoded| && Kept(decoded, k)[j] == decoded[j * k]
    {
      KeptAt(decoded, k, j);
    }
  }
}
