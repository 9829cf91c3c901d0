/**
 * Sequence algebra behind the shard bookkeeping: cutting a sequence of
 * slices into chunks the way `torch.chunk` does, concatenating chunks back,
 * Python's clamped list slicing and `zip(*groups)`.
 *
 * A tensor seen along one dimension is a sequence of slices (elements of a
 * vector, rows or columns of a matrix); every lemma here is generic in the
 * slice type, so it serves all three views.
 */
module Slices {

  function Min(a: int, b: int): (m: int)
    ensures m <= a && m <= b && (m == a || m == b)
  {
    if a <= b then a else b
  }

  /** The ceiling of a / b. */
  function CeilDiv(a: nat, b: nat): (q: nat)
    requires b > 0
    ensures q * b >= a
    ensures q * b < a + b
  {
    var q := (a + b - 1) / b;
    DivBounds(a + b - 1, b);
    q
  }

  lemma DivBounds(x: nat, d: nat)
    requires d > 0
    ensures (x / d) * d <= x < (x / d) * d + d
  {
  }

  lemma MulMono(a: nat, b: nat, k: nat)
    requires a <= b
    ensures a * k <= b * k
  {
  }

  lemma MulSucc(a: nat, k: nat)
    ensures a * k + k == (a + 1) * k
  {
  }

  /** The only multiple of d that lies in [x - d + 1, x] is d * (x / d). */
  lemma DivUnique(x: nat, d: nat, q: nat)
    requires d > 0 && q * d <= x < q * d + d
    ensures x / d == q
  {
    DivBounds(x, d);
    var p := x / d;
    if p < q {
      MulMono(p + 1, q, d);
    } else if p > q {
      MulMono(q + 1, p, d);
    }
  }

  /** At most `width` slices of s starting at lo, clamped to the end of s: Python's s[lo:lo+width]. */
  function Window<S>(s: seq<S>, lo: nat, width: nat): (w: seq<S>)
    ensures lo + width <= |s| ==> w == s[lo..lo + width]
    ensures |w| <= width
  {
    s[Min(lo, |s|)..Min(lo + width, |s|)]
  }

  /** Concatenation of a sequence of sequences, in order (torch.cat along the slicing dimension). */
  function Flatten<S>(ss: seq<seq<S>>): seq<S>
  {
    if ss == [] then [] else Flatten(ss[..|ss| - 1]) + ss[|ss| - 1]
  }

  /** Length of every chunk but the last when a dimension of length len is cut into n chunks. */
  function ChunkSize(len: nat, n: nat): nat
    requires n > 0
  {
    CeilDiv(len, n)
  }

  /**
   * Number of chunks `torch.chunk(n)` returns. When the dimension is empty
   * it returns n empty chunks; otherwise ceiling-sized chunks are cut until
   * the dimension runs out, which can give fewer than n chunks.
   */
  function ChunkCount(len: nat, n: nat): (k: nat)
    requires n > 0
    ensures k <= n
  {
    if len == 0 then n
    else
      var c := ChunkSize(len, n);
      assert c >= 1;
      var k := CeilDiv(len, c);
      assert k <= n by {
        if k > n { MulMono(n + 1, k, c); }
      }
      k
  }

  /** `torch.chunk(n)` along one dimension: contiguous ceiling-sized chunks, the last one possibly shorter. */
  function Chunk<S>(s: seq<S>, n: nat): (r: seq<seq<S>>)
    requires n > 0
    ensures |r| == ChunkCount(|s|, n)
  {
    var c := ChunkSize(|s|, n);
    seq(ChunkCount(|s|, n), i requires 0 <= i < ChunkCount(|s|, n) => Window(s, i * c, c))
  }

  /** Python's [xs[i*w:(i+1)*w] for i in range((len(xs) + w - 1) // w)]. */
  function Group<T>(xs: seq<T>, w: nat): (g: seq<seq<T>>)
    requires w > 0
    ensures |g| == CeilDiv(|xs|, w)
  {
    seq(CeilDiv(|xs|, w), i requires 0 <= i < CeilDiv(|xs|, w) => Window(xs, i * w, w))
  }

  /** Length of the shortest sequence of xss; 0 when there is none. */
  function MinLength<T>(xss: seq<seq<T>>): (m: nat)
    ensures forall i :: 0 <= i < |xss| ==> m <= |xss[i]|
    ensures xss != [] ==> exists i :: 0 <= i < |xss| && m == |xss[i]|
    ensures xss == [] ==> m == 0
  {
    if xss == [] then 0
    else if |xss| == 1 then |xss[0]|
    else
      var rest := MinLength(xss[1..]);
      assert forall i :: 1 <= i < |xss| ==> rest <= |xss[i]| by {
        forall i | 1 <= i < |xss| ensures rest <= |xss[i]| {
          assert xss[i] == xss[1..][i - 1];
        }
      }
      Min(|xss[0]|, rest)
  }

  /** Python's zip(*xss): tuple j holds element j of every sequence, cut to the shortest one. */
  function Zip<T>(xss: seq<seq<T>>): (z: seq<seq<T>>)
    ensures |z| == MinLength(xss)
  {
    seq(MinLength(xss), j requires 0 <= j < MinLength(xss) =>
      seq(|xss|, i requires 0 <= i < |xss| => xss[i][j]))
  }

  // ---------------------------------------------------------------------
  // Lemmas
  // ---------------------------------------------------------------------

  /** |Flatten(ss)| when every part has length k. */
  lemma {:induction false} FlattenLength<S>(ss: seq<seq<S>>, k: nat)
    requires forall i :: 0 <= i < |ss| ==> |ss[i]| == k
    ensures |Flatten(ss)| == |ss| * k
  {
    if ss != [] {
      FlattenLength(ss[..|ss| - 1], k);
    }
  }

  /** Flatten distributes over concatenation. */
  lemma {:induction false} FlattenAppend<S>(a: seq<seq<S>>, b: seq<seq<S>>)
    ensures Flatten(a + b) == Flatten(a) + Flatten(b)
  {
    if b == [] {
      assert a + b == a;
    } else {
      assert (a + b)[..|a + b| - 1] == a + b[..|b| - 1];
      FlattenAppend(a, b[..|b| - 1]);
    }
  }

  /** Window j of width k of a concatenation of parts that all have length k is part j. */
  lemma {:induction false} WindowOfFlatten<S>(ss: seq<seq<S>>, k: nat, j: nat)
    requires forall i :: 0 <= i < |ss| ==> |ss[i]| == k
    requires j < |ss|
    ensures Window(Flatten(ss), j * k, k) == ss[j]
  {
    var init := ss[..|ss| - 1];
    FlattenLength(init, k);
    MulMono(j + 1, |ss|, k);
    if j == |ss| - 1 {
      assert |Flatten(init)| == j * k;
    } else {
      MulMono(j + 1, |ss| - 1, k);
      WindowOfFlatten(init, k, j);
      assert Flatten(ss) == Flatten(init) + ss[|ss| - 1];
      assert Flatten(ss)[j * k..j * k + k] == Flatten(init)[j * k..j * k + k];
    }
  }

  /** Concatenating every chunk `torch.chunk` returns gives back the whole sequence. */
  lemma {:induction false} ChunkCovers<S>(s: seq<S>, n: nat)
    requires n > 0
    ensures Flatten(Chunk(s, n)) == s
  {
    var cs := Chunk(s, n);
    var c := ChunkSize(|s|, n);
    if |s| == 0 {
      ChunkPrefixCovers(s, n, |cs|);
      assert cs[..|cs|] == cs;
    } else {
      ChunkPrefixCovers(s, n, |cs|);
      assert cs[..|cs|] == cs;
      assert |cs| * c >= |s|;
    }
  }

  lemma {:induction false} ChunkPrefixCovers<S>(s: seq<S>, n: nat, m: nat)
    requires n > 0 && m <= ChunkCount(|s|, n)
    ensures Flatten(Chunk(s, n)[..m]) == s[..Min(m * ChunkSize(|s|, n), |s|)]
  {
    var cs := Chunk(s, n);
    var c := ChunkSize(|s|, n);
    if m > 0 {
      var l := m - 1;
      var p := l * c;
      MulSucc(l, c);
      ChunkPrefixCovers(s, n, l);
      var a := Min(p, |s|);
      var b := Min(p + c, |s|);
      assert Flatten(cs[..l]) == s[..a];
      assert cs[l] == s[a..b];
      assert Flatten(cs[..m]) == Flatten(cs[..l]) + cs[l] by {
        assert cs[..m][..l] == cs[..l];
      }
      assert s[..a] + s[a..b] == s[..b];
    }
  }

  /**
   * When n divides the length, `torch.chunk(n)` returns exactly n chunks of
   * equal length k = |s| / n, chunk i holding slices i*k .. i*k + k.
   */
  lemma EvenChunks<S>(s: seq<S>, n: nat, k: nat)
    requires n > 0 && |s| == n * k
    ensures ChunkSize(|s|, n) == k
    ensures Chunk(s, n) == seq(n, i requires 0 <= i < n => Window(s, i * k, k))
  {
    var len := |s|;
    assert ChunkSize(len, n) == k by {
      if len > 0 {
        DivUnique(len + n - 1, n, k);
      }
    }
    EvenChunkCount(len, n, k);
  }

  /** When n divides the length, `torch.chunk(n)` returns exactly n chunks. */
  lemma EvenChunkCount(len: nat, n: nat, k: nat)
    requires n > 0 && len == n * k
    ensures ChunkCount(len, n) == n
  {
    if len > 0 {
      DivUnique(len + n - 1, n, k);
      DivUnique(len + k - 1, k, n);
    }
  }

  /** Position of item r of group j when items are grouped w at a time: j*w + r. */
  function SlotPos(j: nat, r: nat, f: nat, w: nat): (p: nat)
    requires j < f && r < w
    ensures p < f * w
  {
    MulMono(j + 1, f, w);
    j * w + r
  }

  /** Grouping f*w items w at a time gives f groups; group j holds items j*w .. j*w + w - 1. */
  lemma GroupSlots<T>(xs: seq<T>, f: nat, w: nat)
    requires w > 0 && |xs| == f * w
    ensures Group(xs, w) == seq(f, j requires 0 <= j < f => seq(w, r requires 0 <= r < w => xs[SlotPos(j, r, f, w)]))
  {
    var g := Group(xs, w);
    assert |g| == f by {
      DivUnique(|xs| + w - 1, w, f);
    }
    forall j | 0 <= j < f ensures g[j] == seq(w, r requires 0 <= r < w => xs[SlotPos(j, r, f, w)]) {
      var p := j * w;
      MulMono(j + 1, f, w);
      assert p + w <= |xs|;
      assert g[j] == xs[p..p + w];
    }
  }

  /** Grouping then joining the groups gives the items back. */
  lemma GroupCovers<T>(xs: seq<seq<T>>, f: nat, w: nat)
    requires f > 0 && w > 0 && |xs| == f * w
    ensures Flatten(Group(xs, w)) == xs
  {
    EvenChunks(xs, f, w);
    assert |Group(xs, w)| == f by {
      DivUnique(|xs| + w - 1, w, f);
    }
    assert Group(xs, w) == Chunk(xs, f);
    ChunkCovers(xs, f);
  }

  /** Joining each part and then the results is joining everything. */
  lemma {:induction false} FlattenFlatten<S>(gs: seq<seq<seq<S>>>)
    ensures Flatten(seq(|gs|, j requires 0 <= j < |gs| => Flatten(gs[j]))) == Flatten(Flatten(gs))
  {
    if gs != [] {
      var m := |gs| - 1;
      FlattenFlatten(gs[..m]);
      assert seq(|gs|, j requires 0 <= j < |gs| => Flatten(gs[j]))[..m] ==
        seq(m, j requires 0 <= j < m => Flatten(gs[..m][j]));
      FlattenAppend(Flatten(gs[..m]), gs[m]);
    }
  }

  /**
   * Regrouping a list of f*w items by `zip(*groups of w)`: there are w
   * tuples, and tuple r holds items r, w + r, ..., (f - 1)*w + r in order.
   */
  lemma GroupZip<T>(xs: seq<T>, f: nat, w: nat)
    requires f > 0 && w > 0 && |xs| == f * w
    ensures |Zip(Group(xs, w))| == w
    ensures forall r :: 0 <= r < w ==>
      Zip(Group(xs, w))[r] == seq(f, j requires 0 <= j < f => xs[SlotPos(j, r, f, w)])
  {
    var g := Group(xs, w);
    GroupSlots(xs, f, w);
    assert MinLength(g) == w by {
      assert |g[0]| == w;
    }
    var z := Zip(g);
    forall r | 0 <= r < w
      ensures z[r] == seq(f, j requires 0 <= j < f => xs[SlotPos(j, r, f, w)])
    {
      forall j | 0 <= j < f ensures z[r][j] == xs[SlotPos(j, r, f, w)] {
        assert z[r][j] == g[j][r];
      }
    }
  }
}
