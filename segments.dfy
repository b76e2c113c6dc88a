/**
 * The fiducial and grid procedures draw a list of straight lines one after
 * another with one drawing primitive.  A Segment is such a line, given by its
 * two ends as bare numbers (millimetres, or device units under
 * "wasatchUnits"), and Each is the calls a procedure makes for a list of
 * them: the primitive's calls for each line, in list order.
 */
module Segments {
  import opened Units
  import opened Transport

  datatype Segment = Segment(x0: real, y0: real, x1: real, y1: real)

  /** A point tuple (x, y) of bare numbers: millimetres from the centre of the field. */
  datatype Point = Point(x: real, y: real)

  function Each(segs: seq<Segment>, draw: Segment -> seq<Step>): seq<Step>
    decreases |segs|
  {
    if |segs| == 0 then [] else Each(segs[..|segs| - 1], draw) + draw(segs[|segs| - 1])
  }

  /** Drawing two lists is drawing the first, then the second. */
  lemma {:induction false} EachAppend(a: seq<Segment>, b: seq<Segment>, draw: Segment -> seq<Step>)
    ensures Each(a + b, draw) == Each(a, draw) + Each(b, draw)
    decreases |b|
  {
    if |b| == 0 {
      assert a + b == a;
    } else {
      var c := a + b;
      assert c[..|c| - 1] == a + b[..|b| - 1];
      assert c[|c| - 1] == b[|b| - 1];
      EachAppend(a, b[..|b| - 1], draw);
    }
  }

  lemma EachPrefix(segs: seq<Segment>, i: nat, draw: Segment -> seq<Step>)
    requires i < |segs|
    ensures Each(segs[..i + 1], draw) == Each(segs[..i], draw) + draw(segs[i])
  {
    assert segs[..i + 1][..i] == segs[..i];
  }

  /**
   * With a primitive of n calls, line j of the list is drawn by calls
   * j·n .. (j+1)·n - 1, which are exactly the primitive's calls for it.
   */
  lemma {:induction false} EachAt(segs: seq<Segment>, draw: Segment -> seq<Step>, n: nat, j: nat)
    requires forall s :: |draw(s)| == n
    requires j < |segs|
    ensures |Each(segs, draw)| == |segs| * n
    ensures Each(segs, draw)[j * n..(j + 1) * n] == draw(segs[j])
    decreases |segs|
  {
    var m := |segs| - 1;
    var front := Each(segs[..m], draw);
    EachLength(segs[..m], draw, n);
    assert Each(segs, draw) == front + draw(segs[m]);
    MulSucc(j, n);
    if j < m {
      EachAt(segs[..m], draw, n, j);
      assert segs[..m][j] == segs[j];
      MulMono(j + 1, m, n);
      SliceOfFront(front, draw(segs[m]), j * n, (j + 1) * n);
    } else {
      SliceOfBack(front, draw(segs[m]));
    }
    EachLength(segs, draw, n);
  }

  lemma MulSucc(j: nat, n: nat)
    ensures (j + 1) * n == j * n + n
  {
  }

  lemma MulMono(i: nat, m: nat, n: nat)
    requires i <= m
    ensures i * n <= m * n
  {
  }

  lemma SliceOfFront(a: seq<Step>, b: seq<Step>, lo: nat, hi: nat)
    requires lo <= hi <= |a|
    ensures (a + b)[lo..hi] == a[lo..hi]
  {
  }

  lemma SliceOfBack(a: seq<Step>, b: seq<Step>)
    ensures (a + b)[|a|..|a| + |b|] == b
  {
  }

  lemma {:induction false} EachLength(segs: seq<Segment>, draw: Segment -> seq<Step>, n: nat)
    requires forall s :: |draw(s)| == n
    ensures |Each(segs, draw)| == |segs| * n
    decreases |segs|
  {
    if |segs| > 0 {
      EachLength(segs[..|segs| - 1], draw, n);
    }
  }

  /** When the primitive's calls for every line of the list are runnable, so is every call of the list. */
  lemma {:induction false} EachRunnable(d: Discipline, segs: seq<Segment>, draw: Segment -> seq<Step>)
    requires forall i :: 0 <= i < |segs| ==> Runnable(d, draw(segs[i]))
    ensures Runnable(d, Each(segs, draw))
    decreases |segs|
  {
    if |segs| > 0 {
      var m := |segs| - 1;
      assert forall i :: 0 <= i < m ==> segs[..m][i] == segs[i];
      EachRunnable(d, segs[..m], draw);
      assert Each(segs, draw) == Each(segs[..m], draw) + draw(segs[m]);
      RunnableAppend(d, Each(segs[..m], draw), draw(segs[m]));
    }
  }

  /** n waits of t seconds one after another. */
  function Repeated(n: nat, t: real): (total: real)
    ensures n == 0 ==> total == 0.0
  {
    if n == 0 then 0.0 else Repeated(n - 1, t) + t
  }

  /** Waiting m times and then n times is waiting m + n times. */
  lemma {:induction false} RepeatedSum(m: nat, n: nat, t: real)
    ensures Repeated(m + n, t) == Repeated(m, t) + Repeated(n, t)
    decreases n
  {
    if n > 0 {
      RepeatedSum(m, n - 1, t);
    }
  }

  lemma {:induction false} RepeatedIsProduct(n: nat, t: real)
    ensures Repeated(n, t) == n as real * t
  {
    if n > 0 {
      RepeatedIsProduct(n - 1, t);
      assert n as real * t == (n - 1) as real * t + t;
    }
  }

  /** When every line takes time t to draw, the list takes t once per line. */
  lemma {:induction false} EachDelay(d: Discipline, segs: seq<Segment>, draw: Segment -> seq<Step>, t: real)
    requires forall i :: 0 <= i < |segs| ==> TotalDelay(d, draw(segs[i])) == t
    ensures TotalDelay(d, Each(segs, draw)) == Repeated(|segs|, t)
    decreases |segs|
  {
    if |segs| > 0 {
      var m := |segs| - 1;
      var front := Each(segs[..m], draw);
      var last := draw(segs[m]);
      assert Each(segs, draw) == front + last;
      assert forall i :: 0 <= i < m ==> segs[..m][i] == segs[i];
      EachDelay(d, segs[..m], draw, t);
      TotalDelayAppend(d, front, last);
    }
  }

  /**
   * One turn of a drawing loop: when lines ..i ran without an error and
   * line i is drawn from where they left off, either the run over lines
   * ..i + 1 goes on or, if line i fails, the whole list ends there.
   */
  lemma ExecEachNext(d: Discipline, k0: Link, segs: seq<Segment>, i: nat, draw: Segment -> seq<Step>, flags: Flags,
                     k1: Link, ok: bool)
    requires i < |segs|
    requires Exec(d, k0, Each(segs[..i], draw), flags).1
    requires (k1, ok) == Exec(d, Exec(d, k0, Each(segs[..i], draw), flags).0, draw(segs[i]), flags)
    ensures ok ==> Exec(d, k0, Each(segs[..i + 1], draw), flags) == (k1, true)
    ensures !ok ==> Exec(d, k0, Each(segs, draw), flags) == (k1, false)
  {
    var a := Each(segs[..i + 1], draw);
    EachPrefix(segs, i, draw);
    ExecAppend(d, k0, Each(segs[..i], draw), draw(segs[i]), flags);
    if !ok {
      assert segs == segs[..i + 1] + segs[i + 1..];
      EachAppend(segs[..i + 1], segs[i + 1..], draw);
      ExecAbort(d, k0, a, Each(segs[i + 1..], draw), flags);
    }
  }
}
