/** Flat row-major grids: where a cell lies, and what storing a stretch of cells changes. */
module Grid {
  import opened Wrappers

  lemma RowFits(i: nat, rows: nat, cols: nat)
    requires i < rows
    ensures i * cols + cols == (i + 1) * cols <= rows * cols
  {
    Monotone(i + 1, rows, cols);
  }

  lemma Monotone(p: nat, q: nat, c: nat)
    requires p <= q
    ensures p * c <= q * c
  {
    if p < q {
      Monotone(p, q - 1, c);
    }
  }

  /** Number of cells. */
  function Area(rows: nat, width: nat): nat {
    rows * width
  }

  lemma NextRow(rows: nat, width: nat)
    ensures Area(rows + 1, width) == Area(rows, width) + width && Area(0, width) == 0
  {
  }

  lemma AreaSplits(rows: nat, left: nat, right: nat)
    ensures Area(rows, left + right) == Area(rows, left) + Area(rows, right) && Area(rows, 0) == 0
    ensures Area(left + right, rows) == Area(left, rows) + Area(right, rows) && Area(0, rows) == 0
  {
  }

  /** Position of row `t`, column `r`. */
  function At(t: nat, r: nat, width: nat): nat {
    t * width + r
  }

  function Peek<F>(s: seq<F>, t: nat, r: nat, width: nat): Option<F> {
    if At(t, r, width) < |s| then Some(s[At(t, r, width)]) else None
  }

  lemma AtFits(t: nat, tokens: nat, r: nat, n: nat, width: nat)
    requires t < tokens && r + n <= width
    ensures At(t, r, width) + n <= Area(tokens, width)
  {
    RowFits(t, tokens, width);
  }

  /** Distinct rows, or columns outside `r..r + n` of the same row, lie outside the stored stretch. */
  lemma Apart(t: nat, r: nat, t': nat, r': nat, n: nat, width: nat)
    requires r + n <= width && r' < width && !(t == t' && r <= r' < r + n)
    ensures At(t', r', width) < At(t, r, width) || At(t', r', width) >= At(t, r, width) + n
  {
    if t' < t {
      RowFits(t', t, width);
    } else if t' > t {
      RowFits(t, t', width);
    }
  }

  lemma AtShift(t: nat, r: nat, j: nat, width: nat)
    ensures At(t, r + j, width) == At(t, r, width) + j
  {
  }

  /** Two outputs of the same shape that agree cell by cell are the same sequence. */
  lemma CellsDetermine<F>(x: seq<F>, y: seq<F>, tokens: nat, width: nat)
    requires |x| == |y| == Area(tokens, width)
    requires forall t: nat, r: nat | t < tokens && r < width :: Peek(x, t, r, width) == Peek(y, t, r, width)
    ensures x == y
  {
    forall k | 0 <= k < |x| ensures x[k] == y[k] {
      CellOf(k, tokens, width);
      var t, r := k / width, k % width;
      assert Peek(x, t, r, width) == Peek(y, t, r, width);
    }
  }

  lemma CellOf(k: nat, tokens: nat, width: nat)
    requires k < Area(tokens, width)
    ensures width > 0 && k / width < tokens && k % width < width && At(k / width, k % width, width) == k
  {
    if width != 0 {
      assert k == width * (k / width) + k % width;
      if k / width >= tokens {
        Monotone(tokens, k / width, width);
      }
    }
  }

  /** A stored stretch changes exactly the cells it covers. */
  lemma RowStored<F>(before: seq<F>, after: seq<F>, t: nat, r: nat, n: nat, width: nat)
    requires |before| == |after| && r + n <= width && At(t, r, width) + n <= |after|
    requires forall k | 0 <= k < |after| && !(At(t, r, width) <= k < At(t, r, width) + n) :: after[k] == before[k]
    ensures forall t': nat, r': nat | r' < width && !(t == t' && r <= r' < r + n) ::
              Peek(after, t', r', width) == Peek(before, t', r', width)
    ensures forall r' | r <= r' < r + n :: Peek(after, t, r', width) == Some(after[At(t, r, width) + (r' - r)])
  {
    forall t': nat, r': nat | r' < width && !(t == t' && r <= r' < r + n)
      ensures Peek(after, t', r', width) == Peek(before, t', r', width)
    {
      Apart(t, r, t', r', n, width);
      hide At;
    }
    forall r' | r <= r' < r + n ensures Peek(after, t, r', width) == Some(after[At(t, r, width) + (r' - r)]) {
      AtShift(t, r, r' - r, width);
      hide At;
    }
  }
}
