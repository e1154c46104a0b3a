/**
 * SosMatrix of sosmatrix.go: a matrix stored as a slice of row slices. The rows
 * are separate buffers (arrays here) that the matrix shares with whoever holds a
 * row view, so a write through a row view is a write to the matrix.
 */
module Sos {
  import opened Slices

  datatype SosMatrix = SosMatrix(rows: seq<array<real>>) {

    /** The row buffers, the frame of the methods that write the matrix. */
    ghost function Repr(): set<array<real>> {
      set k | 0 <= k < |rows| :: rows[k]
    }

    /** The matrix's values, row by row. */
    ghost function Contents(): (c: seq<seq<real>>)
      reads Repr()
      ensures |c| == |rows| && forall r :: 0 <= r < |rows| ==> c[r] == rows[r][..]
    {
      seq(|rows|, r requires 0 <= r < |rows| reads Repr() => rows[r][..])
    }

    /** The shape SosMatrix assumes: rows are distinct buffers of one common length. */
    predicate Valid() {
      && (forall a, b :: 0 <= a < b < |rows| ==> rows[a] != rows[b])
      && (forall k :: 0 <= k < |rows| ==> rows[k].Length == rows[0].Length)
    }

    /** Dims: (number of rows, length of row 0); Go indexes row 0, so a row must exist. */
    function Dims(): (int, int)
      requires |rows| > 0
    {
      (|rows|, rows[0].Length)
    }

    /** At(i, j): element j of row i. */
    function At(i: int, j: int): real
      requires 0 <= i < |rows| && 0 <= j < rows[i].Length
      reads rows[i]
    {
      rows[i][j]
    }

    /** RowView(r): the stored row buffer itself, not a copy. */
    function RowView(r: int): array<real>
      requires 0 <= r < |rows|
    {
      rows[r]
    }

    /** Set(i, j, v): writes element (i, j) and nothing else. */
    method Set(i: int, j: int, v: real)
      requires 0 <= i < |rows| && 0 <= j < rows[i].Length
      modifies rows[i]
      ensures rows[i][..] == old(rows[i][..])[j := v]
    {
      rows[i][j] := v;
    }

    /**
     * Row(d, i): when d is shorter than a row a fresh buffer of the row length is made,
     * otherwise d itself is used (resliced to the row length); row i is copied into it
     * and it is returned. The returned buffer's first cols entries are the result.
     */
    method Row(d: array<real>, i: int) returns (r: array<real>)
      requires 0 <= i < |rows|
      modifies d
      ensures d.Length < rows[0].Length ==> fresh(r) && r.Length == rows[0].Length && unchanged(d)
      ensures d.Length >= rows[0].Length ==> r == d && r[rows[0].Length..] == old(d[rows[0].Length..])
      ensures r[..rows[0].Length]
           == Copy(if d.Length < rows[0].Length then Zeros(rows[0].Length) else old(d[..rows[0].Length]),
                   old(rows[i][..]))
      ensures Valid() ==> r[..rows[0].Length] == old(rows[i][..])
    {
      var cols := rows[0].Length;
      ghost var row := rows[i][..];
      if d.Length < cols {
        r := new real[cols](_ => 0.0);
      } else {
        r := d;
      }
      ghost var before := r[..];
      var n := Min(cols, rows[i].Length);
      for k := 0 to n
        invariant forall m :: 0 <= m < r.Length ==> r[m] == if m < k then row[m] else before[m]
        invariant forall m :: k <= m < n ==> rows[i][m] == row[m]
        invariant d.Length < cols ==> unchanged(d)
      {
        r[k] := rows[i][k];
      }
      assert r[..cols] == Copy(before[..cols], row);
    }

    /** SetRow(i, d): copies d into row i as Go's copy does and returns the count. */
    method SetRow(i: int, d: seq<real>) returns (n: int)
      requires 0 <= i < |rows|
      modifies rows[i]
      ensures rows[i][..] == Copy(old(rows[i][..]), d)
      ensures n == CopyCount(old(rows[i][..]), d)
    {
      ghost var base := rows[i][..];
      n := Min(rows[i].Length, |d|);
      for k := 0 to n
        invariant forall m :: 0 <= m < rows[i].Length ==> rows[i][m] == if m < k then d[m] else base[m]
      {
        rows[i][k] := d[k];
      }
    }
  }

  /** Once every row other than row i holds its entry of an earlier snapshot of the
      contents, the contents are that snapshot with entry i replaced by row i. */
  lemma ContentsAfterRowWrite(m: SosMatrix, before: seq<seq<real>>, i: int)
    requires |before| == |m.rows| && 0 <= i < |m.rows|
    requires forall r :: 0 <= r < |m.rows| && r != i ==> m.rows[r][..] == before[r]
    ensures m.Contents() == before[i := m.rows[i][..]]
  {
  }

  /** Reading row i into a buffer of the row length and writing the result back leaves the
      row as it was: SetRow(i, Row(d, i)) changes nothing. */
  lemma RowSetRowRoundTrip(row: seq<real>, base: seq<real>)
    requires |base| == |row|
    ensures Copy(row, Copy(base, row)) == row
  {
  }
}
