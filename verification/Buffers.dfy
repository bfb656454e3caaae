/** Slice assignments into two-dimensional buffers. */
module Buffers {

  /** a[r, :] = row. */
  method StoreRow(a: array2<real>, r: nat, row: seq<real>)
    requires r < a.Length0 && |row| == a.Length1
    modifies a
    ensures forall i, j :: 0 <= i < a.Length0 && 0 <= j < a.Length1 ==> a[i, j] == if i == r then row[j] else old(a[i, j])
  {
    for c := 0 to |row|
      invariant forall i, j :: 0 <= i < a.Length0 && 0 <= j < a.Length1 ==> a[i, j] == if i == r && j < c then row[j] else old(a[i, j])
    {
      a[r, c] := row[c];
    }
  }

  /** a[lo:lo + |col|, c] = col. */
  method StoreColumn(a: array2<real>, lo: nat, c: nat, col: seq<real>)
    requires lo + |col| <= a.Length0 && c < a.Length1
    modifies a
    ensures forall i, j :: 0 <= i < a.Length0 && 0 <= j < a.Length1 ==>
      a[i, j] == if lo <= i < lo + |col| && j == c then col[i - lo] else old(a[i, j])
  {
    for r := 0 to |col|
      invariant forall i, j :: 0 <= i < a.Length0 && 0 <= j < a.Length1 ==>
        a[i, j] == if lo <= i < lo + r && j == c then col[i - lo] else old(a[i, j])
    {
      a[lo + r, c] := col[r];
    }
  }
}
