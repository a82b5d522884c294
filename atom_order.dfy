/** Re-ordering per-atom rows by atom ID, as `run_single` and
    `createAtomsTask` do with numpy row indexing. */
module AtomOrder {
  import opened Geometry

  /** numpy's rule for an integer row index `k` into an axis of length `n`:
      a negative index counts from the end, anything else outside the axis
      raises IndexError (None). */
  function RowIndex(k: int, n: nat): (r: Option<nat>)
    ensures r.Some? <==> 0 <= k + n && k < n
    ensures r.Some? ==> r.value < n && r.value % n == k % n
  {
    if 0 <= k < n then Some(k) else if 0 <= k + n && k < 0 then Some(k + n) else None
  }

  /** The array `sorted = np.zeros((n, 3))` after the writes
      `sorted[ids[i] - 1, :] = rows[i, :]` for i = 0 .. count-1 in order;
      None when one of them raises IndexError. */
  function Scatter(ids: seq<int>, rows: seq<Vec3>, n: nat, count: nat): (r: Option<seq<Vec3>>)
    requires count <= |ids|
    ensures r.Some? ==> |r.value| == n
  {
    if count == 0 then Some(seq(n, _ => Zero))
    else
      match Scatter(ids, rows, n, count - 1)
      case None => None
      case Some(prev) =>
        var i := count - 1;
        var k := RowIndex(ids[i] - 1, n);
        if i < |rows| && k.Some? then Some(prev[k.value := rows[i]]) else None
  }

  /** The scatter raises IndexError exactly when some source row is missing or
      some ID lands outside the target array even after negative wrap-around. */
  lemma {:induction false} ScatterFails(ids: seq<int>, rows: seq<Vec3>, n: nat, count: nat)
    requires count <= |ids|
    ensures Scatter(ids, rows, n, count).None? <==>
      exists i :: 0 <= i < count && (i >= |rows| || RowIndex(ids[i] - 1, n).None?)
  {
    if count > 0 {
      ScatterFails(ids, rows, n, count - 1);
    }
  }

  /** Once a write has raised, the scatter of any longer prefix raises too. */
  lemma {:induction false} ScatterNoneStays(ids: seq<int>, rows: seq<Vec3>, n: nat, i: nat, count: nat)
    requires i <= count <= |ids|
    requires Scatter(ids, rows, n, i).None?
    ensures Scatter(ids, rows, n, count).None?
    decreases count - i
  {
    if i < count {
      ScatterNoneStays(ids, rows, n, i + 1, count);
    }
  }

  /** When the first `count` IDs are distinct and within 1..n, the scatter
      succeeds, row `ids[i] - 1` holds row `i` of the input, and every row that
      no ID names stays zero. */
  lemma {:induction false} ScatterById(ids: seq<int>, rows: seq<Vec3>, n: nat, count: nat)
    requires count <= |ids| && count <= |rows|
    requires forall i :: 0 <= i < count ==> 1 <= ids[i] <= n
    requires forall i, j :: 0 <= i < j < count ==> ids[i] != ids[j]
    ensures Scatter(ids, rows, n, count).Some?
    ensures forall i :: 0 <= i < count ==> Scatter(ids, rows, n, count).value[ids[i] - 1] == rows[i]
    ensures forall k :: 0 <= k < n && (forall i :: 0 <= i < count ==> ids[i] != k + 1) ==>
      Scatter(ids, rows, n, count).value[k] == Zero
  {
    if count > 0 {
      ScatterById(ids, rows, n, count - 1);
      var prev := Scatter(ids, rows, n, count - 1).value;
      var r := Scatter(ids, rows, n, count).value;
      assert r == prev[ids[count - 1] - 1 := rows[count - 1]];
      forall i | 0 <= i < count ensures r[ids[i] - 1] == rows[i] {
        if i < count - 1 {
          assert ids[i] != ids[count - 1];
        }
      }
    }
  }

  /** Atom IDs that are a permutation of 1..n put atom k+1's row at index k. */
  lemma ScatterPermutation(ids: seq<int>, rows: seq<Vec3>, n: nat)
    requires |ids| == n && |rows| >= n
    requires forall i :: 0 <= i < n ==> 1 <= ids[i] <= n
    requires forall i, j :: 0 <= i < j < n ==> ids[i] != ids[j]
    ensures Scatter(ids, rows, n, n).Some?
    ensures forall i :: 0 <= i < n ==> Scatter(ids, rows, n, n).value[ids[i] - 1] == rows[i]
  {
    ScatterById(ids, rows, n, n);
  }

  /** The rows `rows[id - 1]` for each ID in order, as `createAtomsTask`
      positions one atom node per ID; None on IndexError. */
  function Gather(ids: seq<int>, rows: seq<Vec3>): (r: Option<seq<Vec3>>)
    ensures r.Some? ==> |r.value| == |ids|
  {
    if |ids| == 0 then Some([])
    else
      match Gather(ids[..|ids| - 1], rows)
      case None => None
      case Some(prev) =>
        var k := RowIndex(ids[|ids| - 1] - 1, |rows|);
        if k.Some? then Some(prev + [rows[k.value]]) else None
  }

  /** Gather succeeds exactly when every ID indexes the rows, and then node i
      sits at the row its ID names. */
  lemma {:induction false} GatherSpec(ids: seq<int>, rows: seq<Vec3>)
    ensures Gather(ids, rows).Some? <==> forall i :: 0 <= i < |ids| ==> RowIndex(ids[i] - 1, |rows|).Some?
    ensures Gather(ids, rows).Some? ==>
      forall i :: 0 <= i < |ids| ==> Gather(ids, rows).value[i] == rows[RowIndex(ids[i] - 1, |rows|).value]
  {
    if |ids| > 0 {
      var init := ids[..|ids| - 1];
      GatherSpec(init, rows);
      assert forall i :: 0 <= i < |init| ==> init[i] == ids[i];
    }
  }
}
