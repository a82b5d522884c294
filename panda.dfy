/** The state `OffscreenPanda` keeps between frames: the per-atom arrays read
    from LAMMPS, the simulation cell, the thermo history `sim_info`, the
    positions of the atom nodes, the wireframe pen path and the camera pivot.
    What LAMMPS reports arrives as EngineSetup and EngineStep values; each
    Panda3D node is represented by the position it was given. */
module Panda {
  import opened Geometry
  import opened ThermoKeywords
  import opened AtomOrder
  import opened BoxWireframe

  /** How many thermo samples are kept before old ones are dropped. */
  const InfoSize: nat := 300

  /** The pitch of the camera pivot stays within [-85, 85] degrees. */
  const PitchLimit: real := 85.0

  const InitialCamDistance: real := 60.0

  /** The row steps of the bottom and top faces: +a, +b, -a, -b. */
  const FaceSteps: seq<int> := [1, 2, -1, -2]

  /** The base corners of the four support sides, as lists of cell rows. */
  const SideBases: seq<seq<nat>> := [[], [0], [1], [0, 1]]

  /** What LAMMPS reports once the input script has been read. */
  datatype EngineSetup = EngineSetup(
    script: seq<string>,  // the lines of the input file
    ids: seq<int>,        // extract_atom("id")
    x: seq<Vec3>,         // extract_atom("x")
    ix: seq<Vec3>,        // the compute_ix array
    xu: seq<Vec3>,        // the compute_xu array
    natoms: nat)          // get_natoms()

  /** What LAMMPS reports after one `run` command. */
  datatype EngineStep = EngineStep(
    thermo: map<string, real>,  // the sample `extractThermo` reads
    boxlo: Vec3, boxhi: Vec3, xy: real, yz: real, xz: real,
    ids: seq<int>, x: seq<Vec3>, ix: seq<Vec3>, xu: seq<Vec3>)

  /** The effect of `extractThermo`, whose code is not part of this model:
      every series whose key the sample names grows by that sample. */
  function AppendSample(info: map<string, seq<real>>, sample: map<string, real>): (r: map<string, seq<real>>)
    ensures r.Keys == info.Keys
    ensures forall k :: k in r ==> |info[k]| <= |r[k]| && r[k][..|info[k]|] == info[k]
    ensures forall k :: k in r ==> if k in sample then |r[k]| == |info[k]| + 1 && r[k][|info[k]|] == sample[k]
                                  else r[k] == info[k]
  {
    map k | k in info :: if k in sample then info[k] + [sample[k]] else info[k]
  }

  /** `max(-85, min(85, p))`. */
  function ClampPitch(p: real): (r: real)
    ensures -PitchLimit <= r <= PitchLimit
    ensures -PitchLimit <= p <= PitchLimit ==> r == p
    ensures p > PitchLimit ==> r == PitchLimit
    ensures p < -PitchLimit ==> r == -PitchLimit
  {
    if -PitchLimit > (if PitchLimit < p then PitchLimit else p) then -PitchLimit
    else if PitchLimit < p then PitchLimit else p
  }

  /** numpy's sign of a non-zero step. */
  function Sign(i: int): real
  {
    if i < 0 then -1.0 else if i == 0 then 0.0 else 1.0
  }

  function Abs(i: int): nat
  {
    if i < 0 then -i else i
  }

  /** Row k of a 3-by-3 matrix. */
  function Row(m: array2<real>, k: nat): Vec3
    requires m.Length0 == 3 && m.Length1 == 3 && k < 3
    reads m
  {
    Vec3(m[k, 0], m[k, 1], m[k, 2])
  }

  /** `SetPos` of nodes 0 .. n-1 to rows of x, as far as both lists reach. */
  function Placed(nodes: seq<Vec3>, x: seq<Vec3>, n: nat): (r: seq<Vec3>)
    ensures |r| == |nodes|
  {
    seq(|nodes|, j requires 0 <= j < |nodes| => if j < n && j < |x| then x[j] else nodes[j])
  }

  /** The sum of the cell rows listed in `base`. */
  function SumRows(a: Vec3, b: Vec3, base: seq<nat>): Vec3
  {
    if |base| == 0 then Zero
    else Add(SumRows(a, b, base[..|base| - 1]), if base[|base| - 1] == 0 then a else b)
  }

  /** Step n of the bottom face moves the pen from corner n to corner n+1. */
  lemma BottomStep(a: Vec3, b: Vec3, c: Vec3, n: nat)
    requires n < 4
    ensures 1 <= Abs(FaceSteps[n]) <= 2
    ensures Add(At(a, b, c, BottomWalk[n].1), Scale(Sign(FaceSteps[n]), if Abs(FaceSteps[n]) == 1 then a else b))
      == At(a, b, c, BottomWalk[n + 1].1)
  {
    if n == 0 {
      assert BottomWalk[0].1 == Corner(false, false, false) && BottomWalk[1].1 == Corner(true, false, false);
    } else if n == 1 {
      assert BottomWalk[1].1 == Corner(true, false, false) && BottomWalk[2].1 == Corner(true, true, false);
    } else if n == 2 {
      assert BottomWalk[2].1 == Corner(true, true, false) && BottomWalk[3].1 == Corner(false, true, false);
    } else {
      assert n == 3 && FaceSteps[3] == -2;
      assert BottomWalk[3].1 == Corner(false, true, false) && BottomWalk[4].1 == Corner(false, false, false);
    }
  }

  /** The same step moves the top face from corner n to corner n+1. */
  lemma TopStep(a: Vec3, b: Vec3, c: Vec3, n: nat)
    requires n < 4
    ensures 1 <= Abs(FaceSteps[n]) <= 2 && TopWalk[n + 1].0
    ensures Add(At(a, b, c, TopWalk[n].1), Scale(Sign(FaceSteps[n]), if Abs(FaceSteps[n]) == 1 then a else b))
      == At(a, b, c, TopWalk[n + 1].1)
  {
    if n == 0 {
      assert TopWalk[0].1 == Corner(false, false, true) && TopWalk[1].1 == Corner(true, false, true);
    } else if n == 1 {
      assert TopWalk[1].1 == Corner(true, false, true) && TopWalk[2].1 == Corner(true, true, true);
    } else if n == 2 {
      assert TopWalk[2].1 == Corner(true, true, true) && TopWalk[3].1 == Corner(false, true, true);
    } else {
      assert n == 3 && FaceSteps[3] == -2;
      assert TopWalk[3].1 == Corner(false, true, true) && TopWalk[4].1 == Corner(false, false, true);
    }
  }

  /** Side n starts at the sum of its base rows and draws c from there. */
  lemma SideCorners(a: Vec3, b: Vec3, c: Vec3, n: nat)
    requires n < 4
    ensures !SideWalk[2 * n].0 && SideWalk[2 * n + 1].0
    ensures At(a, b, c, SideWalk[2 * n].1) == SumRows(a, b, SideBases[n])
    ensures At(a, b, c, SideWalk[2 * n + 1].1) == Add(SumRows(a, b, SideBases[n]), c)
  {
    if n == 0 {
    } else if n == 1 {
    } else if n == 2 {
    } else {
      assert n == 3 && SideBases[3] == [0, 1] && SideBases[3][..1] == [0];
      assert [0, 1][..1] == [0] && [0][..0] == [];
      assert SumRows(a, b, [0]) == Add(Zero, a);
      assert SumRows(a, b, SideBases[3]) == Add(Add(Zero, a), b);
    }
  }

  /** Side n adds a move to its base corner and a line along c. */
  lemma SideStep(a: Vec3, b: Vec3, c: Vec3, n: nat)
    requires n < 4
    ensures Render(SideWalk[..2 * n + 2], a, b, c) == Render(SideWalk[..2 * n], a, b, c)
      + [MoveTo(SumRows(a, b, SideBases[n])), DrawTo(Add(SumRows(a, b, SideBases[n]), c))]
  {
    SideCorners(a, b, c, n);
    var k := 2 * n;
    var base := SumRows(a, b, SideBases[n]);
    assert Cmd(SideWalk[k], a, b, c) == MoveTo(base);
    assert Cmd(SideWalk[k + 1], a, b, c) == DrawTo(Add(base, c));
    RenderSnocTwo(SideWalk, k, a, b, c);
  }

  /** Rendering two more steps of a walk appends their pen commands. */
  lemma RenderSnocTwo(walk: seq<(bool, Corner)>, k: nat, a: Vec3, b: Vec3, c: Vec3)
    requires k + 1 < |walk|
    ensures Render(walk[..k + 2], a, b, c) == Render(walk[..k], a, b, c) + [Cmd(walk[k], a, b, c), Cmd(walk[k + 1], a, b, c)]
  {
    RenderSnoc(walk, k, a, b, c);
    RenderSnoc(walk, k + 1, a, b, c);
  }

  /** Rendering one more step of a walk appends its pen command. */
  lemma RenderSnoc(walk: seq<(bool, Corner)>, k: nat, a: Vec3, b: Vec3, c: Vec3)
    requires k < |walk|
    ensures Render(walk[..k + 1], a, b, c) == Render(walk[..k], a, b, c) + [Cmd(walk[k], a, b, c)]
  {
    assert walk[..k + 1] == walk[..k] + [walk[k]];
    RenderAppend(walk[..k], [walk[k]], a, b, c);
    assert Render([walk[k]], a, b, c) == [Cmd(walk[k], a, b, c)];
  }

  /** The cell matrix `run_single` builds from the box bounds and tilts:
      edge lengths on the diagonal, xy, xz, yz below it. */
  method BuildCell(step: EngineStep) returns (c: array2<real>)
    ensures fresh(c) && c.Length0 == 3 && c.Length1 == 3
    ensures forall i, j :: 0 <= i < 3 && 0 <= j < 3 ==>
      c[i, j] == CellEntry(step.boxlo, step.boxhi, step.xy, step.yz, step.xz, i, j)
  {
    c := new real[3, 3]((i, j) => 0.0);
    c[0, 0] := step.boxhi.x - step.boxlo.x;
    c[1, 1] := step.boxhi.y - step.boxlo.y;
    c[2, 2] := step.boxhi.z - step.boxlo.z;
    c[1, 0] := step.xy;
    c[2, 0] := step.xz;
    c[2, 1] := step.yz;
  }

  /** Whether the sorting loop of `run_single` over the first `len` atom IDs
      of `step` runs without IndexError. */
  function SortOk(step: EngineStep, len: nat): bool
  {
    var n := Min(len, |step.ids|);
    Scatter(step.ids[..n], step.ix, |step.ix|, n).Some? && Scatter(step.ids[..n], step.xu, |step.xu|, n).Some?
  }

  /** The sorting loop of `run_single` over the first `len` IDs of `step`
      (`len` being the number of atoms at setup): writes row i of ix and xu to
      row `ids[i] - 1` of zero arrays, re-reading the truncated positions on
      every pass. `ok` is false when a write raised IndexError. */
  method SortById(step: EngineStep, len: nat) returns (ok: bool, xNow: seq<Vec3>, ixSorted: seq<Vec3>)
    ensures var n := Min(len, |step.ids|);
      var ids := step.ids[..n];
      && (ok <==> SortOk(step, len))
      && (ok ==> && xNow == (if n == 0 then step.x else step.x[..Min(len, |step.x|)])
                 && Scatter(ids, step.ix, |step.ix|, n) == Some(ixSorted))
  {
    var n := Min(len, |step.ids|);
    var ids := step.ids[..n];
    xNow := step.x;
    var ixs := new Vec3[|step.ix|](_ => Zero);
    var xus := new Vec3[|step.xu|](_ => Zero);
    assert ixs[..] == seq(|step.ix|, _ => Zero);
    assert xus[..] == seq(|step.xu|, _ => Zero);
    var i := 0;
    while i < n
      invariant 0 <= i <= n
      invariant Scatter(ids, step.ix, |step.ix|, i) == Some(ixs[..])
      invariant Scatter(ids, step.xu, |step.xu|, i) == Some(xus[..])
      invariant xNow == if i == 0 then step.x else step.x[..Min(len, |step.x|)]
    {
      xNow := step.x[..Min(len, |step.x|)];
      var wrote := WriteRow(ixs, ids, step.ix, i);
      if !wrote {
        ScatterNoneStays(ids, step.ix, |step.ix|, i + 1, n);
        return false, xNow, ixs[..];
      }
      wrote := WriteRow(xus, ids, step.xu, i);
      if !wrote {
        ScatterNoneStays(ids, step.xu, |step.xu|, i + 1, n);
        return false, xNow, ixs[..];
      }
      i := i + 1;
    }
    return true, xNow, ixs[..];
  }

  /** One write `sorted[ids[i] - 1, :] = rows[i, :]` of the sorting loop:
      IndexError (false, nothing written) when row i is missing or the ID
      lands outside the array even after wrap-around; otherwise the scatter
      over i + 1 IDs is the array after the write. */
  method WriteRow(sorted: array<Vec3>, ids: seq<int>, rows: seq<Vec3>, i: nat) returns (ok: bool)
    requires i < |ids| && Scatter(ids, rows, sorted.Length, i) == Some(sorted[..])
    modifies sorted
    ensures ok <==> Scatter(ids, rows, sorted.Length, i + 1).Some?
    ensures ok ==> Scatter(ids, rows, sorted.Length, i + 1) == Some(sorted[..])
    ensures !ok ==> sorted[..] == old(sorted[..])
  {
    var k := RowIndex(ids[i] - 1, sorted.Length);
    if i >= |rows| || k.None? {
      return false;
    }
    sorted[k.value] := rows[i];
    return true;
  }

  class OffscreenPanda {
    var atomIds: seq<int>
    var x: seq<Vec3>
    var ix: seq<Vec3>
    var xu: seq<Vec3>
    var xOld: seq<Vec3>
    var ixOld: seq<Vec3>
    var xuOld: seq<Vec3>
    var cell: array2<real>
    var timestep: int
    var tStart: int
    var tStop: int
    var pStart: int
    var pStop: int
    var bondPairs: seq<(nat, nat)>
    var vertices: seq<Vec3>
    /** The thermo history, by upper-case keyword. */
    var simInfo: map<string, seq<real>>
    /** The order in which the keys of simInfo were inserted. */
    var simKeys: seq<string>
    var atomCount: nat
    /** The position of each atom node, in creation order. */
    var atoms: seq<Vec3>
    /** The pen path of the last wireframe drawn. */
    var boxPath: seq<PenCmd>
    var paused: bool
    /** Heading, pitch and roll of the camera pivot. */
    var pivotH: real
    var pivotP: real
    var pivotR: real
    var camDistance: real
    /** The y offset of the camera from the pivot. */
    var camY: real

    predicate Valid()
      reads this`cell, this`simKeys, this`simInfo, this`pivotP, this`camY, this`camDistance
    {
      && cell.Length0 == 3 && cell.Length1 == 3
      && Distinct(simKeys) && (set k | k in simKeys) == simInfo.Keys
      && -PitchLimit <= pivotP <= PitchLimit
      && camY == -camDistance
    }

    /** The atom IDs, arrays and nodes together: the part of the state that
        recording the history and redrawing the box leave alone. */
    function AtomState(): (seq<int>, nat, seq<Vec3>, seq<Vec3>, seq<Vec3>, seq<Vec3>, seq<Vec3>, seq<Vec3>, seq<Vec3>)
      reads this`atomIds, this`atomCount, this`atoms, this`x, this`ix, this`xu, this`xOld, this`ixOld, this`xuOld
    {
      (atomIds, atomCount, atoms, x, ix, xu, xOld, ixOld, xuOld)
    }

    /** The state `setupLammps` leaves behind for engine output `setup`. */
    predicate SetUpFrom(setup: EngineSetup)
      reads this`atomIds, this`x, this`ix, this`xu, this`cell, cell, this`timestep, this`tStart, this`tStop,
        this`pStart, this`pStop, this`bondPairs, this`vertices, this`simInfo, this`atomCount
    {
      && ArraysFrom(setup)
      && RunDefaults()
      && simInfo.Keys == KeySet(setup.script)
      && (forall k :: k in simInfo ==> simInfo[k] == [])
    }

    /** The engine arrays of `setup`, positions cut to the number of IDs, the
        atom count, and a zero cell. */
    predicate ArraysFrom(setup: EngineSetup)
      reads this`atomIds, this`x, this`ix, this`xu, this`cell, cell, this`atomCount
    {
      && atomIds == setup.ids
      && x == setup.x[..Min(|setup.ids|, |setup.x|)]
      && ix == setup.ix && xu == setup.xu
      && atomCount == setup.natoms
      && cell.Length0 == 3 && cell.Length1 == 3
      && (forall i, j :: 0 <= i < 3 && 0 <= j < 3 ==> cell[i, j] == 0.0)
    }

    /** The default run parameters and no bonds or box vertices. */
    predicate RunDefaults()
      reads this`timestep, this`tStart, this`tStop, this`pStart, this`pStop, this`bondPairs, this`vertices
    {
      && timestep == 1 && tStart == 1 && tStop == 1 && pStart == 0 && pStop == 0
      && bondPairs == [] && vertices == []
    }

    /** The cell built from the box of `step`. */
    predicate CellFrom(step: EngineStep)
      reads this`cell, cell
    {
      && cell.Length0 == 3 && cell.Length1 == 3
      && forall i, j :: 0 <= i < 3 && 0 <= j < 3 ==>
           cell[i, j] == CellEntry(step.boxlo, step.boxhi, step.xy, step.yz, step.xz, i, j)
    }

    /** The arrays `run_single` leaves behind for engine output `step`, from
        arrays x0, ix0, xu0: the snapshots, the raw rows as `x` and the ID
        scatter as `ix`; `ok` is false when the ID scatter raised IndexError,
        and then `x` and `ix` keep their old values. */
    predicate ArraysSteppedFrom(step: EngineStep, x0: seq<Vec3>, ix0: seq<Vec3>, xu0: seq<Vec3>, ok: bool)
      reads this`atomIds, this`xOld, this`ixOld, this`xuOld, this`x, this`ix, this`xu
    {
      var n := Min(|atomIds|, |step.ids|);
      var ids := step.ids[..n];
      && xOld == x0 && ixOld == ix0 && xuOld == xu0
      && xu == xu0
      && (ok <==> SortOk(step, |atomIds|))
      && (ok ==> && x == (if n == 0 then step.x else step.x[..Min(|atomIds|, |step.x|)])
                 && Scatter(ids, step.ix, |step.ix|, n) == Some(ix))
      && (!ok ==> x == x0 && ix == ix0)
    }

    /** The state `run_single` leaves behind: the arrays as above, the history
        grown by the step's sample and the cell rebuilt from its box. */
    predicate SteppedFrom(step: EngineStep, x0: seq<Vec3>, ix0: seq<Vec3>, xu0: seq<Vec3>,
                          info0: map<string, seq<real>>, ok: bool)
      reads this`atomIds, this`xOld, this`ixOld, this`xuOld, this`x, this`ix, this`xu, this`simInfo, this`cell, cell
    {
      && ArraysSteppedFrom(step, x0, ix0, xu0, ok)
      && simInfo == AppendSample(info0, step.thermo)
      && CellFrom(step)
    }

    /** `__init__`: the object exists only when `setupLammps` did not raise. */
    constructor(setup: EngineSetup)
      requires Gather(setup.ids, setup.x[..Min(|setup.ids|, |setup.x|)]).Some?
      ensures Valid() && SetUpFrom(setup) && !paused
      ensures atoms == Gather(setup.ids, setup.x[..Min(|setup.ids|, |setup.x|)]).value
    {
      cell := new real[3, 3]((i, j) => 0.0);
      boxPath := [];
      paused := false;
      pivotH, pivotP, pivotR := 0.0, 0.0, 0.0;
      camDistance := InitialCamDistance;
      camY := -InitialCamDistance;
      new;
      var ok := SetupLammps(setup);
    }

    /** `setupLammps`: reads the engine's initial arrays, resets the run
        parameters, parses the thermo keywords and creates the atom nodes. */
    method SetupLammps(setup: EngineSetup) returns (ok: bool)
      requires -PitchLimit <= pivotP <= PitchLimit && camY == -camDistance
      modifies this`atomIds, this`x, this`ix, this`xu, this`cell, this`timestep, this`tStart,
        this`tStop, this`pStart, this`pStop, this`bondPairs, this`vertices, this`simInfo,
        this`simKeys, this`atomCount, this`atoms
      ensures Valid() && SetUpFrom(setup) && fresh(cell)
      ensures var xs := setup.x[..Min(|setup.ids|, |setup.x|)];
        var g := Gather(setup.ids, xs);
        && (ok <==> g.Some?) && (ok ==> atoms == g.value)
        && (!ok ==> && |atoms| < |setup.ids| && RowIndex(setup.ids[|atoms|] - 1, |xs|).None?
                    && Gather(setup.ids[..|atoms|], xs) == Some(atoms))
      ensures paused == old(paused)
    {
      ReadEngineState(setup);
      ok, atoms := CreateAtoms();
    }

    /** The part of `setupLammps` before the atom nodes are created. */
    method ReadEngineState(setup: EngineSetup)
      requires -PitchLimit <= pivotP <= PitchLimit && camY == -camDistance
      modifies this`atomIds, this`x, this`ix, this`xu, this`cell, this`timestep, this`tStart,
        this`tStop, this`pStart, this`pStop, this`bondPairs, this`vertices, this`simInfo,
        this`simKeys, this`atomCount
      ensures Valid() && SetUpFrom(setup) && fresh(cell)
    {
      ReadEngineArrays(setup);
      ResetRunParameters();
      ParseKeywords(setup.script);
    }

    /** The arrays `setupLammps` takes from the engine, positions cut to the
        number of IDs, the atom count, and a zero cell. */
    method ReadEngineArrays(setup: EngineSetup)
      modifies this`atomIds, this`x, this`ix, this`xu, this`cell, this`atomCount
      ensures ArraysFrom(setup) && fresh(cell)
    {
      atomIds := setup.ids;
      x := setup.x[..Min(|setup.ids|, |setup.x|)];
      ix := setup.ix;
      xu := setup.xu;
      atomCount := setup.natoms;
      cell := new real[3, 3]((i, j) => 0.0);
    }

    /** The default run parameters and empty bond and vertex lists. */
    method ResetRunParameters()
      modifies this`timestep, this`tStart, this`tStop, this`pStart, this`pStop, this`bondPairs, this`vertices
      ensures RunDefaults()
    {
      timestep, tStart, tStop, pStart, pStop := 1, 1, 1, 0, 0;
      bondPairs := [];
      vertices := [];
    }

    /** The keyword scan of `setupLammps`: every thermo keyword becomes an
        empty history, in first-insertion order. */
    method ParseKeywords(script: seq<string>)
      modifies this`simInfo, this`simKeys
      ensures simInfo.Keys == KeySet(script) && (forall k :: k in simInfo ==> simInfo[k] == [])
      ensures Distinct(simKeys) && (set k | k in simKeys) == simInfo.Keys
    {
      simInfo, simKeys := ParseThermoKeywords(script);
    }

    /** `createAtomsTask`: one node per atom ID, placed at row `id - 1` of x,
        in ID order; IndexError stops the loop with the nodes created so far,
        and the first ID left over is the one that raised. */
    method CreateAtoms() returns (ok: bool, nodes: seq<Vec3>)
      ensures ok <==> Gather(atomIds, x).Some?
      ensures ok ==> nodes == Gather(atomIds, x).value
      ensures !ok ==> (
        && |nodes| < |atomIds|
        && RowIndex(atomIds[|nodes|] - 1, |x|).None?
        && Gather(atomIds[..|nodes|], x) == Some(nodes))
    {
      nodes := [];
      var i := 0;
      while i < |atomIds|
        invariant 0 <= i <= |atomIds|
        invariant Gather(atomIds[..i], x) == Some(nodes)
      {
        var k := RowIndex(atomIds[i] - 1, |x|);
        if k.None? {
          GatherSpec(atomIds, x);
          return false, nodes;
        }
        assert atomIds[..i + 1][..i] == atomIds[..i];
        nodes := nodes + [x[k.value]];
        i := i + 1;
      }
      assert atomIds[..i] == atomIds;
      return true, nodes;
    }

    /** The first part of `run_single`: copies of the arrays before the step. */
    method Snapshot()
      modifies this`xOld, this`ixOld, this`xuOld
      ensures xOld == x && ixOld == ix && xuOld == xu
    {
      xOld, ixOld, xuOld := x, ix, xu;
    }

    /** The stand-in for `extractThermo`. */
    method ExtractThermo(sample: map<string, real>)
      requires Valid()
      modifies this`simInfo
      ensures Valid() && simInfo == AppendSample(old(simInfo), sample)
    {
      simInfo := AppendSample(simInfo, sample);
    }

    /** The middle part of `run_single`: the cell is replaced by one built
        from the box of `step`. */
    method UpdateCell(step: EngineStep)
      requires Valid()
      modifies this`cell
      ensures Valid() && CellFrom(step) && fresh(cell)
    {
      cell := BuildCell(step);
    }

    /** `run_single`: snapshots the arrays, records thermo, rebuilds the cell
        and sorts the image flags by atom ID. `x` is taken unsorted and the
        sorted `xu` is discarded. */
    method RunSingle(step: EngineStep) returns (ok: bool)
      requires Valid()
      modifies this`xOld, this`ixOld, this`xuOld, this`simInfo, this`cell, this`x, this`ix
      ensures Valid() && fresh(cell)
      ensures SteppedFrom(step, old(x), old(ix), old(xu), old(simInfo), ok)
    {
      Snapshot();
      ExtractThermo(step.thermo);
      UpdateCell(step);
      var xNow, ixSorted;
      ok, xNow, ixSorted := SortById(step, |atomIds|);
      if ok {
        x, ix := xNow, ixSorted;
      }
    }

    /** `moveAtomsTask`: unless paused, one engine step, then node i is
        moved to row i of x for every i below the atom count. */
    method MoveAtoms(step: EngineStep) returns (ok: bool)
      requires Valid()
      modifies this`xOld, this`ixOld, this`xuOld, this`simInfo, this`cell, this`x, this`ix, this`atoms
      ensures Valid()
      ensures old(paused) ==> ok && unchanged(this)
      ensures !old(paused) ==> fresh(cell) && SteppedFrom(step, old(x), old(ix), old(xu), old(simInfo), SortOk(step, |atomIds|))
      ensures !old(paused) ==> (ok <==> SortOk(step, |atomIds|) && atomCount <= |old(atoms)| && atomCount <= |x|)
      ensures !old(paused) ==> atoms == if SortOk(step, |atomIds|) then Placed(old(atoms), x, atomCount) else old(atoms)
    {
      if paused {
        return true;
      }
      var runOk := RunSingle(step);
      if !runOk {
        return false;
      }
      ok := PlaceAtoms();
    }

    /** The loop of `moveAtomsTask`: `setPos` of node i to row i of x for i
        below the atom count; IndexError when either list is shorter. */
    method PlaceAtoms() returns (ok: bool)
      modifies this`atoms
      ensures ok <==> atomCount <= |old(atoms)| && atomCount <= |x|
      ensures atoms == Placed(old(atoms), x, atomCount)
    {
      var i := 0;
      while i < atomCount
        invariant 0 <= i <= atomCount && i <= |old(atoms)| && i <= |x|
        invariant atoms == Placed(old(atoms), x, i)
      {
        if i >= |atoms| || i >= |x| {
          assert Placed(old(atoms), x, i) == Placed(old(atoms), x, atomCount);
          return false;
        }
        atoms := atoms[i := x[i]];
        i := i + 1;
      }
      return true;
    }

    /** `drawSimulationBoxTask`: walks the wireframe of the cell, face by
        face. */
    method DrawSimulationBox()
      requires Valid()
      modifies this`boxPath, cell
      ensures boxPath == BoxPath(old(Row(cell, 0)), old(Row(cell, 1)), old(Row(cell, 2)))
      ensures forall i, j :: 0 <= i < 3 && 0 <= j < 3 ==> cell[i, j] == old(cell[i, j])
    {
      ghost var a, b, c := Row(cell, 0), Row(cell, 1), Row(cell, 2);
      var bottom := BottomFacePath();
      var sides := SupportSidesPath();
      var top := TopFacePath();
      RenderAppend(BottomWalk, SideWalk, a, b, c);
      RenderAppend(BottomWalk + SideWalk, TopWalk, a, b, c);
      boxPath := bottom + sides + top;
    }

    /** The bottom face: from the origin, add +a, +b, -a, -b in turn. */
    method BottomFacePath() returns (path: seq<PenCmd>)
      requires cell.Length0 == 3 && cell.Length1 == 3
      ensures path == Render(BottomWalk, Row(cell, 0), Row(cell, 1), Row(cell, 2))
    {
      ghost var a, b, c := Row(cell, 0), Row(cell, 1), Row(cell, 2);
      var p := Zero;
      path := [MoveTo(p)];
      assert path == Render(BottomWalk[..1], a, b, c);
      for n := 0 to 4
        invariant path == Render(BottomWalk[..n + 1], a, b, c)
        invariant p == At(a, b, c, BottomWalk[n].1)
      {
        var i := FaceSteps[n];
        BottomStep(a, b, c, n);
        p := Add(p, Scale(Sign(i), Row(cell, Abs(i) - 1)));
        RenderSnoc(BottomWalk, n + 1, a, b, c);
        path := path + [DrawTo(p)];
      }
      assert BottomWalk[..5] == BottomWalk;
    }

    /** The support sides: from each base corner, draw the vector c. */
    method SupportSidesPath() returns (path: seq<PenCmd>)
      requires cell.Length0 == 3 && cell.Length1 == 3
      ensures path == Render(SideWalk, Row(cell, 0), Row(cell, 1), Row(cell, 2))
    {
      ghost var a, b, c := Row(cell, 0), Row(cell, 1), Row(cell, 2);
      path := [];
      for n := 0 to 4
        invariant path == Render(SideWalk[..2 * n], a, b, c)
      {
        SideCorners(a, b, c, n);
        var p := BaseCorner(n);
        SideStep(a, b, c, n);
        path := path + [MoveTo(p)];
        p := Add(p, Row(cell, 2));
        path := path + [DrawTo(p)];
      }
      assert SideWalk[..8] == SideWalk;
    }

    /** The base corner of side n: the sum of the cell rows it names, one
        row at a time. */
    method BaseCorner(n: nat) returns (p: Vec3)
      requires cell.Length0 == 3 && cell.Length1 == 3 && n < 4
      ensures p == SumRows(Row(cell, 0), Row(cell, 1), SideBases[n])
    {
      var base := SideBases[n];
      p := Zero;
      for m := 0 to |base|
        invariant p == SumRows(Row(cell, 0), Row(cell, 1), base[..m])
      {
        assert base[..m + 1][..m] == base[..m];
        p := Add(p, Row(cell, base[m]));
      }
      assert base[..|base|] == base;
    }

    /** The top face: the pen position is a view of cell row 2, so each step
        is added into that row. It visits c+a, c+a+b, c+b and comes back to
        c, which leaves the cell as it was. */
    method TopFacePath() returns (path: seq<PenCmd>)
      requires cell.Length0 == 3 && cell.Length1 == 3
      modifies cell
      ensures path == Render(TopWalk, old(Row(cell, 0)), old(Row(cell, 1)), old(Row(cell, 2)))
      ensures forall i, j :: 0 <= i < 3 && 0 <= j < 3 ==> cell[i, j] == old(cell[i, j])
    {
      ghost var a, b, c := Row(cell, 0), Row(cell, 1), Row(cell, 2);
      path := [MoveTo(Row(cell, 2))];
      assert path == Render(TopWalk[..1], a, b, c);
      for n := 0 to 4
        invariant Row(cell, 0) == a && Row(cell, 1) == b
        invariant Row(cell, 2) == At(a, b, c, TopWalk[n].1)
        invariant path == Render(TopWalk[..n + 1], a, b, c)
      {
        var i := FaceSteps[n];
        TopStep(a, b, c, n);
        var k := Abs(i) - 1;
        assert Row(cell, k) == if Abs(i) == 1 then a else b;
        AddToRow2(Sign(i), k);
        assert Row(cell, 2) == At(a, b, c, TopWalk[n + 1].1);
        RenderSnoc(TopWalk, n + 1, a, b, c);
        path := path + [DrawTo(Row(cell, 2))];
      }
      assert TopWalk[..5] == TopWalk;
    }

    /** `p += s * self.cell[k, :]` where `p` is the view of row 2 of the cell:
        row 2 itself changes and rows 0 and 1 stay. */
    method AddToRow2(s: real, k: nat)
      requires cell.Length0 == 3 && cell.Length1 == 3 && k < 2
      modifies cell
      ensures Row(cell, 0) == old(Row(cell, 0)) && Row(cell, 1) == old(Row(cell, 1))
      ensures Row(cell, 2) == Add(old(Row(cell, 2)), Scale(s, old(Row(cell, k))))
    {
      var q := Add(Row(cell, 2), Scale(s, Row(cell, k)));
      cell[2, 0], cell[2, 1], cell[2, 2] := q.x, q.y, q.z;
    }

    /** `rotate_camera`: heading turns by -0.2 dx, pitch by 0.2 dy within
        [-85, 85], roll is reset. */
    method RotateCamera(dx: real, dy: real)
      modifies this`pivotH, this`pivotP, this`pivotR
      ensures pivotH == old(pivotH) - dx * 0.2
      ensures pivotP == ClampPitch(old(pivotP) + dy * 0.2)
      ensures -PitchLimit <= pivotP <= PitchLimit
      ensures pivotR == 0.0
    {
      var h := pivotH - dx * 0.2;
      var p := pivotP + dy * 0.2;
      p := ClampPitch(p);
      pivotH, pivotP, pivotR := h, p, 0.0;
    }

    /** `zoom_camera`: the camera distance shrinks by delta, with no lower
        bound, and the camera sits at y = -distance. */
    method ZoomCamera(delta: real)
      modifies this`camDistance, this`camY
      ensures camDistance == old(camDistance) - delta
      ensures camY == -camDistance
    {
      camDistance := camDistance - delta;
      camY := -camDistance;
    }
  }
}
