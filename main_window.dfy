/** `MainWindow`, the Qt window around the panda view: the play/pause button,
    the reset button, the three sliders, one graph per recorded thermo
    quantity, and the frame update that steps the simulation, records the
    thermo history and, once STEP holds more than `info_size` samples, drops
    at most one oldest sample of STEP and of each graphed series per frame. */
module Window {
  import opened Geometry
  import opened ThermoKeywords
  import opened AtomOrder
  import opened BoxWireframe
  import opened Panda
  import opened Drag

  /** The key whose series is the x axis of every graph; it gets no graph. */
  const StepKey: string := "STEP"

  /** One plot: the history key it shows, its title and its y-axis label. */
  datatype Graph = Graph(key: string, title: string, yLabel: string)

  /** The button text for a paused state: it offers the opposite action. */
  function ButtonText(paused: bool): (t: string)
    ensures paused <==> t == "Play"
    ensures !paused <==> t == "Pause"
  {
    if paused then "Play" else "Pause"
  }

  /** The keys that get a checkbox and a graph: every key except STEP, in
      their order. */
  function Graphable(keys: seq<string>): (r: seq<string>)
    ensures |r| <= |keys|
    ensures forall k :: k in r <==> k in keys && k != StepKey
  {
    if |keys| == 0 then []
    else Graphable(keys[..|keys| - 1]) + (if keys[|keys| - 1] == StepKey then [] else [keys[|keys| - 1]])
  }

  /** Graphable keeps distinct keys distinct. */
  lemma {:induction false} GraphableDistinct(keys: seq<string>)
    requires Distinct(keys)
    ensures Distinct(Graphable(keys))
  {
    if |keys| > 0 {
      var init := keys[..|keys| - 1];
      assert Distinct(init) by {
        forall i, j | 0 <= i < j < |init| ensures init[i] != init[j] {
          assert init[i] == keys[i] && init[j] == keys[j];
        }
      }
      GraphableDistinct(init);
      assert keys[|keys| - 1] !in init;
    }
  }

  /** The graph made for a key: TEMP and PRESS have their own titles, the key
      DEFAULT falls on the default entry with its empty label, and any other key
      is its own label; every title is the label followed by " over Time". */
  function GraphFor(key: string): (g: Graph)
    ensures g.key == key && g.title == g.yLabel + " over Time"
    ensures key == "TEMP" ==> g.yLabel == "Temperature"
    ensures key == "PRESS" ==> g.yLabel == "Pressure"
    ensures key == "DEFAULT" ==> g.yLabel == ""
    ensures key != "TEMP" && key != "PRESS" && key != "DEFAULT" ==> g.yLabel == key
  {
    if key == "TEMP" then Graph(key, "Temperature over Time", "Temperature")
    else if key == "PRESS" then Graph(key, "Pressure over Time", "Pressure")
    else if key == "DEFAULT" then Graph(key, " over Time", "")
    else Graph(key, key + " over Time", key)
  }

  function KeysOf(gs: seq<Graph>): (r: seq<string>)
    ensures |r| == |gs| && forall i :: 0 <= i < |gs| ==> r[i] == gs[i].key
  {
    seq(|gs|, i requires 0 <= i < |gs| => gs[i].key)
  }

  /** The checkbox loop of `__init__`: one checkbox per key other than STEP. */
  method CheckboxKeys(keys: seq<string>) returns (boxes: seq<string>)
    ensures boxes == Graphable(keys)
  {
    boxes := [];
    for i := 0 to |keys|
      invariant boxes == Graphable(keys[..i])
    {
      assert keys[..i + 1][..i] == keys[..i];
      if keys[i] != StepKey {
        boxes := boxes + [keys[i]];
      }
    }
    assert keys[..|keys|] == keys;
  }

  /** The graph loop of `__init__`: a graph for every key other than STEP, in
      key order, titled and labelled as GraphFor says. */
  method BuildGraphs(keys: seq<string>) returns (gs: seq<Graph>)
    ensures KeysOf(gs) == Graphable(keys)
    ensures forall i :: 0 <= i < |gs| ==> gs[i] == GraphFor(gs[i].key)
  {
    gs := [];
    for i := 0 to |keys|
      invariant KeysOf(gs) == Graphable(keys[..i])
      invariant forall j :: 0 <= j < |gs| ==> gs[j] == GraphFor(gs[j].key)
    {
      assert keys[..i + 1][..i] == keys[..i];
      if keys[i] != StepKey {
        gs := gs + [GraphFor(keys[i])];
      }
    }
    assert keys[..|keys|] == keys;
  }

  /** Whether every series the curve loop looks up exists: STEP, and each
      graphed key. */
  predicate AllFound(info: map<string, seq<real>>, keys: seq<string>)
  {
    StepKey in info && forall i :: 0 <= i < |keys| ==> keys[i] in info
  }

  /** The trim loop over the graphed series: drops the oldest sample of each
      in turn; a series that is missing or empty raises (false) and leaves
      the series before it trimmed. */
  function PopEach(info: map<string, seq<real>>, keys: seq<string>): (r: (bool, map<string, seq<real>>))
    ensures r.1.Keys == info.Keys
    decreases |keys|
  {
    if |keys| == 0 then (true, info)
    else if keys[0] in info && |info[keys[0]]| > 0 then PopEach(info[keys[0] := info[keys[0]][1..]], keys[1..])
    else (false, info)
  }

  /** With distinct keys, the trim succeeds exactly when every series it
      visits is present and non-empty, and then each of them has lost its
      first sample while every other series is as it was. */
  lemma {:induction false} PopEachSpec(info: map<string, seq<real>>, keys: seq<string>)
    requires Distinct(keys)
    ensures PopEach(info, keys).0 <==> forall i :: 0 <= i < |keys| ==> keys[i] in info && |info[keys[i]]| > 0
    ensures PopEach(info, keys).0 ==>
      forall k :: k in info ==> PopEach(info, keys).1[k] == if k in keys then info[k][1..] else info[k]
    decreases |keys|
  {
    if |keys| > 0 && keys[0] in info && |info[keys[0]]| > 0 {
      var k0 := keys[0];
      var rest := keys[1..];
      var next := info[k0 := info[k0][1..]];
      assert Distinct(rest) by {
        forall i, j | 0 <= i < j < |rest| ensures rest[i] != rest[j] {
          assert rest[i] == keys[i + 1] && rest[j] == keys[j + 1];
        }
      }
      assert k0 !in rest by {
        forall i | 0 <= i < |rest| ensures rest[i] != k0 {
          assert rest[i] == keys[i + 1];
        }
      }
      PopEachSpec(next, rest);
      if PopEach(info, keys).0 {
        forall i | 0 <= i < |keys| ensures keys[i] in info && |info[keys[i]]| > 0 {
          if i > 0 {
            assert keys[i] == rest[i - 1];
          }
        }
      }
      if forall i :: 0 <= i < |keys| ==> keys[i] in info && |info[keys[i]]| > 0 {
        forall i | 0 <= i < |rest| ensures rest[i] in next && |next[rest[i]]| > 0 {
          assert rest[i] == keys[i + 1];
        }
      }
    }
  }

  /** The whole trim: the STEP series loses its first sample, then each graphed
      series in turn. */
  function DropOldest(info: map<string, seq<real>>, keys: seq<string>): (r: (bool, map<string, seq<real>>))
    requires StepKey in info && |info[StepKey]| > 0
    ensures r.1.Keys == info.Keys
  {
    PopEach(info[StepKey := info[StepKey][1..]], keys)
  }

  /** With distinct graphed keys other than STEP, the trim succeeds exactly
      when every graphed series is present and non-empty; then STEP and each
      graphed series have lost exactly their oldest sample and every other
      series is as it was. When it raises, STEP has still lost its oldest. */
  lemma DropOldestSpec(info: map<string, seq<real>>, keys: seq<string>)
    requires Distinct(keys) && StepKey !in keys && StepKey in info && |info[StepKey]| > 0
    ensures DropOldest(info, keys).0 <==> forall i :: 0 <= i < |keys| ==> keys[i] in info && |info[keys[i]]| > 0
    ensures DropOldest(info, keys).0 ==>
      forall k :: k in info ==> DropOldest(info, keys).1[k] == if k == StepKey || k in keys then info[k][1..] else info[k]
    ensures DropOldest(info, keys).1[StepKey] == info[StepKey][1..]
  {
    var popped := info[StepKey := info[StepKey][1..]];
    PopEachSpec(popped, keys);
    PopEachLeavesOthers(popped, keys, StepKey);
    assert forall i :: 0 <= i < |keys| ==> (keys[i] in popped <==> keys[i] in info) && (keys[i] in info ==> popped[keys[i]] == info[keys[i]]);
  }

  /** The history part of `update_frame`, from the history `info` that the
      engine step left and the thermo `sample`: the start time exists only when
      some graph was made (else AttributeError), the sample is recorded, the
      curve loop looks each series up (else KeyError), and once STEP holds more
      than `info_size` samples the oldest is dropped. */
  function RecordFrame(info: map<string, seq<real>>, sample: map<string, real>, keys: seq<string>)
    : (r: (bool, map<string, seq<real>>))
    ensures r.1.Keys == info.Keys
    ensures r.0 ==> |keys| > 0 && AllFound(info, keys)
  {
    if |keys| == 0 then (false, info)
    else
      var recorded := AppendSample(info, sample);
      if !AllFound(recorded, keys) then (false, recorded)
      else if |recorded[StepKey]| > InfoSize then DropOldest(recorded, keys)
      else (true, recorded)
  }

  /** What one frame does to the history, for distinct graphed keys other
      than STEP: with no graph nothing is recorded; otherwise the sample is
      recorded, a missing series raises with the sample recorded, and past
      `info_size` STEP samples the oldest sample of STEP and of each graphed
      series goes, raising on an empty graphed series. */
  lemma RecordFrameSpec(info: map<string, seq<real>>, sample: map<string, real>, keys: seq<string>)
    requires Distinct(keys) && StepKey !in keys
    ensures var rec := AppendSample(info, sample);
      var r := RecordFrame(info, sample, keys);
      var over := StepKey in rec && |rec[StepKey]| > InfoSize;
      && (|keys| == 0 ==> r == (false, info))
      && (|keys| > 0 && !AllFound(rec, keys) ==> r == (false, rec))
      && (r.0 <==> |keys| > 0 && AllFound(rec, keys) && (over ==> forall i :: 0 <= i < |keys| ==> |rec[keys[i]]| > 0))
      && (r.0 ==> forall k :: k in rec ==> r.1[k] == if over && (k == StepKey || k in keys) then rec[k][1..] else rec[k])
      && (|keys| > 0 && AllFound(rec, keys) && over ==> r.1[StepKey] == rec[StepKey][1..])
  {
    var rec := AppendSample(info, sample);
    if |keys| > 0 && AllFound(rec, keys) && |rec[StepKey]| > InfoSize {
      DropOldestSpec(rec, keys);
    }
  }

  /** Each frame records the sample twice, once inside the engine step and
      once in the history update, and trims at most one: when the sample names
      STEP and the STEP history is at the limit or above, it grows by one
      sample per frame, so the limit does not bound it. */
  lemma HistoryOutgrowsLimit(info: map<string, seq<real>>, sample: map<string, real>, keys: seq<string>)
    requires |keys| > 0 && StepKey !in keys && StepKey in sample
    requires AllFound(info, keys) && |info[StepKey]| >= InfoSize
    ensures var r := RecordFrame(AppendSample(info, sample), sample, keys);
      StepKey in r.1 && |r.1[StepKey]| == |info[StepKey]| + 1
  {
    var once := AppendSample(info, sample);
    var twice := AppendSample(once, sample);
    assert AllFound(once, keys);
    assert AllFound(twice, keys);
    PopEachLeavesOthers(twice[StepKey := twice[StepKey][1..]], keys, StepKey);
  }

  /** The trim of graphed series leaves every series it does not visit as it
      was. */
  lemma {:induction false} PopEachLeavesOthers(info: map<string, seq<real>>, keys: seq<string>, k: string)
    requires k in info && k !in keys
    ensures PopEach(info, keys).1[k] == info[k]
    decreases |keys|
  {
    if |keys| > 0 && keys[0] in info && |info[keys[0]]| > 0 {
      assert k != keys[0] && k !in keys[1..];
      PopEachLeavesOthers(info[keys[0] := info[keys[0]][1..]], keys[1..], k);
    }
  }

  /** The main window. `buttonText` is the start/stop button's label; the
      three slider values are kept as numbers. */
  class MainWindow {
    const panda: OffscreenPanda
    const view: PandaLabel
    var buttonText: string
    var speedValue: int
    var tempValue: int
    var pressValue: int
    /** The keys with a checkbox, in order. */
    var checkboxKeys: seq<string>
    /** The graphs, in the order they were added to `graphs`. */
    var graphs: seq<Graph>

    /** The button offers to play exactly when the simulation is paused. */
    predicate Synced()
      reads this`buttonText, panda`paused
    {
      buttonText == ButtonText(panda.paused)
    }

    /** The graphs are keyed by distinct keys other than STEP, as the
        dictionary `graphs` is; no method changes them. */
    predicate GraphKeysOk()
      reads this`graphs
    {
      Distinct(KeysOf(graphs)) && StepKey !in KeysOf(graphs)
    }

    /** `__init__`: the button reads "Pause", the sliders sit at their lowest
        value or at 0, one checkbox and one graph per key other than STEP. */
    constructor(panda: OffscreenPanda)
      requires panda.Valid()
      ensures GraphKeysOk()
      ensures this.panda == panda && fresh(view) && view.panda == panda && view.last == None
      ensures buttonText == "Pause" && (!panda.paused ==> Synced())
      ensures speedValue == 1 && tempValue == 0 && pressValue == 0
      ensures checkboxKeys == Graphable(panda.simKeys)
      ensures KeysOf(graphs) == Graphable(panda.simKeys)
      ensures forall i :: 0 <= i < |graphs| ==> graphs[i] == GraphFor(graphs[i].key)
    {
      this.panda := panda;
      buttonText := "Pause";
      speedValue, tempValue, pressValue := 1, 0, 0;
      var boxes := CheckboxKeys(panda.simKeys);
      var gs := BuildGraphs(panda.simKeys);
      checkboxKeys, graphs := boxes, gs;
      view := new PandaLabel(panda);
      GraphableDistinct(panda.simKeys);
    }

    /** `toggle_play`: flips the pause flag and relabels the button. */
    method TogglePlay()
      modifies panda`paused, this`buttonText
      ensures panda.paused == !old(panda.paused)
      ensures Synced()
    {
      panda.paused := !panda.paused;
      buttonText := ButtonText(panda.paused);
    }

    /** `reset_simulation`: the sliders go back to 1, 1 and 0 and the engine
        state is read afresh; `ok` is false when creating the atom nodes
        raised. */
    method ResetSimulation(setup: EngineSetup) returns (ok: bool)
      requires panda.Valid()
      modifies this`speedValue, this`tempValue, this`pressValue,
        panda`atomIds, panda`x, panda`ix, panda`xu, panda`cell, panda`timestep, panda`tStart,
        panda`tStop, panda`pStart, panda`pStop, panda`bondPairs, panda`vertices, panda`simInfo,
        panda`simKeys, panda`atomCount, panda`atoms
      ensures speedValue == 1 && tempValue == 1 && pressValue == 0
      ensures panda.Valid() && panda.SetUpFrom(setup)
      ensures var xs := setup.x[..Min(|setup.ids|, |setup.x|)];
        var g := Gather(setup.ids, xs);
        && (ok <==> g.Some?) && (ok ==> panda.atoms == g.value)
        && (!ok ==> && |panda.atoms| < |setup.ids| && RowIndex(setup.ids[|panda.atoms|] - 1, |xs|).None?
                    && Gather(setup.ids[..|panda.atoms|], xs) == Some(panda.atoms))
      ensures panda.paused == old(panda.paused)
    {
      speedValue, tempValue, pressValue := 1, 1, 0;
      ok := panda.SetupLammps(setup);
    }

    /** The curve loop's look-ups: STEP and each graphed series. */
    method LookUpSeries() returns (found: bool)
      requires |graphs| > 0
      ensures found <==> AllFound(panda.simInfo, KeysOf(graphs))
    {
      var i := 0;
      while i < |graphs|
        invariant 0 <= i <= |graphs|
        invariant i > 0 ==> StepKey in panda.simInfo
        invariant forall j :: 0 <= j < i ==> graphs[j].key in panda.simInfo
      {
        if StepKey !in panda.simInfo || graphs[i].key !in panda.simInfo {
          return false;
        }
        i := i + 1;
      }
      return true;
    }

    /** The trim of `update_frame`: the oldest STEP sample goes, then the
        oldest sample of each graphed series in graph order. */
    method TrimHistory() returns (ok: bool)
      requires panda.Valid() && StepKey in panda.simInfo && |panda.simInfo[StepKey]| > 0
      modifies panda`simInfo
      ensures panda.Valid()
      ensures (ok, panda.simInfo) == DropOldest(old(panda.simInfo), KeysOf(graphs))
      ensures GraphKeysOk() ==>
        && (ok <==> forall i :: 0 <= i < |graphs| ==> graphs[i].key in old(panda.simInfo) && |old(panda.simInfo)[graphs[i].key]| > 0)
        && (ok ==> forall k :: k in old(panda.simInfo) ==>
                     panda.simInfo[k] == if k == StepKey || k in KeysOf(graphs) then old(panda.simInfo)[k][1..] else old(panda.simInfo)[k])
    {
      var keys := KeysOf(graphs);
      panda.simInfo := panda.simInfo[StepKey := panda.simInfo[StepKey][1..]];
      ok := true;
      var i := 0;
      while i < |graphs|
        invariant 0 <= i <= |graphs|
        invariant PopEach(panda.simInfo, keys[i..]) == DropOldest(old(panda.simInfo), keys)
      {
        assert keys[i..][0] == graphs[i].key && keys[i..][1..] == keys[i + 1..];
        var k := graphs[i].key;
        if k !in panda.simInfo || |panda.simInfo[k]| == 0 {
          ok := false;
          break;
        }
        panda.simInfo := panda.simInfo[k := panda.simInfo[k][1..]];
        i := i + 1;
      }
      if GraphKeysOk() {
        DropOldestSpec(old(panda.simInfo), keys);
      }
    }

    /** The history part of `update_frame`, as RecordFrame describes it. */
    method RecordHistory(sample: map<string, real>) returns (ok: bool)
      requires panda.Valid()
      modifies panda`simInfo
      ensures panda.Valid()
      ensures (ok, panda.simInfo) == RecordFrame(old(panda.simInfo), sample, KeysOf(graphs))
    {
      if |graphs| == 0 {
        return false;
      }
      panda.ExtractThermo(sample);
      var found := LookUpSeries();
      if !found {
        return false;
      }
      if |panda.simInfo[StepKey]| > InfoSize {
        ok := TrimHistory();
      } else {
        ok := true;
      }
    }

    /** The rest of `update_frame` once the atoms have moved: the history is
        recorded and trimmed, then the box is redrawn from the cell. */
    method FinishFrame(sample: map<string, real>) returns (ok: bool)
      requires panda.Valid()
      modifies panda`simInfo, panda`boxPath, panda.cell
      ensures panda.Valid()
      ensures (ok, panda.simInfo) == RecordFrame(old(panda.simInfo), sample, KeysOf(graphs))
      ensures ok ==> panda.boxPath == BoxPath(old(Row(panda.cell, 0)), old(Row(panda.cell, 1)), old(Row(panda.cell, 2)))
      ensures !ok ==> panda.boxPath == old(panda.boxPath)
      ensures forall i, j :: 0 <= i < 3 && 0 <= j < 3 ==> panda.cell[i, j] == old(panda.cell[i, j])
      ensures panda.AtomState() == old(panda.AtomState())
    {
      ok := RecordHistory(sample);
      if ok {
        panda.DrawSimulationBox();
      }
    }

    /** `update_frame`: unless paused, one engine step with the atom nodes
        moved, the history recorded and trimmed, and the box redrawn; `ok` is
        false when one of those raised, leaving the state reached so far. */
    method UpdateFrame(step: EngineStep) returns (ok: bool)
      requires panda.Valid()
      modifies panda`xOld, panda`ixOld, panda`xuOld, panda`simInfo, panda`cell, panda`x, panda`ix,
        panda`atoms, panda`boxPath
      ensures panda.Valid()
      ensures old(panda.paused) ==> ok && unchanged(panda)
      ensures !old(panda.paused) ==>
        var moved := SortOk(step, |panda.atomIds|) && panda.atomCount <= |old(panda.atoms)| && panda.atomCount <= |panda.x|;
        var stepped := AppendSample(old(panda.simInfo), step.thermo);
        && panda.ArraysSteppedFrom(step, old(panda.x), old(panda.ix), old(panda.xu), SortOk(step, |panda.atomIds|))
        && panda.CellFrom(step)
        && panda.atoms == (if SortOk(step, |panda.atomIds|) then Placed(old(panda.atoms), panda.x, panda.atomCount) else old(panda.atoms))
        && (!moved ==> !ok && panda.simInfo == stepped)
        && (moved ==> (ok, panda.simInfo) == RecordFrame(stepped, step.thermo, KeysOf(graphs)))
        && (ok ==> panda.boxPath == BoxPath(Row(panda.cell, 0), Row(panda.cell, 1), Row(panda.cell, 2)))
        && (!ok ==> panda.boxPath == old(panda.boxPath))
    {
      if panda.paused {
        return true;
      }
      var moved := panda.MoveAtoms(step);
      if !moved {
        return false;
      }
      ok := FinishFrame(step.thermo);
    }
  }
}
