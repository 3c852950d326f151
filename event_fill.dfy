/** The fill rule of one event, as the sequence of get-or-create-and-fill
    requests it makes on the collection. An accepted event runs a
    reconstructed pass and, when Monte-Carlo truth is present, a generated
    pass; in each pass every selected track, for every trigger class of the
    pass, fills "nevents" under "/class" and then, if the pass's pT-cut gate
    allows it, fills "MuSparse" under "/class/centrality". */
module EventFill {
  import opened Aggregates
  import opened MergeableStore
  import SparseLayout

  /** Which event representation the input handler delivered. */
  datatype EventFormat = Aod | Esd | NoEvent

  /** A reconstructed track or a generated particle. `charge` is the
      particle's Charge() value; the PDG and status codes are used only for
      generated particles. `index` is an opaque identity of the track: it
      stands for the rest of its state, which the cuts may read, and is not
      tied to the track's position in its event. */
  datatype Particle = Particle(index: nat, pt: real, eta: real, phi: real, charge: int, pdgCode: int, statusCode: int)

  /** What the analysis task reads of one event: its format, the verdict of the
      event cuts, the trigger classes the event cuts select, the centrality
      as it appears in the identifier, the reconstructed tracks and the
      Monte-Carlo particles when an MC event exists. */
  datatype InputEvent = InputEvent(
    format: EventFormat,
    passesEventCuts: bool,
    selectedTrigClasses: seq<string>,
    centrality: string,
    tracks: seq<Particle>,
    mc: Option<seq<Particle>>)

  /** The track cuts, as uninterpreted predicates: the reconstructed-track
      selection, and whether a track passes the pT cut level of a trigger
      class. */
  datatype MuonCuts = MuonCuts(
    trackSelected: Particle -> bool,
    ptCutMatches: (Particle, string) -> bool)

  datatype Step = Reconstructed | Generated

  /** The trigger class used for every generated particle. */
  const GeneratedClass: string := "generated"

  predicate Accepted(ev: InputEvent)
  {
    ev.format != NoEvent && ev.passesEventCuts
  }

  function NSteps(ev: InputEvent): (n: nat)
    ensures n == 2 <==> ev.mc.Some?
    ensures n == 1 <==> ev.mc.None?
  {
    if ev.mc.Some? then 2 else 1
  }

  function StepOf(istep: nat): Step
  {
    if istep == 0 then Reconstructed else Generated
  }

  function StepClasses(ev: InputEvent, step: Step): seq<string>
  {
    if step == Reconstructed then ev.selectedTrigClasses else [GeneratedClass]
  }

  function StepTracks(ev: InputEvent, step: Step): seq<Particle>
  {
    if step == Reconstructed then ev.tracks
    else if ev.mc.Some? then ev.mc.value
    else []
  }

  function Abs(x: int): nat
  {
    if x < 0 then -x else x
  }

  /** Reconstructed tracks go through the track cuts; generated particles
      must be final-state muons (|PDG| 13, status below 10). */
  predicate IsSelected(step: Step, cuts: MuonCuts, p: Particle)
  {
    if step == Reconstructed then cuts.trackSelected(p)
    else Abs(p.pdgCode) == 13 && p.statusCode < 10
  }

  /** The pT-cut gate before the sparse fill applies to the reconstructed
      pass only. */
  predicate PassesPtGate(step: Step, cuts: MuonCuts, p: Particle, trigClass: string)
  {
    step == Generated || cuts.ptCutMatches(p, trigClass)
  }

  /** The vector filled into the sparse histogram, in axis order. */
  function ContainerInput(p: Particle): (x: seq<real>)
    ensures |x| == SparseLayout.NVars
    ensures x[SparseLayout.HvarPt] == p.pt && x[SparseLayout.HvarEta] == p.eta
    ensures x[SparseLayout.HvarCharge] == (p.charge as real) / 3.0 && x[SparseLayout.HvarPhi] == p.phi
  {
    [p.pt, p.eta, (p.charge as real) / 3.0, p.phi]
  }

  function NeventsId(trigClass: string): string
  {
    "/" + trigClass
  }

  function SparseId(trigClass: string, centrality: string): string
  {
    NeventsId(trigClass) + "/" + centrality
  }

  function NeventsKey(trigClass: string): Key
  {
    (NeventsId(trigClass), "nevents")
  }

  function SparseKey(trigClass: string, centrality: string): Key
  {
    (SparseId(trigClass, centrality), "MuSparse")
  }

  // ---------------------------------------------------------------------
  // The requests of one event
  // ---------------------------------------------------------------------

  /** The requests of one selected track for one trigger class: "nevents"
      first, then "MuSparse" if the gate allows it. */
  function ClassOps(step: Step, cuts: MuonCuts, p: Particle, trigClass: string, centrality: string): seq<FillOp>
  {
    [NeventsOp(trigClass)]
    + (if PassesPtGate(step, cuts, p, trigClass) then [SparseOp(trigClass, centrality, p)] else [])
  }

  /** The "nevents" request of a class: the counter is filled with 1. */
  function NeventsOp(trigClass: string): FillOp
  {
    FillOp(NeventsId(trigClass), "nevents", [1.0])
  }

  /** The "MuSparse" request of a class for a track. */
  function SparseOp(trigClass: string, centrality: string, p: Particle): FillOp
  {
    FillOp(SparseId(trigClass, centrality), "MuSparse", ContainerInput(p))
  }

  /** The requests of one selected track for the trigger classes `classes`. */
  function ClassFills(step: Step, cuts: MuonCuts, p: Particle, classes: seq<string>, centrality: string)
    : seq<FillOp>
    decreases |classes|
  {
    if classes == [] then []
    else
      ClassFills(step, cuts, p, classes[..|classes| - 1], centrality)
      + ClassOps(step, cuts, p, classes[|classes| - 1], centrality)
  }

  /** The requests of the tracks `tracks` in one pass. */
  function TrackFills(step: Step, cuts: MuonCuts, tracks: seq<Particle>, classes: seq<string>, centrality: string)
    : seq<FillOp>
    decreases |tracks|
  {
    if tracks == [] then []
    else
      var p := tracks[|tracks| - 1];
      TrackFills(step, cuts, tracks[..|tracks| - 1], classes, centrality)
      + (if IsSelected(step, cuts, p) then ClassFills(step, cuts, p, classes, centrality) else [])
  }

  /** The requests of pass `istep`. */
  function StepFills(ev: InputEvent, cuts: MuonCuts, istep: nat): seq<FillOp>
  {
    var step := StepOf(istep);
    TrackFills(step, cuts, StepTracks(ev, step), StepClasses(ev, step), ev.centrality)
  }

  /** The requests of the first `n` passes. */
  function StepsFills(ev: InputEvent, cuts: MuonCuts, n: nat): seq<FillOp>
  {
    if n == 0 then [] else StepsFills(ev, cuts, n - 1) + StepFills(ev, cuts, n - 1)
  }

  /** All requests of one event: none when no event is present or the event
      cuts reject it. */
  function EventFills(ev: InputEvent, cuts: MuonCuts): seq<FillOp>
  {
    if Accepted(ev) then StepsFills(ev, cuts, NSteps(ev)) else []
  }

  // ---------------------------------------------------------------------
  // Independent counts
  // ---------------------------------------------------------------------

  /** Number of tracks the pass selects. */
  function CountSelected(step: Step, cuts: MuonCuts, tracks: seq<Particle>): nat
    decreases |tracks|
  {
    if tracks == [] then 0
    else CountSelected(step, cuts, tracks[..|tracks| - 1]) + (if IsSelected(step, cuts, tracks[|tracks| - 1]) then 1 else 0)
  }

  /** Number of tracks the pass selects and lets through the pT gate of
      `trigClass`. */
  function CountGated(step: Step, cuts: MuonCuts, tracks: seq<Particle>, trigClass: string): nat
    decreases |tracks|
  {
    if tracks == [] then 0
    else
      var p := tracks[|tracks| - 1];
      CountGated(step, cuts, tracks[..|tracks| - 1], trigClass)
      + (if IsSelected(step, cuts, p) && PassesPtGate(step, cuts, p, trigClass) then 1 else 0)
  }

  /** How often `c` appears in `classes`. */
  function Multiplicity(c: string, classes: seq<string>): nat
  {
    multiset(classes)[c]
  }

  /** How much "nevents" under "/c" grows in one event. */
  function NeventsDelta(ev: InputEvent, cuts: MuonCuts, c: string): nat
  {
    if !Accepted(ev) then 0
    else
      CountSelected(Reconstructed, cuts, ev.tracks) * Multiplicity(c, ev.selectedTrigClasses)
      + (if ev.mc.Some? && c == GeneratedClass then CountSelected(Generated, cuts, ev.mc.value) else 0)
  }

  /** How much "MuSparse" under "/c/centrality" grows in one event. */
  function SparseDelta(ev: InputEvent, cuts: MuonCuts, c: string): nat
  {
    if !Accepted(ev) then 0
    else
      CountGated(Reconstructed, cuts, ev.tracks, c) * Multiplicity(c, ev.selectedTrigClasses)
      + (if ev.mc.Some? && c == GeneratedClass then CountSelected(Generated, cuts, ev.mc.value) else 0)
  }

  // ---------------------------------------------------------------------
  // Lemmas
  // ---------------------------------------------------------------------

  lemma NeventsIdInjective(a: string, b: string)
    requires NeventsId(a) == NeventsId(b)
    ensures a == b
  {
    assert a == NeventsId(a)[1..];
    assert b == NeventsId(b)[1..];
  }

  lemma SparseIdInjective(a: string, b: string, centrality: string)
    requires SparseId(a, centrality) == SparseId(b, centrality)
    ensures a == b
  {
    var sa, sb := SparseId(a, centrality), SparseId(b, centrality);
    assert |a| == |b|;
    assert a == sa[1..1 + |a|];
    assert b == sb[1..1 + |b|];
  }

  lemma MultiplicityLast(c: string, classes: seq<string>)
    requires classes != []
    ensures Multiplicity(c, classes) ==
      Multiplicity(c, classes[..|classes| - 1]) + (if classes[|classes| - 1] == c then 1 else 0)
  {
    assert classes == classes[..|classes| - 1] + [classes[|classes| - 1]];
  }

  /** The requests for one class touch "nevents" under "/c" only when the
      class is c, and "MuSparse" under "/c/centrality" only when the class
      is c and the gate of c is passed. */
  lemma ClassOpsCounts(step: Step, cuts: MuonCuts, p: Particle, trigClass: string, centrality: string, c: string)
    ensures Count(NeventsKey(c), ClassOps(step, cuts, p, trigClass, centrality)) == (if trigClass == c then 1 else 0)
    ensures var hit := trigClass == c && PassesPtGate(step, cuts, p, c);
      && Count(SparseKey(c, centrality), ClassOps(step, cuts, p, trigClass, centrality)) == (if hit then 1 else 0)
      && PointsFor(SparseKey(c, centrality), ClassOps(step, cuts, p, trigClass, centrality)) == (if hit then [ContainerInput(p)] else [])
  {
    var nev := NeventsOp(trigClass);
    var sp := SparseOp(trigClass, centrality, p);
    if NeventsId(trigClass) == NeventsId(c) { NeventsIdInjective(trigClass, c); }
    if SparseId(trigClass, centrality) == SparseId(c, centrality) { SparseIdInjective(trigClass, c, centrality); }
    if PassesPtGate(step, cuts, p, trigClass) {
      assert ClassOps(step, cuts, p, trigClass, centrality) == [nev] + [sp];
      assert [nev][..0] == [] && [sp][..0] == [];
      CountAppend(NeventsKey(c), [nev], [sp]);
      CountAppend(SparseKey(c, centrality), [nev], [sp]);
      PointsForAppend(SparseKey(c, centrality), [nev], [sp]);
    } else {
      assert ClassOps(step, cuts, p, trigClass, centrality) == [nev];
      assert [nev][..0] == [];
    }
  }

  /** One selected track fills "nevents" under "/c" once per occurrence of c. */
  lemma {:induction false} ClassFillsNevents(step: Step, cuts: MuonCuts, p: Particle, classes: seq<string>, centrality: string, c: string)
    ensures Count(NeventsKey(c), ClassFills(step, cuts, p, classes, centrality)) == Multiplicity(c, classes)
    decreases |classes|
  {
    if classes != [] {
      var last := classes[|classes| - 1];
      var prefix := classes[..|classes| - 1];
      ClassFillsNevents(step, cuts, p, prefix, centrality, c);
      CountAppend(NeventsKey(c), ClassFills(step, cuts, p, prefix, centrality), ClassOps(step, cuts, p, last, centrality));
      ClassOpsCounts(step, cuts, p, last, centrality, c);
      MultiplicityLast(c, classes);
    }
  }

  /** One selected track fills "MuSparse" under "/c/centrality" once per
      occurrence of c, if it passes the gate of c. */
  lemma {:induction false} ClassFillsSparse(step: Step, cuts: MuonCuts, p: Particle, classes: seq<string>, centrality: string, c: string)
    ensures Count(SparseKey(c, centrality), ClassFills(step, cuts, p, classes, centrality)) ==
      (if PassesPtGate(step, cuts, p, c) then Multiplicity(c, classes) else 0)
    decreases |classes|
  {
    if classes != [] {
      var last := classes[|classes| - 1];
      var prefix := classes[..|classes| - 1];
      ClassFillsSparse(step, cuts, p, prefix, centrality, c);
      CountAppend(SparseKey(c, centrality), ClassFills(step, cuts, p, prefix, centrality), ClassOps(step, cuts, p, last, centrality));
      ClassOpsCounts(step, cuts, p, last, centrality, c);
      MultiplicityLast(c, classes);
    }
  }

  /** The points one selected track sends to "MuSparse" under
      "/c/centrality": its container input, once per occurrence of c, if it
      passes the gate of c. */
  lemma {:induction false} ClassFillsPoints(step: Step, cuts: MuonCuts, p: Particle, classes: seq<string>, centrality: string, c: string)
    ensures PointsFor(SparseKey(c, centrality), ClassFills(step, cuts, p, classes, centrality)) ==
      Repeat(ContainerInput(p), if PassesPtGate(step, cuts, p, c) then Multiplicity(c, classes) else 0)
    decreases |classes|
  {
    if classes != [] {
      var last := classes[|classes| - 1];
      var prefix := classes[..|classes| - 1];
      ClassFillsPoints(step, cuts, p, prefix, centrality, c);
      PointsForAppend(SparseKey(c, centrality), ClassFills(step, cuts, p, prefix, centrality), ClassOps(step, cuts, p, last, centrality));
      ClassOpsCounts(step, cuts, p, last, centrality, c);
      MultiplicityLast(c, classes);
      var input := ContainerInput(p);
      var before := PointsFor(SparseKey(c, centrality), ClassFills(step, cuts, p, prefix, centrality));
      if PassesPtGate(step, cuts, p, c) {
        if last == c {
          RepeatSucc(input, Multiplicity(c, prefix));
        } else {
          assert before + [] == before;
        }
      } else {
        assert before + [] == before;
      }
    }
  }

  /** `m` copies of `x`. */
  function Repeat(x: seq<real>, m: nat): (r: seq<seq<real>>)
    ensures |r| == m
    ensures forall i :: 0 <= i < m ==> r[i] == x
  {
    seq(m, _ => x)
  }

  lemma RepeatSucc(x: seq<real>, m: nat)
    ensures Repeat(x, m) + [x] == Repeat(x, m + 1)
  {
  }

  lemma {:induction false} PointsForAppend(k: Key, a: seq<FillOp>, b: seq<FillOp>)
    ensures PointsFor(k, a + b) == PointsFor(k, a) + PointsFor(k, b)
    decreases |b|
  {
    if b == [] {
      assert a + b == a;
    } else {
      assert (a + b)[..|a + b| - 1] == a + b[..|b| - 1];
      PointsForAppend(k, a, b[..|b| - 1]);
    }
  }

  /** One more counted track adds `m` to a count of `a * m`. */
  lemma CountSucc(z: nat, x: nat, y: nat, n: nat, a: nat, m: nat)
    requires z == x + y && n == a + 1 && x == a * m && y == m
    ensures z == n * m
  {
  }

  /** An uncounted track leaves a count of `a * m` as it is. */
  lemma CountSame(z: nat, x: nat, n: nat, a: nat, m: nat)
    requires z == x && n == a && x == a * m
    ensures z == n * m
  {
  }

  /** In a pass, "nevents" under "/c" receives one fill per selected track
      and per occurrence of c: it is filled before the pT gate. */
  lemma {:induction false} TrackFillsNevents(step: Step, cuts: MuonCuts, tracks: seq<Particle>, classes: seq<string>, centrality: string, c: string)
    ensures Count(NeventsKey(c), TrackFills(step, cuts, tracks, classes, centrality)) ==
      CountSelected(step, cuts, tracks) * Multiplicity(c, classes)
    decreases |tracks|
  {
    if tracks != [] {
      var p := tracks[|tracks| - 1];
      var prefix := tracks[..|tracks| - 1];
      var k := NeventsKey(c);
      var m := Multiplicity(c, classes);
      var head := TrackFills(step, cuts, prefix, classes, centrality);
      TrackFillsNevents(step, cuts, prefix, classes, centrality, c);
      if IsSelected(step, cuts, p) {
        var fills := ClassFills(step, cuts, p, classes, centrality);
        assert TrackFills(step, cuts, tracks, classes, centrality) == head + fills;
        CountAppend(k, head, fills);
        ClassFillsNevents(step, cuts, p, classes, centrality, c);
        CountSucc(Count(k, TrackFills(step, cuts, tracks, classes, centrality)), Count(k, head), Count(k, fills),
          CountSelected(step, cuts, tracks), CountSelected(step, cuts, prefix), m);
      } else {
        assert TrackFills(step, cuts, tracks, classes, centrality) == head;
        CountSame(Count(k, TrackFills(step, cuts, tracks, classes, centrality)), Count(k, head),
          CountSelected(step, cuts, tracks), CountSelected(step, cuts, prefix), m);
      }
    }
  }

  /** In a pass, "MuSparse" under "/c/centrality" receives one fill per
      selected track that passes the gate of c, and per occurrence of c. */
  lemma {:induction false} TrackFillsSparse(step: Step, cuts: MuonCuts, tracks: seq<Particle>, classes: seq<string>, centrality: string, c: string)
    ensures Count(SparseKey(c, centrality), TrackFills(step, cuts, tracks, classes, centrality)) ==
      CountGated(step, cuts, tracks, c) * Multiplicity(c, classes)
    decreases |tracks|
  {
    if tracks != [] {
      var p := tracks[|tracks| - 1];
      var prefix := tracks[..|tracks| - 1];
      var k := SparseKey(c, centrality);
      var m := Multiplicity(c, classes);
      var head := TrackFills(step, cuts, prefix, classes, centrality);
      TrackFillsSparse(step, cuts, prefix, classes, centrality, c);
      if IsSelected(step, cuts, p) {
        var fills := ClassFills(step, cuts, p, classes, centrality);
        assert TrackFills(step, cuts, tracks, classes, centrality) == head + fills;
        CountAppend(k, head, fills);
        ClassFillsSparse(step, cuts, p, classes, centrality, c);
        if PassesPtGate(step, cuts, p, c) {
          CountSucc(Count(k, TrackFills(step, cuts, tracks, classes, centrality)), Count(k, head), Count(k, fills),
            CountGated(step, cuts, tracks, c), CountGated(step, cuts, prefix, c), m);
        } else {
          CountSame(Count(k, TrackFills(step, cuts, tracks, classes, centrality)), Count(k, head),
            CountGated(step, cuts, tracks, c), CountGated(step, cuts, prefix, c), m);
        }
      } else {
        assert TrackFills(step, cuts, tracks, classes, centrality) == head;
        CountSame(Count(k, TrackFills(step, cuts, tracks, classes, centrality)), Count(k, head),
          CountGated(step, cuts, tracks, c), CountGated(step, cuts, prefix, c), m);
      }
    }
  }

  /** The container inputs of the tracks that pass the selection and the
      gate of `c`, in track order, each `m` times. */
  function GatedInputs(step: Step, cuts: MuonCuts, tracks: seq<Particle>, c: string, m: nat): seq<seq<real>>
    decreases |tracks|
  {
    if tracks == [] then []
    else
      var p := tracks[|tracks| - 1];
      GatedInputs(step, cuts, tracks[..|tracks| - 1], c, m)
      + (if IsSelected(step, cuts, p) && PassesPtGate(step, cuts, p, c) then Repeat(ContainerInput(p), m) else [])
  }

  /** In a pass, "MuSparse" under "/c/centrality" receives exactly the
      container inputs of the selected tracks passing the gate of c, in
      track order. */
  lemma {:induction false} TrackFillsPoints(step: Step, cuts: MuonCuts, tracks: seq<Particle>, classes: seq<string>, centrality: string, c: string)
    ensures PointsFor(SparseKey(c, centrality), TrackFills(step, cuts, tracks, classes, centrality)) ==
      GatedInputs(step, cuts, tracks, c, Multiplicity(c, classes))
    decreases |tracks|
  {
    if tracks != [] {
      var p := tracks[|tracks| - 1];
      var prefix := tracks[..|tracks| - 1];
      var k := SparseKey(c, centrality);
      var head := TrackFills(step, cuts, prefix, classes, centrality);
      var fills := if IsSelected(step, cuts, p) then ClassFills(step, cuts, p, classes, centrality) else [];
      TrackFillsPoints(step, cuts, prefix, classes, centrality, c);
      PointsForAppend(k, head, fills);
      if IsSelected(step, cuts, p) {
        ClassFillsPoints(step, cuts, p, classes, centrality, c);
      }
    }
  }

  /** In the generated pass every selected particle passes the gate. */
  lemma {:induction false} GeneratedGatedIsSelected(cuts: MuonCuts, tracks: seq<Particle>, c: string)
    ensures CountGated(Generated, cuts, tracks, c) == CountSelected(Generated, cuts, tracks)
    decreases |tracks|
  {
    if tracks != [] {
      GeneratedGatedIsSelected(cuts, tracks[..|tracks| - 1], c);
    }
  }

  /** The gate can only remove sparse fills. */
  lemma {:induction false} GatedAtMostSelected(step: Step, cuts: MuonCuts, tracks: seq<Particle>, c: string)
    ensures CountGated(step, cuts, tracks, c) <= CountSelected(step, cuts, tracks)
    decreases |tracks|
  {
    if tracks != [] {
      GatedAtMostSelected(step, cuts, tracks[..|tracks| - 1], c);
    }
  }

  /** An accepted event's requests are those of the reconstructed pass,
      followed by those of the generated pass when MC truth exists. */
  lemma EventFillsPasses(ev: InputEvent, cuts: MuonCuts)
    requires Accepted(ev)
    ensures EventFills(ev, cuts) ==
      TrackFills(Reconstructed, cuts, ev.tracks, ev.selectedTrigClasses, ev.centrality)
      + (if ev.mc.Some? then TrackFills(Generated, cuts, ev.mc.value, [GeneratedClass], ev.centrality) else [])
  {
    assert StepsFills(ev, cuts, 1) == StepFills(ev, cuts, 0);
  }

  /** The generated pass has the single class "generated". */
  lemma GeneratedMultiplicity(c: string)
    ensures Multiplicity(c, [GeneratedClass]) == if c == GeneratedClass then 1 else 0
  {
  }

  /** Count over a pass of the generated particles, for which the class
      list is ["generated"]. */
  lemma GeneratedPassNevents(cuts: MuonCuts, particles: seq<Particle>, centrality: string, c: string)
    ensures Count(NeventsKey(c), TrackFills(Generated, cuts, particles, [GeneratedClass], centrality)) ==
      if c == GeneratedClass then CountSelected(Generated, cuts, particles) else 0
  {
    TrackFillsNevents(Generated, cuts, particles, [GeneratedClass], centrality, c);
    GeneratedMultiplicity(c);
  }

  lemma GeneratedPassSparse(cuts: MuonCuts, particles: seq<Particle>, centrality: string, c: string)
    ensures Count(SparseKey(c, centrality), TrackFills(Generated, cuts, particles, [GeneratedClass], centrality)) ==
      if c == GeneratedClass then CountSelected(Generated, cuts, particles) else 0
  {
    TrackFillsSparse(Generated, cuts, particles, [GeneratedClass], centrality, c);
    GeneratedGatedIsSelected(cuts, particles, c);
    GeneratedMultiplicity(c);
  }

  /** "nevents" under "/c" grows, per event, by the number of selected
      tracks of each pass whose class list holds c (once per occurrence). */
  lemma EventNevents(ev: InputEvent, cuts: MuonCuts, c: string)
    ensures Count(NeventsKey(c), EventFills(ev, cuts)) == NeventsDelta(ev, cuts, c)
  {
    if Accepted(ev) {
      EventFillsPasses(ev, cuts);
      var reco := TrackFills(Reconstructed, cuts, ev.tracks, ev.selectedTrigClasses, ev.centrality);
      var gen := if ev.mc.Some? then TrackFills(Generated, cuts, ev.mc.value, [GeneratedClass], ev.centrality) else [];
      TrackFillsNevents(Reconstructed, cuts, ev.tracks, ev.selectedTrigClasses, ev.centrality, c);
      CountAppend(NeventsKey(c), reco, gen);
      if ev.mc.Some? {
        GeneratedPassNevents(cuts, ev.mc.value, ev.centrality, c);
      }
    }
  }

  /** "MuSparse" under "/c/centrality" grows, per event, by the number of
      selected reconstructed tracks passing the pT gate of c, and by every
      selected generated particle for the class "generated". */
  lemma EventSparse(ev: InputEvent, cuts: MuonCuts, c: string)
    ensures Count(SparseKey(c, ev.centrality), EventFills(ev, cuts)) == SparseDelta(ev, cuts, c)
  {
    if Accepted(ev) {
      EventFillsPasses(ev, cuts);
      var reco := TrackFills(Reconstructed, cuts, ev.tracks, ev.selectedTrigClasses, ev.centrality);
      var gen := if ev.mc.Some? then TrackFills(Generated, cuts, ev.mc.value, [GeneratedClass], ev.centrality) else [];
      TrackFillsSparse(Reconstructed, cuts, ev.tracks, ev.selectedTrigClasses, ev.centrality, c);
      CountAppend(SparseKey(c, ev.centrality), reco, gen);
      if ev.mc.Some? {
        GeneratedPassSparse(cuts, ev.mc.value, ev.centrality, c);
      }
    }
  }

  /** A rejected or missing event requests nothing. */
  lemma RejectedEventFillsNothing(ev: InputEvent, cuts: MuonCuts)
    requires !Accepted(ev)
    ensures EventFills(ev, cuts) == []
  {
  }

  /** The vectors "MuSparse" under "/c/centrality" receives in one event:
      those of the reconstructed pass, then those of the generated pass. */
  function SparseInputs(ev: InputEvent, cuts: MuonCuts, c: string): seq<seq<real>>
  {
    if !Accepted(ev) then []
    else
      GatedInputs(Reconstructed, cuts, ev.tracks, c, Multiplicity(c, ev.selectedTrigClasses))
      + (if ev.mc.Some? then GatedInputs(Generated, cuts, ev.mc.value, c, Multiplicity(c, [GeneratedClass])) else [])
  }

  lemma EventPoints(ev: InputEvent, cuts: MuonCuts, c: string)
    ensures PointsFor(SparseKey(c, ev.centrality), EventFills(ev, cuts)) == SparseInputs(ev, cuts, c)
  {
    if Accepted(ev) {
      EventFillsPasses(ev, cuts);
      var reco := TrackFills(Reconstructed, cuts, ev.tracks, ev.selectedTrigClasses, ev.centrality);
      TrackFillsPoints(Reconstructed, cuts, ev.tracks, ev.selectedTrigClasses, ev.centrality, c);
      if ev.mc.Some? {
        var gen := TrackFills(Generated, cuts, ev.mc.value, [GeneratedClass], ev.centrality);
        PointsForAppend(SparseKey(c, ev.centrality), reco, gen);
        TrackFillsPoints(Generated, cuts, ev.mc.value, [GeneratedClass], ev.centrality, c);
      } else {
        assert reco + [] == reco;
      }
    }
  }

  /** "nevents" is filled before the pT gate, so per event it grows at
      least as much as the sparse histogram of the same class. */
  lemma NeventsAtLeastSparse(ev: InputEvent, cuts: MuonCuts, c: string)
    ensures SparseDelta(ev, cuts, c) <= NeventsDelta(ev, cuts, c)
  {
    GatedAtMostSelected(Reconstructed, cuts, ev.tracks, c);
    MulMono(CountGated(Reconstructed, cuts, ev.tracks, c), CountSelected(Reconstructed, cuts, ev.tracks),
            Multiplicity(c, ev.selectedTrigClasses));
  }

  lemma MulMono(a: nat, b: nat, m: nat)
    requires a <= b
    ensures a * m <= b * m
  {
  }

  // ---------------------------------------------------------------------
  // Effect of one event on a collection
  // ---------------------------------------------------------------------

  /** After one event, the counter under "/c" holds exactly NeventsDelta
      more entries (created if it was absent and the delta is positive). */
  lemma EventEffectNevents(coll: Collection, template: seq<Axis>, ev: InputEvent, cuts: MuonCuts, c: string)
    ensures var coll' := ApplyFills(coll, template, EventFills(ev, cuts));
      && EntriesAt(coll', NeventsKey(c)) == EntriesAt(coll, NeventsKey(c)) + NeventsDelta(ev, cuts, c)
      && (NeventsKey(c) in coll' <==> NeventsKey(c) in coll || NeventsDelta(ev, cuts, c) > 0)
  {
    ApplyFillsCount(coll, template, EventFills(ev, cuts), NeventsKey(c));
    EventNevents(ev, cuts, c);
  }

  /** After one event, the sparse histogram under "/c/centrality" holds
      exactly SparseDelta more entries, and its recorded vectors are the
      old ones followed by SparseInputs. */
  lemma EventEffectSparse(coll: Collection, template: seq<Axis>, ev: InputEvent, cuts: MuonCuts, c: string)
    requires Conforming(coll, template)
    ensures var k := SparseKey(c, ev.centrality);
      var coll' := ApplyFills(coll, template, EventFills(ev, cuts));
      && EntriesAt(coll', k) == EntriesAt(coll, k) + SparseDelta(ev, cuts, c)
      && (k in coll' <==> k in coll || SparseDelta(ev, cuts, c) > 0)
      && (k in coll' ==>
            && coll'[k].Sparse?
            && coll'[k].samples == (if k in coll then coll[k].samples else []) + SparseInputs(ev, cuts, c))
  {
    var k := SparseKey(c, ev.centrality);
    ApplyFillsCount(coll, template, EventFills(ev, cuts), k);
    EventSparse(ev, cuts, c);
    ApplyFillsSamples(coll, template, EventFills(ev, cuts), k);
    EventPoints(ev, cuts, c);
  }

  /** The keys an event with this centrality can touch: "nevents" under
      "/class", and "MuSparse" under "/class/centrality". */
  predicate EventKey(k: Key, centrality: string)
  {
    || (k.1 == "nevents" && |k.0| >= 1 && k.0[0] == '/')
    || (k.1 == "MuSparse" && |k.0| >= |centrality| + 2 && k.0[0] == '/'
        && k.0[|k.0| - |centrality| - 1..] == "/" + centrality)
  }

  /** The event keys are exactly the keys of the forms NeventsKey(c) and
      SparseKey(c, centrality). */
  lemma EventKeyForms(k: Key, centrality: string)
    ensures EventKey(k, centrality) <==>
      || (|k.0| >= 1 && k == NeventsKey(k.0[1..]))
      || (|k.0| >= |centrality| + 2 && k == SparseKey(k.0[1..|k.0| - |centrality| - 1], centrality))
  {
    if |k.0| >= 1 {
      var c := k.0[1..];
      if k.1 == "nevents" && k.0[0] == '/' {
        assert k.0 == "/" + c;
      }
      if k == NeventsKey(c) {
        assert k.0 == "/" + c;
      }
    }
    if |k.0| >= |centrality| + 2 {
      var c := k.0[1..|k.0| - |centrality| - 1];
      if k.1 == "MuSparse" && k.0[0] == '/' && k.0[|k.0| - |centrality| - 1..] == "/" + centrality {
        assert k.0 == [k.0[0]] + c + k.0[|k.0| - |centrality| - 1..];
        assert k.0 == SparseId(c, centrality);
      }
      if k == SparseKey(c, centrality) {
        assert k.0 == "/" + c + ("/" + centrality);
        assert k.0[0] == '/';
        assert k.0[|k.0| - |centrality| - 1..] == "/" + centrality;
        assert EventKey(k, centrality);
      }
    }
  }

  /** Every request of one class has an event key. */
  lemma ClassOpsKeys(step: Step, cuts: MuonCuts, p: Particle, trigClass: string, centrality: string)
    ensures forall op :: op in ClassOps(step, cuts, p, trigClass, centrality) ==> EventKey(KeyOf(op), centrality)
  {
    var nev := NeventsOp(trigClass);
    assert NeventsId(trigClass)[0] == '/';
    var id := SparseId(trigClass, centrality);
    assert id == "/" + trigClass + ("/" + centrality);
    assert id[|id| - |centrality| - 1..] == "/" + centrality;
  }

  lemma {:induction false} ClassFillsKeys(step: Step, cuts: MuonCuts, p: Particle, classes: seq<string>, centrality: string)
    ensures forall op :: op in ClassFills(step, cuts, p, classes, centrality) ==> EventKey(KeyOf(op), centrality)
    decreases |classes|
  {
    if classes != [] {
      ClassFillsKeys(step, cuts, p, classes[..|classes| - 1], centrality);
      ClassOpsKeys(step, cuts, p, classes[|classes| - 1], centrality);
    }
  }

  lemma {:induction false} TrackFillsKeys(step: Step, cuts: MuonCuts, tracks: seq<Particle>, classes: seq<string>, centrality: string)
    ensures forall op :: op in TrackFills(step, cuts, tracks, classes, centrality) ==> EventKey(KeyOf(op), centrality)
    decreases |tracks|
  {
    if tracks != [] {
      TrackFillsKeys(step, cuts, tracks[..|tracks| - 1], classes, centrality);
      ClassFillsKeys(step, cuts, tracks[|tracks| - 1], classes, centrality);
    }
  }

  /** Every request of an event has an event key of that event's centrality. */
  lemma EventFillsKeys(ev: InputEvent, cuts: MuonCuts)
    ensures forall op :: op in EventFills(ev, cuts) ==> EventKey(KeyOf(op), ev.centrality)
  {
    if Accepted(ev) {
      EventFillsPasses(ev, cuts);
      TrackFillsKeys(Reconstructed, cuts, ev.tracks, ev.selectedTrigClasses, ev.centrality);
      if ev.mc.Some? {
        TrackFillsKeys(Generated, cuts, ev.mc.value, [GeneratedClass], ev.centrality);
      }
    }
  }

  lemma {:induction false} CountAbsent(k: Key, ops: seq<FillOp>)
    requires forall op :: op in ops ==> KeyOf(op) != k
    ensures Count(k, ops) == 0
    decreases |ops|
  {
    if ops != [] {
      assert ops[|ops| - 1] in ops;
      CountAbsent(k, ops[..|ops| - 1]);
    }
  }

  /** An event leaves every other key as it was: the other histograms of
      the collection, and the histograms of other centralities, are kept
      (present or absent) unchanged. */
  lemma EventFrame(coll: Collection, template: seq<Axis>, ev: InputEvent, cuts: MuonCuts, k: Key)
    requires !EventKey(k, ev.centrality)
    ensures var coll' := ApplyFills(coll, template, EventFills(ev, cuts));
      && (k in coll' <==> k in coll)
      && (k in coll ==> coll'[k] == coll[k])
  {
    EventFillsKeys(ev, cuts);
    CountAbsent(k, EventFills(ev, cuts));
    ApplyFillsFrame(coll, template, EventFills(ev, cuts), k);
  }

  /** An event never touches an object whose name is neither "nevents"
      nor "MuSparse". */
  lemma EventKeepsOtherNames(coll: Collection, template: seq<Axis>, ev: InputEvent, cuts: MuonCuts, k: Key)
    requires k.1 != "nevents" && k.1 != "MuSparse"
    ensures var coll' := ApplyFills(coll, template, EventFills(ev, cuts));
      && (k in coll' <==> k in coll)
      && (k in coll ==> coll'[k] == coll[k])
  {
    EventFrame(coll, template, ev, cuts, k);
  }

  /** An event never touches a sparse histogram filed under another
      centrality string, when the two strings have the same length or
      neither holds a '/' (as no "%f" formatting does). */
  lemma EventKeepsOtherCentralities(coll: Collection, template: seq<Axis>, ev: InputEvent, cuts: MuonCuts,
                                    c: string, centrality: string)
    requires centrality != ev.centrality
    requires |centrality| == |ev.centrality| || ('/' !in centrality && '/' !in ev.centrality)
    ensures var k := SparseKey(c, centrality);
      var coll' := ApplyFills(coll, template, EventFills(ev, cuts));
      && (k in coll' <==> k in coll)
      && (k in coll ==> coll'[k] == coll[k])
  {
    var k := SparseKey(c, centrality);
    var e := ev.centrality;
    assert k.0 == "/" + c + ("/" + centrality);
    var b := |k.0| - |centrality| - 1;
    assert k.0[b] == '/' && k.0[b + 1..] == centrality;
    if |k.0| >= |e| + 2 {
      var a := |k.0| - |e| - 1;
      if |e| == |centrality| {
        assert k.0[a..] == "/" + centrality;
        assert ("/" + centrality)[1..] == centrality && ("/" + e)[1..] == e;
        assert k.0[a..] != "/" + e;
      } else if |e| < |centrality| {
        assert k.0[a] == centrality[a - b - 1];
        assert k.0[a..][0] != ("/" + e)[0];
      } else {
        assert k.0[a..][b - a] == '/';
        assert ("/" + e)[b - a] == e[b - a - 1];
        assert k.0[a..][b - a] != ("/" + e)[b - a];
      }
    }
    assert !EventKey(k, e);
    EventFrame(coll, template, ev, cuts, k);
  }

  // ---------------------------------------------------------------------
  // One loop step at a time
  // ---------------------------------------------------------------------

  /** Applying the requests of one more class: "nevents", then "MuSparse"
      if the gate allows it. */
  lemma ApplyClassOps(coll: Collection, template: seq<Axis>, before: seq<FillOp>,
                      step: Step, cuts: MuonCuts, p: Particle, trigClass: string, centrality: string)
    ensures var c1 := ApplyFill(ApplyFills(coll, template, before), template, NeventsOp(trigClass));
      ApplyFills(coll, template, before + ClassOps(step, cuts, p, trigClass, centrality)) ==
        if PassesPtGate(step, cuts, p, trigClass) then ApplyFill(c1, template, SparseOp(trigClass, centrality, p)) else c1
  {
    var nev := NeventsOp(trigClass);
    var sp := SparseOp(trigClass, centrality, p);
    ApplyFillsSnoc(coll, template, before, nev);
    if PassesPtGate(step, cuts, p, trigClass) {
      assert before + ClassOps(step, cuts, p, trigClass, centrality) == (before + [nev]) + [sp];
      ApplyFillsSnoc(coll, template, before + [nev], sp);
    } else {
      assert before + ClassOps(step, cuts, p, trigClass, centrality) == before + [nev];
    }
  }

  lemma ClassFillsSnoc(step: Step, cuts: MuonCuts, p: Particle, classes: seq<string>, k: nat, centrality: string)
    requires k < |classes|
    ensures ClassFills(step, cuts, p, classes[..k + 1], centrality) ==
      ClassFills(step, cuts, p, classes[..k], centrality) + ClassOps(step, cuts, p, classes[k], centrality)
  {
    assert classes[..k + 1][..k] == classes[..k];
  }

  /** One iteration of the class loop: from `before`, the requests of the
      classes ahead of `classes[k]`, the "nevents" request gives `mid`, and
      the "MuSparse" request (when the gate allows it) gives `post`, the
      requests of the classes up to and including `classes[k]`. */
  lemma ClassStep(coll: Collection, template: seq<Axis>, step: Step, cuts: MuonCuts, p: Particle,
                  classes: seq<string>, k: nat, centrality: string, before: Collection, mid: Collection, post: Collection)
    requires k < |classes|
    requires before == ApplyFills(coll, template, ClassFills(step, cuts, p, classes[..k], centrality))
    requires mid == ApplyFill(before, template, NeventsOp(classes[k]))
    requires post == if PassesPtGate(step, cuts, p, classes[k]) then ApplyFill(mid, template, SparseOp(classes[k], centrality, p)) else mid
    ensures ApplyFills(coll, template, ClassFills(step, cuts, p, classes[..k + 1], centrality)) == post
  {
    ClassFillsSnoc(step, cuts, p, classes, k, centrality);
    ApplyClassOps(coll, template, ClassFills(step, cuts, p, classes[..k], centrality), step, cuts, p, classes[k], centrality);
  }

  lemma TrackFillsSnoc(step: Step, cuts: MuonCuts, tracks: seq<Particle>, i: nat, classes: seq<string>, centrality: string)
    requires i < |tracks|
    ensures TrackFills(step, cuts, tracks[..i + 1], classes, centrality) ==
      TrackFills(step, cuts, tracks[..i], classes, centrality)
      + (if IsSelected(step, cuts, tracks[i]) then ClassFills(step, cuts, tracks[i], classes, centrality) else [])
  {
    assert tracks[..i + 1][..i] == tracks[..i];
  }

  /** The requests of pass `istep` follow those of the passes before it. */
  lemma StepsFillsSnoc(ev: InputEvent, cuts: MuonCuts, istep: nat)
    ensures StepsFills(ev, cuts, istep + 1) == StepsFills(ev, cuts, istep) +
      TrackFills(StepOf(istep), cuts, StepTracks(ev, StepOf(istep)), StepClasses(ev, StepOf(istep)), ev.centrality)
  {
  }
}
