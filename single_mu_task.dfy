/** The analysis task: it owns the sparse template and the mergeable
    collection, creates them when the framework asks for its outputs, and
    fills the collection event by event. */
module SingleMuTask {
  import opened Aggregates
  import opened MergeableStore
  import opened SparseLayout
  import opened EventFill

  class V1SingleMuTask {
    /** The mergeable collection (fMergeableCollection). */
    var collection: Collection
    /** The axes of the sparse template (fSparse). */
    var sparse: seq<Axis>
    /** Whether the outputs were created (collection and template set). */
    var outputsCreated: bool

    /** Once created, the template is the four-axis layout, and every
        stored object has the shape its name dispatches to. */
    ghost predicate Valid()
      reads this
    {
      && (outputsCreated ==> sparse == SparseTemplate())
      && Conforming(collection, sparse)
    }

    constructor ()
      ensures Valid() && !outputsCreated && collection == map[] && sparse == []
    {
      collection := map[];
      sparse := [];
      outputsCreated := false;
    }

    /** Builds the sparse template and a fresh, empty collection. */
    method UserCreateOutputObjects()
      requires Valid()
      modifies this
      ensures Valid() && outputsCreated
      ensures sparse == SparseTemplate() && collection == map[]
    {
      var axes := CreateSparseAxes();
      sparse := axes;
      collection := map[];
      outputsCreated := true;
    }

    /** Get-or-create on the collection. */
    method GetMergeableObject(identifier: string, objectName: string) returns (obj: Option<Aggregate>)
      requires Valid() && outputsCreated
      modifies this
      ensures Valid() && outputsCreated && sparse == old(sparse)
      ensures (obj, collection) == GetOrCreate(old(collection), sparse, identifier, objectName)
    {
      obj := GetObject(collection, identifier, objectName);
      if obj.Some? {
        return;
      }
      obj := NewObject(objectName, sparse);
      if obj.Some? {
        collection := Adopt(collection, identifier, obj.value);
      }
      GetOrCreateConforming(old(collection), sparse, identifier, objectName);
    }

    /** `GetMergeableObject(identifier, objectName)->Fill(point)`: the
        object returned is filled where it is stored. */
    method FillMergeableObject(identifier: string, objectName: string, point: seq<real>)
      requires Valid() && outputsCreated
      modifies this
      ensures Valid() && outputsCreated && sparse == old(sparse)
      ensures collection == ApplyFill(old(collection), sparse, FillOp(identifier, objectName, point))
    {
      var obj := GetMergeableObject(identifier, objectName);
      if obj.Some? {
        collection := collection[(identifier, objectName) := Fill(obj.value, point)];
      }
      ApplyFillConforming(old(collection), sparse, FillOp(identifier, objectName, point));
    }

    /** The loop over the trigger classes of a pass for one selected track,
        whose variables are already in `containerInput`. */
    method FillTrackClasses(step: Step, cuts: MuonCuts, track: Particle, selTrigClasses: seq<string>,
                            centrality: string, containerInput: array<real>)
      requires Valid() && outputsCreated
      requires containerInput[..] == ContainerInput(track)
      modifies this
      ensures Valid() && outputsCreated && sparse == old(sparse)
      ensures collection == ApplyFills(old(collection), sparse, ClassFills(step, cuts, track, selTrigClasses, centrality))
    {
      var input := containerInput[..];
      var k := 0;
      while k < |selTrigClasses|
        invariant 0 <= k <= |selTrigClasses|
        invariant Valid() && outputsCreated && sparse == old(sparse)
        invariant collection == ApplyFills(old(collection), sparse, ClassFills(step, cuts, track, selTrigClasses[..k], centrality))
      {
        var trigClass := selTrigClasses[k];
        var identifier := "/" + trigClass;
        ghost var before := collection;
        assert FillOp(identifier, "nevents", [1.0]) == NeventsOp(trigClass);
        FillMergeableObject(identifier, "nevents", [1.0]);
        ghost var mid := collection;
        if !PassesPtGate(step, cuts, track, trigClass) {
          ClassStep(old(collection), sparse, step, cuts, track, selTrigClasses, k, centrality, before, mid, collection);
          k := k + 1;
          continue;
        }
        assert FillOp(identifier + "/" + centrality, "MuSparse", input) == SparseOp(trigClass, centrality, track);
        FillMergeableObject(identifier + "/" + centrality, "MuSparse", input);
        ClassStep(old(collection), sparse, step, cuts, track, selTrigClasses, k, centrality, before, mid, collection);
        k := k + 1;
      }
      assert selTrigClasses[..k] == selTrigClasses;
    }

    /** The track loop of one pass: each selected track has its variables
        written into `containerInput` and goes through the class loop. */
    method FillPass(step: Step, cuts: MuonCuts, tracks: seq<Particle>, selTrigClasses: seq<string>,
                    centrality: string, containerInput: array<real>)
      requires Valid() && outputsCreated && containerInput.Length == NVars
      modifies this, containerInput
      ensures Valid() && outputsCreated && sparse == old(sparse)
      ensures collection == ApplyFills(old(collection), sparse, TrackFills(step, cuts, tracks, selTrigClasses, centrality))
    {
      var nTracks := |tracks|;
      var itrack := 0;
      assert tracks[..0] == [];
      while itrack < nTracks
        invariant 0 <= itrack <= nTracks
        invariant Valid() && outputsCreated && sparse == old(sparse)
        invariant collection == ApplyFills(old(collection), sparse, TrackFills(step, cuts, tracks[..itrack], selTrigClasses, centrality))
      {
        var track := tracks[itrack];
        ghost var head := TrackFills(step, cuts, tracks[..itrack], selTrigClasses, centrality);
        TrackFillsSnoc(step, cuts, tracks, itrack, selTrigClasses, centrality);
        var isSelected := IsSelected(step, cuts, track);
        if !isSelected {
          assert head + [] == head;
          itrack := itrack + 1;
          continue;
        }
        containerInput[HvarPt] := track.pt;
        containerInput[HvarEta] := track.eta;
        containerInput[HvarPhi] := track.phi;
        containerInput[HvarCharge] := (track.charge as real) / 3.0;
        assert containerInput[..] == ContainerInput(track);
        FillTrackClasses(step, cuts, track, selTrigClasses, centrality, containerInput);
        ApplyFillsAppend(old(collection), sparse, head, ClassFills(step, cuts, track, selTrigClasses, centrality));
        itrack := itrack + 1;
      }
      assert tracks[..itrack] == tracks;
    }

    /** Processes one event: no fill at all without an AOD or ESD event or
        when the event cuts reject it; otherwise one pass over the
        reconstructed tracks with the selected trigger classes and, with MC
        truth, one pass over the generated particles with the class
        "generated". What this does to each counter and sparse histogram is
        stated by EventEffectNevents and EventEffectSparse. */
    method UserExec(ev: InputEvent, cuts: MuonCuts)
      requires Valid() && outputsCreated
      modifies this
      ensures Valid() && outputsCreated && sparse == old(sparse)
      ensures collection == ApplyFills(old(collection), sparse, EventFills(ev, cuts))
      ensures !Accepted(ev) ==> collection == old(collection)
    {
      if ev.format == NoEvent {
        return;
      }
      if !ev.passesEventCuts {
        return;
      }
      var selectTrigClasses := ev.selectedTrigClasses;
      var containerInput := new real[NVars];
      var nSteps := if ev.mc.Some? then 2 else 1;
      var istep := 0;
      while istep < nSteps
        invariant 0 <= istep <= nSteps && nSteps == NSteps(ev)
        invariant Valid() && outputsCreated && sparse == old(sparse)
        invariant collection == ApplyFills(old(collection), sparse, StepsFills(ev, cuts, istep))
      {
        var step := StepOf(istep);
        var selTrigClasses: seq<string> := [];
        if step == Reconstructed {
          var j := 0;
          while j < |selectTrigClasses|
            invariant 0 <= j <= |selectTrigClasses|
            invariant selTrigClasses == selectTrigClasses[..j]
          {
            selTrigClasses := selTrigClasses + [selectTrigClasses[j]];
            j := j + 1;
          }
          assert selectTrigClasses[..j] == selectTrigClasses;
        } else {
          selTrigClasses := [GeneratedClass];
        }
        var tracks := if step == Reconstructed then ev.tracks else ev.mc.value;
        assert tracks == StepTracks(ev, step) && selTrigClasses == StepClasses(ev, step);
        FillPass(step, cuts, tracks, selTrigClasses, ev.centrality, containerInput);
        ApplyFillsAppend(old(collection), sparse, StepsFills(ev, cuts, istep), StepFills(ev, cuts, istep));
        StepsFillsSnoc(ev, cuts, istep);
        istep := istep + 1;
      }
    }
  }
}
