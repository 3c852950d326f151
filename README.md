# AliAnalysisTaskV1SingleMu, modelled in Dafny

This project models the core of the single-muon analysis class
`AliAnalysisTaskV1SingleMu` and proves properties of it. The analysis task keeps a
*mergeable collection* of histograms, keyed by an identifier path and an
object name, and fills it event by event.

- **Get-or-create** (`GetMergeableObject`). A lookup by `(identifier, objectName)` returns the stored
  object. On a miss it builds a new object from a fixed dispatch on the name, and the collection
  adopts it under the identifier.
- **Output creation** (`UserCreateOutputObjects`). This builds the template of the four-axis sparse
  histogram "MuSparse". The axes are transverse momentum, pseudorapidity, charge and azimuth. Each axis
  gets uniform bin edges and a title of the form `Title (Units)`, with any `()` removed.
- **Event processing** (`UserExec`). An event that is missing, or that the event cuts reject, fills
  nothing. Otherwise the analysis task runs a reconstructed pass over the event's tracks with the selected
  trigger classes. When Monte-Carlo truth exists, it also runs a generated pass over the MC particles
  with the single class `"generated"`. For every selected track and every class of its pass:
  - the counter `"nevents"` under `"/class"` is filled;
  - then, unless this is the reconstructed pass and the track fails the class's pT cut, `"MuSparse"`
    under `"/class/centrality"` is filled with the track's (pt, eta, charge/3, phi).

  So `"nevents"` counts selected tracks per class, not events.
- **Particle type** (`GetParticleType`). This classifies a muon by its MC ancestry: the first test
  that holds in a fixed priority order wins, and "decay muon" is the default.

Modules:

- `Aggregates` (`aggregates.dfy`): the accumulators. These are a counter, a 1-D histogram, a profile
  and the sparse histogram. Each has its kind, name and binning, and the number of fills it has
  received. The sparse histogram also records the vectors filled into it.
- `SparseLayout` (`sparse_layout.dfy`): the sparse template. It holds the bin-edge loop over an array,
  `ReplaceAll` and the axis titles, and the axis-building loop.
- `MergeableStore` (`mergeable_store.dfy`): the collection as a map from key to aggregate, and
  get-or-create. It also has the functional specification of a sequence of fill requests
  (`ApplyFills`) and the counting rule for it.
- `EventFill` (`event_fill.dfy`): the requests one event makes, as a function (`EventFills`). It also
  has independent counts of what each counter and sparse histogram receives, and the lemmas that
  connect the two.
- `SingleMuTask` (`single_mu_task.dfy`): the analysis task as a class. Its fields are the collection and the
  template. Its methods are the source's loops (passes, trigger-class `push_back`, tracks, classes) and
  writes into the `containerInput` array. Each method is proved equal to the fill specification.
- `ParticleTypes` (`particle_types.dfy`): the priority classifier and a first-match reference
  definition.

Inputs the analysis task reads from the framework become parameters. The event, its tracks and its MC particles
are taken as data. The event and track cuts, the pT-cut match and the muon-ancestor tests are
uninterpreted predicates. Each track carries an opaque identity, which stands for the rest of
its state, so two tracks with equal kinematics can still get different verdicts. Nothing ties the
identity to the track's position in the event.

## Model

| member | source | states |
|---|---|---|
| Aggregates.Fill | PWG/muon/AliAnalysisTaskV1SingleMu.cxx:395-398 | one fill adds exactly one entry, keeps the object's kind, name and binning, and appends the filled vector to a sparse histogram |
| SparseLayout.Edge | PWG/muon/AliAnalysisTaskV1SingleMu.cxx:226 | no contract of its own: edge i is xmin + i*(xmax-xmin)/n, the formula of the array loop; stated by EdgeEndpoints, EdgeSpacing and EdgesStrictlyIncrease |
| SparseLayout.UniformEdges | PWG/muon/AliAnalysisTaskV1SingleMu.cxx:225-226 | no contract of its own: the n+1 edges 0..n of that formula, the array handed to SetBinEdges; stated by BinEdges and EdgesStrictlyIncrease |
| SparseLayout.EdgeEndpoints | PWG/muon/AliAnalysisTaskV1SingleMu.cxx:226 | edge 0 is xmin and edge n is xmax |
| SparseLayout.EdgeSpacing | PWG/muon/AliAnalysisTaskV1SingleMu.cxx:226 | consecutive edges are (xmax-xmin)/n apart |
| SparseLayout.EdgesStrictlyIncrease | PWG/muon/AliAnalysisTaskV1SingleMu.cxx:226 | on a non-empty range the edges strictly increase |
| SparseLayout.BinEdges | PWG/muon/AliAnalysisTaskV1SingleMu.cxx:225-226 | the array loop writes the n+1 edges xmin + i*(xmax-xmin)/n |
| SparseLayout.ReplaceAll | PWG/muon/AliAnalysisTaskV1SingleMu.cxx:222 | no contract of its own: a left-to-right scan that replaces each occurrence and resumes after it, as TString::ReplaceAll does; stated by ReplaceAllNoMatch and ReplaceAllPrefix |
| SparseLayout.AxisTitle | PWG/muon/AliAnalysisTaskV1SingleMu.cxx:221-222 | no contract of its own: "Title (Units)" with every "()" removed; stated by AxisTitleNoUnits and AxisTitleWithUnits |
| SparseLayout.ReplaceAllNoMatch | PWG/muon/AliAnalysisTaskV1SingleMu.cxx:222 | removing "()" leaves a string without "()" unchanged |
| SparseLayout.ReplaceAllPrefix | PWG/muon/AliAnalysisTaskV1SingleMu.cxx:222 | a prefix with no "()" in it, nor across its join with the rest, passes through the replacement unchanged |
| SparseLayout.AxisTitleNoUnits | PWG/muon/AliAnalysisTaskV1SingleMu.cxx:221-222 | with empty units the title is "Title " (the "()" is removed), for every title without "()" of its own |
| SparseLayout.AxisTitleWithUnits | PWG/muon/AliAnalysisTaskV1SingleMu.cxx:221-222 | with non-empty units and no parentheses the title is exactly "Title (Units)" |
| SparseLayout.TemplateAxis | PWG/muon/AliAnalysisTaskV1SingleMu.cxx:211-227 | no contract of its own: axis idim carries the cleaned title, the bin count and the uniform edges of dimension idim; stated by SparseTemplateLayout |
| SparseLayout.SparseTemplate | PWG/muon/AliAnalysisTaskV1SingleMu.cxx:191-227 | no contract of its own: the four template axes in variable order; stated by SparseTemplateLayout and SparseTemplateEdgesIncrease, and built by CreateSparseAxes |
| SparseLayout.CreateSparseAxes | PWG/muon/AliAnalysisTaskV1SingleMu.cxx:211-228 | the axis loop builds exactly the template: per dimension the cleaned title, the bin count and the uniform edges |
| SparseLayout.SparseTemplateLayout | PWG/muon/AliAnalysisTaskV1SingleMu.cxx:191-227 | the template has 4 axes (pt, eta, charge, phi) with 160/25/2/36 bins, titles "p_{t} (GeV/c)", "#eta ", "charge (e)", "#phi (rad)", and edges from xmin to xmax |
| SparseLayout.SparseTemplateEdgesIncrease | PWG/muon/AliAnalysisTaskV1SingleMu.cxx:211-226 | every template axis has strictly increasing edges |
| MergeableStore.NewObject | PWG/muon/AliAnalysisTaskV1SingleMu.cxx:159-174 | the dispatch yields an object exactly for the five known names, named objectName and empty; nothing otherwise |
| MergeableStore.GetObject | PWG/muon/AliAnalysisTaskV1SingleMu.cxx:155 | the lookup finds an object exactly when the key is stored, and returns the stored one |
| MergeableStore.Adopt | PWG/muon/AliAnalysisTaskV1SingleMu.cxx:176 | the object is stored under (identifier, its name) and every other key is untouched |
| MergeableStore.GetOrCreate | PWG/muon/AliAnalysisTaskV1SingleMu.cxx:151-179 | an object comes back exactly on a hit or for a known name, and it is the object then stored under (identifier, objectName); no other key appears, and every stored object is kept as it was |
| MergeableStore.GetOrCreateHit | PWG/muon/AliAnalysisTaskV1SingleMu.cxx:155-156 | on a hit the stored object is returned and the collection is unchanged |
| MergeableStore.GetOrCreateMiss | PWG/muon/AliAnalysisTaskV1SingleMu.cxx:159-178 | on a miss the object is the dispatch's, stored under (identifier, objectName) only; an unknown name leaves the collection unchanged |
| MergeableStore.NewObjectShapes | PWG/muon/AliAnalysisTaskV1SingleMu.cxx:159-171 | "nevents" is 1 bin on [0.5,1.5], "hNormQA"/"hNormQB" 100 bins on [0,1], "hScalProdQAQB" a 25-bin profile on [0,100], "MuSparse" an empty copy of the template |
| MergeableStore.GetOrCreateSize | PWG/muon/AliAnalysisTaskV1SingleMu.cxx:155-176 | the collection grows by one on the first request for a known pair, by zero otherwise |
| MergeableStore.GetOrCreateStable | PWG/muon/AliAnalysisTaskV1SingleMu.cxx:155-176 | a second request for the same known pair is a hit on the first result and changes nothing |
| MergeableStore.GetOrCreateConforming | PWG/muon/AliAnalysisTaskV1SingleMu.cxx:155-176 | get-or-create keeps every stored object of the shape its name dispatches to, and the returned object is the stored one |
| MergeableStore.ApplyFill | PWG/muon/AliAnalysisTaskV1SingleMu.cxx:395-398 | no contract of its own: get-or-create, then one fill of the returned object; stated by ApplyFillAt, ApplyFillConforming and ApplyFillsSamples |
| MergeableStore.ApplyFills | PWG/muon/AliAnalysisTaskV1SingleMu.cxx:340-403 | no contract of its own: the requests of a run applied in order; stated by ApplyFillsCount, ApplyFillsFrame and ApplyFillsSamples |
| MergeableStore.ApplyFillConforming | PWG/muon/AliAnalysisTaskV1SingleMu.cxx:395-398 | getting and filling an object keeps every stored object of the shape its name dispatches to |
| MergeableStore.ApplyFillAt | PWG/muon/AliAnalysisTaskV1SingleMu.cxx:395-398 | a get-and-fill request adds one entry at its own key (creating the object) and none elsewhere |
| MergeableStore.ApplyFillsCount | PWG/muon/AliAnalysisTaskV1SingleMu.cxx:395-398 | after a sequence of requests, each known key holds as many more entries as there were requests for it, and exists iff it existed or was requested |
| MergeableStore.ApplyFillsFrame | PWG/muon/AliAnalysisTaskV1SingleMu.cxx:155-176 | a key that no request names stays absent if absent, and keeps its stored object unchanged |
| MergeableStore.ApplyFillsSamples | PWG/muon/AliAnalysisTaskV1SingleMu.cxx:398 | a "MuSparse" object receives exactly the vectors of the requests for it, appended in order |
| EventFill.Accepted | PWG/muon/AliAnalysisTaskV1SingleMu.cxx:266-275 | no contract of its own: an AOD or ESD event is present and the event cuts select it; stated by RejectedEventFillsNothing and EventFillsPasses |
| EventFill.NSteps | PWG/muon/AliAnalysisTaskV1SingleMu.cxx:338 | two passes exactly when an MC event exists, one otherwise |
| EventFill.StepOf | PWG/muon/AliAnalysisTaskV1SingleMu.cxx:340-342 | no contract of its own: pass 0 is the reconstructed pass, any later one the generated pass |
| EventFill.StepClasses | PWG/muon/AliAnalysisTaskV1SingleMu.cxx:341-347 | no contract of its own: the selected trigger classes in the reconstructed pass, ["generated"] otherwise; stated by EventFillsPasses and GeneratedMultiplicity |
| EventFill.StepTracks | PWG/muon/AliAnalysisTaskV1SingleMu.cxx:349-357 | no contract of its own: the reconstructed tracks, or the MC particles in the generated pass; stated by EventFillsPasses |
| EventFill.IsSelected | PWG/muon/AliAnalysisTaskV1SingleMu.cxx:370 | no contract of its own: the track cuts in the reconstructed pass, a final-state muon (|PDG| 13, status below 10) in the generated pass; counted by CountSelected in TrackFillsNevents |
| EventFill.PassesPtGate | PWG/muon/AliAnalysisTaskV1SingleMu.cxx:396 | no contract of its own: the pT-cut match of the class applies in the reconstructed pass only; stated by GeneratedGatedIsSelected and GatedAtMostSelected |
| EventFill.ContainerInput | PWG/muon/AliAnalysisTaskV1SingleMu.cxx:378-381 | the filled vector holds pt, eta, charge/3 and phi at their variable slots |
| EventFill.NeventsId | PWG/muon/AliAnalysisTaskV1SingleMu.cxx:394 | no contract of its own: the identifier "/class"; stated by NeventsIdInjective |
| EventFill.SparseId | PWG/muon/AliAnalysisTaskV1SingleMu.cxx:398 | no contract of its own: the identifier "/class/centrality"; stated by SparseIdInjective |
| EventFill.NeventsIdInjective | PWG/muon/AliAnalysisTaskV1SingleMu.cxx:394 | distinct classes give distinct "/class" identifiers |
| EventFill.SparseIdInjective | PWG/muon/AliAnalysisTaskV1SingleMu.cxx:398 | distinct classes give distinct "/class/centrality" identifiers |
| EventFill.NeventsOp | PWG/muon/AliAnalysisTaskV1SingleMu.cxx:394-395 | no contract of its own: the "nevents" request of a class, filled with 1; stated by ClassOpsCounts |
| EventFill.SparseOp | PWG/muon/AliAnalysisTaskV1SingleMu.cxx:398 | no contract of its own: the "MuSparse" request of a class, filled with the container input; stated by ClassOpsCounts |
| EventFill.ClassOps | PWG/muon/AliAnalysisTaskV1SingleMu.cxx:394-398 | no contract of its own: "nevents", then "MuSparse" if the gate allows it; stated by ClassOpsCounts and ApplyClassOps |
| EventFill.ClassFills | PWG/muon/AliAnalysisTaskV1SingleMu.cxx:392-399 | no contract of its own: the requests of one selected track for each class in order; stated by ClassFillsNevents, ClassFillsSparse and ClassFillsPoints, and applied by FillTrackClasses |
| EventFill.TrackFills | PWG/muon/AliAnalysisTaskV1SingleMu.cxx:355-401 | no contract of its own: the requests of the selected tracks of a pass in track order; stated by TrackFillsNevents, TrackFillsSparse and TrackFillsPoints, and applied by FillPass |
| EventFill.StepFills | PWG/muon/AliAnalysisTaskV1SingleMu.cxx:341-402 | no contract of its own: the requests of one pass with its classes and tracks; stated by EventFillsPasses |
| EventFill.StepsFills | PWG/muon/AliAnalysisTaskV1SingleMu.cxx:338-403 | no contract of its own: the requests of the first n passes in order; stated by EventFillsPasses and StepsFillsSnoc |
| EventFill.EventFills | PWG/muon/AliAnalysisTaskV1SingleMu.cxx:266-403 | no contract of its own: no request for a missing or rejected event, otherwise the requests of all passes; stated by EventNevents, EventSparse, EventPoints and EventFrame, and applied by UserExec |
| EventFill.ClassOpsCounts | PWG/muon/AliAnalysisTaskV1SingleMu.cxx:394-398 | one class's requests hit "nevents" of c iff the class is c, and "MuSparse" of c iff the class is c and its gate passes, with the track's vector |
| EventFill.ClassFillsNevents | PWG/muon/AliAnalysisTaskV1SingleMu.cxx:392-395 | a selected track fills "nevents" of c once per occurrence of c in the class list |
| EventFill.ClassFillsSparse | PWG/muon/AliAnalysisTaskV1SingleMu.cxx:392-398 | a selected track fills "MuSparse" of c once per occurrence of c, if it passes the gate of c |
| EventFill.ClassFillsPoints | PWG/muon/AliAnalysisTaskV1SingleMu.cxx:392-398 | those sparse fills all carry the track's container input |
| EventFill.TrackFillsNevents | PWG/muon/AliAnalysisTaskV1SingleMu.cxx:355-395 | in a pass, "nevents" of c gets (selected tracks) x (occurrences of c), since it is filled before the pT gate |
| EventFill.TrackFillsSparse | PWG/muon/AliAnalysisTaskV1SingleMu.cxx:355-398 | in a pass, "MuSparse" of c gets (selected tracks passing the gate of c) x (occurrences of c) |
| EventFill.TrackFillsPoints | PWG/muon/AliAnalysisTaskV1SingleMu.cxx:355-398 | in a pass, "MuSparse" of c receives the container inputs of the gated tracks, in track order |
| EventFill.GeneratedGatedIsSelected | PWG/muon/AliAnalysisTaskV1SingleMu.cxx:396 | in the generated pass every selected particle passes the gate |
| EventFill.GatedAtMostSelected | PWG/muon/AliAnalysisTaskV1SingleMu.cxx:396 | the gate only removes sparse fills |
| EventFill.EventFillsPasses | PWG/muon/AliAnalysisTaskV1SingleMu.cxx:338-349 | an accepted event runs the reconstructed pass with the selected classes, then, with MC, the generated pass with ["generated"] |
| EventFill.GeneratedMultiplicity | PWG/muon/AliAnalysisTaskV1SingleMu.cxx:347 | the generated pass's only class is "generated" |
| EventFill.GeneratedPassNevents | PWG/muon/AliAnalysisTaskV1SingleMu.cxx:347-395 | the generated pass fills only "nevents" of "generated", once per selected particle |
| EventFill.GeneratedPassSparse | PWG/muon/AliAnalysisTaskV1SingleMu.cxx:347-398 | the generated pass fills only "MuSparse" of "generated", once per selected particle |
| EventFill.EventNevents | PWG/muon/AliAnalysisTaskV1SingleMu.cxx:338-396 | per event, "nevents" of c grows by NeventsDelta: reco selected x multiplicity of c, plus generated selected when c is "generated" |
| EventFill.EventSparse | PWG/muon/AliAnalysisTaskV1SingleMu.cxx:338-398 | per event, "MuSparse" of c grows by SparseDelta: reco gated x multiplicity, plus every selected generated particle for "generated" |
| EventFill.RejectedEventFillsNothing | PWG/muon/AliAnalysisTaskV1SingleMu.cxx:266-275 | a missing event or one the event cuts reject makes no request |
| EventFill.EventPoints | PWG/muon/AliAnalysisTaskV1SingleMu.cxx:378-398 | per event, "MuSparse" of c receives the reco gated inputs, then the generated ones |
| EventFill.NeventsAtLeastSparse | PWG/muon/AliAnalysisTaskV1SingleMu.cxx:395-396 | per event, "nevents" of c grows at least as much as "MuSparse" of c |
| EventFill.EventEffectNevents | PWG/muon/AliAnalysisTaskV1SingleMu.cxx:338-398 | after an event, the counter of c holds exactly NeventsDelta more entries and exists iff it existed or the delta is positive |
| EventFill.EventEffectSparse | PWG/muon/AliAnalysisTaskV1SingleMu.cxx:338-398 | after an event, the sparse histogram of c holds exactly SparseDelta more entries, exists iff it existed or the delta is positive, and holds its old vectors followed by SparseInputs |
| EventFill.EventKeyForms | PWG/muon/AliAnalysisTaskV1SingleMu.cxx:394-398 | the event keys of a centrality are exactly ("/c", "nevents") and ("/c/centrality", "MuSparse") for some class c |
| EventFill.ClassOpsKeys | PWG/muon/AliAnalysisTaskV1SingleMu.cxx:394-398 | every request of a class step has an event key of the centrality |
| EventFill.ClassFillsKeys | PWG/muon/AliAnalysisTaskV1SingleMu.cxx:392-399 | every request of the class loop has an event key of the centrality |
| EventFill.TrackFillsKeys | PWG/muon/AliAnalysisTaskV1SingleMu.cxx:355-401 | every request of a pass has an event key of the centrality |
| EventFill.EventFillsKeys | PWG/muon/AliAnalysisTaskV1SingleMu.cxx:338-403 | every request of an event has an event key of that event's centrality |
| EventFill.CountAbsent | PWG/muon/AliAnalysisTaskV1SingleMu.cxx:395-398 | a key that no request carries is requested zero times |
| EventFill.EventFrame | PWG/muon/AliAnalysisTaskV1SingleMu.cxx:338-403 | an event leaves every key that is not one of its event keys as it was: absent stays absent, a stored object is unchanged |
| EventFill.EventKeepsOtherNames | PWG/muon/AliAnalysisTaskV1SingleMu.cxx:395-398 | an event never touches an object named other than "nevents" or "MuSparse" |
| EventFill.EventKeepsOtherCentralities | PWG/muon/AliAnalysisTaskV1SingleMu.cxx:398 | an event never touches a sparse histogram filed under a different centrality string, when the two have the same length or neither holds a '/' |
| EventFill.ApplyClassOps | PWG/muon/AliAnalysisTaskV1SingleMu.cxx:394-398 | one class step applies "nevents", then "MuSparse" only if the gate passes |
| EventFill.ClassFillsSnoc | PWG/muon/AliAnalysisTaskV1SingleMu.cxx:392 | the requests of the classes so far grow by one class's requests per iteration |
| EventFill.ClassStep | PWG/muon/AliAnalysisTaskV1SingleMu.cxx:394-398 | after the "nevents" request of class k, the "MuSparse" request (when the gate allows it) completes the requests of the classes up to and including k |
| EventFill.TrackFillsSnoc | PWG/muon/AliAnalysisTaskV1SingleMu.cxx:355-374 | the requests of the tracks so far grow by one track's requests, none for an unselected track |
| EventFill.StepsFillsSnoc | PWG/muon/AliAnalysisTaskV1SingleMu.cxx:340 | the requests of the passes so far grow by one pass's requests |
| SingleMuTask.V1SingleMuTask.constructor | PWG/muon/AliAnalysisTaskV1SingleMu.cxx:113-132 | a new task has no outputs yet |
| SingleMuTask.V1SingleMuTask.UserCreateOutputObjects | PWG/muon/AliAnalysisTaskV1SingleMu.cxx:182-256 | the template becomes the four-axis layout and the collection starts empty |
| SingleMuTask.V1SingleMuTask.GetMergeableObject | PWG/muon/AliAnalysisTaskV1SingleMu.cxx:151-179 | the returned object and the new collection are get-or-create's; the template is unchanged |
| SingleMuTask.V1SingleMuTask.FillMergeableObject | PWG/muon/AliAnalysisTaskV1SingleMu.cxx:395-398 | get-or-create then one fill of the returned object, written where it is stored |
| SingleMuTask.V1SingleMuTask.FillTrackClasses | PWG/muon/AliAnalysisTaskV1SingleMu.cxx:392-399 | the class loop applies exactly the class requests of the track |
| SingleMuTask.V1SingleMuTask.FillPass | PWG/muon/AliAnalysisTaskV1SingleMu.cxx:355-401 | the track loop applies exactly the requests of the pass |
| SingleMuTask.V1SingleMuTask.UserExec | PWG/muon/AliAnalysisTaskV1SingleMu.cxx:259-407 | the collection afterwards is the old one with EventFills applied; a rejected event leaves it unchanged |
| ParticleTypes.Rank | PWG/muon/AliAnalysisTaskV1SingleMu.cxx:432-440 | each type's position in the order of the tests |
| ParticleTypes.GetParticleType | PWG/muon/AliAnalysisTaskV1SingleMu.cxx:415-443 | the result's test holds, or none holds and the result is DecayMu; no test of higher priority holds |
| ParticleTypes.FirstIndex | PWG/muon/AliAnalysisTaskV1SingleMu.cxx:421-442 | the first position in a list whose test holds, or the length |
| ParticleTypes.GetParticleTypeUnique | PWG/muon/AliAnalysisTaskV1SingleMu.cxx:432-442 | any type whose test holds with no higher-priority test holding is the answer |
| ParticleTypes.GetParticleTypeIsFirstMatch | PWG/muon/AliAnalysisTaskV1SingleMu.cxx:432-442 | the classifier is the first match in Unidentified, Hadron, SecondaryMu, DecayMu, Beauty, Charm, W, Z, Quarkonium, with default DecayMu |
| ParticleTypes.DecayMuCases | PWG/muon/AliAnalysisTaskV1SingleMu.cxx:435-442 | DecayMu comes out iff the decay test is the first to hold or no test holds |
| ParticleTypes.SecondaryBeforeBeautyAndW | PWG/muon/AliAnalysisTaskV1SingleMu.cxx:421-430 | a muon that is W, beauty and secondary at once is classed as a secondary muon |

## Left out

- The steering macro `PWGLF/SPECTRA/PiKaPr/TOF/pPb502/task/SteerAnalysisTaskTOFSpectraPbPb.C` and `PWGPP/PilotTrain/AddTaskPhysicsSelection.C` are not part of this model. They are pipeline configuration (library loading, grid and file I/O, task wiring) with no logic of their own.
- The internals of the mergeable collection (`GetObject`, `Adopt`, `EstimateSize`) are not modelled. The collection is a map from (identifier, name) to an object, and `Adopt` stores under the object's own name.
- MergeableStore.GetOrCreate: for an unknown name the source logs an error and passes a null object to `Adopt`. The model returns None and leaves the collection unchanged, since what the collection does with a null object is not visible.
- Aggregates.Fill: histogram bin lookup, weights, profile means and floating-point contents belong to ROOT. A fill of a counter, histogram or profile is counted only. The sparse histogram records the filled vector, not its bin.
- Rounding is not modelled. Pi is TMath::Pi() to 16 significant digits. Bin edges and `Charge()/3.` are exact reals. The centrality enters the identifier as an abstract string standing for its `"%f"` formatting.
- `AliAnalysisTaskV1SingleMu.h` is not part of this model. The variable slots of the sparse vector are taken in axis order (pt 0, eta 1, charge 2, phi 3), and the reconstructed pass is pass 0. The write of the centrality into `containerInput[kHCentrality]` is left out, since that slot's index is not known.
- The event cuts, track cuts, pT-cut match and muon-ancestor tests are uninterpreted predicates, as is the mapping of a class to its pT cut level. The centrality estimate, track counts and track access are inputs.
- The aliasing between the object returned by `GetMergeableObject` and the one the collection holds is not modelled. A fill is written back into the map at the object's key.
- SingleMuTask.V1SingleMuTask.UserExec, SingleMuTask.V1SingleMuTask.GetMergeableObject, SingleMuTask.V1SingleMuTask.FillMergeableObject, SingleMuTask.V1SingleMuTask.FillTrackClasses and SingleMuTask.V1SingleMuTask.FillPass require the outputs to have been created. Before `UserCreateOutputObjects` the source's collection and template are null, and the source does not handle that case.
- SingleMuTask.V1SingleMuTask.FillMergeableObject: for a name the dispatch does not know, the model fills nothing; the source would call `Fill` through the null pointer `GetMergeableObject` returns. The task itself only ever asks for "nevents" and "MuSparse".
- Logging and `PostData` are left out, as are `NotifyRun` (it passes the run to the track cuts), `Terminate` and the destructor's PROOF-dependent ownership. So is the commented-out Qn-vector code, the only place that requests "hNormQA", "hNormQB" and "hScalProdQAQB".
- The sparse histogram's own name and title ("MuSparse", "Sparse for muons") are not kept on the template. Each clone takes the requested object name.
- Merging of collections across workers is not modelled.
