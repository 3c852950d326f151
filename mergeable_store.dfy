/** The analysis task's mergeable collection, seen as a map from the pair
    (identifier path, object name) to an aggregate, and the analysis task's
    get-or-create access to it: a hit returns the stored object; a miss
    builds a new object from a fixed dispatch on the name and adopts it
    under the identifier. */
module MergeableStore {
  import opened Aggregates

  /** (identifier path, object name). */
  type Key = (string, string)

  type Collection = map<Key, Aggregate>

  /** The names the dispatch knows. */
  const KnownNames: set<string> := {"MuSparse", "nevents", "hNormQA", "hNormQB", "hScalProdQAQB"}

  /** The dispatch on the object name: a clone of the sparse template named
      `objectName`, a 1-bin counter on [0.5, 1.5], 100-bin histograms on
      [0, 1], a 25-bin profile on [0, 100], or nothing for any other name. */
  function NewObject(objectName: string, template: seq<Axis>): (r: Option<Aggregate>)
    ensures r.Some? <==> objectName in KnownNames
    ensures r.Some? ==> r.value.name == objectName && Cleared(r.value) == r.value
  {
    if objectName == "MuSparse" then Some(Sparse(objectName, template, []))
    else if objectName == "nevents" then Some(Counter(objectName, 1, 0.5, 1.5, 0))
    else if objectName == "hNormQA" || objectName == "hNormQB" then Some(Hist1D(objectName, 100, 0.0, 1.0, 0))
    else if objectName == "hScalProdQAQB" then Some(Profile(objectName, 25, 0.0, 100.0, 0))
    else None
  }

  /** The collection's lookup by identifier and object name. */
  function GetObject(coll: Collection, identifier: string, objectName: string): (r: Option<Aggregate>)
    ensures r.Some? <==> (identifier, objectName) in coll
    ensures r.Some? ==> r.value == coll[(identifier, objectName)]
  {
    if (identifier, objectName) in coll then Some(coll[(identifier, objectName)]) else None
  }

  /** The collection takes ownership of `obj` under `identifier`, keyed by
      the object's own name. */
  function Adopt(coll: Collection, identifier: string, obj: Aggregate): (r: Collection)
    ensures (identifier, obj.name) in r && r[(identifier, obj.name)] == obj
    ensures forall k :: k != (identifier, obj.name) ==> (k in r <==> k in coll)
    ensures forall k :: k in coll && k != (identifier, obj.name) ==> r[k] == coll[k]
  {
    coll[(identifier, obj.name) := obj]
  }

  /** Get-or-create: the object returned (None for an unknown name) and the
      collection afterwards. */
  function GetOrCreate(coll: Collection, template: seq<Axis>, identifier: string, objectName: string)
    : (r: (Option<Aggregate>, Collection))
    ensures r.0.Some? <==> (identifier, objectName) in coll || objectName in KnownNames
    ensures r.0.Some? ==> (identifier, objectName) in r.1 && r.1[(identifier, objectName)] == r.0.value
    ensures (identifier, objectName) in coll ==> r.1 == coll
    ensures r.1 == coll || ((identifier, objectName) !in coll && r.0.Some? && r.1 == coll[(identifier, objectName) := r.0.value])
  {
    var found := GetObject(coll, identifier, objectName);
    if found.Some? then (found, coll)
    else
      var obj := NewObject(objectName, template);
      if obj.Some? then (obj, Adopt(coll, identifier, obj.value)) else (None, coll)
  }

  /** On a hit the stored object is returned and nothing is created or adopted. */
  lemma GetOrCreateHit(coll: Collection, template: seq<Axis>, identifier: string, objectName: string)
    requires (identifier, objectName) in coll
    ensures GetOrCreate(coll, template, identifier, objectName) == (Some(coll[(identifier, objectName)]), coll)
  {
  }

  /** On a miss the name alone fixes the new object, which is stored under
      (identifier, objectName) and nowhere else; an unknown name leaves the
      collection as it was. */
  lemma GetOrCreateMiss(coll: Collection, template: seq<Axis>, identifier: string, objectName: string)
    requires (identifier, objectName) !in coll
    ensures var (obj, coll') := GetOrCreate(coll, template, identifier, objectName);
      && obj == NewObject(objectName, template)
      && coll' == if obj.Some? then coll[(identifier, objectName) := obj.value] else coll
  {
  }

  /** The dispatch table itself. */
  lemma NewObjectShapes(template: seq<Axis>)
    ensures NewObject("nevents", template) == Some(Counter("nevents", 1, 0.5, 1.5, 0))
    ensures NewObject("hNormQA", template) == Some(Hist1D("hNormQA", 100, 0.0, 1.0, 0))
    ensures NewObject("hNormQB", template) == Some(Hist1D("hNormQB", 100, 0.0, 1.0, 0))
    ensures NewObject("hScalProdQAQB", template) == Some(Profile("hScalProdQAQB", 25, 0.0, 100.0, 0))
    ensures NewObject("MuSparse", template) == Some(Sparse("MuSparse", template, []))
  {
  }

  /** The collection grows by one on the first request for a known pair and
      by nothing on any other request. */
  lemma GetOrCreateSize(coll: Collection, template: seq<Axis>, identifier: string, objectName: string)
    ensures var coll' := GetOrCreate(coll, template, identifier, objectName).1;
      |coll'| == |coll| + (if (identifier, objectName) !in coll && objectName in KnownNames then 1 else 0)
  {
    var key := (identifier, objectName);
    if key !in coll && objectName in KnownNames {
      var obj := NewObject(objectName, template).value;
      assert coll[key := obj].Keys == coll.Keys + {key};
    }
  }

  /** A second request for the same pair is a hit on what the first one
      returned, and changes nothing. */
  lemma GetOrCreateStable(coll: Collection, template: seq<Axis>, identifier: string, objectName: string)
    requires objectName in KnownNames
    ensures var (obj, coll') := GetOrCreate(coll, template, identifier, objectName);
      && obj.Some?
      && GetOrCreate(coll', template, identifier, objectName) == (obj, coll')
  {
  }

  // ---------------------------------------------------------------------
  // Fills through get-or-create
  // ---------------------------------------------------------------------

  /** One request "get the object named `name` under `identifier` and fill
      it with `point`". */
  datatype FillOp = FillOp(identifier: string, name: string, point: seq<real>)

  function KeyOf(op: FillOp): Key
  {
    (op.identifier, op.name)
  }

  /** Get-or-create, then one fill of the object returned. */
  function ApplyFill(coll: Collection, template: seq<Axis>, op: FillOp): Collection
  {
    var (obj, coll') := GetOrCreate(coll, template, op.identifier, op.name);
    if obj.Some? then coll'[KeyOf(op) := Fill(obj.value, op.point)] else coll'
  }

  /** The requests of `ops`, in order. */
  function ApplyFills(coll: Collection, template: seq<Axis>, ops: seq<FillOp>): Collection
    decreases |ops|
  {
    if ops == [] then coll
    else ApplyFill(ApplyFills(coll, template, ops[..|ops| - 1]), template, ops[|ops| - 1])
  }

  /** Number of requests in `ops` for key `k`. */
  function Count(k: Key, ops: seq<FillOp>): nat
    decreases |ops|
  {
    if ops == [] then 0
    else Count(k, ops[..|ops| - 1]) + (if KeyOf(ops[|ops| - 1]) == k then 1 else 0)
  }

  /** Entries of the object stored under `k`, 0 if none. */
  function EntriesAt(coll: Collection, k: Key): nat
  {
    if k in coll then Entries(coll[k]) else 0
  }

  /** The points that requests in `ops` for key `k` carry, in order. */
  function PointsFor(k: Key, ops: seq<FillOp>): seq<seq<real>>
    decreases |ops|
  {
    if ops == [] then []
    else PointsFor(k, ops[..|ops| - 1]) + (if KeyOf(ops[|ops| - 1]) == k then [ops[|ops| - 1].point] else [])
  }

  lemma {:induction false} CountAppend(k: Key, a: seq<FillOp>, b: seq<FillOp>)
    ensures Count(k, a + b) == Count(k, a) + Count(k, b)
    decreases |b|
  {
    if b == [] {
      assert a + b == a;
    } else {
      assert (a + b)[..|a + b| - 1] == a + b[..|b| - 1];
      CountAppend(k, a, b[..|b| - 1]);
    }
  }

  lemma {:induction false} ApplyFillsAppend(coll: Collection, template: seq<Axis>, a: seq<FillOp>, b: seq<FillOp>)
    ensures ApplyFills(coll, template, a + b) == ApplyFills(ApplyFills(coll, template, a), template, b)
    decreases |b|
  {
    if b == [] {
      assert a + b == a;
    } else {
      assert (a + b)[..|a + b| - 1] == a + b[..|b| - 1];
      ApplyFillsAppend(coll, template, a, b[..|b| - 1]);
    }
  }

  /** One more request at the end is one more step of the fold. */
  lemma ApplyFillsSnoc(coll: Collection, template: seq<Axis>, ops: seq<FillOp>, op: FillOp)
    ensures ApplyFills(coll, template, ops + [op]) == ApplyFill(ApplyFills(coll, template, ops), template, op)
  {
    assert (ops + [op])[..|ops|] == ops;
  }

  /** Every key of the collection holds an object of the shape its name
      dispatches to: an object's kind never changes once created. */
  ghost predicate Conforming(coll: Collection, template: seq<Axis>)
  {
    forall k :: k in coll ==> NewObject(k.1, template) == Some(Cleared(coll[k]))
  }

  lemma GetOrCreateConforming(coll: Collection, template: seq<Axis>, identifier: string, objectName: string)
    requires Conforming(coll, template)
    ensures var (obj, coll') := GetOrCreate(coll, template, identifier, objectName);
      && Conforming(coll', template)
      && (obj.Some? ==> (identifier, objectName) in coll' && coll'[(identifier, objectName)] == obj.value)
  {
  }

  lemma ApplyFillConforming(coll: Collection, template: seq<Axis>, op: FillOp)
    requires Conforming(coll, template)
    ensures Conforming(ApplyFill(coll, template, op), template)
  {
    GetOrCreateConforming(coll, template, op.identifier, op.name);
  }

  /** A request for `k` adds one entry to the object under `k` (created
      empty if absent); any other request leaves `k` alone. */
  lemma ApplyFillAt(coll: Collection, template: seq<Axis>, op: FillOp, k: Key)
    requires k.1 in KnownNames
    ensures EntriesAt(ApplyFill(coll, template, op), k) == EntriesAt(coll, k) + (if KeyOf(op) == k then 1 else 0)
    ensures k in ApplyFill(coll, template, op) <==> k in coll || KeyOf(op) == k
  {
  }

  /** The counting rule: after a sequence of requests, the object under a
      known key has as many more entries as there were requests for it. */
  lemma {:induction false} ApplyFillsCount(coll: Collection, template: seq<Axis>, ops: seq<FillOp>, k: Key)
    requires k.1 in KnownNames
    ensures EntriesAt(ApplyFills(coll, template, ops), k) == EntriesAt(coll, k) + Count(k, ops)
    ensures k in ApplyFills(coll, template, ops) <==> k in coll || Count(k, ops) > 0
    decreases |ops|
  {
    if ops != [] {
      ApplyFillsCount(coll, template, ops[..|ops| - 1], k);
      ApplyFillAt(ApplyFills(coll, template, ops[..|ops| - 1]), template, ops[|ops| - 1], k);
    }
  }

  /** A key no request names is left as it was: absent stays absent, and
      a stored object is kept unchanged. */
  lemma {:induction false} ApplyFillsFrame(coll: Collection, template: seq<Axis>, ops: seq<FillOp>, k: Key)
    requires Count(k, ops) == 0
    ensures var coll' := ApplyFills(coll, template, ops);
      && (k in coll' <==> k in coll)
      && (k in coll ==> coll'[k] == coll[k])
    decreases |ops|
  {
    if ops != [] {
      ApplyFillsFrame(coll, template, ops[..|ops| - 1], k);
    }
  }

  /** One request seen from a "MuSparse" key: a request for it appends its
      point to the samples (of a new empty sparse object if absent); any
      other request leaves the key alone. */
  lemma ApplyFillSamples(coll: Collection, template: seq<Axis>, op: FillOp, k: Key)
    requires k.1 == "MuSparse" && Conforming(coll, template)
    ensures var coll' := ApplyFill(coll, template, op);
      && (k !in coll' ==> k !in coll && KeyOf(op) != k)
      && (k in coll' ==>
            && coll'[k].Sparse?
            && coll'[k].samples == (if k in coll then coll[k].samples else []) + (if KeyOf(op) == k then [op.point] else []))
  {
    GetOrCreateConforming(coll, template, op.identifier, op.name);
    var coll' := ApplyFill(coll, template, op);
    if k in coll' {
      if KeyOf(op) == k {
        if k in coll {
          assert NewObject(k.1, template) == Some(Cleared(coll[k]));
        } else {
          assert coll'[k].samples == [op.point];
        }
      } else {
        assert k in coll && coll'[k] == coll[k];
        assert NewObject(k.1, template) == Some(Cleared(coll[k]));
      }
    }
  }

  /** The sparse histogram under a "MuSparse" key receives exactly the points
      of the requests for it, appended in order. */
  lemma {:induction false} ApplyFillsSamples(coll: Collection, template: seq<Axis>, ops: seq<FillOp>, k: Key)
    requires k.1 == "MuSparse" && Conforming(coll, template)
    ensures var coll' := ApplyFills(coll, template, ops);
      && Conforming(coll', template)
      && (k !in coll' ==> k !in coll && PointsFor(k, ops) == [])
      && (k in coll' ==>
            && coll'[k].Sparse?
            && coll'[k].samples == (if k in coll then coll[k].samples else []) + PointsFor(k, ops))
    decreases |ops|
  {
    if ops != [] {
      var prefix := ops[..|ops| - 1];
      var op := ops[|ops| - 1];
      var mid := ApplyFills(coll, template, prefix);
      ApplyFillsSamples(coll, template, prefix, k);
      ApplyFillConforming(mid, template, op);
      ApplyFillSamples(mid, template, op, k);
      var before := if k in coll then coll[k].samples else [];
      var last := if KeyOf(op) == k then [op.point] else [];
      assert PointsFor(k, ops) == PointsFor(k, prefix) + last;
      assert before + PointsFor(k, prefix) + last == before + (PointsFor(k, prefix) + last);
    }
  }
}
