/**
 * Layered configuration (config-service.ts 83-155, 440, 472-545): the deep merge
 * of JSON trees and the record of which layer set each leaf.  A path is the list
 * of its keys.
 */
module ConfigMerge {
  import opened Common

  type Key = string
  type Path = seq<Key>
  type LayerName = string

  // A JSON value; arrays and scalars are leaves.  An override may hold undefined.
  datatype Value = Undefined | Leaf(text: string) | Object(fields: map<Key, Value>)

  const DANGEROUS_MERGE_KEYS: set<Key> := {"__proto__", "constructor", "prototype"}

  // The entry of a layer that the merge takes over.
  predicate Sets(layer: Value, k: Key)
    requires layer.Object?
  {
    k in layer.fields && !layer.fields[k].Undefined? && k !in DANGEROUS_MERGE_KEYS
  }

  // result[key] after the layer's entry.
  function MergeEntry(base: Value, layer: Value, k: Key): Value
    requires base.Object? && layer.Object? && Sets(layer, k)
    decreases layer, 0
  {
    if k in base.fields && base.fields[k].Object? && layer.fields[k].Object? then Merge(base.fields[k], layer.fields[k])
    else layer.fields[k]
  }

  function Merge(base: Value, layer: Value): (r: Value)
    requires base.Object? && layer.Object?
    ensures r.Object?
    decreases layer, 1
  {
    Object(map k | k in base.fields.Keys + layer.fields.Keys && (k in base.fields || Sets(layer, k)) ::
             if Sets(layer, k) then MergeEntry(base, layer, k) else base.fields[k])
  }

  // The field of a merge at a key.
  lemma MergedField(base: Value, layer: Value, k: Key)
    requires base.Object? && layer.Object?
    ensures k in Merge(base, layer).fields <==> k in base.fields || Sets(layer, k)
    ensures Sets(layer, k) && k in base.fields && base.fields[k].Object? && layer.fields[k].Object? ==>
      Merge(base, layer).fields[k] == Merge(base.fields[k], layer.fields[k])
    ensures Sets(layer, k) && !(k in base.fields && base.fields[k].Object? && layer.fields[k].Object?) ==>
      Merge(base, layer).fields[k] == layer.fields[k]
    ensures !Sets(layer, k) && k in base.fields ==> Merge(base, layer).fields[k] == base.fields[k]
  {
  }

  ghost predicate FieldOf(goal: map<Key, Value>, base: Value, layer: Value, k: Key)
    requires base.Object? && layer.Object?
  {
    && (k in goal <==> k in base.fields || Sets(layer, k))
    && (Sets(layer, k) ==>
          goal[k] == if k in base.fields && base.fields[k].Object? && layer.fields[k].Object?
                     then Merge(base.fields[k], layer.fields[k]) else layer.fields[k])
    && (!Sets(layer, k) && k in base.fields ==> goal[k] == base.fields[k])
  }

  method DeepMerge(base: Value, layer: Value) returns (merged: Value)
    requires base.Object? && layer.Object?
    ensures merged == Merge(base, layer)
    decreases layer
  {
    ghost var goal := Merge(base, layer).fields;
    forall k ensures FieldOf(goal, base, layer, k) { MergedField(base, layer, k); }
    hide Merge;
    var result := base.fields;
    var rest := layer.fields.Keys;
    while rest != {}
      invariant rest <= layer.fields.Keys
      invariant forall k | k in rest || k !in layer.fields :: (k in result <==> k in base.fields) && (k in result ==> result[k] == base.fields[k])
      invariant forall k | k in layer.fields && k !in rest :: (k in result <==> k in goal) && (k in result ==> result[k] == goal[k])
      decreases |rest|
    {
      var key :| key in rest;
      rest := rest - {key};
      assert FieldOf(goal, base, layer, key);
      var value := layer.fields[key];
      if value.Undefined? || key in DANGEROUS_MERGE_KEYS {
        continue;
      }
      if key in result && result[key].Object? && value.Object? {
        var nested := DeepMerge(result[key], value);
        result := result[key := nested];
      } else {
        result := result[key := value];
      }
    }
    forall k ensures (k in result <==> k in goal) && (k in result ==> result[k] == goal[k]) {
      assert FieldOf(goal, base, layer, k);
    }
    assert result == goal;
    return Object(result);
  }

  // ---- associativity ----

  // A layer that only repeats what the base would have had anyway.
  predicate Covers(layer: Value, base: Value)
    requires base.Object? && layer.Object?
  {
    Merge(base, layer) == layer
  }

  /**
   * No leaf of the middle layer hides an object of the base from an object of the
   * last layer, unless the last one covers it.
   */
  predicate NothingHidden(a: Value, b: Value, c: Value)
    requires a.Object? && b.Object? && c.Object?
    decreases b, 1
  {
    forall k | k in b.fields :: NothingHiddenAt(a, b, c, k)
  }

  // The middle layer sets a key at which both others have an object.
  predicate Between(a: Value, b: Value, c: Value, k: Key)
    requires a.Object? && b.Object? && c.Object?
  {
    k in a.fields && k in c.fields && a.fields[k].Object? && c.fields[k].Object? && Sets(b, k)
  }

  predicate NothingHiddenAt(a: Value, b: Value, c: Value, k: Key)
    requires a.Object? && b.Object? && c.Object? && k in b.fields
    decreases b, 0
  {
    Between(a, b, c, k) ==>
      if b.fields[k].Object? then NothingHidden(a.fields[k], b.fields[k], c.fields[k]) else Covers(c.fields[k], a.fields[k])
  }

  predicate SameField(v: Value, w: Value, k: Key)
    requires v.Object? && w.Object?
  {
    (k in v.fields <==> k in w.fields) && (k in v.fields ==> v.fields[k] == w.fields[k])
  }

  lemma FieldsDecide(v: Value, w: Value)
    requires v.Object? && w.Object?
    ensures v == w <==> forall k :: SameField(v, w, k)
  {
    if forall k :: SameField(v, w, k) {
      forall k ensures k in v.fields <==> k in w.fields { assert SameField(v, w, k); }
      forall k | k in v.fields ensures v.fields[k] == w.fields[k] { assert SameField(v, w, k); }
      assert v.fields == w.fields;
    }
  }

  // The two orders of merging agree at a key that the middle layer does not set between objects.
  lemma AssociativeElsewhere(a: Value, b: Value, c: Value, k: Key)
    requires a.Object? && b.Object? && c.Object? && !Between(a, b, c, k)
    ensures SameField(Merge(Merge(a, b), c), Merge(a, Merge(b, c)), k)
  {
  }

  lemma AssociativeBetween(a: Value, b: Value, c: Value, k: Key)
    requires a.Object? && b.Object? && c.Object? && Between(a, b, c, k)
    ensures b.fields[k].Object? ==>
      (SameField(Merge(Merge(a, b), c), Merge(a, Merge(b, c)), k) <==>
       Merge(Merge(a.fields[k], b.fields[k]), c.fields[k]) == Merge(a.fields[k], Merge(b.fields[k], c.fields[k])) || !Sets(c, k))
    ensures !b.fields[k].Object? ==>
      (SameField(Merge(Merge(a, b), c), Merge(a, Merge(b, c)), k) <==> Covers(c.fields[k], a.fields[k]) || !Sets(c, k))
  {
  }

  /** Merging is associative exactly when nothing is hidden that way. */
  lemma {:induction false} MergeAssociativeIff(a: Value, b: Value, c: Value)
    requires a.Object? && b.Object? && c.Object?
    ensures Merge(Merge(a, b), c) == Merge(a, Merge(b, c)) <==> NothingHidden(a, b, c)
    decreases b
  {
    var left, right := Merge(Merge(a, b), c), Merge(a, Merge(b, c));
    forall k: Key ensures SameField(left, right, k) <==> (k in b.fields ==> NothingHiddenAt(a, b, c, k)) {
      if Between(a, b, c, k) {
        if b.fields[k].Object? { MergeAssociativeIff(a.fields[k], b.fields[k], c.fields[k]); }
        AssociativeBetween(a, b, c, k);
      } else {
        AssociativeElsewhere(a, b, c, k);
      }
    }
    hide Merge, NothingHiddenAt;
    FieldsDecide(left, right);
  }

  // Objects meet objects and leaves meet leaves; an undefined entry meets anything.
  predicate KindsAgree(a: Value, b: Value) {
    if a.Object? && b.Object? then forall k | k in a.fields && k in b.fields :: KindsAgree(a.fields[k], b.fields[k])
    else a.Undefined? || b.Undefined? || (a.Leaf? && b.Leaf?)
  }

  lemma {:induction false} AgreeingHidesNothing(a: Value, b: Value, c: Value)
    requires a.Object? && b.Object? && c.Object? && KindsAgree(a, b)
    ensures NothingHidden(a, b, c)
    decreases b
  {
    forall k | k in b.fields ensures NothingHiddenAt(a, b, c, k) {
      if Between(a, b, c, k) {
        assert KindsAgree(a.fields[k], b.fields[k]);
        AgreeingHidesNothing(a.fields[k], b.fields[k], c.fields[k]);
      }
    }
  }

  // ---- paths ----

  // getPath: the value at a path, Undefined when there is none.
  function At(v: Value, p: Path): Value
    decreases |p|
  {
    if p == [] then v
    else if v.Object? && p[0] in v.fields then At(v.fields[p[0]], p[1..])
    else Undefined
  }

  method GetPath(v: Value, p: Path) returns (r: Value)
    ensures r == At(v, p)
  {
    var current := v;
    for i := 0 to |p|
      invariant At(current, p[i..]) == At(v, p)
    {
      assert p[i..][0] == p[i] && p[i..][1..] == p[i + 1..];
      if !current.Object? || p[i] !in current.fields {
        return Undefined;
      }
      current := current.fields[p[i]];
    }
    return current;
  }

  // leafPaths: the paths of the entries that are not objects.
  function LeafPaths(v: Value, prefix: Path): set<Path>
    requires v.Object?
    decreases v, 1
  {
    set k, p | k in v.fields && p in EntryPaths(v, prefix, k) :: p
  }

  function EntryPaths(v: Value, prefix: Path, k: Key): set<Path>
    requires v.Object? && k in v.fields
    decreases v, 0
  {
    if v.fields[k].Object? then LeafPaths(v.fields[k], prefix + [k]) else {prefix + [k]}
  }

  // An entry at a path, possibly undefined.
  predicate HasEntry(v: Value, p: Path)
    decreases |p|
  {
    p != [] && v.Object? && p[0] in v.fields
    && (if |p| == 1 then !v.fields[p[0]].Object? else HasEntry(v.fields[p[0]], p[1..]))
  }

  lemma {:induction false} EntryPathsMeans(v: Value, prefix: Path, k: Key, p: Path)
    requires v.Object? && k in v.fields
    ensures p in EntryPaths(v, prefix, k) <==>
      prefix + [k] <= p && (if v.fields[k].Object? then HasEntry(v.fields[k], p[|prefix| + 1..]) else p == prefix + [k])
    decreases v, 0
  {
    if v.fields[k].Object? {
      LeafPathsMeans(v.fields[k], prefix + [k], p);
    }
  }

  lemma {:induction false} LeafPathsMeans(v: Value, prefix: Path, p: Path)
    requires v.Object?
    ensures p in LeafPaths(v, prefix) <==> prefix <= p && HasEntry(v, p[|prefix|..])
    decreases v, 1
  {
    forall k | k in v.fields
      ensures p in EntryPaths(v, prefix, k) <==> prefix <= p && EntryAt(v, k, p[|prefix|..])
    {
      EntryPathsMeans(v, prefix, k, p);
      EntryFrom(v, prefix, k, p);
    }
    hide EntryPaths;
    if prefix <= p {
      var q := p[|prefix|..];
      assert HasEntry(v, q) <==> exists k :: k in v.fields && EntryAt(v, k, q) by {
        if HasEntry(v, q) { assert EntryAt(v, q[0], q); }
      }
    }
  }

  // The path has an entry below the key k.
  predicate EntryAt(v: Value, k: Key, q: Path)
    requires v.Object?
  {
    q != [] && q[0] == k && HasEntry(v, q)
  }

  lemma EntryFrom(v: Value, prefix: Path, k: Key, p: Path)
    requires v.Object? && k in v.fields
    ensures prefix <= p && EntryAt(v, k, p[|prefix|..]) <==>
      prefix + [k] <= p && (if v.fields[k].Object? then HasEntry(v.fields[k], p[|prefix| + 1..]) else p == prefix + [k])
  {
    if prefix <= p && |p| > |prefix| {
      var q := p[|prefix|..];
      assert q[0] == p[|prefix|] && q[1..] == p[|prefix| + 1..];
      assert prefix + [k] <= p <==> p[|prefix|] == k;
      if q[0] == k {
        assert HasEntry(v, q) <==> if |q| == 1 then !v.fields[k].Object? else HasEntry(v.fields[k], q[1..]);
        if |q| == 1 {
          assert p == prefix + [k] && q[1..] == [];
        } else if !v.fields[k].Object? {
          assert !HasEntry(v.fields[k], q[1..]);
        }
      }
    }
  }

  // ---- sources ----

  type Sources = map<Path, LayerName>

  function Marked(sources: Sources, target: Value, layer: Value, name: LayerName): Sources
    requires layer.Object?
  {
    map p | p in sources.Keys + LeafPaths(layer, [])
      && (p in sources || !At(target, p).Undefined?) ::
      if p in LeafPaths(layer, []) && !At(target, p).Undefined? then name else sources[p]
  }

  datatype Layer = Layer(name: LayerName, value: Value)

  // The state of resolve between two layers.
  datatype Resolved = Resolved(merged: Value, sources: Sources)

  function AddLayer(r: Resolved, layer: Layer): Resolved
    requires r.merged.Object? && layer.value.Object?
  {
    var merged := Merge(r.merged, layer.value);
    Resolved(merged, Marked(r.sources, merged, layer.value, layer.name))
  }

  function Resolve(defaults: Value, layers: seq<Layer>): (r: Resolved)
    requires defaults.Object? && forall l | l in layers :: l.value.Object?
    ensures r.merged.Object?
    decreases |layers|
  {
    if layers == [] then Resolved(defaults, map p | p in LeafPaths(defaults, []) :: "default")
    else
      var last := |layers| - 1;
      AddLayer(Resolve(defaults, layers[..last]), layers[last])
  }

  /** The record of sources that resolve fills in place. */
  class SourceRecord {
    var sources: Sources

    constructor ()
      ensures sources == map[]
    {
      sources := map[];
    }

    method SetSourceForLeaves(target: Value, layer: Value, name: LayerName)
      requires layer.Object?
      modifies this
      ensures sources == Marked(old(sources), target, layer, name)
    {
      hide LeafPaths, At, Marked;
      var leaves := LeafPaths(layer, []);
      var rest := leaves;
      while rest != {}
        invariant rest <= leaves
        invariant forall p :: SourceAt(old(sources), sources, target, name, leaves - rest, p)
        decreases |rest|
      {
        ghost var before, seen := sources, leaves - rest;
        var path :| path in rest;
        rest := rest - {path};
        var value := GetPath(target, path);
        if !value.Undefined? {
          sources := sources[path := name];
        }
        forall p ensures SourceAt(old(sources), sources, target, name, leaves - rest, p) {
          assert SourceAt(old(sources), before, target, name, seen, p);
        }
      }
      assert leaves - rest == leaves;
      AllMarked(old(sources), sources, target, layer, name);
    }
  }

  // A path after the loop has seen it, or before.
  predicate SourceAt(before: Sources, after: Sources, target: Value, name: LayerName, seen: set<Path>, p: Path) {
    if p in seen && !At(target, p).Undefined? then p in after && after[p] == name
    else (p in after <==> p in before) && (p in after ==> after[p] == before[p])
  }

  lemma AllMarked(before: Sources, after: Sources, target: Value, layer: Value, name: LayerName)
    requires layer.Object? && forall p :: SourceAt(before, after, target, name, LeafPaths(layer, []), p)
    ensures after == Marked(before, target, layer, name)
  {
    hide At, LeafPaths;
    var marked := Marked(before, target, layer, name);
    forall p ensures (p in after <==> p in marked) && (p in after ==> after[p] == marked[p]) {
      assert SourceAt(before, after, target, name, LeafPaths(layer, []), p);
    }
  }

  method ResolveConfig(defaults: Value, layers: seq<Layer>) returns (merged: Value, sources: Sources)
    requires defaults.Object? && forall l | l in layers :: l.value.Object?
    ensures Resolved(merged, sources) == Resolve(defaults, layers)
  {
    var record := new SourceRecord();
    merged := defaults;
    record.sources := map p | p in LeafPaths(defaults, []) :: "default";
    for i := 0 to |layers|
      invariant fresh(record) && merged.Object?
      invariant Resolved(merged, record.sources) == Resolve(defaults, layers[..i])
    {
      assert layers[..i + 1][..i] == layers[..i];
      merged := DeepMerge(merged, layers[i].value);
      record.SetSourceForLeaves(merged, layers[i].value, layers[i].name);
    }
    assert layers[..|layers|] == layers;
    sources := record.sources;
  }
}
