/**
 * What the layered configuration promises: each leaf has the value, and is
 * recorded with the name, of the last layer that set it; and saving a patch to a
 * layer file resolves like stacking the patch on top of the old file.  An
 * override may hold undefined entries, and these are where the record fails.
 */
module ConfigProvenance {
  import opened Common
  import opened ConfigMerge

  // No prototype-like key at any depth.
  predicate PlainKeys(v: Value) {
    v.Object? ==> forall k | k in v.fields :: k !in DANGEROUS_MERGE_KEYS && PlainKeys(v.fields[k])
  }

  // No undefined entry at any depth, as in a file.
  predicate Defined(v: Value) {
    match v
    case Undefined => false
    case Leaf(_) => true
    case Object(fields) => forall k | k in fields :: Defined(fields[k])
  }

  // An undefined entry at the path.
  predicate HasUndefined(v: Value, p: Path) {
    HasEntry(v, p) && At(v, p).Undefined?
  }

  lemma {:induction false} EntryIs(v: Value, p: Path)
    ensures HasEntry(v, p) ==> !At(v, p).Object?
    ensures At(v, p).Leaf? && v.Object? ==> HasEntry(v, p)
    decreases |p|
  {
    if p != [] && v.Object? && p[0] in v.fields {
      if |p| > 1 {
        EntryIs(v.fields[p[0]], p[1..]);
      } else {
        assert p[1..] == [] && At(v, p) == v.fields[p[0]];
      }
    }
  }

  lemma {:induction false} DefinedEntries(v: Value, p: Path)
    requires Defined(v)
    ensures !HasUndefined(v, p)
    decreases |p|
  {
    if p != [] && v.Object? && p[0] in v.fields {
      if |p| > 1 {
        DefinedEntries(v.fields[p[0]], p[1..]);
      } else {
        assert p[1..] == [] && At(v, p) == v.fields[p[0]];
      }
    }
  }

  lemma {:induction false} MergedAgrees(a: Value, b: Value, c: Value)
    requires a.Object? && b.Object? && c.Object?
    requires KindsAgree(a, b) && KindsAgree(a, c) && KindsAgree(b, c)
    ensures KindsAgree(Merge(a, b), c)
    decreases b
  {
    var m := Merge(a, b);
    forall k | k in m.fields && k in c.fields ensures KindsAgree(m.fields[k], c.fields[k]) {
      MergedField(a, b, k);
      if Sets(b, k) {
        assert KindsAgree(b.fields[k], c.fields[k]);
        if k in a.fields && a.fields[k].Object? && b.fields[k].Object? {
          assert KindsAgree(a.fields[k], b.fields[k]) && KindsAgree(a.fields[k], c.fields[k]);
          if c.fields[k].Object? { MergedAgrees(a.fields[k], b.fields[k], c.fields[k]); }
        }
      } else {
        assert KindsAgree(a.fields[k], c.fields[k]);
      }
    }
  }

  /** A merge has the layer's leaves and, where it has none, the base's; undefined entries change nothing. */
  lemma {:induction false} MergeAt(a: Value, b: Value, p: Path)
    requires a.Object? && b.Object? && PlainKeys(b) && KindsAgree(a, b)
    ensures At(Merge(a, b), p).Leaf? <==> At(a, p).Leaf? || At(b, p).Leaf?
    ensures At(b, p).Leaf? ==> At(Merge(a, b), p) == At(b, p)
    ensures At(a, p).Leaf? && !At(b, p).Leaf? ==> At(Merge(a, b), p) == At(a, p)
    ensures At(Merge(a, b), p).Undefined? <==> At(a, p).Undefined? && At(b, p).Undefined?
    decreases |p|
  {
    if p != [] {
      var k := p[0];
      MergedField(a, b, k);
      if k in b.fields && k in a.fields {
        assert KindsAgree(a.fields[k], b.fields[k]);
        if a.fields[k].Object? && b.fields[k].Object? {
          MergeAt(a.fields[k], b.fields[k], p[1..]);
        }
      }
      hide Merge, KindsAgree, PlainKeys;
    }
  }

  // ---- provenance ----

  datatype Setting = Setting(name: LayerName, value: Value)

  /** The last layer that sets a value at the path. */
  function Winner(defaults: Value, layers: seq<Layer>, p: Path): Option<Setting>
    decreases |layers|
  {
    if layers == [] then
      if At(defaults, p).Leaf? then Some(Setting("default", At(defaults, p))) else None
    else
      var last := layers[|layers| - 1];
      if At(last.value, p).Leaf? then Some(Setting(last.name, At(last.value, p)))
      else Winner(defaults, layers[..|layers| - 1], p)
  }

  // Some layer has a leaf or an object at the path.
  predicate Present(defaults: Value, layers: seq<Layer>, p: Path) {
    !At(defaults, p).Undefined? || exists l :: l in layers && !At(l.value, p).Undefined?
  }

  /** The last layer with an entry, undefined or not, at a path that is present by then. */
  function Mentioner(defaults: Value, layers: seq<Layer>, p: Path): Option<LayerName>
    decreases |layers|
  {
    if layers == [] then
      if HasEntry(defaults, p) then Some("default") else None
    else
      var last := layers[|layers| - 1];
      if HasEntry(last.value, p) && Present(defaults, layers, p) then Some(last.name)
      else Mentioner(defaults, layers[..|layers| - 1], p)
  }

  ghost predicate Compatible(defaults: Value, layers: seq<Layer>) {
    && defaults.Object? && Defined(defaults)
    && (forall l | l in layers :: l.value.Object? && PlainKeys(l.value) && KindsAgree(defaults, l.value))
    && (forall l, m | l in layers && m in layers :: KindsAgree(l.value, m.value))
  }

  lemma {:induction false} ResolvedAgrees(defaults: Value, layers: seq<Layer>, v: Value)
    requires Compatible(defaults, layers) && v.Object? && KindsAgree(defaults, v)
    requires forall l | l in layers :: KindsAgree(l.value, v)
    ensures KindsAgree(Resolve(defaults, layers).merged, v)
    decreases |layers|
  {
    if layers != [] {
      var last := |layers| - 1;
      assert layers[last] in layers && forall l | l in layers[..last] :: l in layers;
      ResolvedAgrees(defaults, layers[..last], v);
      ResolvedAgrees(defaults, layers[..last], layers[last].value);
      MergedAgrees(Resolve(defaults, layers[..last]).merged, layers[last].value, v);
    }
  }

  /** The value and the recorded source are the winner's; without one there is neither. */
  ghost predicate Honest(r: Resolved, winner: Option<Setting>, p: Path) {
    && (At(r.merged, p).Leaf? <==> winner.Some?)
    && (p in r.sources <==> winner.Some?)
    && (winner.Some? ==> At(r.merged, p) == winner.value.value && r.sources[p] == winner.value.name)
  }

  // An undefined entry of the layer is recorded as a source it is not: of an
  // object, or of a value another layer set.
  ghost predicate Claims(r: Resolved, layer: Layer, p: Path) {
    && HasUndefined(layer.value, p)
    && (At(r.merged, p).Object? || (At(r.merged, p).Leaf? && !(p in r.sources && r.sources[p] == layer.name)))
  }

  // What a layer does to the record at one path.
  lemma RecordAt(r: Resolved, layer: Layer, p: Path)
    requires r.merged.Object? && layer.value.Object?
    ensures var r' := AddLayer(r, layer);
      if HasEntry(layer.value, p) && !At(r'.merged, p).Undefined? then p in r'.sources && r'.sources[p] == layer.name
      else (p in r'.sources <==> p in r.sources) && (p in r.sources ==> r'.sources[p] == r.sources[p])
  {
    LeafPathsMeans(layer.value, [], p);
    assert p[0..] == p;
    hide LeafPaths, Merge, HasEntry, At;
  }

  /**
   * One more layer keeps the record honest at a path exactly when it does not
   * claim the path by an undefined entry.
   */
  lemma AddLayerHonestIff(r: Resolved, layer: Layer, winner: Option<Setting>, p: Path)
    requires r.merged.Object? && layer.value.Object? && PlainKeys(layer.value) && KindsAgree(r.merged, layer.value)
    requires Honest(r, winner, p)
    ensures Honest(AddLayer(r, layer), if At(layer.value, p).Leaf? then Some(Setting(layer.name, At(layer.value, p))) else winner, p)
      <==> !Claims(r, layer, p)
  {
    RecordAt(r, layer, p);
    MergeAt(r.merged, layer.value, p);
    EntryIs(layer.value, p);
    hide Merge, HasEntry, At, PlainKeys, Marked;
    if HasUndefined(layer.value, p) { UndefinedKeeps(r.merged, layer.value, p); }
  }

  lemma {:induction false} UndefinedKeeps(a: Value, b: Value, p: Path)
    requires a.Object? && b.Object? && KindsAgree(a, b) && HasUndefined(b, p)
    ensures At(Merge(a, b), p) == At(a, p)
    decreases |p|
  {
    var k := p[0];
    MergedField(a, b, k);
    if |p| > 1 {
      if k in a.fields && a.fields[k].Object? && Sets(b, k) {
        UndefinedKeeps(a.fields[k], b.fields[k], p[1..]);
      } else if k in a.fields && Sets(b, k) {
        assert KindsAgree(a.fields[k], b.fields[k]);
      }
    } else {
      assert p[1..] == [];
    }
    hide Merge;
  }

  // The merged tree and the record, path by path.
  lemma {:induction false} ResolvedAt(defaults: Value, layers: seq<Layer>, p: Path)
    requires Compatible(defaults, layers)
    ensures var r := Resolve(defaults, layers); var winner := Winner(defaults, layers, p); var name := Mentioner(defaults, layers, p);
      && (At(r.merged, p).Leaf? <==> winner.Some?)
      && (winner.Some? ==> At(r.merged, p) == winner.value.value)
      && (At(r.merged, p).Undefined? <==> !Present(defaults, layers, p))
      && (p in r.sources <==> name.Some?)
      && (name.Some? ==> r.sources[p] == name.value)
    decreases |layers|
  {
    if layers == [] {
      LeafPathsMeans(defaults, [], p);
      assert p[0..] == p;
    } else {
      var last := |layers| - 1;
      var front, l := layers[..last], layers[last];
      assert layers == front + [l];
      assert l in layers && forall m | m in front :: m in layers;
      ResolvedAt(defaults, front, p);
      ResolvedAgrees(defaults, front, l.value);
      RecordAt(Resolve(defaults, front), l, p);
      MergeAt(Resolve(defaults, front).merged, l.value, p);
      PresentWith(defaults, front, l, p);
      assert Resolve(defaults, layers) == AddLayer(Resolve(defaults, front), l);
      hide Marked, Merge, HasEntry, At, KindsAgree, PlainKeys, Compatible, Present;
    }
  }

  lemma PresentWith(defaults: Value, front: seq<Layer>, l: Layer, p: Path)
    ensures Present(defaults, front + [l], p) <==> Present(defaults, front, p) || !At(l.value, p).Undefined?
  {
    hide At;
    if !At(l.value, p).Undefined? { assert l in front + [l]; }
    if m :| m in front && !At(m.value, p).Undefined? { assert m in front + [l]; }
  }

  /**
   * Provenance, for every path and all layers: the value is always that of the
   * last layer that set it, and the record is honest exactly when that layer is
   * also the last one with an entry, undefined or not, at the path once present.
   */
  lemma SourcesAreHonestIff(defaults: Value, layers: seq<Layer>, p: Path)
    requires Compatible(defaults, layers)
    ensures var winner := Winner(defaults, layers, p); var r := Resolve(defaults, layers);
      && (At(r.merged, p).Leaf? <==> winner.Some?)
      && (winner.Some? ==> At(r.merged, p) == winner.value.value)
      && (Honest(r, winner, p)
          <==> Mentioner(defaults, layers, p) == if winner.Some? then Some(winner.value.name) else None)
  {
    ResolvedAt(defaults, layers, p);
  }

  /** In particular when no layer has an undefined entry at the path. */
  lemma {:induction false} SourcesAreHonest(defaults: Value, layers: seq<Layer>, p: Path)
    requires Compatible(defaults, layers) && forall l | l in layers :: !HasUndefined(l.value, p)
    ensures Honest(Resolve(defaults, layers), Winner(defaults, layers, p), p)
  {
    OnlyWinnersMention(defaults, layers, p);
    SourcesAreHonestIff(defaults, layers, p);
  }

  lemma {:induction false} OnlyWinnersMention(defaults: Value, layers: seq<Layer>, p: Path)
    requires Compatible(defaults, layers) && forall l | l in layers :: !HasUndefined(l.value, p)
    ensures Mentioner(defaults, layers, p)
         == if Winner(defaults, layers, p).Some? then Some(Winner(defaults, layers, p).value.name) else None
    decreases |layers|
  {
    if layers == [] {
      DefinedEntries(defaults, p);
      EntryIs(defaults, p);
    } else {
      var last := |layers| - 1;
      assert layers[last] in layers && forall m | m in layers[..last] :: m in layers;
      EntryIs(layers[last].value, p);
      OnlyWinnersMention(defaults, layers[..last], p);
    }
  }

  // An override with one undefined entry.
  lemma OneUndefined(r: Resolved, name: LayerName, k: Key)
    requires r.merged.Object? && k in r.merged.fields && !r.merged.fields[k].Undefined?
    ensures var layer := Layer(name, Object(map[k := Undefined])); var r' := AddLayer(r, layer);
      r'.merged == r.merged && HasUndefined(layer.value, [k]) && [k] in r'.sources && r'.sources[[k]] == name
  {
    var layer := Object(map[k := Undefined]);
    assert Merge(r.merged, layer).fields == r.merged.fields;
    var p: Path := [k];
    assert p[1..] == [] && HasEntry(layer, p) && At(r.merged, p) == r.merged.fields[k];
    RecordAt(r, Layer(name, layer), p);
  }

  /**
   * An undefined entry over a value of another layer takes over its source; one
   * over an object records a source for a path that is no leaf.
   */
  lemma UndefinedClaimsTheSource(r: Resolved, name: LayerName, k: Key, winner: Option<Setting>)
    requires r.merged.Object? && k in r.merged.fields && Honest(r, winner, [k])
    requires r.merged.fields[k].Object? || (r.merged.fields[k].Leaf? && winner.Some? && winner.value.name != name)
    ensures var r' := AddLayer(r, Layer(name, Object(map[k := Undefined])));
      r'.merged == r.merged && [k] in r'.sources && r'.sources[[k]] == name && !Honest(r', winner, [k])
  {
    var p: Path := [k];
    assert p[1..] == [] && At(r.merged, p) == r.merged.fields[k];
    OneUndefined(r, name, k);
    hide AddLayer;
  }

  // ---- saving a patch ----

  lemma {:induction false} SameMergedAfter(defaults: Value, xs: seq<Layer>, ys: seq<Layer>, rest: seq<Layer>)
    requires defaults.Object? && forall l | l in xs + ys + rest :: l.value.Object?
    requires Resolve(defaults, xs).merged == Resolve(defaults, ys).merged
    ensures forall l | l in xs + rest :: l.value.Object?
    ensures forall l | l in ys + rest :: l.value.Object?
    ensures Resolve(defaults, xs + rest).merged == Resolve(defaults, ys + rest).merged
    decreases |rest|
  {
    hide AddLayer, Resolve;
    assert forall l | l in xs + rest :: l in xs + ys + rest;
    assert forall l | l in ys + rest :: l in xs + ys + rest;
    if rest == [] {
      assert xs + rest == xs && ys + rest == ys;
    } else {
      var front, last := rest[..|rest| - 1], rest[|rest| - 1];
      assert rest == front + [last];
      assert xs + rest == xs + front + [last] && ys + rest == ys + front + [last];
      assert forall l | l in xs + ys + front :: l in xs + ys + rest;
      assert last in xs + ys + rest;
      SameMergedAfter(defaults, xs, ys, front);
      ResolveLast(defaults, xs + front, last);
      ResolveLast(defaults, ys + front, last);
    }
  }

  lemma ResolveLast(defaults: Value, layers: seq<Layer>, last: Layer)
    requires defaults.Object? && (forall l | l in layers :: l.value.Object?) && last.value.Object?
    ensures forall l | l in layers + [last] :: l.value.Object?
    ensures Resolve(defaults, layers + [last]).merged == Merge(Resolve(defaults, layers).merged, last.value)
  {
    assert (layers + [last])[..|layers|] == layers;
  }

  /**
   * Saving merges the patch into the file; resolving the new file gives the same
   * configuration as stacking the patch on the old one, whatever layers follow,
   * exactly when the old file hides nothing between the defaults and the patch.
   */
  lemma SavingStacksIff(defaults: Value, file: Value, patch: Value, name: LayerName)
    requires defaults.Object? && file.Object? && patch.Object?
    ensures (forall rest: seq<Layer> | (forall l | l in rest :: l.value.Object?) ::
               SavedLike(defaults, file, patch, name, rest)) <==> NothingHidden(defaults, file, patch)
  {
    OneAndTwo(defaults, file, patch, name);
    MergeAssociativeIff(defaults, file, patch);
    var one, two := [Layer(name, Merge(file, patch))], [Layer(name, file), Layer(name, patch)];
    if NothingHidden(defaults, file, patch) {
      forall rest: seq<Layer> | (forall l | l in rest :: l.value.Object?) ensures SavedLike(defaults, file, patch, name, rest) {
        SameMergedAfter(defaults, one, two, rest);
      }
    } else {
      assert one + [] == one && two + [] == two;
      assert !SavedLike(defaults, file, patch, name, []);
    }
  }

  ghost predicate SavedLike(defaults: Value, file: Value, patch: Value, name: LayerName, rest: seq<Layer>)
    requires defaults.Object? && file.Object? && patch.Object? && forall l | l in rest :: l.value.Object?
  {
    Resolve(defaults, [Layer(name, Merge(file, patch))] + rest).merged
      == Resolve(defaults, [Layer(name, file), Layer(name, patch)] + rest).merged
  }

  lemma OneAndTwo(defaults: Value, file: Value, patch: Value, name: LayerName)
    requires defaults.Object? && file.Object? && patch.Object?
    ensures Resolve(defaults, [Layer(name, Merge(file, patch))]).merged == Merge(defaults, Merge(file, patch))
    ensures Resolve(defaults, [Layer(name, file), Layer(name, patch)]).merged == Merge(Merge(defaults, file), patch)
  {
    hide Merge;
    var one, two := [Layer(name, Merge(file, patch))], [Layer(name, file), Layer(name, patch)];
    assert one[..0] == [] && two[..1] == [Layer(name, file)];
    assert [Layer(name, file)][..0] == [];
    assert Resolve(defaults, two[..1]).merged == Merge(defaults, file);
  }

  /** When file and patch hold no undefined entries, the recorded sources are the same as well. */
  lemma SavingKeepsSources(defaults: Value, file: Value, patch: Value, name: LayerName, rest: seq<Layer>, p: Path)
    requires Defined(file) && Defined(patch)
    requires Compatible(defaults, [Layer(name, file), Layer(name, patch)] + rest)
    requires Compatible(defaults, [Layer(name, Merge(file, patch))] + rest)
    ensures var saved := Resolve(defaults, [Layer(name, Merge(file, patch))] + rest);
      var stacked := Resolve(defaults, [Layer(name, file), Layer(name, patch)] + rest);
      && (p in saved.sources <==> p in stacked.sources)
      && (p in saved.sources ==> saved.sources[p] == stacked.sources[p])
  {
    var one, two := Layer(name, Merge(file, patch)), [Layer(name, file), Layer(name, patch)];
    assert (two + rest)[0] in two + rest && (two + rest)[1] in two + rest;
    MergeAt(file, patch, p);
    MergedIsDefined(file, patch);
    DefinedEntries(file, p);
    DefinedEntries(patch, p);
    DefinedEntries(Merge(file, patch), p);
    EntryIs(file, p);
    EntryIs(patch, p);
    EntryIs(Merge(file, patch), p);
    ResolvedAt(defaults, [one] + rest, p);
    ResolvedAt(defaults, two + rest, p);
    hide Compatible, Merge, HasEntry, At, Resolve, Defined;
    SameMentioner(defaults, one, Layer(name, file), Layer(name, patch), rest, p);
  }

  lemma {:induction false} MergedIsDefined(a: Value, b: Value)
    requires a.Object? && b.Object? && Defined(a) && Defined(b)
    ensures Defined(Merge(a, b))
    decreases b
  {
    var m := Merge(a, b);
    forall k | k in m.fields ensures Defined(m.fields[k]) {
      MergedField(a, b, k);
      if Sets(b, k) && k in a.fields && a.fields[k].Object? && b.fields[k].Object? {
        MergedIsDefined(a.fields[k], b.fields[k]);
      }
    }
  }

  lemma {:induction false} SameMentioner(defaults: Value, saved: Layer, file: Layer, patch: Layer, rest: seq<Layer>, p: Path)
    requires saved.name == file.name == patch.name
    requires HasEntry(saved.value, p) <==> HasEntry(file.value, p) || HasEntry(patch.value, p)
    requires HasEntry(file.value, p) ==> !At(file.value, p).Undefined?
    requires At(saved.value, p).Undefined? <==> At(file.value, p).Undefined? && At(patch.value, p).Undefined?
    requires HasEntry(patch.value, p) ==> !At(patch.value, p).Undefined?
    ensures Mentioner(defaults, [saved] + rest, p) == Mentioner(defaults, [file, patch] + rest, p)
    ensures Present(defaults, [saved] + rest, p) <==> Present(defaults, [file, patch] + rest, p)
    decreases |rest|
  {
    hide HasEntry, At;
    var one, two := [saved] + rest, [file, patch] + rest;
    PresentWith(defaults, [], saved, p);
    PresentWith(defaults, [], file, p);
    PresentWith(defaults, [file], patch, p);
    assert [] + [saved] == [saved] && [] + [file] == [file] && [file] + [patch] == [file, patch];
    if rest == [] {
      assert one == [saved] && two == [file, patch];
      assert one[..0] == [] && two[..1] == [file] && [file][..0] == [];
    } else {
      var last := |rest| - 1;
      var front1, front2 := [saved] + rest[..last], [file, patch] + rest[..last];
      assert one[..|one| - 1] == front1 && two[..|two| - 1] == front2;
      assert one == front1 + [rest[last]] && two == front2 + [rest[last]];
      PresentWith(defaults, front1, rest[last], p);
      PresentWith(defaults, front2, rest[last], p);
      SameMentioner(defaults, saved, file, patch, rest[..last], p);
      hide Present;
    }
  }
}
