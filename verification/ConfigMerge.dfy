/** Layering of configuration trees: mappings merge, other values replace, nulls in the overlay are skipped. */
module ConfigMerge {
  import opened Wrappers
  import opened Json

  /** What one key of the result holds, given that the overlay writes it. */
  function MergedValue(base: Dict, key: string, v: Json): Json
    decreases v
  {
    if key in base && base[key].Obj? && v.Obj? then Obj(Merged(base[key].fields, v.fields)) else v
  }

  predicate Writes(overlay: Dict, key: string) { key in overlay && !overlay[key].Null? }

  function Merged(base: Dict, overlay: Dict): Dict
    decreases Obj(overlay), 0
  {
    map k | k in base.Keys + overlay.Keys && (k in base || Writes(overlay, k)) ::
      if Writes(overlay, k) then MergedValue(base, k, overlay[k]) else base[k]
  }

  method DeepMerge(base: Dict, overlay: Dict) returns (result: Dict)
    ensures result == Merged(base, overlay)
    decreases Obj(overlay)
  {
    result := base;
    var todo := overlay.Keys;
    while todo != {}
      invariant todo <= overlay.Keys
      invariant forall k :: k in result <==> k in base || (Writes(overlay, k) && k !in todo)
      invariant forall k | k in result ::
        result[k] == if Writes(overlay, k) && k !in todo then MergedValue(base, k, overlay[k]) else base[k]
    {
      var key :| key in todo;
      var value := overlay[key];
      if !value.Null? {
        if key in result && result[key].Obj? && value.Obj? {
          assert Obj(value.fields) == value && value == overlay[key];
          var inner := DeepMerge(result[key].fields, value.fields);
          result := result[key := Obj(inner)];
        } else {
          result := result[key := value];
        }
      }
      todo := todo - {key};
    }
    assert result.Keys == Merged(base, overlay).Keys;
  }

  // ----- identities

  lemma MergedStep(base: Dict, overlay: Dict, key: string)
    ensures key in Merged(base, overlay) <==> key in base || Writes(overlay, key)
    ensures key in Merged(base, overlay) ==>
      Merged(base, overlay)[key] == if Writes(overlay, key) then MergedValue(base, key, overlay[key]) else base[key]
  {
  }

  /** An empty overlay changes nothing. */
  lemma EmptyOverlay(base: Dict)
    ensures Merged(base, map[]) == base
  {
  }

  /** An empty base is replaced by the overlay, exactly when the overlay has no null at the top. */
  lemma EmptyBase(overlay: Dict)
    ensures Merged(map[], overlay) == overlay <==> forall k | k in overlay :: !overlay[k].Null?
  {
    assert Merged(map[], overlay).Keys == set k | k in overlay && !overlay[k].Null?;
    if Merged(map[], overlay) == overlay {
      forall k | k in overlay ensures !overlay[k].Null? { assert k in Merged(map[], overlay); }
    }
  }

  /** The base is swallowed whole: the overlay has its keys, and a null only where the base has one. */
  predicate Covers(overlay: Dict, base: Dict)
    decreases Obj(overlay)
  {
    && (forall k | k in base :: k in overlay)
    && (forall k | k in overlay && overlay[k].Null? :: k in base && base[k].Null?)
    && (forall k | k in overlay && k in base && overlay[k].Obj? && base[k].Obj? ::
      Covers(overlay[k].fields, base[k].fields))
  }

  lemma {:induction false} CoversIsAbsorption(base: Dict, overlay: Dict)
    ensures Covers(overlay, base) <==> Merged(base, overlay) == overlay
    decreases Obj(overlay)
  {
    forall k | k in overlay && k in base && overlay[k].Obj? && base[k].Obj?
      ensures Covers(overlay[k].fields, base[k].fields) <==> MergedValue(base, k, overlay[k]) == overlay[k]
    {
      assert Obj(overlay[k].fields) == overlay[k];
      CoversIsAbsorption(base[k].fields, overlay[k].fields);
    }
    var m := Merged(base, overlay);
    if m == overlay {
      forall k | k in base ensures k in overlay { assert k in m; }
      forall k | k in overlay && overlay[k].Null? ensures k in base && base[k].Null? { assert k in m; }
      forall k | k in overlay && k in base && overlay[k].Obj? && base[k].Obj?
        ensures Covers(overlay[k].fields, base[k].fields)
      {
        assert m[k] == overlay[k];
      }
    }
    if Covers(overlay, base) {
      assert m.Keys == overlay.Keys;
      forall k | k in overlay ensures m[k] == overlay[k] {
        hide Merged;
        MergedStep(base, overlay, k);
      }
    }
  }

  lemma {:induction false} CoversItself(d: Dict)
    ensures Covers(d, d)
    decreases Obj(d)
  {
    forall k | k in d && d[k].Obj? ensures Covers(d[k].fields, d[k].fields) {
      assert Obj(d[k].fields) == d[k];
      CoversItself(d[k].fields);
    }
  }

  /** Merging the same overlay twice is merging it once. */
  lemma {:induction false} MergeAgain(base: Dict, overlay: Dict)
    ensures Merged(Merged(base, overlay), overlay) == Merged(base, overlay)
    decreases Obj(overlay)
  {
    var m := Merged(base, overlay);
    assert Merged(m, overlay).Keys == m.Keys;
    forall k | k in m ensures Merged(m, overlay)[k] == m[k] {
      hide Merged, Covers;
      MergedStep(base, overlay, k);
      MergedStep(m, overlay, k);
      if Writes(overlay, k) && overlay[k].Obj? {
        assert Obj(overlay[k].fields) == overlay[k];
        if k in base && base[k].Obj? {
          MergeAgain(base[k].fields, overlay[k].fields);
        } else {
          CoversItself(overlay[k].fields);
          CoversIsAbsorption(overlay[k].fields, overlay[k].fields);
        }
      }
    }
  }

  // ----- every path: the last writer that is not null wins

  function At(v: Json, path: seq<string>): Option<Json>
    decreases |path|
  {
    if path == [] then Some(v)
    else if v.Obj? && path[0] in v.fields then At(v.fields[path[0]], path[1..])
    else None
  }

  predicate LeafAt(v: Json, path: seq<string>) {
    At(v, path).Some? && !At(v, path).value.Obj? && !At(v, path).value.Null?
  }

  predicate DictAt(v: Json, path: seq<string>) { At(v, path).Some? && At(v, path).value.Obj? }

  predicate NullAt(v: Json, path: seq<string>) { At(v, path) == Some(Null) }

  /** The overlay has a say about the path: a value at it, or a leaf on the way to it. */
  predicate Decides(overlay: Json, path: seq<string>) {
    DictAt(overlay, path) || exists n | 0 < n <= |path| :: LeafAt(overlay, path[..n])
  }

  lemma AtStep(v: Json, path: seq<string>, n: nat)
    requires 0 < n <= |path| && v.Obj? && path[0] in v.fields
    ensures At(v, path[..n]) == At(v.fields[path[0]], path[1..][..n - 1])
  {
    assert path[..n][1..] == path[1..][..n - 1];
  }

  /** Whether an overlay decides is settled at its first key, or below it. */
  lemma DecidesStep(o: Dict, path: seq<string>)
    requires path != []
    ensures Decides(Obj(o), path) <==>
      Writes(o, path[0]) && (!o[path[0]].Obj? || path[1..] == [] || Decides(o[path[0]], path[1..]))
  {
    var v, key := Obj(o), path[0];
    if key in o {
      forall n | 0 < n <= |path| ensures At(v, path[..n]) == At(o[key], path[1..][..n - 1]) { AtStep(v, path, n); }
      assert path[1..][..0] == [] && At(o[key], []) == Some(o[key]);
      if !o[key].Obj? && !o[key].Null? {
        assert LeafAt(v, path[..1]);
      }
      if m :| 0 < m <= |path[1..]| && LeafAt(o[key], path[1..][..m]) {
        assert LeafAt(v, path[..m + 1]);
      }
      if n :| 0 < n <= |path| && LeafAt(v, path[..n]) {
        if n == 1 {
        } else {
          assert LeafAt(o[key], path[1..][..n - 1]);
        }
      }
      forall n | 0 < n <= |path| && o[key].Null? ensures !LeafAt(v, path[..n]) { NullLeadsNowhere(path[1..][..n - 1]); }
      assert path[..|path|] == path && path[1..][..|path| - 1] == path[1..];
    } else {
      forall n | 0 < n <= |path| ensures At(v, path[..n]).None? {}
    }
  }

  lemma AtFirst(d: Dict, path: seq<string>)
    requires path != []
    ensures At(Obj(d), path) == if path[0] in d then At(d[path[0]], path[1..]) else None
    ensures path[0] in d && path[1..] == [] ==> At(Obj(d), path) == Some(d[path[0]])
  {
  }

  lemma NullLeadsNowhere(path: seq<string>)
    ensures !LeafAt(Null, path) && !DictAt(Null, path)
  {
  }

  lemma LeafLeadsNowhere(v: Json, path: seq<string>)
    requires !v.Obj? && path != []
    ensures At(v, path).None?
  {
  }

  /** Leaves: the overlay's if it has one, else the base's unless the overlay decides the path otherwise. */
  lemma {:induction false} LastWriterWins(base: Dict, overlay: Dict, path: seq<string>)
    requires path != []
    ensures LeafAt(Obj(Merged(base, overlay)), path) <==>
      LeafAt(Obj(overlay), path) || (LeafAt(Obj(base), path) && !Decides(Obj(overlay), path))
    ensures LeafAt(Obj(overlay), path) ==> At(Obj(Merged(base, overlay)), path) == At(Obj(overlay), path)
    ensures !Decides(Obj(overlay), path) && LeafAt(Obj(base), path)
      ==> At(Obj(Merged(base, overlay)), path) == At(Obj(base), path)
    ensures DictAt(Obj(Merged(base, overlay)), path) <==>
      DictAt(Obj(overlay), path) || (DictAt(Obj(base), path) && !Decides(Obj(overlay), path))
    decreases |path|
  {
    hide Decides, Merged;
    var key, rest := path[0], path[1..];
    DecidesStep(overlay, path);
    MergedStep(base, overlay, key);
    AtFirst(base, path);
    AtFirst(overlay, path);
    AtFirst(Merged(base, overlay), path);
    if rest != [] {
      if Writes(overlay, key) && key in base && base[key].Obj? && overlay[key].Obj? {
        LastWriterWins(base[key].fields, overlay[key].fields, rest);
        assert Obj(overlay[key].fields) == overlay[key] && Obj(base[key].fields) == base[key];
      } else if Writes(overlay, key) {
        LeafOrDictDecides(overlay[key], rest);
        if key in base && !base[key].Obj? { LeafLeadsNowhere(base[key], rest); }
      } else if key in overlay {
        NullLeadsNowhere(rest);
      }
    }
  }

  /** A value that is replaced whole: whatever it holds along the path, it decides. */
  lemma LeafOrDictDecides(v: Json, path: seq<string>)
    requires path != []
    ensures LeafAt(v, path) || DictAt(v, path) ==> Decides(v, path)
  {
    assert path[..|path|] == path;
  }

  /** Nulls: the base's where the overlay has no say, and the overlay's inside mappings the base does not have. */
  lemma {:induction false} NullsSurvive(base: Dict, overlay: Dict, path: seq<string>)
    requires path != []
    ensures NullAt(Obj(Merged(base, overlay)), path) <==>
      || (NullAt(Obj(base), path) && !Decides(Obj(overlay), path))
      || (NullAt(Obj(overlay), path) && !DictAt(Obj(base), path[..|path| - 1]))
    decreases |path|
  {
    hide Decides, Merged;
    var key, rest := path[0], path[1..];
    DecidesStep(overlay, path);
    MergedStep(base, overlay, key);
    AtFirst(base, path);
    AtFirst(overlay, path);
    AtFirst(Merged(base, overlay), path);
    if rest == [] {
      assert path[..0] == [];
    } else {
      assert path[..|path| - 1][0] == key && path[..|path| - 1][1..] == rest[..|rest| - 1];
      if Writes(overlay, key) && key in base && base[key].Obj? && overlay[key].Obj? {
        NullsSurvive(base[key].fields, overlay[key].fields, rest);
        assert Obj(overlay[key].fields) == overlay[key] && Obj(base[key].fields) == base[key];
      } else if Writes(overlay, key) {
        AtFirst(base, path[..|path| - 1]);
        if key in base && !base[key].Obj? {
          LeafLeadsNowhere(base[key], rest);
          if |rest| > 1 { LeafLeadsNowhere(base[key], rest[..|rest| - 1]); }
        }
        if !overlay[key].Obj? { LeafLeadsNowhere(overlay[key], rest); }
      }
    }
  }

  // ----- three layers

  /** Grouping does not matter at a key: no mapping is cut off there by a leaf and begun again by a mapping that does
      not cover it. */
  predicate GroupsAt(a: Dict, b: Dict, c: Dict, k: string)
    decreases Obj(c), 0
  {
    k in a && k in b && k in c && a[k].Obj? && c[k].Obj? ==>
      && (b[k].Obj? ==> Groups(a[k].fields, b[k].fields, c[k].fields))
      && (!b[k].Obj? && !b[k].Null? ==> Covers(c[k].fields, a[k].fields))
  }

  predicate Groups(a: Dict, b: Dict, c: Dict)
    decreases Obj(c), 1
  {
    forall k | k in c :: GroupsAt(a, b, c, k)
  }

  lemma SameKeys(a: Dict, b: Dict, c: Dict, k: string)
    ensures k in Merged(Merged(a, b), c) <==> k in Merged(a, Merged(b, c))
    ensures k in a ==> k in Merged(Merged(a, b), c)
  {
    MergedStep(a, b, k);
    MergedStep(b, c, k);
    MergedStep(Merged(a, b), c, k);
    MergedStep(a, Merged(b, c), k);
    hide Merged;
  }

  /** Merging is associative exactly where Groups holds. */
  lemma {:induction false} AssociativeWhere(a: Dict, b: Dict, c: Dict)
    ensures Merged(Merged(a, b), c) == Merged(a, Merged(b, c)) <==> Groups(a, b, c)
    decreases Obj(c)
  {
    var l, r := Merged(Merged(a, b), c), Merged(a, Merged(b, c));
    forall k ensures (k in l <==> k in r) && (k in a ==> k in l) { SameKeys(a, b, c, k); }
    assert l.Keys == r.Keys;
    forall k | k in l ensures l[k] == r[k] <==> GroupsAt(a, b, c, k) { AssociativeAt(a, b, c, k); }
    assert Groups(a, b, c) <==> forall k | k in l :: GroupsAt(a, b, c, k);
    assert l == r <==> forall k | k in l :: l[k] == r[k];
  }

  lemma {:induction false} AssociativeAt(a: Dict, b: Dict, c: Dict, k: string)
    requires k in Merged(Merged(a, b), c) && k in Merged(a, Merged(b, c))
    ensures Merged(Merged(a, b), c)[k] == Merged(a, Merged(b, c))[k] <==> GroupsAt(a, b, c, k)
    decreases Obj(c), 0
  {
    if k in a && k in b && k in c && a[k].Obj? && c[k].Obj? {
      assert Obj(c[k].fields) == c[k];
      if b[k].Obj? {
        AssociativeWhere(a[k].fields, b[k].fields, c[k].fields);
      } else if !b[k].Null? {
        CoversIsAbsorption(a[k].fields, c[k].fields);
      }
    }
  }

  /** Shared paths agree on being a mapping or not. */
  predicate SameShape(a: Dict, b: Dict)
    decreases Obj(a)
  {
    forall k | k in a && k in b :: (a[k].Obj? <==> b[k].Obj?)
      && (a[k].Obj? && b[k].Obj? ==> SameShape(a[k].fields, b[k].fields))
  }

  lemma {:induction false} SameShapeGroups(a: Dict, b: Dict, c: Dict)
    requires SameShape(a, b)
    ensures Groups(a, b, c)
    decreases Obj(c)
  {
    forall k | k in a && k in b && k in c && a[k].Obj? && c[k].Obj? && b[k].Obj?
      ensures Groups(a[k].fields, b[k].fields, c[k].fields)
    {
      assert Obj(c[k].fields) == c[k];
      SameShapeGroups(a[k].fields, b[k].fields, c[k].fields);
    }
  }
}
