/** Layering configuration files (`bot/config/loader.py`): a profile is merged into the base section by section. */
module ConfigMerge {

  datatype Value = Scalar(text: string) | Section(entries: map<string, Value>)

  function MergeValue(base: Value, over: Value): Value
    decreases over
  {
    if base.Section? && over.Section? then
      Section(map k | k in base.entries.Keys + over.entries.Keys ::
                if k !in over.entries then base.entries[k]
                else if k !in base.entries then over.entries[k]
                else MergeValue(base.entries[k], over.entries[k]))
    else over
  }

  /** The source's form: a copy of the base, overwritten key by key. */
  method DeepMerge(base: map<string, Value>, over: map<string, Value>) returns (result: map<string, Value>)
    ensures Section(result) == MergeValue(Section(base), Section(over))
    decreases Section(over), 1
  {
    result := base;
    var todo := over.Keys;
    while todo != {}
      invariant todo <= over.Keys
      invariant result.Keys == base.Keys + (over.Keys - todo)
      invariant forall k :: k in result ==>
                  result[k] == (if k !in over || k in todo then base[k]
                                else if k in base then MergeValue(base[k], over[k]) else over[k])
      decreases todo
    {
      var key :| key in todo;
      todo := todo - {key};
      var value := over[key];
      if value.Section? && key in result && result[key].Section? {
        var merged := DeepMerge(result[key].entries, value.entries);
        result := result[key := Section(merged)];
      } else {
        result := result[key := value];
      }
    }
    assert result == MergeValue(Section(base), Section(over)).entries;
  }

  // ---- Laws -------------------------------------------------------------------------------------------------------

  /** An empty layer changes nothing, below or above. */
  lemma EmptyLayerIsIdentity(v: Value)
    requires v.Section?
    ensures MergeValue(Section(map[]), v) == v && MergeValue(v, Section(map[])) == v
  {
    assert MergeValue(Section(map[]), v).entries == v.entries;
    assert MergeValue(v, Section(map[])).entries == v.entries;
  }

  /** Whether a value sets a text at a path of keys. */
  predicate Sets(v: Value, path: seq<string>, text: string)
    decreases |path|
  {
    if path == [] then v == Scalar(text)
    else v.Section? && path[0] in v.entries && Sets(v.entries[path[0]], path[1..], text)
  }

  /** Whether a layer has something at a path, or ends in a text before it. */
  predicate Hides(over: Value, path: seq<string>)
    decreases |path|
  {
    path == [] || over.Scalar? || (path[0] in over.entries && Hides(over.entries[path[0]], path[1..]))
  }

  /** Where each setting comes from, at every path: from the upper layer, or from the base where the upper layer has
      nothing on that path. */
  lemma {:induction false} SettingComesFrom(base: Value, over: Value, path: seq<string>, text: string)
    ensures Sets(MergeValue(base, over), path, text) <==>
              Sets(over, path, text) || (Sets(base, path, text) && !Hides(over, path))
    decreases |path|
  {
    if path != [] && base.Section? && over.Section? {
      var k, rest := path[0], path[1..];
      if k in base.entries && k in over.entries { SettingComesFrom(base.entries[k], over.entries[k], rest, text); }
    }
  }

  /** Every setting of `base` is named by `over`, in the sections they share as well. */
  predicate Covered(base: Value, over: Value)
    decreases over
  {
    base.Section? && over.Section? ==>
      (forall k :: k in base.entries ==> k in over.entries && Covered(base.entries[k], over.entries[k]))
  }

  /** Merging leaves nothing of the base exactly when the upper layer covers it. */
  lemma {:induction false} AbsorbedIffCovered(base: Value, over: Value)
    ensures MergeValue(base, over) == over <==> Covered(base, over)
    decreases over
  {
    if base.Section? && over.Section? {
      forall k | k in base.entries && k in over.entries
        ensures MergeValue(base.entries[k], over.entries[k]) == over.entries[k]
          <==> Covered(base.entries[k], over.entries[k])
      {
        AbsorbedIffCovered(base.entries[k], over.entries[k]);
      }
      var merged := MergeValue(base, over).entries;
      if Covered(base, over) { assert merged == over.entries; }
      if merged == over.entries {
        forall k | k in base.entries ensures k in over.entries && Covered(base.entries[k], over.entries[k]) {
          assert k in merged;
        }
      }
    }
  }

  lemma {:induction false} CoversItself(v: Value)
    ensures Covered(v, v)
    decreases v
  {
    if v.Section? {
      forall k | k in v.entries ensures Covered(v.entries[k], v.entries[k]) { CoversItself(v.entries[k]); }
    }
  }

  lemma {:induction false} ResultCovered(base: Value, over: Value)
    ensures Covered(over, MergeValue(base, over))
    decreases over
  {
    if base.Section? && over.Section? {
      var merged := MergeValue(base, over);
      forall k | k in over.entries ensures k in merged.entries && Covered(over.entries[k], merged.entries[k]) {
        if k in base.entries {
          ResultCovered(base.entries[k], over.entries[k]);
        } else {
          CoversItself(over.entries[k]);
        }
      }
    } else {
      CoversItself(over);
    }
  }

  /** Merging a layer into itself, or applying the same layer twice, changes nothing. */
  lemma {:induction false} Idempotent(base: Value, over: Value)
    ensures MergeValue(over, over) == over
    ensures MergeValue(MergeValue(base, over), over) == MergeValue(base, over)
    decreases over
  {
    CoversItself(over);
    AbsorbedIffCovered(over, over);
    if base.Section? && over.Section? {
      var once := MergeValue(base, over);
      forall k | k in base.entries && k in over.entries
        ensures MergeValue(MergeValue(base.entries[k], over.entries[k]), over.entries[k])
          == MergeValue(base.entries[k], over.entries[k])
      {
        Idempotent(base.entries[k], over.entries[k]);
      }
      forall k | k in over.entries ensures MergeValue(over.entries[k], over.entries[k]) == over.entries[k] {
        Idempotent(base, over.entries[k]);
      }
      assert MergeValue(once, over).entries == once.entries;
    }
  }

  // ---- Associativity ----------------------------------------------------------------------------------------------

  /** Grouping matters where the middle layer replaces a section by a plain value that the upper layer turns back into a
      section, unless the upper section names everything the lower one had. */
  predicate Associates(a: Value, b: Value, c: Value)
    decreases c
  {
    c.Section? && a.Section? ==>
      if b.Scalar? then Covered(a, c)
      else
        forall k :: k in a.entries && k in b.entries && k in c.entries ==>
          Associates(a.entries[k], b.entries[k], c.entries[k])
  }

  /** Only a key that all three layers have can tell the two groupings apart. */
  lemma SectionsAt(a: Value, b: Value, c: Value, k: string)
    requires a.Section? && b.Section? && c.Section?
    ensures var left, right := MergeValue(MergeValue(a, b), c).entries, MergeValue(a, MergeValue(b, c)).entries;
      && (k in left <==> k in right)
      && (k in a.entries && k in b.entries && k in c.entries ==>
            && k in left
            && left[k] == MergeValue(MergeValue(a.entries[k], b.entries[k]), c.entries[k])
            && right[k] == MergeValue(a.entries[k], MergeValue(b.entries[k], c.entries[k])))
      && (k in left && !(k in a.entries && k in b.entries && k in c.entries) ==> left[k] == right[k])
  {
  }

  /** Exactly when three layers may be merged from either end. */
  lemma {:induction false} AssociativeIff(a: Value, b: Value, c: Value)
    ensures MergeValue(MergeValue(a, b), c) == MergeValue(a, MergeValue(b, c)) <==> Associates(a, b, c)
    decreases c
  {
    if c.Section? && a.Section? {
      if b.Scalar? {
        AbsorbedIffCovered(a, c);
      } else {
        var left, right := MergeValue(MergeValue(a, b), c).entries, MergeValue(a, MergeValue(b, c)).entries;
        forall k
          ensures k in left <==> k in right
          ensures k in left ==>
            (left[k] == right[k] <==>
             (k in a.entries && k in b.entries && k in c.entries ==>
                Associates(a.entries[k], b.entries[k], c.entries[k])))
          ensures k in a.entries && k in b.entries && k in c.entries ==> k in left
        {
          SectionsAt(a, b, c, k);
          if k in a.entries && k in b.entries && k in c.entries {
            AssociativeIff(a.entries[k], b.entries[k], c.entries[k]);
          }
        }
        if Associates(a, b, c) { assert left == right; }
      }
    }
  }

  /** The law does fail: a section, then a plain value, then a section that no longer names the first setting. */
  lemma NotAssociative()
    ensures var a := Section(map["risk" := Section(map["cap" := Scalar("5")])]);
      var b := Section(map["risk" := Scalar("off")]);
      var c := Section(map["risk" := Section(map["theme" := Scalar("7")])]);
      MergeValue(MergeValue(a, b), c) != MergeValue(a, MergeValue(b, c))
  {
    var inner, upper := Section(map["cap" := Scalar("5")]), Section(map["theme" := Scalar("7")]);
    var a, b, c := Section(map["risk" := inner]), Section(map["risk" := Scalar("off")]), Section(map["risk" := upper]);
    assert "cap" in inner.entries && "cap" !in upper.entries;
    assert !Covered(inner, upper);
    assert !Associates(a.entries["risk"], b.entries["risk"], c.entries["risk"]);
    AssociativeIff(a, b, c);
  }
}
