/** Deep merge of two configuration trees: objects merge key by key, any
    other pair of kinds is settled by the source replacing the target. */
module Merging {
  import opened Values

  /** The value `merge_json` leaves in `target` after merging `source` into it. */
  function Merge(target: Value, source: Value): (r: Value)
    decreases source
  {
    match (target, source)
    case (Obj(tm), Obj(sm)) =>
      Obj(map k | k in tm.Keys + sm.Keys ::
            if k in sm && k in tm then Merge(tm[k], sm[k])
            else if k in sm then sm[k]
            else tm[k])
    case _ => source
  }

  /** `merge_json` as the source runs it: walk the source object's entries,
      recursing into a key the target already has and inserting a copy of the
      source's value otherwise; any other pair of kinds overwrites the target. */
  method MergeJson(target: Value, source: Value) returns (merged: Value)
    ensures merged == Merge(target, source)
    decreases source
  {
    if target.Obj? && source.Obj? {
      var targetMap := target.fields;
      var pending := source.fields.Keys;
      while pending != {}
        invariant pending <= source.fields.Keys
        invariant targetMap.Keys == target.fields.Keys + (source.fields.Keys - pending)
        invariant forall k :: k in targetMap ==>
          targetMap[k] == if k in source.fields.Keys - pending
                          then Merge(target, source).fields[k]
                          else target.fields[k]
        decreases pending
      {
        var key :| key in pending;
        if key in targetMap {
          var sub := MergeJson(targetMap[key], source.fields[key]);
          targetMap := targetMap[key := sub];
        } else {
          targetMap := targetMap[key := source.fields[key]];
        }
        pending := pending - {key};
      }
      merged := Obj(targetMap);
    } else {
      merged := source;
    }
  }

  /** When both sides are objects the result is an object whose keys are the
      union of both key sets: a key only in the target keeps the target's value,
      a key only in the source takes the source's value, and a shared key holds
      the merge of the two values. */
  lemma MergeObjects(target: Value, source: Value)
    requires target.Obj? && source.Obj?
    ensures Merge(target, source).Obj?
    ensures Merge(target, source).fields.Keys == target.fields.Keys + source.fields.Keys
    ensures forall k :: k in target.fields && k !in source.fields ==>
      Merge(target, source).fields[k] == target.fields[k]
    ensures forall k :: k in source.fields && k !in target.fields ==>
      Merge(target, source).fields[k] == source.fields[k]
    ensures forall k :: k in source.fields && k in target.fields ==>
      Merge(target, source).fields[k] == Merge(target.fields[k], source.fields[k])
  {
  }

  /** Unless both sides are objects the source wins outright; in particular
      arrays are replaced whole, never merged element by element. */
  lemma MergeNonObject(target: Value, source: Value)
    requires !target.Obj? || !source.Obj?
    ensures Merge(target, source) == source
  {
  }

  /** Merging a tree with itself gives back the same tree. */
  lemma {:induction false} MergeIdempotent(a: Value)
    ensures Merge(a, a) == a
    decreases a
  {
    if a.Obj? {
      var m := Merge(a, a);
      forall k | k in a.fields
        ensures m.fields[k] == a.fields[k]
      {
        MergeIdempotent(a.fields[k]);
      }
      assert m.fields == a.fields;
    }
  }

  /** Merging into the empty object yields the source itself, so a load with
      a single successful source yields that source's tree. */
  lemma MergeIntoEmpty(source: Value)
    ensures Merge(EmptyObject, source) == source
  {
    if source.Obj? {
      assert Merge(EmptyObject, source).fields == source.fields;
    }
  }

  /** An empty source object contributes nothing to an object target. */
  lemma MergeEmptySource(target: Value)
    requires target.Obj?
    ensures Merge(target, EmptyObject) == target
  {
    assert Merge(target, EmptyObject).fields == target.fields;
  }

  /** `r` carries everything `s` says: every object key of `s`, at every
      depth, is present in `r`, and every non-object leaf of `s` is in `r` as is. */
  ghost predicate Covers(r: Value, s: Value)
    decreases s
  {
    if s.Obj? then
      r.Obj? && s.fields.Keys <= r.fields.Keys &&
      forall k :: k in s.fields ==> Covers(r.fields[k], s.fields[k])
    else
      r == s
  }

  /** The result of a merge carries everything the source says. */
  lemma {:induction false} MergeCoversSource(target: Value, source: Value)
    ensures Covers(Merge(target, source), source)
    decreases source
  {
    if target.Obj? && source.Obj? {
      var m := Merge(target, source);
      forall k | k in source.fields
        ensures Covers(m.fields[k], source.fields[k])
      {
        if k in target.fields {
          MergeCoversSource(target.fields[k], source.fields[k]);
        } else {
          CoversSelf(source.fields[k]);
        }
      }
    } else {
      CoversSelf(source);
    }
  }

  /** Every tree covers itself. */
  lemma {:induction false} CoversSelf(s: Value)
    ensures Covers(s, s)
    decreases s
  {
    if s.Obj? {
      forall k | k in s.fields
        ensures Covers(s.fields[k], s.fields[k])
      {
        CoversSelf(s.fields[k]);
      }
    }
  }

  /** Merging a source into a tree that already carries it changes nothing. */
  lemma {:induction false} MergeCoveredUnchanged(r: Value, s: Value)
    requires Covers(r, s)
    ensures Merge(r, s) == r
    decreases s
  {
    if s.Obj? {
      var m := Merge(r, s);
      forall k | k in r.fields
        ensures m.fields[k] == r.fields[k]
      {
        if k in s.fields {
          MergeCoveredUnchanged(r.fields[k], s.fields[k]);
        }
      }
      assert m.fields == r.fields;
    }
  }

  /** Merging the same source twice is the same as merging it once. */
  lemma MergeAbsorbs(target: Value, source: Value)
    ensures Merge(Merge(target, source), source) == Merge(target, source)
  {
    MergeCoversSource(target, source);
    MergeCoveredUnchanged(Merge(target, source), source);
  }

  /** Of two sources merged one after the other into any tree, the later one
      decides every non-object value it sets: the one merged last wins. */
  lemma LastMergedWins(acc: Value, b: Value, c: Value, k: string)
    requires c.Obj? && k in c.fields && !c.fields[k].Obj?
    ensures Merge(Merge(acc, b), c).Obj?
    ensures k in Merge(Merge(acc, b), c).fields
    ensures Merge(Merge(acc, b), c).fields[k] == c.fields[k]
  {
    MergeCoversSource(Merge(acc, b), c);
  }

  /** An instance showing that merge order matters: two sources setting the
      same scalar key to different values give different results depending
      on which is merged last. */
  lemma MergeOrderMatters()
    ensures
      var b := Obj(map["a" := Num(1)]);
      var c := Obj(map["a" := Num(2)]);
      && Merge(Merge(EmptyObject, b), c) == Obj(map["a" := Num(2)])
      && Merge(Merge(EmptyObject, c), b) == Obj(map["a" := Num(1)])
  {
    var b := Obj(map["a" := Num(1)]);
    var c := Obj(map["a" := Num(2)]);
    MergeIntoEmpty(b);
    MergeIntoEmpty(c);
    assert Merge(b, c).fields == c.fields;
    assert Merge(c, b).fields == b.fields;
  }
}
