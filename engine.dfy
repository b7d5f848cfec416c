/** The configuration engine: an ordered list of sources and the current typed
    configuration, replaced only by a load in which every step succeeded. */
module Engine {
  import opened Values
  import opened Merging

  /** Left fold of `Merge` over already-fetched source values, first to last. */
  function FoldMerge(acc: Value, values: seq<Value>): (r: Value)
    decreases |values|
  {
    if values == [] then acc else FoldMerge(Merge(acc, values[0]), values[1..])
  }

  /** What the merge phase of `load` yields for `sources`, where `fetch` is
      each source's answer: the first failure in list order, or the merge of
      every fetched tree into the empty object in list order. */
  function LoadMerged<S>(fetch: S -> Result<Value, ConfigError>, sources: seq<S>): (r: Result<Value, ConfigError>)
    decreases |sources|
  {
    if sources == [] then Success(EmptyObject)
    else
      match LoadMerged(fetch, sources[..|sources| - 1])
      case Failure(e) => Failure(e)
      case Success(acc) =>
        match fetch(sources[|sources| - 1])
        case Failure(e) => Failure(e)
        case Success(v) => Success(Merge(acc, v))
  }

  /** The whole of `load`: the merge phase, then the typed decode, whose error
      text is reported as a `DeserializationError`. */
  function LoadDecoded<S, T>(fetch: S -> Result<Value, ConfigError>, decode: Value -> Result<T, string>,
                             sources: seq<S>): (r: Result<T, ConfigError>)
  {
    match LoadMerged(fetch, sources)
    case Failure(e) => Failure(e)
    case Success(v) =>
      match decode(v)
      case Failure(msg) => Failure(DeserializationError(msg))
      case Success(t) => Success(t)
  }

  /** The outcome `load` reports for a given result of the pipeline. */
  function Status<T>(r: Result<T, ConfigError>): Result<(), ConfigError>
  {
    match r
    case Failure(e) => Failure(e)
    case Success(_) => Success(())
  }

  class ConfigEngine<S, T> {
    /** Sources in priority order: a later source overrides an earlier one. */
    var sources: seq<S>
    /** The configuration currently served to readers. */
    var current: T
    /** The typed decode of a merged tree into `T`, failing with a message. */
    const decode: Value -> Result<T, string>

    /** `new`: no sources, and the initial configuration is current. */
    constructor (initial: T, decode: Value -> Result<T, string>)
      ensures sources == [] && current == initial && this.decode == decode
    {
      sources := [];
      current := initial;
      this.decode := decode;
    }

    /** `add_source`: append one source at the end and hand back the engine. */
    method AddSource(source: S) returns (self: ConfigEngine<S, T>)
      modifies this`sources
      ensures sources == old(sources) + [source]
      ensures current == old(current)
      ensures self == this
    {
      sources := sources + [source];
      self := this;
    }

    /** `load`: fetch and merge every source in order starting from the empty
        object, stopping at the first failure, then decode; `current` is
        overwritten only when all of that succeeded. */
    method Load(fetch: S -> Result<Value, ConfigError>) returns (status: Result<(), ConfigError>)
      modifies this`current
      ensures status == Status(LoadDecoded(fetch, decode, sources))
      ensures current == match LoadDecoded(fetch, decode, sources)
                         case Success(t) => t
                         case Failure(_) => old(current)
    {
      var merged := EmptyObject;
      var i := 0;
      while i < |sources|
        invariant 0 <= i <= |sources|
        invariant LoadMerged(fetch, sources[..i]) == Success(merged)
        invariant current == old(current)
      {
        assert sources[..i + 1][..i] == sources[..i];
        var sourceValue := fetch(sources[i]);
        if sourceValue.Failure? {
          FailureSticks(fetch, sources[..i + 1], sources[i + 1..]);
          assert sources[..i + 1] + sources[i + 1..] == sources;
          return Failure(sourceValue.error);
        }
        merged := MergeJson(merged, sourceValue.value);
        i := i + 1;
      }
      assert sources[..i] == sources;
      var decoded := decode(merged);
      if decoded.Failure? {
        return Failure(DeserializationError(decoded.error));
      }
      current := decoded.value;
      status := Success(());
    }

    /** `get_current`: the configuration currently served. */
    method GetCurrent() returns (config: T)
      ensures config == current
    {
      config := current;
    }
  }

  /** Once a prefix of the sources fails, sources after it cannot change the
      outcome: they are never consulted. */
  lemma {:induction false} FailureSticks<S>(fetch: S -> Result<Value, ConfigError>, sources: seq<S>, later: seq<S>)
    requires LoadMerged(fetch, sources).Failure?
    ensures LoadMerged(fetch, sources + later) == LoadMerged(fetch, sources)
    decreases |later|
  {
    if later != [] {
      var init := later[..|later| - 1];
      FailureSticks(fetch, sources, init);
      assert (sources + later)[..|sources + later| - 1] == sources + init;
    } else {
      assert sources + later == sources;
    }
  }

  /** The merge phase fails exactly when some source fails, and then with the
      error of the first failing source. */
  lemma {:induction false} FirstFailureWins<S>(fetch: S -> Result<Value, ConfigError>, sources: seq<S>, i: nat)
    requires i < |sources|
    requires forall j :: 0 <= j < i ==> fetch(sources[j]).Success?
    requires fetch(sources[i]).Failure?
    ensures LoadMerged(fetch, sources) == Failure(fetch(sources[i]).error)
  {
    AllSucceed(fetch, sources[..i]);
    assert sources[..i + 1][..i] == sources[..i];
    FailureSticks(fetch, sources[..i + 1], sources[i + 1..]);
    assert sources[..i + 1] + sources[i + 1..] == sources;
  }

  /** The fetched values of sources that all succeed. */
  function Fetched<S>(fetch: S -> Result<Value, ConfigError>, sources: seq<S>): seq<Value>
    requires forall j :: 0 <= j < |sources| ==> fetch(sources[j]).Success?
  {
    seq(|sources|, j requires 0 <= j < |sources| => fetch(sources[j]).value)
  }

  /** When every source succeeds, the merge phase is the fold of `Merge` over
      their trees in list order, starting from the empty object. */
  lemma {:induction false} AllSucceed<S>(fetch: S -> Result<Value, ConfigError>, sources: seq<S>)
    requires forall j :: 0 <= j < |sources| ==> fetch(sources[j]).Success?
    ensures LoadMerged(fetch, sources) == Success(FoldMerge(EmptyObject, Fetched(fetch, sources)))
    decreases |sources|
  {
    if sources != [] {
      var init := sources[..|sources| - 1];
      AllSucceed(fetch, init);
      var vs := Fetched(fetch, init);
      var last := fetch(sources[|sources| - 1]).value;
      FoldMergeSnoc(EmptyObject, vs, last);
      assert Fetched(fetch, sources) == vs + [last];
    }
  }

  /** Folding one more value merges it into the fold so far. */
  lemma {:induction false} FoldMergeSnoc(acc: Value, values: seq<Value>, v: Value)
    ensures FoldMerge(acc, values + [v]) == Merge(FoldMerge(acc, values), v)
    decreases |values|
  {
    if values != [] {
      assert (values + [v])[1..] == values[1..] + [v];
      FoldMergeSnoc(Merge(acc, values[0]), values[1..], v);
    }
  }

  /** A single successful source loads as exactly the tree it produced. */
  lemma SingleSourceLoad<S>(fetch: S -> Result<Value, ConfigError>, source: S)
    requires fetch(source).Success?
    ensures LoadMerged(fetch, [source]) == fetch(source)
  {
    assert [source][..0] == [];
    MergeIntoEmpty(fetch(source).value);
  }

  /** Every key of every object in `values`. */
  function KeysOf(values: seq<Value>): set<string>
  {
    if values == [] then {}
    else (if values[0].Obj? then values[0].fields.Keys else {}) + KeysOf(values[1..])
  }

  /** Folding objects into an object gives an object whose top-level keys are
      exactly the keys of the accumulator and of every folded source. */
  lemma {:induction false} FoldMergeKeys(acc: Value, values: seq<Value>)
    requires acc.Obj?
    requires forall j :: 0 <= j < |values| ==> values[j].Obj?
    ensures FoldMerge(acc, values).Obj?
    ensures FoldMerge(acc, values).fields.Keys == acc.fields.Keys + KeysOf(values)
    decreases |values|
  {
    if values != [] {
      MergeObjects(acc, values[0]);
      FoldMergeKeys(Merge(acc, values[0]), values[1..]);
    }
  }

  /** A load succeeds exactly when every source and the decode succeed, and the
      new configuration is then the decode of the folded merge. */
  lemma LoadSucceedsIff<S, T>(fetch: S -> Result<Value, ConfigError>, decode: Value -> Result<T, string>,
                              sources: seq<S>)
    ensures LoadDecoded(fetch, decode, sources).Success? <==>
      && (forall j :: 0 <= j < |sources| ==> fetch(sources[j]).Success?)
      && decode(FoldMerge(EmptyObject, Fetched(fetch, sources))).Success?
    ensures LoadDecoded(fetch, decode, sources).Success? ==>
      && (forall j :: 0 <= j < |sources| ==> fetch(sources[j]).Success?)
      && LoadDecoded(fetch, decode, sources).value
           == decode(FoldMerge(EmptyObject, Fetched(fetch, sources))).value
  {
    if forall j :: 0 <= j < |sources| ==> fetch(sources[j]).Success? {
      AllSucceed(fetch, sources);
    } else {
      var i := FirstFailure(fetch, sources);
      FirstFailureWins(fetch, sources, i);
    }
  }

  /** The index of the first failing source. */
  function FirstFailure<S>(fetch: S -> Result<Value, ConfigError>, sources: seq<S>): (i: nat)
    requires exists j :: 0 <= j < |sources| && fetch(sources[j]).Failure?
    ensures i < |sources| && fetch(sources[i]).Failure?
    ensures forall j :: 0 <= j < i ==> fetch(sources[j]).Success?
  {
    if fetch(sources[0]).Failure? then 0
    else
      assert exists j :: 0 <= j < |sources[1..]| && fetch(sources[1..][j]).Failure? by {
        var j :| 0 <= j < |sources| && fetch(sources[j]).Failure?;
        assert sources[1..][j - 1] == sources[j];
      }
      1 + FirstFailure(fetch, sources[1..])
  }

  /** The three-source example: `{a:1, b:{x:1}}`, then `{b:{y:2}}`, then
      `{a:2}` merge to `{a:2, b:{x:1, y:2}}`. */
  lemma LayeredExample()
    ensures FoldMerge(EmptyObject, [
              Obj(map["a" := Num(1), "b" := Obj(map["x" := Num(1)])]),
              Obj(map["b" := Obj(map["y" := Num(2)])]),
              Obj(map["a" := Num(2)])])
            == Obj(map["a" := Num(2), "b" := Obj(map["x" := Num(1), "y" := Num(2)])])
  {
    var s1 := Obj(map["a" := Num(1), "b" := Obj(map["x" := Num(1)])]);
    var s2 := Obj(map["b" := Obj(map["y" := Num(2)])]);
    var s3 := Obj(map["a" := Num(2)]);
    var b2 := Obj(map["x" := Num(1), "y" := Num(2)]);
    MergeIntoEmpty(s1);
    var m2 := Obj(map["a" := Num(1), "b" := b2]);
    FirstStep(s1, s2, m2);
    SecondStep(m2, s3);
    assert [s1, s2, s3][1..] == [s2, s3];
    assert [s2, s3][1..] == [s3];
  }

  /** The nested merge of the example: `{x:1}` then `{y:2}`. */
  lemma NestedStep()
    ensures Merge(Obj(map["x" := Num(1)]), Obj(map["y" := Num(2)])) == Obj(map["x" := Num(1), "y" := Num(2)])
  {
    var m := Merge(Obj(map["x" := Num(1)]), Obj(map["y" := Num(2)]));
    assert m.fields.Keys == {"x", "y"};
    assert m.fields == map["x" := Num(1), "y" := Num(2)];
  }

  /** The example after its second source. */
  lemma FirstStep(s1: Value, s2: Value, m2: Value)
    requires s1 == Obj(map["a" := Num(1), "b" := Obj(map["x" := Num(1)])])
    requires s2 == Obj(map["b" := Obj(map["y" := Num(2)])])
    requires m2 == Obj(map["a" := Num(1), "b" := Obj(map["x" := Num(1), "y" := Num(2)])])
    ensures Merge(s1, s2) == m2
  {
    NestedStep();
    MergeObjects(s1, s2);
    var m := Merge(s1, s2);
    assert m.fields.Keys == {"a", "b"};
    assert m.fields["a"] == Num(1);
    assert m.fields["b"] == m2.fields["b"];
    assert m.fields == m2.fields;
  }

  /** The example after its third source. */
  lemma SecondStep(m2: Value, s3: Value)
    requires m2 == Obj(map["a" := Num(1), "b" := Obj(map["x" := Num(1), "y" := Num(2)])])
    requires s3 == Obj(map["a" := Num(2)])
    ensures Merge(m2, s3) == Obj(map["a" := Num(2), "b" := Obj(map["x" := Num(1), "y" := Num(2)])])
  {
    var m := Merge(m2, s3);
    assert m.fields.Keys == {"a", "b"};
    assert m.fields == map["a" := Num(2), "b" := Obj(map["x" := Num(1), "y" := Num(2)])];
  }
}
