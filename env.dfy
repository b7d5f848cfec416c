/** The environment-variable source: keep the variables whose name starts with
    a prefix, strip the prefix, lower-case the rest, and collect the raw values
    as string leaves of one flat object. */
module EnvSources {
  import opened Values

  /** One process environment variable: its name and its value. */
  type EnvVar = (string, string)

  /** ASCII lower-casing of one character. */
  function LowerChar(c: char): char
  {
    if 'A' <= c <= 'Z' then (c as int + 32) as char else c
  }

  /** ASCII lower-casing of a string: no upper-case ASCII letter is left,
      each such letter becomes its lower-case partner, and every other
      character is kept in place. */
  function ToLower(s: string): (r: string)
    ensures |r| == |s|
    ensures forall i :: 0 <= i < |r| ==> !('A' <= r[i] <= 'Z')
    ensures forall i :: 0 <= i < |s| && 'A' <= s[i] <= 'Z' ==> r[i] as int == s[i] as int + 32
    ensures forall i :: 0 <= i < |s| && !('A' <= s[i] <= 'Z') ==> r[i] == s[i]
  {
    seq(|s|, i requires 0 <= i < |s| => LowerChar(s[i]))
  }

  /** Lower-casing an already lower-cased string changes nothing. */
  lemma ToLowerIdempotent(s: string)
    ensures ToLower(ToLower(s)) == ToLower(s)
  {
  }

  predicate StartsWith(name: string, prefix: string)
  {
    |prefix| <= |name| && name[..|prefix|] == prefix
  }

  /** The configuration key a matching variable name yields. */
  function ConfigKey(name: string, prefix: string): string
    requires StartsWith(name, prefix)
  {
    ToLower(name[|prefix|..])
  }

  /** Variable `v` matches `prefix` and yields configuration key `key`. */
  predicate Yields(v: EnvVar, prefix: string, key: string)
  {
    StartsWith(v.0, prefix) && ConfigKey(v.0, prefix) == key
  }

  /** The object's entries after inserting `vars` in order; a later insert
      under the same key overwrites an earlier one. */
  function EnvMap(prefix: string, vars: seq<EnvVar>): (r: map<string, Value>)
    decreases |vars|
  {
    if vars == [] then map[]
    else
      var m := EnvMap(prefix, vars[..|vars| - 1]);
      var (name, value) := vars[|vars| - 1];
      if StartsWith(name, prefix) then m[ConfigKey(name, prefix) := Str(value)] else m
  }

  class EnvSource {
    const prefix: string

    /** `EnvSource::new`. */
    constructor (prefix: string)
      ensures this.prefix == prefix
    {
      this.prefix := prefix;
    }

    /** `load` over the environment `vars`, taken in iteration order: it
        always succeeds with an object. */
    method Load(vars: seq<EnvVar>) returns (r: Result<Value, ConfigError>)
      ensures r == Success(Obj(EnvMap(prefix, vars)))
    {
      var entries: map<string, Value> := map[];
      for i := 0 to |vars|
        invariant entries == EnvMap(prefix, vars[..i])
      {
        assert vars[..i + 1][..i] == vars[..i];
        var (name, value) := vars[i];
        if StartsWith(name, prefix) {
          var key := ConfigKey(name, prefix);
          entries := entries[key := Str(value)];
        }
      }
      assert vars[..|vars|] == vars;
      r := Success(Obj(entries));
    }
  }

  /** A key is present exactly when some matching variable yields it: no
      entry comes from anywhere else, and every matching variable contributes. */
  lemma {:induction false} EnvKeys(prefix: string, vars: seq<EnvVar>, key: string)
    ensures key in EnvMap(prefix, vars) <==>
      exists i :: 0 <= i < |vars| && Yields(vars[i], prefix, key)
    decreases |vars|
  {
    if vars != [] {
      var init := vars[..|vars| - 1];
      EnvKeys(prefix, init, key);
      if exists i :: 0 <= i < |init| && Yields(init[i], prefix, key) {
        var i :| 0 <= i < |init| && Yields(init[i], prefix, key);
        assert vars[i] == init[i];
      }
      if exists i :: 0 <= i < |vars| && Yields(vars[i], prefix, key) {
        var i :| 0 <= i < |vars| && Yields(vars[i], prefix, key);
        if i < |init| {
          assert init[i] == vars[i];
        }
      }
    }
  }

  /** The entry under a key is the raw value, as a string, of the last
      variable in iteration order that yields that key. */
  lemma {:induction false} EnvLastWins(prefix: string, vars: seq<EnvVar>, key: string, i: nat)
    requires i < |vars| && Yields(vars[i], prefix, key)
    requires forall j :: i < j < |vars| ==> !Yields(vars[j], prefix, key)
    ensures key in EnvMap(prefix, vars)
    ensures EnvMap(prefix, vars)[key] == Str(vars[i].1)
    decreases |vars|
  {
    var init := vars[..|vars| - 1];
    if i < |vars| - 1 {
      EnvLastWins(prefix, init, key, i);
    }
  }

  /** Every entry is a string leaf: values are never coerced to numbers or
      booleans. */
  lemma {:induction false} EnvLeavesAreStrings(prefix: string, vars: seq<EnvVar>)
    ensures forall k :: k in EnvMap(prefix, vars) ==> EnvMap(prefix, vars)[k].Str?
    decreases |vars|
  {
    if vars != [] {
      EnvLeavesAreStrings(prefix, vars[..|vars| - 1]);
    }
  }

  /** With an empty prefix every variable contributes, keyed by its whole
      lower-cased name. */
  lemma EnvEmptyPrefix(vars: seq<EnvVar>, key: string)
    ensures key in EnvMap("", vars) <==> exists i :: 0 <= i < |vars| && ToLower(vars[i].0) == key
  {
    EnvKeys("", vars, key);
    forall i | 0 <= i < |vars|
      ensures Yields(vars[i], "", key) <==> ToLower(vars[i].0) == key
    {
      assert vars[i].0[0..] == vars[i].0;
    }
  }

  /** `APP_PORT=9090` under prefix `APP_` gives `{port: "9090"}`; a variable
      without the prefix is ignored. */
  lemma EnvPortExample()
    ensures EnvMap("APP_", [("APP_PORT", "9090"), ("HOME", "/root")]) == map["port" := Str("9090")]
  {
    var vars := [("APP_PORT", "9090"), ("HOME", "/root")];
    assert StartsWith("APP_PORT", "APP_");
    assert ConfigKey("APP_PORT", "APP_") == "port" by {
      assert "APP_PORT"[4..] == "PORT";
    }
    assert !StartsWith("HOME", "APP_") by {
      assert "HOME"[..4] != "APP_" by { assert "HOME"[0] != "APP_"[0]; }
    }
    assert vars[..1] == [("APP_PORT", "9090")];
    assert vars[..1][..0] == [];
  }
}
