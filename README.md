# confiq configuration engine, modelled in Dafny

confiq loads typed configuration from an ordered list of sources, deep-merges
the JSON-like trees they produce and decodes the result into the application's
configuration type. This project models the two pieces of that library that
hold real logic:

- **The merge and load pipeline** (`src/engine.rs`). `merge_json` deep-merges
  two value trees. `ConfigEngine` keeps the sources and the current
  configuration. Its `load` folds the merge over the sources in list order,
  starting from an empty object. It stops at the first failing source, decodes
  the merged tree, and replaces the current configuration only when every step
  succeeded.
- **The environment-variable source** (`src/source/env.rs`). It keeps the
  variables whose name starts with a prefix, strips the prefix, lower-cases the
  rest, and collects the raw values as string leaves of one flat object.

Files:

- `values.dfy` (module `Values`): the value tree `Value`, the error enum
  `ConfigError` (`SourceError`, `DeserializationError`, `IoError`), and `Result`.
- `merge.dfy` (module `Merging`): the pure `Merge` function, the loop-based
  `MergeJson` method proved equal to it, and the lemmas about merging.
- `engine.dfy` (module `Engine`): the specification functions `LoadMerged`,
  `LoadDecoded` and `FoldMerge`, the `ConfigEngine` class, and lemmas about loading.
- `env.dfy` (module `EnvSources`): the specification function `EnvMap`, the
  `EnvSource` class with its loop-based `Load`, and lemmas about it.

How the outside world appears in the model:

- Fetching a source is asynchronous I/O. `ConfigEngine.Load` therefore takes a
  function `fetch` that gives each source's outcome for this load, as a
  `Result<Value, ConfigError>`. The engine is generic in the source type `S`.
- The typed decode (`serde_json::from_value`) is an external library. It is
  the engine's `decode` field: a function from a tree to a `T` or to an error
  text. `Load` wraps that text in `DeserializationError`, as `src/engine.rs:50` does.
- The process environment (`env::vars()`) becomes the sequence of
  `(name, value)` pairs handed to `EnvSource.Load`, in iteration order.
- The `RwLock` around the current configuration becomes a plain field.

A failing source's error is passed through unchanged by the `?` at
`src/engine.rs:44`; it is not re-wrapped.

## Model

| member | source | states |
|---|---|---|
| Merging.MergeJson | src/engine.rs:100-118 | the loop over the source object's entries (recurse into a key the target has, insert the source's value otherwise; any other pair of kinds overwrites) yields exactly the `Merge` of the two trees |
| Merging.MergeObjects | src/engine.rs:104-112 | for two objects the result is an object whose keys are the union of both key sets; a target-only key keeps the target's value, a source-only key takes the source's value, a shared key holds the merge of both values |
| Merging.MergeNonObject | src/engine.rs:114-116 | unless both sides are objects (scalars, arrays, mismatched kinds), the result is the source value; arrays are never merged element-wise |
| Merging.MergeIdempotent | src/engine.rs:103-117 | merging a tree with itself returns the same tree |
| Merging.MergeIntoEmpty | src/engine.rs:40-45 | merging any source into the empty starting object yields that source unchanged |
| Merging.MergeEmptySource | src/engine.rs:104-112 | an empty source object leaves an object target unchanged |
| Merging.MergeCoversSource | src/engine.rs:100-118 | the merge result carries every key of the source at every depth, and every non-object leaf of the source as is |
| Merging.MergeCoveredUnchanged | src/engine.rs:100-118 | merging a source into a tree that already carries it changes nothing |
| Merging.MergeAbsorbs | src/engine.rs:100-118 | merging the same source twice equals merging it once |
| Merging.LastMergedWins | src/engine.rs:43-46 | for any starting tree and any two sources merged in turn, every non-object value the later source sets is what the result holds under that key: the one merged last wins |
| Merging.MergeOrderMatters | src/engine.rs:43-46 | an example that order matters: `{a:1}` then `{a:2}` gives `{a:2}`, the reverse order gives `{a:1}` |
| Engine.ConfigEngine.constructor | src/engine.rs:22-27 | `new` starts with no sources, with the initial configuration as current |
| Engine.ConfigEngine.AddSource | src/engine.rs:30-36 | `add_source` appends exactly one source at the end, keeps the earlier sources and the current configuration, and returns the engine itself |
| Engine.ConfigEngine.Load | src/engine.rs:39-57 | `load` reports the outcome of fetch-merge-decode; the current configuration becomes the decoded value on success and is unchanged on any failure |
| Engine.ConfigEngine.GetCurrent | src/engine.rs:65-70 | `get_current` returns the current configuration |
| Engine.FailureSticks | src/engine.rs:43-44 | once a source fails, the sources after it cannot change the outcome of the merge phase |
| Engine.FirstFailureWins | src/engine.rs:43-44 | if source i is the first to fail, the load's merge phase fails with exactly that source's error |
| Engine.AllSucceed | src/engine.rs:40-46 | when every source succeeds, the merged tree is the left fold of the merge over the fetched trees in list order, from the empty object |
| Engine.FoldMergeSnoc | src/engine.rs:43-46 | folding one more source merges it into the fold of the earlier ones |
| Engine.LoadSucceedsIff | src/engine.rs:39-57 | a load succeeds if and only if every source succeeds and the decode of the folded merge succeeds; the new configuration is then that decoded value |
| Engine.SingleSourceLoad | src/engine.rs:40-46 | a load with one successful source merges to exactly that source's tree |
| Engine.FoldMergeKeys | src/engine.rs:40-46 | folding object sources gives an object whose top-level keys are exactly the union of all the sources' keys |
| Engine.LayeredExample | src/engine.rs:40-46 | the sources `{a:1,b:{x:1}}`, `{b:{y:2}}`, `{a:2}` merge to `{a:2,b:{x:1,y:2}}` |
| EnvSources.ToLower | src/source/env.rs:24 | the key's lower-casing: no upper-case ASCII letter remains, each becomes its lower-case partner, every other character is kept in place |
| EnvSources.EnvSource.constructor | src/source/env.rs:11-15 | `EnvSource::new` stores the given prefix |
| EnvSources.EnvSource.Load | src/source/env.rs:19-28 | `load` always succeeds with an object, built by inserting the matching variables one by one in iteration order |
| EnvSources.EnvKeys | src/source/env.rs:20-27 | a key is present if and only if some variable whose name starts with the prefix yields it once the prefix is stripped and the rest is lower-cased; no other entries exist |
| EnvSources.EnvLastWins | src/source/env.rs:21-25 | the entry under a key is the string value of the last variable in iteration order that yields that key |
| EnvSources.EnvLeavesAreStrings | src/source/env.rs:25 | every entry is a string leaf; no numeric or boolean coercion |
| EnvSources.EnvEmptyPrefix | src/source/env.rs:22-24 | with an empty prefix every variable contributes, keyed by its whole lower-cased name |
| EnvSources.EnvPortExample | src/source/env.rs:22-25 | prefix `APP_` with `APP_PORT=9090` and an unrelated `HOME` gives `{port: "9090"}` |

## Left out

- `ConfigEngine::watch` (src/engine.rs:76-96): a spawned task, a 5-second timer and a bounded channel. Its behaviour is concurrency and timing, which this model does not express.
- `ConfigEngine::get` and the `Arc<RwLock<T>>` (src/engine.rs:14, 60-62): the current configuration is a plain field. Reader/writer exclusion, live shared handles and racing concurrent loads are not modelled.
- Asynchrony: `load` and each source's `load` are sequential here. A hung source is not expressible.
- Typed decode: `serde_json::from_value` is an external library. It is the abstract `decode` function, so string-to-number coercion and field validation are not modelled.
- `FileSource` (src/source/file.rs): file reading and YAML/TOML/JSON parsing live in external libraries. A file source is any source whose `fetch` outcome is given.
- `RemoteSource` (src/source/remote.rs): its `load` is unimplemented, so it has no behaviour to model.
- `ConfigSource::supports_hot_reload` (src/source/mod.rs): a default that returns `false` and that nothing reads.
- src/schema.rs, src/types.rs, src/lib.rs and the examples: declarations, secret-wrapping glue and wiring with no merge or load logic.
- `env::vars()`: process I/O. The environment is an input sequence.
- EnvSources.ToLower: lower-cases ASCII letters only. Rust's `to_lowercase` also maps non-ASCII letters.
- Numbers: `Num` holds an integer compared by equality. Floating-point JSON numbers are not modelled; no arithmetic is done on numbers anywhere.
- Merging.MergeJson: computes a new tree instead of mutating the target in place. In-place update through `get_mut` and aliasing are not modelled; object key order is not modelled either, since it does not affect the merge.
- Engine.ConfigEngine.GetCurrent: returns the current value itself. The independence of the clone made at `src/engine.rs:69` is not modelled, since values are immutable in the model.
- `IoError`: carries a message instead of a `std::io::Error`.
