/**
 * The `Uploader` base class: its defaults, the extension whitelist
 * (`accepts`, `validate`), the named transforms (`transform`) and the
 * outcome of `save`, which runs every transform and either collects their
 * results under their names or fails with a failing transform's error.
 *
 * A variant's `configure` hook is user code that calls `accepts` and
 * `transform`; here it is the list of those calls, run in order when an
 * uploader is constructed. Each transform's asynchronous outcome, and the
 * order in which the transforms settle, are inputs of `save`.
 */
module Uploading {
  import opened JsValue
  import NodePath

  const FileTypeMessage := "Please try another file type."
  const SourceMessage := "Please pass a source stream."
  const BindMessage := "Cannot read properties of undefined (reading 'bind')"

  /** What the core sees of a readable stream: whether it is readable and
      its `path` property. */
  datatype Stream = Stream(readable: bool, path: Value)

  /** An instance method of an uploader, by identity. */
  datatype MethodRef = MethodRef(id: nat)

  /** One call a variant's `configure` hook makes. */
  datatype ConfigStep = Accepts(extensions: Value) | Transform(name: string)

  /** A registered uploader variant: the methods its instances have, by
      name, and what its `configure` hook does. */
  datatype Variant = Variant(methods: map<string, MethodRef>, configure: seq<ConfigStep>)

  /** How one transform settled. */
  datatype TaskOutcome = Done(value: Value) | Failed(error: Error)

  /** What `save` did: the transforms it started and how its promise
      settled. */
  datatype SaveResult = SaveResult(invoked: set<string>, outcome: Result<map<string, Value>>)

  /** The configurable part of an uploader. */
  datatype Configuration = Configuration(extensions: seq<Value>, transformers: map<string, MethodRef>)

  /** The configuration the constructor leaves: no extensions, no
      transforms. */
  const Unconfigured := Configuration([], map[])

  /** `s.slice(1)`. */
  function SliceFrom1(s: string): (r: string)
    ensures |s| > 0 ==> r == s[1..]
    ensures |s| == 0 ==> r == ""
  {
    if |s| == 0 then "" else s[1..]
  }

  // ----- accepts and validate -----

  /** The whitelist `accepts(v)` records: an array as it is, anything else
      as a one-element list. */
  function AcceptedList(v: Value): (r: seq<Value>)
    ensures v.Arr? ==> r == v.items
    ensures !v.Arr? ==> r == [v]
  {
    if v.Arr? then v.items else [v]
  }

  /** `validate()`: an empty whitelist accepts every file; otherwise the
      extension of the filename, without its dot, must be on it, exactly as
      written. */
  function Validate(extensions: seq<Value>, filename: string): (ok: bool)
    ensures |extensions| == 0 ==> ok
    ensures !ok ==> Str(SliceFrom1(NodePath.Extname(filename))) !in extensions
  {
    |extensions| == 0 || Str(SliceFrom1(NodePath.Extname(filename))) in extensions
  }

  /** A filename whose basename is `stem.ext` is accepted by a non-empty
      whitelist exactly when `ext` is on it. */
  lemma ValidateByExtension(extensions: seq<Value>, filename: string, stem: string, ext: string)
    requires |extensions| > 0
    requires NodePath.Basename(filename) == stem + "." + ext
    requires stem != "" && '.' !in ext && !(stem == "." && ext == "")
    ensures Validate(extensions, filename) <==> Str(ext) in extensions
  {
    NodePath.ExtensionOfStem(stem, ext);
    assert SliceFrom1("." + ext) == ext;
  }

  /** A filename without an extension is accepted by a non-empty whitelist
      exactly when "" is on it. */
  lemma ValidateWithoutExtension(extensions: seq<Value>, filename: string)
    requires |extensions| > 0
    requires NodePath.NoExtension(NodePath.Basename(filename))
    ensures Validate(extensions, filename) <==> Str("") in extensions
  {
    NodePath.ExtensionWithout(NodePath.Basename(filename));
  }

  /** The comparison is exact: a whitelist holding only `ext` accepts
      `stem.ext` and refuses `stem.other` for every other extension, one
      that differs only in letter case included. */
  lemma ValidateIsExact(stem: string, ext: string, other: string)
    requires stem != "" && '/' !in stem && stem != "."
    requires '.' !in ext && '/' !in ext && '.' !in other && '/' !in other
    requires other != ext
    ensures Validate([Str(ext)], stem + "." + ext)
    ensures !Validate([Str(ext)], stem + "." + other)
  {
    var name := stem + "." + ext;
    var name' := stem + "." + other;
    assert forall i :: 0 <= i < |name| ==> name[i] != '/' by {
      assert forall i :: 0 <= i < |stem| ==> name[i] == stem[i];
      assert forall i :: |stem| < i < |name| ==> name[i] == ext[i - |stem| - 1];
    }
    assert forall i :: 0 <= i < |name'| ==> name'[i] != '/' by {
      assert forall i :: 0 <= i < |stem| ==> name'[i] == stem[i];
      assert forall i :: |stem| < i < |name'| ==> name'[i] == other[i - |stem| - 1];
    }
    ValidateByExtension([Str(ext)], name, stem, ext);
    ValidateByExtension([Str(ext)], name', stem, other);
  }

  // ----- transform and the configure hook -----

  /** `transform(name)`: binds the instance method `name` under that name,
      replacing an earlier entry; without such a method the `bind` call
      throws a TypeError. */
  function Bind(methods: map<string, MethodRef>, transformers: map<string, MethodRef>, name: string)
    : (r: Result<map<string, MethodRef>>)
    ensures r.Ok? <==> name in methods
    ensures r.Err? ==> r.error == TypeError(BindMessage)
    ensures r.Ok? ==> r.value.Keys == transformers.Keys + {name} && r.value[name] == methods[name]
    ensures r.Ok? ==> forall k :: k in transformers && k != name ==> r.value[k] == transformers[k]
  {
    if name in methods then Ok(transformers[name := methods[name]]) else Err(TypeError(BindMessage))
  }

  /** The names a list of configure calls registers as transforms. */
  function TransformNames(steps: seq<ConfigStep>): set<string>
  {
    if steps == [] then {}
    else (if steps[0].Transform? then {steps[0].name} else {}) + TransformNames(steps[1..])
  }

  /** Running configure calls in order from configuration `c`; the first
      failing `transform` call aborts with its error. */
  function RunConfigure(steps: seq<ConfigStep>, methods: map<string, MethodRef>, c: Configuration)
    : Result<Configuration>
    decreases |steps|
  {
    if steps == [] then Ok(c)
    else match steps[0]
      case Accepts(v) => RunConfigure(steps[1..], methods, c.(extensions := AcceptedList(v)))
      case Transform(name) =>
        match Bind(methods, c.transformers, name)
        case Err(e) => Err(e)
        case Ok(t) => RunConfigure(steps[1..], methods, c.(transformers := t))
  }

  /** The argument of the last `accepts` call in a list of configure
      calls, if there is one. */
  function LastAccepts(steps: seq<ConfigStep>): Option<Value>
  {
    if steps == [] then None
    else if steps[|steps| - 1].Accepts? then Some(steps[|steps| - 1].extensions)
    else LastAccepts(steps[..|steps| - 1])
  }

  /** The last `accepts` call of `steps` is the last one of its tail, or its
      head when the tail has none. */
  lemma {:induction false} LastAcceptsOfTail(steps: seq<ConfigStep>)
    requires steps != []
    ensures LastAccepts(steps) ==
      if LastAccepts(steps[1..]).Some? then LastAccepts(steps[1..])
      else if steps[0].Accepts? then Some(steps[0].extensions)
      else None
    decreases |steps|
  {
    if |steps| > 1 {
      var init := steps[..|steps| - 1];
      assert init[1..] == steps[1..][..|steps[1..]| - 1];
      assert init[0] == steps[0];
      assert steps[1..][|steps[1..]| - 1] == steps[|steps| - 1];
      if !steps[|steps| - 1].Accepts? {
        LastAcceptsOfTail(init);
      }
    }
  }

  /** Configuring succeeds exactly when every transform name is a method;
      it then adds exactly those names, each bound to its method, and keeps
      the other entries. The whitelist is the one the last `accepts` call
      set, or the starting one when there is no such call. */
  lemma {:induction false} RunConfigureOutcome(steps: seq<ConfigStep>, methods: map<string, MethodRef>, c: Configuration)
    ensures RunConfigure(steps, methods, c).Ok? <==> TransformNames(steps) <= methods.Keys
    ensures RunConfigure(steps, methods, c).Ok? ==>
      var t := RunConfigure(steps, methods, c).value.transformers;
      && t.Keys == c.transformers.Keys + TransformNames(steps)
      && (forall n :: n in TransformNames(steps) ==> t[n] == methods[n])
      && (forall n :: n in c.transformers && n !in TransformNames(steps) ==> t[n] == c.transformers[n])
    ensures RunConfigure(steps, methods, c).Err? ==> RunConfigure(steps, methods, c).error == TypeError(BindMessage)
    ensures RunConfigure(steps, methods, c).Ok? ==>
      RunConfigure(steps, methods, c).value.extensions ==
        match LastAccepts(steps)
        case None => c.extensions
        case Some(v) => AcceptedList(v)
    decreases |steps|
  {
    if steps != [] {
      LastAcceptsOfTail(steps);
      match steps[0]
      case Accepts(v) =>
        RunConfigureOutcome(steps[1..], methods, c.(extensions := AcceptedList(v)));
      case Transform(name) =>
        if name in methods {
          RunConfigureOutcome(steps[1..], methods, c.(transformers := c.transformers[name := methods[name]]));
        }
    }
  }

  // ----- save -----

  /** The transforms settle in `order`, each name once, and every
      registered name settles. */
  ghost predicate IsCompletionOrder(order: seq<string>, names: set<string>)
  {
    && (forall i, j :: 0 <= i < j < |order| ==> order[i] != order[j])
    && (forall n :: n in order <==> n in names)
  }

  /** Running the transforms in parallel (`async.parallel` over an object of
      tasks), the tasks settling in `order`: the first failure ends the run
      with its error; if none fails, the results are collected by name. */
  function Parallel(order: seq<string>, outcomes: map<string, TaskOutcome>): (r: Result<map<string, Value>>)
    requires forall n :: n in order ==> n in outcomes
    ensures r.Ok? <==> (forall n :: n in order ==> outcomes[n].Done?)
    ensures r.Ok? ==> r.value.Keys == (set n | n in order)
    ensures r.Ok? ==> forall n :: n in order ==> r.value[n] == outcomes[n].value
    decreases |order|
  {
    if order == [] then Ok(map[])
    else match outcomes[order[0]]
      case Failed(e) => Err(e)
      case Done(v) =>
        match Parallel(order[1..], outcomes)
        case Err(e) => Err(e)
        case Ok(m) => Ok(m[order[0] := v])
  }

  /** The error of a parallel run is that of the first transform, in
      completion order, that failed. */
  lemma {:induction false} ParallelFirstFailure(order: seq<string>, outcomes: map<string, TaskOutcome>, i: nat)
    requires forall n :: n in order ==> n in outcomes
    requires i < |order| && outcomes[order[i]].Failed?
    requires forall j :: 0 <= j < i ==> outcomes[order[j]].Done?
    ensures Parallel(order, outcomes) == Err(outcomes[order[i]].error)
    decreases i
  {
    if i > 0 {
      assert outcomes[order[0]].Done?;
      ParallelFirstFailure(order[1..], outcomes, i - 1);
    }
  }

  /** A failed parallel run fails with the error of some transform that
      failed. */
  lemma {:induction false} ParallelErrorIsATransformError(order: seq<string>, outcomes: map<string, TaskOutcome>)
    requires forall n :: n in order ==> n in outcomes
    requires Parallel(order, outcomes).Err?
    ensures exists n :: n in order && outcomes[n] == Failed(Parallel(order, outcomes).error)
    decreases |order|
  {
    if outcomes[order[0]].Failed? {
      assert order[0] in order;
    } else {
      ParallelErrorIsATransformError(order[1..], outcomes);
      var n :| n in order[1..] && outcomes[n] == Failed(Parallel(order[1..], outcomes).error);
      assert n in order;
    }
  }

  /** `save()`: a file that does not validate is refused as a bad request
      and no transform is started; otherwise every transform is started,
      and the upload succeeds with each transform's result under its name
      when all succeed, and fails with a failing transform's error when
      one fails. */
  function SaveOutcome(valid: bool, order: seq<string>, outcomes: map<string, TaskOutcome>): (r: SaveResult)
    requires IsCompletionOrder(order, outcomes.Keys)
    ensures !valid ==> r.invoked == {} && r.outcome == Err(BadRequest(FileTypeMessage))
    ensures valid ==> r.invoked == outcomes.Keys
    ensures valid ==> (r.outcome.Ok? <==> forall n :: n in outcomes ==> outcomes[n].Done?)
    ensures valid && r.outcome.Ok? ==>
      r.outcome.value.Keys == outcomes.Keys && forall n :: n in outcomes ==> r.outcome.value[n] == outcomes[n].value
    ensures valid && r.outcome.Err? ==> exists n :: n in outcomes && outcomes[n] == Failed(r.outcome.error)
  {
    if !valid then SaveResult({}, Err(BadRequest(FileTypeMessage)))
    else
      var run := Parallel(order, outcomes);
      assert run.Ok? ==> run.value.Keys == outcomes.Keys;
      assert run.Err? ==> exists n :: n in outcomes && outcomes[n] == Failed(run.error) by {
        if run.Err? { ParallelErrorIsATransformError(order, outcomes); }
      }
      SaveResult(outcomes.Keys, run)
  }

  /** One uploader instance: the file it was created for and its
      configuration. */
  class Uploader {
    const source: Stream
    const filename: string
    const meta: Value
    const methods: map<string, MethodRef>
    var extensions: seq<Value>
    var transformers: map<string, MethodRef>

    /** The constructor proper, once the source has been checked: `meta`
        defaults to `{}`, the whitelist and the transforms start empty. */
    constructor (source: Stream, filename: string, meta: Value, methods: map<string, MethodRef>)
      ensures this.source == source && this.filename == filename && this.methods == methods
      ensures this.meta == Or(meta, Obj(map[]))
      ensures Current() == Unconfigured
    {
      this.source := source;
      this.filename := filename;
      this.meta := Or(meta, Obj(map[]));
      this.methods := methods;
      extensions := [];
      transformers := map[];
    }

    function Current(): Configuration
      reads this
    {
      Configuration(extensions, transformers)
    }

    /** `accepts(v)`. */
    method Accepts(v: Value)
      modifies this`extensions
      ensures extensions == AcceptedList(v)
    {
      if v.Arr? {
        extensions := v.items;
      } else {
        extensions := [v];
      }
    }

    /** `transform(name)`; a returned error is the exception it throws. */
    method Transform(name: string) returns (err: Option<Error>)
      modifies this`transformers
      ensures Bind(methods, old(transformers), name).Err? ==>
        err == Some(Bind(methods, old(transformers), name).error) && transformers == old(transformers)
      ensures Bind(methods, old(transformers), name).Ok? ==>
        err == None && transformers == Bind(methods, old(transformers), name).value
    {
      if name !in methods {
        return Some(TypeError(BindMessage));
      }
      transformers := transformers[name := methods[name]];
      return None;
    }

    /** `save()`, given how each transform settles and in which order. */
    method Save(order: seq<string>, outcomes: map<string, TaskOutcome>) returns (r: SaveResult)
      requires outcomes.Keys == transformers.Keys
      requires IsCompletionOrder(order, transformers.Keys)
      ensures r == SaveOutcome(Validate(extensions, filename), order, outcomes)
    {
      if !Validate(extensions, filename) {
        return SaveResult({}, Err(BadRequest(FileTypeMessage)));
      }
      var run := Parallel(order, outcomes);
      return SaveResult(transformers.Keys, run);
    }
  }

  /** `new Variant(source, filename, meta)`: throws when there is no source,
      then runs the constructor and the variant's `configure` hook, whose
      exception, if any, escapes the construction. */
  method NewUploader(source: Option<Stream>, filename: string, meta: Value, variant: Variant)
    returns (r: Result<Uploader>)
    ensures source.None? ==> r == Err(Thrown(SourceMessage))
    ensures source.Some? && RunConfigure(variant.configure, variant.methods, Unconfigured).Err? ==>
      r == Err(RunConfigure(variant.configure, variant.methods, Unconfigured).error)
    ensures source.Some? && RunConfigure(variant.configure, variant.methods, Unconfigured).Ok? ==>
      && r.Ok? && fresh(r.value)
      && r.value.source == source.value && r.value.filename == filename
      && r.value.meta == Or(meta, Obj(map[])) && r.value.methods == variant.methods
      && r.value.Current() == RunConfigure(variant.configure, variant.methods, Unconfigured).value
  {
    if source.None? {
      return Err(Thrown(SourceMessage));
    }
    var u := new Uploader(source.value, filename, meta, variant.methods);
    var steps := variant.configure;
    for i := 0 to |steps|
      invariant RunConfigure(steps[i..], u.methods, u.Current()) == RunConfigure(steps, variant.methods, Unconfigured)
    {
      assert steps[i..][0] == steps[i] && steps[i..][1..] == steps[i + 1..];
      match steps[i]
      case Accepts(v) =>
        u.Accepts(v);
      case Transform(name) =>
        var err := u.Transform(name);
        if err.Some? {
          return Err(err.value);
        }
    }
    assert steps[|steps|..] == [];
    return Ok(u);
  }
}
