/**
 * The `Glimmer` class's registry of uploader variants (`register`, `get`)
 * and its direct `store` operation, which checks its arguments
 * synchronously, builds the mapped uploader for the stream's basename and
 * saves it.
 */
module Glimmer {
  import opened JsValue
  import NodePath
  import opened Uploading

  const StreamMessage := "You must provide an input stream."
  const KeyMessage := "You must provide a valid key."
  const PathMessage := "The \"path\" argument must be of type string"

  /** `Glimmer.uploaders`: registry key to uploader variant. */
  class Registry {
    var uploaders: map<string, Variant>

    /** `Glimmer.uploaders = {}`. */
    constructor ()
      ensures uploaders == map[]
    {
      uploaders := map[];
    }

    /** `Glimmer.get(key)`: the registered variant, or nothing. */
    function Get(key: string): (r: Option<Variant>)
      reads this
      ensures r.Some? <==> key in uploaders
      ensures r.Some? ==> r.value == uploaders[key]
    {
      if key in uploaders then Some(uploaders[key]) else None
    }

    /** `Glimmer.register(key, uploader)`: the key now yields `uploader`,
        whatever it held before; every other key is unchanged. */
    method Register(key: string, uploader: Variant)
      modifies this
      ensures uploaders == old(uploaders)[key := uploader]
      ensures Get(key) == Some(uploader)
      ensures forall k :: k != key ==> Get(k) == old(Get(k))
    {
      uploaders := uploaders[key := uploader];
    }
  }

  /** What `store` goes on to do once its checks pass: build `variant` for
      `stream` with `filename` and `meta`, and hand the promise to
      `callback`. */
  datatype StorePlan = StorePlan(variant: Variant, stream: Stream, filename: string, meta: Value, callback: Value)

  /** The synchronous part of `Glimmer.store(stream, mapping, meta, done)`,
      in the order the source performs it: the stream must be present and
      readable; a function in the `meta` position is the callback; the
      stream's path must be a string (for `path.basename`); the mapping key
      must be registered. */
  function StoreGuard(uploaders: map<string, Variant>, stream: Option<Stream>, mapping: Value, meta: Value, done: Value)
    : (r: Result<StorePlan>)
    ensures (stream.None? || !stream.value.readable) <==> r == Err(Thrown(StreamMessage))
    ensures r == Err(TypeError(PathMessage)) <==>
      stream.Some? && stream.value.readable && !stream.value.path.Str?
    ensures r == Err(Thrown(KeyMessage)) <==>
      stream.Some? && stream.value.readable && stream.value.path.Str? && PropertyKey(mapping) !in uploaders
    ensures r.Ok? <==>
      stream.Some? && stream.value.readable && stream.value.path.Str? && PropertyKey(mapping) in uploaders
    ensures r.Ok? ==>
      && r.value.variant == uploaders[PropertyKey(mapping)]
      && r.value.stream == stream.value
      && r.value.filename == NodePath.Basename(stream.value.path.s)
      && (meta.Func? ==> r.value.meta == Null && r.value.callback == meta)
      && (!meta.Func? ==> r.value.meta == meta && r.value.callback == done)
  {
    if stream.None? || !stream.value.readable then Err(Thrown(StreamMessage))
    else
      var (meta', done') := if meta.Func? then (Null, meta) else (meta, done);
      var key := PropertyKey(mapping);
      if !stream.value.path.Str? then Err(TypeError(PathMessage))
      else if key !in uploaders then Err(Thrown(KeyMessage))
      else Ok(StorePlan(uploaders[key], stream.value, NodePath.Basename(stream.value.path.s), meta', done'))
  }

  /** How a `store` call ends: it throws, or it returns the promise of the
      uploader's `save`. */
  datatype StoreOutcome = Threw(error: Error) | Saved(result: SaveResult)

  /** `Glimmer.store`, given how the uploader's transforms settle. A failing
      check or a failing construction throws before any transform starts. */
  method Store(registry: Registry, stream: Option<Stream>, mapping: Value, meta: Value, done: Value,
               order: seq<string>, outcomes: map<string, TaskOutcome>)
    returns (r: StoreOutcome)
    requires StoreGuard(registry.uploaders, stream, mapping, meta, done).Ok? ==>
      var v := StoreGuard(registry.uploaders, stream, mapping, meta, done).value.variant;
      RunConfigure(v.configure, v.methods, Unconfigured).Ok? ==>
        var c := RunConfigure(v.configure, v.methods, Unconfigured).value;
        outcomes.Keys == c.transformers.Keys && IsCompletionOrder(order, outcomes.Keys)
    ensures StoreGuard(registry.uploaders, stream, mapping, meta, done).Err? ==>
      r == Threw(StoreGuard(registry.uploaders, stream, mapping, meta, done).error)
    ensures StoreGuard(registry.uploaders, stream, mapping, meta, done).Ok? ==>
      var plan := StoreGuard(registry.uploaders, stream, mapping, meta, done).value;
      var run := RunConfigure(plan.variant.configure, plan.variant.methods, Unconfigured);
      && (run.Err? ==> r == Threw(run.error))
      && (run.Ok? ==> r == Saved(SaveOutcome(Validate(run.value.extensions, plan.filename), order, outcomes)))
  {
    var guard := StoreGuard(registry.uploaders, stream, mapping, meta, done);
    if guard.Err? {
      return Threw(guard.error);
    }
    var plan := guard.value;
    var built := NewUploader(Some(plan.stream), plan.filename, plan.meta, plan.variant);
    if built.Err? {
      return Threw(built.error);
    }
    var saved := built.value.Save(order, outcomes);
    return Saved(saved);
  }
}
