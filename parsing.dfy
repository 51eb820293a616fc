/**
 * `Glimmer.parse`: the multipart parser's events drive a counter of
 * uploads in flight, a map of stored files by field name, and a promise
 * that settles once. The parser and the uploads are asynchronous; here
 * each of their callbacks is an event:
 *
 *   File(fieldname, filename)   the parser reports a file part
 *   UploadOk(fieldname, stored) an upload started for that field saved
 *   UploadErr(fieldname, error) an upload started for that field failed
 *   Finish                      the parser has read every part
 *   ParserError(error)          the parser failed
 *
 * `Step` is the meaning of one event; the class `ParseSession` holds the
 * handlers' state and is proved to follow `Step`. The source keeps no
 * "parser finished" flag: `onEnd` resolves whenever the counter is zero,
 * after a successful upload as well as at `Finish`.
 */
module Parsing {
  import opened JsValue
  import opened Uploading
  import opened Glimmer

  /** The options of a `parse` call once `meta` is taken out of them. */
  datatype ParseOptions = ParseOptions(meta: Value, fields: map<string, Value>)

  /** `options = options || {}`, `meta = options.meta || {}` and
      `delete options.meta`: `meta` is never a field mapping, and the
      shared metadata is never falsy. */
  function SplitOptions(options: Option<map<string, Value>>): (r: ParseOptions)
    ensures "meta" !in r.fields
    ensures Truthy(r.meta)
    ensures options.None? ==> r.fields == map[] && r.meta == Obj(map[])
    ensures options.Some? ==> forall k :: k != "meta" ==>
      (k in r.fields <==> k in options.value) && (k in r.fields ==> r.fields[k] == options.value[k])
    ensures options.Some? && "meta" in options.value && Truthy(options.value["meta"]) ==>
      r.meta == options.value["meta"]
    ensures options.Some? && !("meta" in options.value && Truthy(options.value["meta"])) ==>
      r.meta == Obj(map[])
  {
    var o := if options.Some? then options.value else map[];
    ParseOptions(Or(if "meta" in o then o["meta"] else Undefined, Obj(map[])), o - {"meta"})
  }

  /** What a file event sees: the field mappings, the shared metadata and
      the registry as it is when the event arrives. */
  datatype Config = Config(fields: map<string, Value>, meta: Value, uploaders: map<string, Variant>)

  datatype Event =
    | File(fieldname: string, filename: string)
    | UploadOk(fieldname: string, stored: Value)
    | UploadErr(fieldname: string, error: Error)
    | Finish
    | ParserError(error: Error)

  /** The promise `parse` returns. */
  datatype Settlement = Pending | Resolved(files: map<string, Value>) | Rejected(error: Error)

  /** An upload started for a file part: the variant built and what it was
      built with. */
  datatype Dispatch = Dispatch(fieldname: string, variant: Variant, filename: string, meta: Value)

  /** The handlers' state. `count` and `files` are the source's variables
      and `settled` its promise; `dispatched`, `pending`, `succeeded`,
      `failed` and `drained` record what has happened so far (uploads
      started, started but not settled, saved, failed; parts drained). */
  datatype Session = Session(
    count: int,
    files: map<string, Value>,
    settled: Settlement,
    dispatched: seq<Dispatch>,
    pending: multiset<string>,
    succeeded: nat,
    failed: nat,
    drained: nat)

  const Start := Session(0, map[], Pending, [], multiset{}, 0, 0, 0)

  /** The field's mapping, `undefined` when the field has none. */
  function MappingOf(fields: map<string, Value>, fieldname: string): Value
  {
    if fieldname in fields then fields[fieldname] else Undefined
  }

  /** The variant a file part goes to. A part without a filename, a field
      without a (truthy) mapping, and a mapping to an unregistered key go
      nowhere. */
  function Route(cfg: Config, fieldname: string, filename: string): (r: Option<Variant>)
    ensures r.None? <==>
      || filename == ""
      || fieldname !in cfg.fields
      || !Truthy(cfg.fields[fieldname])
      || PropertyKey(cfg.fields[fieldname]) !in cfg.uploaders
    ensures r.Some? ==> r.value == cfg.uploaders[PropertyKey(cfg.fields[fieldname])]
  {
    var mapping := MappingOf(cfg.fields, fieldname);
    var key := PropertyKey(mapping);
    if filename == "" || !Truthy(mapping) || key !in cfg.uploaders then None
    else Some(cfg.uploaders[key])
  }

  /** A promise settles once: later outcomes are ignored. */
  function SettleOnce(current: Settlement, outcome: Settlement): Settlement
  {
    if current.Pending? then outcome else current
  }

  /** `onEnd`: resolve with the files when nothing is in flight. */
  function EndCheck(s: Session): Session
  {
    if s.count != 0 then s else s.(settled := SettleOnce(s.settled, Resolved(s.files)))
  }

  /** An upload's callback only arrives for an upload in flight. */
  predicate Enabled(s: Session, e: Event)
  {
    match e
    case UploadOk(f, _) => f in s.pending
    case UploadErr(f, _) => f in s.pending
    case _ => true
  }

  /** The meaning of one event. */
  function Step(cfg: Config, s: Session, e: Event): Session
    requires Enabled(s, e)
  {
    match e
    case File(f, filename) =>
      (match Route(cfg, f, filename)
       case None => s.(drained := s.drained + 1)
       case Some(v) =>
         s.(count := s.count + 1,
            dispatched := s.dispatched + [Dispatch(f, v, filename, cfg.meta)],
            pending := s.pending + multiset{f}))
    case UploadOk(f, stored) =>
      EndCheck(s.(count := s.count - 1, files := s.files[f := stored],
               pending := s.pending - multiset{f}, succeeded := s.succeeded + 1))
    case UploadErr(f, err) =>
      s.(settled := SettleOnce(s.settled, Rejected(err)),
         pending := s.pending - multiset{f}, failed := s.failed + 1)
    case Finish => EndCheck(s)
    case ParserError(err) => s.(settled := SettleOnce(s.settled, Rejected(err)))
  }

  /** A sequence of events the parser and the uploads can produce from `s`. */
  predicate Feasible(cfg: Config, s: Session, trace: seq<Event>)
    decreases |trace|
  {
    trace == [] || (Enabled(s, trace[0]) && Feasible(cfg, Step(cfg, s, trace[0]), trace[1..]))
  }

  /** The state after a sequence of events. */
  function Run(cfg: Config, s: Session, trace: seq<Event>): Session
    requires Feasible(cfg, s, trace)
    decreases |trace|
  {
    if trace == [] then s else Run(cfg, Step(cfg, s, trace[0]), trace[1..])
  }

  function FieldsOf(ds: seq<Dispatch>): set<string>
  {
    set i | 0 <= i < |ds| :: ds[i].fieldname
  }

  /** The bookkeeping invariant: `count` is the number of uploads started
      minus those that saved, every started upload has saved, failed or is
      still in flight, and files and uploads in flight belong to fields
      that had an upload started. */
  ghost predicate Inv(s: Session)
  {
    && s.count == |s.dispatched| - s.succeeded
    && |s.dispatched| == s.succeeded + s.failed + |s.pending|
    && s.files.Keys <= FieldsOf(s.dispatched)
    && (forall f :: f in s.pending ==> f in FieldsOf(s.dispatched))
  }

  lemma StartInv()
    ensures Inv(Start)
  {
  }

  lemma FieldsOfAppend(ds: seq<Dispatch>, d: Dispatch)
    ensures FieldsOf(ds + [d]) == FieldsOf(ds) + {d.fieldname}
  {
    var ds' := ds + [d];
    assert ds'[|ds|] == d;
    forall f | f in FieldsOf(ds) ensures f in FieldsOf(ds') {
      var i :| 0 <= i < |ds| && ds[i].fieldname == f;
      assert ds'[i] == ds[i];
    }
  }

  lemma EndCheckInv(s: Session)
    requires Inv(s)
    ensures Inv(EndCheck(s))
  {
  }

  lemma FileInv(cfg: Config, s: Session, f: string, filename: string)
    requires Inv(s)
    ensures Inv(Step(cfg, s, File(f, filename)))
  {
    match Route(cfg, f, filename)
    case None =>
    case Some(v) =>
      var d := Dispatch(f, v, filename, cfg.meta);
      FieldsOfAppend(s.dispatched, d);
      var t := s.(count := s.count + 1, dispatched := s.dispatched + [d], pending := s.pending + multiset{f});
      assert |t.pending| == |s.pending| + 1;
      assert Inv(t);
  }

  lemma UploadOkInv(cfg: Config, s: Session, f: string, stored: Value)
    requires Inv(s) && f in s.pending
    ensures Inv(Step(cfg, s, UploadOk(f, stored)))
  {
    var t := s.(count := s.count - 1, files := s.files[f := stored],
                pending := s.pending - multiset{f}, succeeded := s.succeeded + 1);
    assert |t.pending| == |s.pending| - 1;
    assert t.files.Keys == s.files.Keys + {f};
    assert Inv(t);
    EndCheckInv(t);
  }

  lemma StepUploadOk(cfg: Config, s: Session, f: string, stored: Value)
    requires f in s.pending
    ensures Step(cfg, s, UploadOk(f, stored)) ==
      Session(s.count - 1, s.files[f := stored],
              if s.count - 1 == 0 then SettleOnce(s.settled, Resolved(s.files[f := stored])) else s.settled,
              s.dispatched, s.pending - multiset{f}, s.succeeded + 1, s.failed, s.drained)
  {
  }

  lemma UploadErrInv(cfg: Config, s: Session, f: string, err: Error)
    requires Inv(s) && f in s.pending
    ensures Inv(Step(cfg, s, UploadErr(f, err)))
  {
    var t := Step(cfg, s, UploadErr(f, err));
    assert |t.pending| == |s.pending| - 1;
    assert forall g :: g in t.pending ==> g in s.pending;
  }

  /** Every event keeps the invariant; in particular `count` never goes
      negative. */
  lemma StepInv(cfg: Config, s: Session, e: Event)
    requires Inv(s) && Enabled(s, e)
    ensures Inv(Step(cfg, s, e))
    ensures Step(cfg, s, e).count >= 0
  {
    match e
    case File(f, filename) => FileInv(cfg, s, f, filename);
    case UploadOk(f, stored) => UploadOkInv(cfg, s, f, stored);
    case UploadErr(f, err) => UploadErrInv(cfg, s, f, err);
    case Finish => EndCheckInv(s);
    case ParserError(_) =>
  }

  /** The invariant holds after any feasible sequence of events. */
  lemma {:induction false} RunInv(cfg: Config, s: Session, trace: seq<Event>)
    requires Inv(s) && Feasible(cfg, s, trace)
    ensures Inv(Run(cfg, s, trace))
    ensures Run(cfg, s, trace).count >= 0
    decreases |trace|
  {
    if trace != [] {
      StepInv(cfg, s, trace[0]);
      RunInv(cfg, Step(cfg, s, trace[0]), trace[1..]);
    }
  }

  /** Once settled, the promise stays as it is, whatever events follow. */
  lemma {:induction false} SettledIsFinal(cfg: Config, s: Session, trace: seq<Event>)
    requires Feasible(cfg, s, trace) && !s.settled.Pending?
    ensures Run(cfg, s, trace).settled == s.settled
    decreases |trace|
  {
    if trace != [] {
      SettledIsFinal(cfg, Step(cfg, s, trace[0]), trace[1..]);
    }
  }

  /** Without an upload failure or a parser error, the promise is never
      rejected. */
  lemma {:induction false} OnlyErrorsReject(cfg: Config, s: Session, trace: seq<Event>)
    requires Feasible(cfg, s, trace) && !s.settled.Rejected?
    requires forall i :: 0 <= i < |trace| ==> !trace[i].UploadErr? && !trace[i].ParserError?
    ensures !Run(cfg, s, trace).settled.Rejected?
    decreases |trace|
  {
    if trace != [] {
      assert !trace[0].UploadErr? && !trace[0].ParserError?;
      OnlyErrorsReject(cfg, Step(cfg, s, trace[0]), trace[1..]);
    }
  }

  /** The promise resolves only at an `onEnd` call (after a saved upload or
      at `Finish`) that finds nothing in flight, and with the files as they
      are then. */
  lemma ResolvesOnlyAtZero(cfg: Config, s: Session, e: Event)
    requires Enabled(s, e) && s.settled.Pending? && Step(cfg, s, e).settled.Resolved?
    ensures e.UploadOk? || e.Finish?
    ensures Step(cfg, s, e).count == 0
    ensures Step(cfg, s, e).settled.files == Step(cfg, s, e).files
  {
  }

  /** `Finish` resolves a pending promise exactly when nothing is in flight,
      and otherwise changes nothing. */
  lemma FinishResolves(cfg: Config, s: Session)
    requires s.settled.Pending?
    ensures Step(cfg, s, Finish).settled == Resolved(s.files) <==> s.count == 0
    ensures s.count != 0 ==> Step(cfg, s, Finish) == s
  {
  }

  /** When every upload started has saved, `Finish` resolves a pending
      promise with the files. */
  lemma AllSavedThenFinishResolves(cfg: Config, s: Session)
    requires Inv(s) && s.settled.Pending? && |s.pending| == 0 && s.failed == 0
    ensures Step(cfg, s, Finish).settled == Resolved(s.files)
  {
  }

  /** A saved upload records its result under its field, replacing an
      earlier one, and leaves one upload fewer in flight. */
  lemma SavedUploadRecords(cfg: Config, s: Session, f: string, stored: Value)
    requires f in s.pending
    ensures Step(cfg, s, UploadOk(f, stored)).files == s.files[f := stored]
    ensures Step(cfg, s, UploadOk(f, stored)).count == s.count - 1
  {
  }

  /** A failed upload or a parser error rejects a pending promise with its
      error. */
  lemma FailuresReject(cfg: Config, s: Session, f: string, err: Error)
    requires s.settled.Pending?
    ensures f in s.pending ==> Step(cfg, s, UploadErr(f, err)).settled == Rejected(err)
    ensures Step(cfg, s, ParserError(err)).settled == Rejected(err)
  {
  }

  /** A part that goes nowhere is only drained: count, files and promise are
      untouched. A part that is routed starts one upload, built with its
      filename and the shared metadata. */
  lemma FilePart(cfg: Config, s: Session, f: string, filename: string)
    ensures Route(cfg, f, filename).None? ==> Step(cfg, s, File(f, filename)) == s.(drained := s.drained + 1)
    ensures Route(cfg, f, filename).Some? ==>
      var s' := Step(cfg, s, File(f, filename));
      && s'.count == s.count + 1 && s'.files == s.files && s'.settled == s.settled
      && s'.dispatched == s.dispatched + [Dispatch(f, Route(cfg, f, filename).value, filename, cfg.meta)]
  {
  }

  /** A file part sent under the field name `meta` is never uploaded. */
  lemma MetaIsNotAField(options: Option<map<string, Value>>, uploaders: map<string, Variant>, filename: string)
    ensures Route(Config(SplitOptions(options).fields, SplitOptions(options).meta, uploaders), "meta", filename).None?
  {
  }

  /** The promise can resolve before the parser finishes: with two fields
      mapped to a registered variant, if the first upload saves before the
      second part arrives, the promise resolves with the first file alone,
      and the second file, though saved, is not part of the value it
      resolved with. */
  lemma ResolvesBeforeFinish(v: Variant, a: Value, b: Value)
    ensures
      var cfg := Config(map["one" := Str("k"), "two" := Str("k")], Obj(map[]), map["k" := v]);
      var trace := [File("one", "a.png"), UploadOk("one", a), File("two", "b.png"), UploadOk("two", b), Finish];
      && Feasible(cfg, Start, trace)
      && Run(cfg, Start, trace).settled == Resolved(map["one" := a])
      && Run(cfg, Start, trace).files == map["one" := a, "two" := b]
  {
    var cfg := Config(map["one" := Str("k"), "two" := Str("k")], Obj(map[]), map["k" := v]);
    var f := map["one" := a];
    var s1 := Step(cfg, Start, File("one", "a.png"));
    assert s1.pending == multiset{"one"} && s1.count == 1;
    var s2 := Step(cfg, s1, UploadOk("one", a));
    assert s2.settled == Resolved(f) && s2.pending == multiset{};
    var s3 := Step(cfg, s2, File("two", "b.png"));
    assert s3.pending == multiset{"two"};
    var s4 := Step(cfg, s3, UploadOk("two", b));
    var s5 := Step(cfg, s4, Finish);
    var trace := [File("one", "a.png"), UploadOk("one", a), File("two", "b.png"), UploadOk("two", b), Finish];
    assert trace[1..] == [UploadOk("one", a), File("two", "b.png"), UploadOk("two", b), Finish];
    assert trace[2..] == [File("two", "b.png"), UploadOk("two", b), Finish];
    assert trace[3..] == [UploadOk("two", b), Finish];
    assert trace[4..] == [Finish];
    assert Run(cfg, s4, [Finish]) == s5;
    assert Run(cfg, s3, [UploadOk("two", b), Finish]) == s5;
    assert Run(cfg, s2, [File("two", "b.png"), UploadOk("two", b), Finish]) == s5;
    assert Run(cfg, s1, trace[1..]) == s5;
    assert s5.files == map["one" := a, "two" := b];
  }

  /** The state of one `parse` call. */
  class ParseSession {
    const fields: map<string, Value>
    const meta: Value
    const registry: Registry
    var count: int
    var files: map<string, Value>
    var settled: Settlement
    ghost var dispatched: seq<Dispatch>
    ghost var pending: multiset<string>
    ghost var succeeded: nat
    ghost var failed: nat
    ghost var drained: nat

    ghost function State(): Session
      reads this
    {
      Session(count, files, settled, dispatched, pending, succeeded, failed, drained)
    }

    ghost function Cfg(): Config
      reads this, registry
    {
      Config(fields, meta, registry.uploaders)
    }

    ghost predicate Valid()
      reads this
    {
      Inv(State())
    }

    /** The start of `parse(context, options)`: `meta` is taken out of the
        options, the counter is 0, no files, the promise pending. */
    constructor (options: Option<map<string, Value>>, registry: Registry)
      ensures ParseOptions(meta, fields) == SplitOptions(options)
      ensures this.registry == registry
      ensures State() == Start && Valid()
    {
      var split := SplitOptions(options);
      fields := split.fields;
      meta := split.meta;
      this.registry := registry;
      count := 0;
      files := map[];
      settled := Pending;
      dispatched := [];
      pending := multiset{};
      succeeded := 0;
      failed := 0;
      drained := 0;
    }

    /** `resolve` and `reject`: only the first call settles. */
    method Settle(outcome: Settlement)
      modifies this`settled
      ensures settled == SettleOnce(old(settled), outcome)
    {
      if settled.Pending? {
        settled := outcome;
      }
    }

    /** `onEnd`. */
    method OnEnd()
      modifies this`settled
      ensures settled == EndCheck(old(State())).settled
    {
      if count != 0 {
        return;
      }
      Settle(Resolved(files));
    }

    /** The parser's `file` handler. */
    method OnFile(fieldname: string, filename: string)
      requires Valid()
      modifies this
      ensures Valid() && State() == Step(Cfg(), old(State()), File(fieldname, filename))
    {
      ghost var cfg := Cfg();
      FileInv(cfg, State(), fieldname, filename);
      var mapping := MappingOf(fields, fieldname);
      var uploader := registry.Get(PropertyKey(mapping));
      if filename == "" || !Truthy(mapping) || uploader.None? {
        assert Route(cfg, fieldname, filename).None?;
        drained := drained + 1;
        return;
      }
      assert Route(cfg, fieldname, filename) == uploader;
      count := count + 1;
      dispatched := dispatched + [Dispatch(fieldname, uploader.value, filename, meta)];
      pending := pending + multiset{fieldname};
      assert Cfg() == cfg;
    }

    /** An upload's success callback. */
    method OnUploadOk(fieldname: string, stored: Value)
      requires Valid() && fieldname in pending
      modifies this
      ensures Valid() && State() == Step(Cfg(), old(State()), UploadOk(fieldname, stored))
    {
      ghost var cfg := Cfg();
      UploadOkInv(cfg, State(), fieldname, stored);
      StepUploadOk(cfg, State(), fieldname, stored);
      count := count - 1;
      files := files[fieldname := stored];
      pending := pending - multiset{fieldname};
      succeeded := succeeded + 1;
      OnEnd();
      assert Cfg() == cfg;
    }

    /** An upload's failure callback. */
    method OnUploadErr(fieldname: string, err: Error)
      requires Valid() && fieldname in pending
      modifies this
      ensures Valid() && State() == Step(Cfg(), old(State()), UploadErr(fieldname, err))
    {
      ghost var s := State();
      Settle(Rejected(err));
      pending := pending - multiset{fieldname};
      failed := failed + 1;
      StepInv(Cfg(), s, UploadErr(fieldname, err));
    }

    /** The parser's `finish` handler. */
    method OnFinish()
      requires Valid()
      modifies this
      ensures Valid() && State() == Step(Cfg(), old(State()), Finish)
    {
      OnEnd();
    }

    /** The parser's `error` handler. */
    method OnParserError(err: Error)
      requires Valid()
      modifies this
      ensures Valid() && State() == Step(Cfg(), old(State()), ParserError(err))
    {
      Settle(Rejected(err));
    }
  }
}
