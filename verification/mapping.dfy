/** The orchestrator: `MappingModelMixin.map_from_model` and
  `MappingModel.build_from_model`.

  `map_from_model` replaces a missing context with `{}`, runs the engine and
  calls the destination constructor on the payload. `build_from_model` runs it
  and translates `AttributeError`, `TypeError` and pydantic's `ValidationError`
  into the package's uniform mapping error, with the original as its cause;
  every other exception passes through unchanged. Two releases of the package
  do this identically except for the uniform error's name.

  pydantic's validating constructor is a parameter `ctor`: it returns an
  instance or raises (normally `ValidationError`).
 */
module Mapping {
  import opened Outcomes
  import opened Values
  import Fields
  import Engine

  /** `src/pymapme` raises `PyMapMeValidationError`; the older `pymapme`
      package raises `PyMapMelValidationError`. */
  datatype Release = Current | Legacy

  /** The exception kinds `build_from_model` catches. */
  predicate Caught(e: Exc): (b: bool)
    ensures b ==> !e.ValueError? && !e.OtherError? && !e.PyMapMeValidationError? && !e.PyMapMelValidationError?
    ensures !b ==> !e.AttributeError? && !e.TypeError? && !e.ValidationError?
  {
    e.AttributeError? || e.TypeError? || e.ValidationError?
  }

  /** The release's uniform mapping error wrapping `cause`. */
  function Wrap(rel: Release, cause: Exc): (r: Exc)
    ensures IsUniform(rel, r) && r.cause == cause
    ensures !IsUniform(if rel.Current? then Legacy else Current, r)
  {
    match rel
    case Current => PyMapMeValidationError(cause)
    case Legacy => PyMapMelValidationError(cause)
  }

  /** The uniform mapping error of the release, whatever its cause. */
  predicate IsUniform(rel: Release, e: Exc)
  {
    match rel
    case Current => e.PyMapMeValidationError?
    case Legacy => e.PyMapMelValidationError?
  }

  /** The `except` clauses of `build_from_model`: a caught kind becomes the
      uniform error with the original as cause; anything else is re-raised as is. */
  function Translate(rel: Release, e: Exc): (r: Exc)
    ensures Caught(e) ==> IsUniform(rel, r) && r.cause == e
    ensures !Caught(e) ==> r == e
    ensures !Caught(r)
  {
    if Caught(e) then Wrap(rel, e) else e
  }

  /** `context or {}`. */
  function ContextOrEmpty(ctx: Option<map<string, Val>>): (c: map<string, Val>)
    ensures ctx.None? ==> c == map[]
    ensures ctx.Some? ==> c == ctx.value
  {
    if ctx.Some? then ctx.value else map[]
  }

  /** `map_from_model(cls, source, context)`: run the engine, then the constructor. */
  function MapFromModel(schema: Fields.Schema, ctor: map<string, Val> -> Outcome<Val>, source: Val, ctx: Option<map<string, Val>>): (r: Outcome<Val>)
    ensures var payload := Engine.MapFieldsFromModel(schema, source, ContextOrEmpty(ctx));
      payload.Ok? ==> r == ctor(payload.value)
    ensures var payload := Engine.MapFieldsFromModel(schema, source, ContextOrEmpty(ctx));
      payload.Raise? ==> r == Raise(payload.exc)
  {
    var payload :- Engine.MapFieldsFromModel(schema, source, ContextOrEmpty(ctx));
    ctor(payload)
  }

  /** `build_from_model(cls, source, context)` of the given release: the mapped
      instance, or the exception of `map_from_model` translated. A caller never
      sees a bare `AttributeError`, `TypeError` or `ValidationError`. */
  function BuildFromModel(rel: Release, schema: Fields.Schema, ctor: map<string, Val> -> Outcome<Val>, source: Val, ctx: Option<map<string, Val>>): (r: Outcome<Val>)
    ensures var m := MapFromModel(schema, ctor, source, ctx);
      m.Ok? ==> r == m
    ensures var m := MapFromModel(schema, ctor, source, ctx);
      m.Raise? && Caught(m.exc) ==> r.Raise? && IsUniform(rel, r.exc) && r.exc.cause == m.exc
    ensures var m := MapFromModel(schema, ctor, source, ctx);
      m.Raise? && !Caught(m.exc) ==> r == m
    ensures r.Raise? ==> !Caught(r.exc)
  {
    match MapFromModel(schema, ctor, source, ctx)
    case Ok(instance) => Ok(instance)
    case Raise(e) => Raise(Translate(rel, e))
  }

  // ---------------------------------------------------------------------------
  // Properties of the orchestrator
  // ---------------------------------------------------------------------------

  /** No context and an empty context map the same way. */
  lemma NoneContextIsEmpty(rel: Release, schema: Fields.Schema, ctor: map<string, Val> -> Outcome<Val>, source: Val)
    ensures BuildFromModel(rel, schema, ctor, source, None) == BuildFromModel(rel, schema, ctor, source, Some(map[]))
  {
  }

  /** On success the result is the constructor applied to the engine's payload. */
  lemma SuccessIsConstructorOfPayload(rel: Release, schema: Fields.Schema, ctor: map<string, Val> -> Outcome<Val>, source: Val, ctx: Option<map<string, Val>>)
    requires BuildFromModel(rel, schema, ctor, source, ctx).Ok?
    ensures Engine.MapFieldsFromModel(schema, source, ContextOrEmpty(ctx)).Ok?
    ensures ctor(Engine.MapFieldsFromModel(schema, source, ContextOrEmpty(ctx)).value) == BuildFromModel(rel, schema, ctor, source, ctx)
  {
  }

  /** When resolution raises, the constructor is never consulted: any two
      constructors give the same outcome. */
  lemma ResolutionFailureSkipsConstructor(rel: Release, schema: Fields.Schema, ctor1: map<string, Val> -> Outcome<Val>, ctor2: map<string, Val> -> Outcome<Val>, source: Val, ctx: Option<map<string, Val>>)
    requires Engine.MapFieldsFromModel(schema, source, ContextOrEmpty(ctx)).Raise?
    ensures BuildFromModel(rel, schema, ctor1, source, ctx) == BuildFromModel(rel, schema, ctor2, source, ctx)
  {
  }

  /** An `AttributeError` or `TypeError` raised while resolving fields surfaces
      as the uniform error with that exception as cause. */
  lemma ResolutionErrorWrapped(rel: Release, schema: Fields.Schema, ctor: map<string, Val> -> Outcome<Val>, source: Val, ctx: Option<map<string, Val>>)
    requires var p := Engine.MapFieldsFromModel(schema, source, ContextOrEmpty(ctx));
      p.Raise? && (p.exc.AttributeError? || p.exc.TypeError?)
    ensures BuildFromModel(rel, schema, ctor, source, ctx)
         == Raise(Wrap(rel, Engine.MapFieldsFromModel(schema, source, ContextOrEmpty(ctx)).exc))
  {
  }

  /** A `ValidationError`, `AttributeError` or `TypeError` raised by the
      constructor surfaces as the uniform error with that exception as cause. */
  lemma ConstructorErrorWrapped(rel: Release, schema: Fields.Schema, ctor: map<string, Val> -> Outcome<Val>, source: Val, ctx: Option<map<string, Val>>)
    requires var p := Engine.MapFieldsFromModel(schema, source, ContextOrEmpty(ctx));
      p.Ok? && ctor(p.value).Raise? && Caught(ctor(p.value).exc)
    ensures BuildFromModel(rel, schema, ctor, source, ctx)
         == Raise(Wrap(rel, ctor(Engine.MapFieldsFromModel(schema, source, ContextOrEmpty(ctx)).value).exc))
  {
  }

  /** Every other exception kind, from resolution or construction, propagates unchanged. */
  lemma OtherErrorsPropagate(rel: Release, schema: Fields.Schema, ctor: map<string, Val> -> Outcome<Val>, source: Val, ctx: Option<map<string, Val>>)
    requires MapFromModel(schema, ctor, source, ctx).Raise?
    requires !Caught(MapFromModel(schema, ctor, source, ctx).exc)
    ensures BuildFromModel(rel, schema, ctor, source, ctx) == MapFromModel(schema, ctor, source, ctx)
  {
  }

  /** An empty `source_sep` on the first field makes `str.split` raise
      `ValueError`, which reaches the caller unchanged. */
  lemma EmptySeparatorPropagates(rel: Release, schema: Fields.Schema, ctor: map<string, Val> -> Outcome<Val>, source: Val, ctx: Option<map<string, Val>>)
    requires |schema.fields| > 0
    requires Fields.HasSource(schema.fields[0]) && schema.fields[0].extra.value.sourceSep == Fields.SepGiven("")
    ensures BuildFromModel(rel, schema, ctor, source, ctx).Raise?
    ensures BuildFromModel(rel, schema, ctor, source, ctx).exc.ValueError?
  {
    Engine.CollectRaisesFirstError(schema, source, ContextOrEmpty(ctx), schema.fields, map[], 0);
  }

  /** The two releases agree on success and on every exception they do not
      catch, and wrap each caught exception as the same cause, differing only
      in the uniform error's name. */
  lemma ReleasesDifferOnlyInWrapperName(schema: Fields.Schema, ctor: map<string, Val> -> Outcome<Val>, source: Val, ctx: Option<map<string, Val>>)
    ensures var m := MapFromModel(schema, ctor, source, ctx);
      m.Raise? && Caught(m.exc) ==>
        && BuildFromModel(Current, schema, ctor, source, ctx) == Raise(PyMapMeValidationError(m.exc))
        && BuildFromModel(Legacy, schema, ctor, source, ctx) == Raise(PyMapMelValidationError(m.exc))
    ensures var m := MapFromModel(schema, ctor, source, ctx);
      !(m.Raise? && Caught(m.exc)) ==>
        BuildFromModel(Current, schema, ctor, source, ctx) == BuildFromModel(Legacy, schema, ctor, source, ctx)
  {
  }
}
