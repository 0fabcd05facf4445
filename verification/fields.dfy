/** Per-field resolution: the body of the loop in `map_fields_from_model`.

  Each destination field carries its pydantic `json_schema_extra` metadata.
  The locator is chosen in a fixed order: a truthy `source` dotted path, else a
  truthy `source_func` resolver, else the implicit same-name attribute. The
  resolver is either a callable or the name of one on the destination type;
  `inspect.signature` is replaced by the resolver's declared parameter names.
 */
module Fields {
  import opened Outcomes
  import opened Values
  import Path

  /** A custom resolver: the parameter names its signature declares, and what a
      call `fn(source, default=d, **kwargs)` returns or raises. */
  datatype Resolver = Resolver(params: set<string>, call: (Val, Res, map<string, Val>) -> Outcome<Res>)

  /** The value stored under `source_func`. */
  datatype FuncSpec =
    | NoFunc                    // key missing, or a falsy value such as None
    | FuncName(name: string)    // a string, looked up on the destination type
    | FuncValue(fn: Resolver)   // a callable given directly
    | NotCallable               // any other truthy value, such as 123

  /** The value stored under `source_sep`. */
  datatype SepSetting = SepMissing | SepNone | SepGiven(sep: string)

  /** A field's `json_schema_extra` dictionary; `source` is `None` when the key is missing. */
  datatype Extra = Extra(source: Option<string>, sourceSep: SepSetting, sourceFunc: FuncSpec)

  /** One entry of `model_fields`. `default` is `None` for a field without a
      default; `extra` is `None` when `json_schema_extra` is unset or not a dict. */
  datatype Field = Field(name: string, default: Option<Val>, extra: Option<Extra>)

  /** An attribute of the destination class reachable by `getattr(cls, name)`. */
  datatype Member = Callable(fn: Resolver) | NonCallable(v: Val)

  /** The destination model type: its fields, in declaration order, and its class attributes. */
  datatype Schema = Schema(typeName: string, fields: seq<Field>, members: map<string, Member>)

  /** Where a field's value comes from. */
  datatype Locator = ByPath(path: string, sep: string) | ByFunc(spec: FuncSpec) | Implicit

  /** The `source` entry is present and truthy. */
  predicate HasSource(f: Field): (b: bool)
    ensures b <==> f.extra.Some? && f.extra.value.source.Some? && Truthy(StrVal(f.extra.value.source.value))
  {
    f.extra.Some? && f.extra.value.source.Some? && f.extra.value.source.value != ""
  }

  /** The `source_func` entry is present and truthy. */
  predicate HasSourceFunc(f: Field): (b: bool)
    ensures b <==> (f.extra.Some? && !f.extra.value.sourceFunc.NoFunc?
                    && (f.extra.value.sourceFunc.FuncName? ==> Truthy(StrVal(f.extra.value.sourceFunc.name))))
  {
    && f.extra.Some?
    && match f.extra.value.sourceFunc
       case NoFunc => false
       case FuncName(n) => n != ""
       case FuncValue(_) => true
       case NotCallable => true
  }

  /** The separator actually used: `"."` when `source_sep` is missing or `None`. */
  function EffectiveSep(s: SepSetting): (sep: string)
    ensures s.SepGiven? ==> sep == s.sep
    ensures !s.SepGiven? ==> sep == "."
  {
    match s
    case SepGiven(x) => x
    case _ => "."
  }

  /** Locator precedence: `source` beats `source_func`, which beats the implicit lookup. */
  function SelectLocator(f: Field): (loc: Locator)
    ensures loc.ByPath? <==> HasSource(f)
    ensures loc.ByFunc? <==> !HasSource(f) && HasSourceFunc(f)
    ensures loc.Implicit? <==> !HasSource(f) && !HasSourceFunc(f)
    ensures loc.ByPath? ==> loc.path == f.extra.value.source.value && loc.sep == EffectiveSep(f.extra.value.sourceSep)
    ensures loc.ByFunc? ==> loc.spec == f.extra.value.sourceFunc
  {
    if HasSource(f) then ByPath(f.extra.value.source.value, EffectiveSep(f.extra.value.sourceSep))
    else if HasSourceFunc(f) then ByFunc(f.extra.value.sourceFunc)
    else Implicit
  }

  /** `field.default or sentinel`: the resolver's `default` argument. */
  function ResolverDefault(d: Option<Val>): (r: Res)
    ensures r.Present? <==> d.Some? && Truthy(d.value)
    ensures r.Present? ==> r.v == d.value
  {
    if d.Some? && Truthy(d.value) then Present(d.value) else Absent
  }

  /** The context entries whose keys are among the resolver's parameter names. */
  function FilterContext(ctx: map<string, Val>, params: set<string>): (sub: map<string, Val>)
    ensures sub.Keys == ctx.Keys * params
    ensures forall k :: k in sub ==> sub[k] == ctx[k]
  {
    map k | k in ctx && k in params :: ctx[k]
  }

  /** Turn a truthy `source_func` into a callable, or `None` when it is not callable.
      A name is looked up with `getattr(cls, name)`, which raises `AttributeError`
      when the class has no such attribute. */
  function LookupResolver(schema: Schema, spec: FuncSpec): (r: Outcome<Option<Resolver>>)
    ensures r.Raise? <==> spec.FuncName? && spec.name !in schema.members
    ensures r.Raise? ==> r.exc.AttributeError?
    ensures r.Ok? && r.value.Some? <==>
      spec.FuncValue? || (spec.FuncName? && spec.name in schema.members && schema.members[spec.name].Callable?)
    ensures r.Ok? && r.value.Some? && spec.FuncValue? ==> r.value.value == spec.fn
    ensures r.Ok? && r.value.Some? && spec.FuncName? ==> r.value.value == schema.members[spec.name].fn
  {
    match spec
    case FuncName(n) =>
      if n !in schema.members then
        Raise(AttributeError("type object '" + schema.typeName + "' has no attribute '" + n + "'"))
      else if schema.members[n].Callable? then Ok(Some(schema.members[n].fn))
      else Ok(None)
    case FuncValue(fn) => Ok(Some(fn))
    case _ => Ok(None)
  }

  /** The call `fn(source, default=d, **kwargs)`. A `default` entry among the
      keyword arguments duplicates the explicit one, and Python raises
      `TypeError` before the resolver runs. */
  function CallResolver(fn: Resolver, source: Val, d: Res, kw: map<string, Val>): (r: Outcome<Res>)
    ensures "default" in kw ==> r.Raise? && r.exc.TypeError?
    ensures "default" !in kw ==> r == fn.call(source, d, kw)
  {
    if "default" in kw then Raise(TypeError("got multiple values for keyword argument 'default'"))
    else fn.call(source, d, kw)
  }

  /** Resolve one destination field against the source instance: a value, the
      sentinel, or an exception. Path and implicit lookups never raise for
      missing data; only an empty separator, an unknown resolver name or the
      resolver call can raise. */
  function ResolveField(schema: Schema, f: Field, source: Val, ctx: map<string, Val>): (r: Outcome<Res>)
    ensures SelectLocator(f).Implicit? ==> r.Ok?
    ensures SelectLocator(f).ByPath? ==> (r.Raise? <==> EffectiveSep(f.extra.value.sourceSep) == "")
    ensures r.Raise? && !SelectLocator(f).ByFunc? ==> r.exc.ValueError?
  {
    match SelectLocator(f)
    case ByPath(path, sep) => Path.MapFromModelField(source, path, sep)
    case ByFunc(spec) =>
      var callee :- LookupResolver(schema, spec);
      if callee.None? then Ok(Absent)
      else CallResolver(callee.value, source, ResolverDefault(f.default), FilterContext(ctx, callee.value.params))
    case Implicit => Ok(GetAttr(source, f.name))
  }

  // ---------------------------------------------------------------------------
  // Properties of a single field
  // ---------------------------------------------------------------------------

  /** A truthy `source` wins over any `source_func`. */
  lemma SourceWinsOverFunc(f: Field)
    requires HasSource(f) && HasSourceFunc(f)
    ensures SelectLocator(f) == ByPath(f.extra.value.source.value, EffectiveSep(f.extra.value.sourceSep))
  {
  }

  /** An empty-string `source` falls through to `source_func`, or to the implicit lookup. */
  lemma EmptySourceFallsThrough(f: Field)
    requires f.extra.Some? && f.extra.value.source == Some("")
    ensures HasSourceFunc(f) ==> SelectLocator(f) == ByFunc(f.extra.value.sourceFunc)
    ensures !HasSourceFunc(f) ==> SelectLocator(f) == Implicit
  {
  }

  /** A path field resolves to the value at the end of the attribute chain
      when one exists, included even when it is falsy, and to the sentinel
      otherwise. */
  lemma PathFieldFollowsChain(schema: Schema, f: Field, source: Val, ctx: map<string, Val>, vs: seq<Val>)
    requires HasSource(f)
    requires EffectiveSep(f.extra.value.sourceSep) != ""
    requires Path.IsChain(vs, Path.SplitOn(f.extra.value.source.value, EffectiveSep(f.extra.value.sourceSep)))
    requires vs[0] == source
    ensures ResolveField(schema, f, source, ctx) == Ok(Present(vs[|vs| - 1]))
  {
  }

  /** Without such a chain, a path field resolves to the sentinel. */
  lemma PathFieldWithoutChainIsAbsent(schema: Schema, f: Field, source: Val, ctx: map<string, Val>)
    requires HasSource(f)
    requires EffectiveSep(f.extra.value.sourceSep) != ""
    requires !exists vs :: Path.IsChain(vs, Path.SplitOn(f.extra.value.source.value, EffectiveSep(f.extra.value.sourceSep))) && vs[0] == source
    ensures ResolveField(schema, f, source, ctx) == Ok(Absent)
  {
    var path := f.extra.value.source.value;
    var sep := EffectiveSep(f.extra.value.sourceSep);
    assert SelectLocator(f) == ByPath(path, sep);
    var r := Path.MapFromModelField(source, path, sep);
    if r.value.Present? {
      assert false;
    }
  }

  /** The implicit lookup is `getattr(source, name, sentinel)`: the value when the
      attribute exists, the sentinel otherwise; the context plays no part. */
  lemma ImplicitIsDirectLookup(schema: Schema, f: Field, source: Val, ctx: map<string, Val>)
    requires !HasSource(f) && !HasSourceFunc(f)
    ensures source.Obj? && f.name in source.attrs ==> ResolveField(schema, f, source, ctx) == Ok(Present(source.attrs[f.name]))
    ensures !(source.Obj? && f.name in source.attrs) ==> ResolveField(schema, f, source, ctx) == Ok(Absent)
  {
  }

  /** A resolver name unknown to the destination type raises `AttributeError`. */
  lemma UnknownResolverNameRaises(schema: Schema, f: Field, source: Val, ctx: map<string, Val>)
    requires !HasSource(f) && f.extra.Some? && f.extra.value.sourceFunc.FuncName?
    requires f.extra.value.sourceFunc.name != "" && f.extra.value.sourceFunc.name !in schema.members
    ensures ResolveField(schema, f, source, ctx).Raise?
    ensures ResolveField(schema, f, source, ctx).exc.AttributeError?
  {
  }

  /** A truthy `source_func` that is not callable contributes nothing. */
  lemma NonCallableResolverIsAbsent(schema: Schema, f: Field, source: Val, ctx: map<string, Val>)
    requires !HasSource(f) && f.extra.Some?
    requires var spec := f.extra.value.sourceFunc;
      spec.NotCallable? || (spec.FuncName? && spec.name != "" && spec.name in schema.members && schema.members[spec.name].NonCallable?)
    ensures ResolveField(schema, f, source, ctx) == Ok(Absent)
  {
  }

  /** `fn` is the callable resolver of field `f`, given directly or by name. */
  ghost predicate ResolvesBy(schema: Schema, f: Field, fn: Resolver)
  {
    && !HasSource(f) && HasSourceFunc(f)
    && (f.extra.value.sourceFunc == FuncValue(fn)
        || (f.extra.value.sourceFunc.FuncName? && f.extra.value.sourceFunc.name in schema.members
            && schema.members[f.extra.value.sourceFunc.name] == Callable(fn)))
  }

  /** A callable resolver is called with the source, the resolver default and
      exactly the context entries it declares; unless one of those is
      `default`, what it returns or raises is the field's outcome. */
  lemma ResolverCallShape(schema: Schema, f: Field, source: Val, ctx: map<string, Val>, fn: Resolver)
    requires ResolvesBy(schema, f, fn)
    requires !("default" in ctx && "default" in fn.params)
    ensures ResolveField(schema, f, source, ctx) == fn.call(source, ResolverDefault(f.default), FilterContext(ctx, fn.params))
  {
  }

  /** A context entry `default` that the resolver declares collides with the
      explicit `default=` keyword: the field raises `TypeError`. */
  lemma DefaultKeywordCollides(schema: Schema, f: Field, source: Val, ctx: map<string, Val>, fn: Resolver)
    requires ResolvesBy(schema, f, fn)
    requires "default" in ctx && "default" in fn.params
    ensures ResolveField(schema, f, source, ctx).Raise?
    ensures ResolveField(schema, f, source, ctx).exc.TypeError?
  {
  }

  /** The sentinel is private to `map_fields_from_model`: a resolver returns it
      only when it was handed it as `default`. */
  ghost predicate KeepsSentinelPrivate(fn: Resolver)
  {
    forall m: Val, d: Res, kw: map<string, Val> :: d.Present? && fn.call(m, d, kw).Ok? ==> fn.call(m, d, kw).value.Present?
  }

  /** A field with a truthy default and a resolver that keeps the sentinel
      private is never dropped from the payload when the resolver returns. */
  lemma TruthyDefaultNeverDropped(schema: Schema, f: Field, source: Val, ctx: map<string, Val>, fn: Resolver)
    requires ResolvesBy(schema, f, fn) && KeepsSentinelPrivate(fn)
    requires f.default.Some? && Truthy(f.default.value)
    requires ResolveField(schema, f, source, ctx).Ok?
    ensures ResolveField(schema, f, source, ctx).value.Present?
  {
    var d := ResolverDefault(f.default);
    var kw := FilterContext(ctx, fn.params);
    assert ResolveField(schema, f, source, ctx) == CallResolver(fn, source, d, kw);
    assert fn.call(source, d, kw) == ResolveField(schema, f, source, ctx);
  }

  /** Context keys a resolver does not declare are filtered out silently: two
      contexts that agree on the declared names give the same outcome. */
  lemma ResolverIgnoresUndeclaredContext(schema: Schema, f: Field, source: Val, ctx1: map<string, Val>, ctx2: map<string, Val>, fn: Resolver)
    requires ResolvesBy(schema, f, fn)
    requires forall k :: k in fn.params ==> (k in ctx1 <==> k in ctx2)
    requires forall k :: k in fn.params && k in ctx1 ==> ctx1[k] == ctx2[k]
    ensures ResolveField(schema, f, source, ctx1) == ResolveField(schema, f, source, ctx2)
  {
    assert FilterContext(ctx1, fn.params) == FilterContext(ctx2, fn.params);
  }

  /** With an empty context a resolver receives no extra keyword arguments. */
  lemma EmptyContextPassesNothing(params: set<string>)
    ensures FilterContext(map[], params) == map[]
  {
  }
}
