# pymapme mapping core in Dafny

pymapme builds a pydantic model ("destination") from another pydantic model
instance ("source"). Each destination field carries `json_schema_extra`
metadata that says where its value comes from:

- a dotted `source` path, walked with `getattr` after `str.split(source_sep)`;
- a `source_func` resolver, given directly or by name on the destination
  class, called with the source, the field's default and the context entries
  the resolver declares;
- neither, and the field is read from the source attribute of the same name.

`map_fields_from_model` resolves the fields in declaration order. It collects
every field that did not resolve to its private sentinel into a payload.
`map_from_model` hands the payload to the destination constructor.
`build_from_model` translates `AttributeError`, `TypeError` and pydantic's
`ValidationError` into the package's uniform mapping error. Two releases
exist: `src/pymapme` raises `PyMapMeValidationError`, and the older `pymapme`
package raises `PyMapMelValidationError`.

The Dafny modules follow that structure:

- `Outcomes`: `Option`, the exception kinds, and `Outcome` (a value or a raised exception).
- `Values`: Python values as the mapper sees them, `getattr` with a default, and truthiness.
- `Path`: `str.split` and the `getattr` fold of `map_from_model_field`.
- `Fields`: the metadata of one field, locator precedence, resolver lookup, context filtering, and per-field resolution.
- `Engine`: the loop of `map_fields_from_model`.
- `Mapping`: `map_from_model` and `build_from_model` for both releases.
- `Scenarios`: the repository's unit-test fixtures, with each test stated as a lemma over its inputs.

A dotted path through a string value does not raise. The code walks with
`getattr(val, key, default)`, so such a path quietly yields the sentinel
(`Path.WalkMissIsAbsent`). The `'str' object has no attribute 'first_name'`
error that tests/unit/pymapme/models/test_mapping.py:143-147 expects comes from
the `_get_full_name` resolver instead (`Scenarios.FailedToMap`).

## Model

| member | source | states |
|---|---|---|
| `Values.GetAttr` | src/pymapme/utils.py:47 | `getattr(v, name, sentinel)`: the attribute when `v` is an object that has it, the sentinel otherwise. |
| `Values.Truthy` | src/pymapme/utils.py:19-20 | Python truthiness: `None`, `False`, `0`, `""`, `[]` and opaque objects that say so are falsy; everything else is truthy. |
| `Path.Step` | src/pymapme/utils.py:62 | One `getattr(val, key, default)` step: a value exactly when the value so far is an object with that attribute, and then that attribute. |
| `Path.Walk` | src/pymapme/utils.py:61-65 | The fold over no keys is its start, and it yields a value only from a value. |
| `Path.FindFrom` | src/pymapme/utils.py:63 | The index found is an occurrence of the separator, and no occurrence starts between the search start and it (none at all when nothing is found). |
| `Path.SplitOn` | src/pymapme/utils.py:63 | `s.split(sep)` for a non-empty separator: at least one piece, the pieces joined by `sep` give back `s`, and no piece contains `sep`. Each cut is at the leftmost occurrence: no occurrence of `sep` starts inside a piece followed by `sep`. |
| `Path.SplitJoinRoundTrip` | src/pymapme/utils.py:63 | Splitting `sep.join(parts)` on a one-character separator gives back `parts` when no part contains the separator. |
| `Path.Split` | src/pymapme/utils.py:63 | `str.split` raises `ValueError` exactly when the separator is empty; otherwise it returns pieces that rejoin to the input, contain no separator, and are cut at leftmost occurrences. |
| `Path.WalkAbsentAbsorbs` | src/pymapme/utils.py:61-65 | Once the fold has produced the sentinel, every further segment keeps it. |
| `Path.WalkAppend` | src/pymapme/utils.py:61-65 | Folding over `k1 + k2` equals folding over `k2` from where the fold over `k1` ended. |
| `Path.WalkPresentHasChain` | src/pymapme/utils.py:61-65 | A walk that yields a value was carried by a chain of existing attributes from the source to that value. |
| `Path.ChainWalksPresent` | src/pymapme/utils.py:61-65 | A chain of existing attributes along the keys makes the walk yield the chain's last value. |
| `Path.WalkPresentIffChain` | src/pymapme/utils.py:61-65 | The walk yields `w` if and only if a chain of existing attributes leads from the source to `w`. |
| `Path.WalkMissIsAbsent` | src/pymapme/utils.py:62 | A segment missing on the value reached so far (`None`, a string, a list or an object without it) makes the whole walk the sentinel, never an exception. |
| `Path.MapFromModelField` | src/pymapme/utils.py:55-65 | Raises (a `ValueError`) exactly for an empty separator. A value it returns ends a chain of existing attributes along the split path, and any such chain forces that value. |
| `Fields.HasSource` | src/pymapme/utils.py:16-20 | The field has metadata whose `source` is present and a non-empty (truthy) string. |
| `Fields.HasSourceFunc` | src/pymapme/utils.py:28-32 | The field has metadata with a `source_func`, and a name given as `source_func` is non-empty. |
| `Fields.EffectiveSep` | src/pymapme/utils.py:21-25 | A missing or `None` `source_sep` means `"."`; any string given is used as is, the empty string included. |
| `Fields.ResolverDefault` | src/pymapme/utils.py:43 | `field.default or sentinel`: a truthy default is passed, a falsy or missing one becomes the sentinel. |
| `Fields.CallResolver` | src/pymapme/utils.py:43 | A `default` among the filtered context entries duplicates the explicit `default=` keyword and raises `TypeError`; otherwise the resolver is called. |
| `Fields.SelectLocator` | src/pymapme/utils.py:16-47 | A truthy `source` selects the path (with `source_sep`, or `"."` when missing or `None`); otherwise a truthy `source_func` selects the resolver; otherwise the implicit lookup. Each case holds if and only if its condition does. |
| `Fields.FilterContext` | src/pymapme/utils.py:36-40 | The resolver receives exactly the context keys among its declared parameters, each with its context value. |
| `Fields.LookupResolver` | src/pymapme/utils.py:33-45 | A resolver name missing on the destination class raises `AttributeError`. A callable (given, or found by name) is used as is. Anything else is treated as not callable. |
| `Fields.ResolveField` | src/pymapme/utils.py:15-47 | The implicit lookup never raises. A path field raises exactly when its separator is empty. Only a resolver can raise anything but `ValueError`. |
| `Fields.SourceWinsOverFunc` | src/pymapme/utils.py:16-32 | With both a truthy `source` and a `source_func`, the path is used. |
| `Fields.EmptySourceFallsThrough` | src/pymapme/utils.py:16-47 | An empty-string `source` is falsy: the field falls through to `source_func`, or to the implicit lookup. |
| `Fields.PathFieldFollowsChain` | src/pymapme/utils.py:16-27 | A path field resolves to the end of an existing attribute chain, even when that value is falsy. |
| `Fields.PathFieldWithoutChainIsAbsent` | src/pymapme/utils.py:16-27 | A path field with a non-empty separator and no chain of existing attributes along its split path resolves to the sentinel. |
| `Fields.ImplicitIsDirectLookup` | src/pymapme/utils.py:46-47 | A field without metadata is `getattr(source, name, sentinel)`: the attribute if it exists, the sentinel otherwise, whatever the context. |
| `Fields.UnknownResolverNameRaises` | src/pymapme/utils.py:33-34 | A `source_func` name unknown to the destination class raises `AttributeError`. |
| `Fields.NonCallableResolverIsAbsent` | src/pymapme/utils.py:42-45 | A truthy `source_func` that is not callable (such as `123`, or a name bound to a non-callable) resolves to the sentinel. |
| `Fields.ResolverCallShape` | src/pymapme/utils.py:36-43 | Unless the context hands it `default`, a callable resolver's outcome is its call with the source, `field.default or sentinel`, and the filtered context. |
| `Fields.DefaultKeywordCollides` | src/pymapme/utils.py:36-43 | A `default` context entry that the resolver declares collides with the explicit keyword: the field raises `TypeError`. |
| `Fields.TruthyDefaultNeverDropped` | src/pymapme/utils.py:13-50 | A resolver that never returns the private sentinel unless handed it, given a truthy default, never makes its field drop out of the payload. |
| `Fields.ResolverIgnoresUndeclaredContext` | src/pymapme/utils.py:38-40 | Two contexts that agree on the resolver's declared parameters give the same outcome. |
| `Fields.EmptyContextPassesNothing` | src/pymapme/utils.py:36-40 | With an empty context the resolver gets no keyword arguments beyond `default`. |
| `Engine.Offer` | src/pymapme/utils.py:49-50 | The payload gains the field exactly when its result is not the sentinel, with that value; every other entry is kept. |
| `Engine.Collect` | src/pymapme/utils.py:14-50 | The loop only adds to the payload, and only under names of fields still to resolve. |
| `Engine.MapFieldsFromModel` | src/pymapme/utils.py:8-52 | Every payload key is a destination field name. |
| `Engine.CollectOkIffNoFieldRaises` | src/pymapme/utils.py:15-50 | The loop completes if and only if no field raises. |
| `Engine.CollectRaisesFirstError` | src/pymapme/utils.py:15-50 | The first field that raises decides the exception; later fields are never consulted. |
| `Engine.CollectIsFold` | src/pymapme/utils.py:14-50 | When no field raises, the payload is the left fold of "add if not the sentinel" over the resolved results. |
| `Engine.CollectContents` | src/pymapme/utils.py:49-50 | With unique names, the completed loop keeps the earlier entries and adds exactly the fields that resolved to a value, each with its value. |
| `Engine.PayloadIsResolvedFields` | src/pymapme/utils.py:8-52 | `map_fields_from_model` returns if and only if no field raises. A field is in the payload if and only if it resolved to a value (falsy values included), and then holds that value. An exception it raises is the one some field raised. |
| `Mapping.Caught` | src/pymapme/models/mapping.py:33-41 | The kinds the `except` clauses name are `AttributeError`, `TypeError` and `ValidationError`, and no others. |
| `Mapping.Wrap` | src/pymapme/models/mapping.py:33-41 | The release's uniform error, not the other release's, carrying the original exception as cause. |
| `Mapping.ContextOrEmpty` | src/pymapme/models/mapping.py:17 | `context or {}`: no context means the empty one; a given context is used as is. |
| `Mapping.Translate` | src/pymapme/models/mapping.py:33-41 | `AttributeError`, `TypeError` and `ValidationError` become the release's uniform error with the original as cause. Any other exception is unchanged. No caught kind survives translation. |
| `Mapping.MapFromModel` | src/pymapme/models/mapping.py:10-18 | The result is the constructor applied to the payload, or the engine's exception when resolution raises. |
| `Mapping.BuildFromModel` | src/pymapme/models/mapping.py:23-41 | Success passes through. A caught kind surfaces as the uniform error with that cause. Other exceptions pass unchanged. A caller never sees a bare caught kind. |
| `Mapping.NoneContextIsEmpty` | src/pymapme/models/mapping.py:17 | No context and an empty context give the same outcome. |
| `Mapping.SuccessIsConstructorOfPayload` | src/pymapme/models/mapping.py:17-18 | A successful build came from a completed payload, and its result is the constructor applied to that payload. |
| `Mapping.ResolutionFailureSkipsConstructor` | src/pymapme/models/mapping.py:17-18 | When resolution raises, the constructor is never consulted: any two constructors give the same outcome. |
| `Mapping.ResolutionErrorWrapped` | src/pymapme/models/mapping.py:28-38 | An `AttributeError` or `TypeError` raised during resolution surfaces wrapped as the uniform error. |
| `Mapping.ConstructorErrorWrapped` | src/pymapme/models/mapping.py:28-41 | A `ValidationError`, `AttributeError` or `TypeError` raised by the constructor surfaces wrapped as the uniform error. |
| `Mapping.OtherErrorsPropagate` | src/pymapme/models/mapping.py:28-41 | Any other exception, from resolution or construction, reaches the caller unchanged. |
| `Mapping.EmptySeparatorPropagates` | src/pymapme/utils.py:21-27 | An empty `source_sep` on the first field makes `str.split` raise `ValueError`, which `build_from_model` does not catch. |
| `Mapping.ReleasesDifferOnlyInWrapperName` | pymapme/models/mapping.py:24-44 | The two releases agree on every outcome except the name of the uniform error. They wrap the same cause. |
| `Scenarios.PathFieldWalks` | tests/unit/pymapme/models/test_mapping.py:54-65 | A field whose `source` is dot-joined segments resolves to the walk along those segments. |
| `Scenarios.ResolvesAgeField` | tests/unit/pymapme/models/test_mapping.py:63-71 | For a context without `model` or `default`, `age` is resolved by `_get_age`. It gets only the `age` context entry and returns it, or `None` without one. |
| `Scenarios.ResolvesFullNameField` | tests/unit/pymapme/models/test_mapping.py:64-78 | For a context without `model` or `default`, `full_name` is `_get_full_name` called with the truthy default `"NoFullName"` and no context. |
| `Scenarios.FixtureResolves` | tests/unit/pymapme/models/test_mapping.py:53-78 | Over any source and a context without `model` or `default`, each field of `DummyMappingModel` resolves as its declaration says: paths walk, `field_with_default_value` is looked up directly, and `age` reads the context. |
| `Scenarios.AgeClashes` | tests/unit/pymapme/models/test_mapping.py:63-71 | A context with `model` or `default` makes the `_get_age` call raise `TypeError`. |
| `Scenarios.ContextKeywordClash` | tests/unit/pymapme/models/test_mapping.py:53-78 | With such a context, over any source, the fields before `age` resolve and both releases raise their uniform error caused by that `TypeError`. |
| `Scenarios.FixtureResolversKeepSentinelPrivate` | tests/unit/pymapme/models/test_mapping.py:67-78 | `_get_age` and `_get_full_name` return the sentinel only when they were handed it. |
| `Scenarios.FullNameOfString` | tests/unit/pymapme/models/test_mapping.py:73-78 | `_get_full_name` raises `'str' object has no attribute 'first_name'` when `user_info` is a non-empty string. |
| `Scenarios.TestDataPayload` | tests/unit/pymapme/models/test_mapping.py:40-65 | Over `TEST_DATA` and a context without `model` or `default`, the payload holds the mapped names, nickname, job flag, companies, job start, age and skills. It holds `full_name` exactly when the resolver returns one. It lacks `documents`, `field_with_default_value` and `non_existing`. |
| `Scenarios.FromModel` | tests/unit/pymapme/models/test_mapping.py:86-141 | `test_from_model` and `test_from_model_with_context`, for any non-empty first and last names and any context like the tests' (no `model` or `default` entry, an `age` that is an `int` or `None`). Every field of the built model is as the test expects: `age` is the context's `age` or `None`, and `full_name` joins the names. |
| `Scenarios.FromModelDefault` | tests/unit/pymapme/models/test_mapping.py:109-127 | For such a context and a surname that is a string or `None`: without a first name, `name` is `None` (a falsy value is still mapped) and `full_name` is `"NoFullName"`. |
| `Scenarios.FailedToMap` | tests/unit/pymapme/models/test_mapping.py:143-147 | With `user_info` a string and a context without `model` or `default`, both releases raise their uniform error caused by `AttributeError("'str' object has no attribute 'first_name'")`. |
| `Scenarios.ModelValidationError` | tests/unit/pymapme/models/test_mapping.py:149-160 | For a context like the tests', a job start that pydantic cannot read as a string (an object, a boolean, a number, a list or a `date`) maps, but the constructor rejects it. Both releases raise their uniform error caused by that `ValidationError`. |
| `Scenarios.NonCallableSourceFunc` | tests/unit/pymapme/models/test_mapping.py:166-182 | A `source_func` of `123` contributes nothing, so `result` keeps its default `None`. |

## Left out

- Logging in `build_from_model` is left out. It has no effect on the outcome.
- The pydantic constructor is a parameter of `Mapping.MapFromModel`. `Scenarios.Construct` models only what the tests exercise:
  - required fields;
  - the declared type of each field, taken strictly;
  - the message for a `current_work_started_since` that is not a string;
  - declared defaults.
- `Scenarios.Construct` leaves out pydantic's lax coercions (`b"x"` to `str`, `"27"` to `int`, `1` to `bool`) and its combined message for several invalid fields. The scenario lemmas therefore ask for values of exactly the declared type.
- `Scenarios.ModelValidationError` states only the first two lines of pydantic's message plus the `Input should be a valid string` line. The `[type=string_type, ...]` suffix is left out.
- `inspect.signature` is replaced by each resolver's declared parameter names. `**kwargs` resolvers are left out.
- A context key that clashes with a resolver's parameters is modelled as a `TypeError` in two places: `default` at the call site (`Fields.CallResolver`), and `model` inside the fixture resolvers (`Scenarios.GetAgeCall`). A generic resolver's own binding of a clashing positional parameter is part of its `call`.
- `Fields.ResolverDefault` differs from Python for a field without a default. pydantic stores `PydanticUndefined` there, which is truthy, so Python hands that marker to the resolver. The model hands it the sentinel.
- `str()` of a non-string `source` or `source_sep` is left out. Paths and separators are strings in the model.
- Attributes of primitive values are left out. In the model, a string, list, number or `None` has no attributes, so a path segment such as `upper` on a string misses, where Python would find the bound method.
- Dunder attributes of the sentinel `object()` (a path segment such as `__class__` after a miss) are left out. The model's sentinel absorbs every segment.
- Properties and `__getattr__` hooks that raise during a walk are left out. Attribute reads in the model never run user code.
- Exception subclass matching is left out. Each exception kind is matched by constructor. `OtherError` stands for the exceptions of every other kind, so its `kind` never names `AttributeError`, `TypeError`, `ValueError` or one of the validation errors.
- Resolvers are taken to be pure. A Python resolver receives the live source object and the context's values. It could mutate them, or return different results on each call. `Resolver.call` is a function, so every field reads the original source, and equal arguments give equal outcomes.
- `Mapping.ReleasesDifferOnlyInWrapperName`: the older release imports `map_fields_from_model` from its own `pymapme.utils`, which is not part of this model. Both releases are taken to use the engine of src/pymapme/utils.py.
- `Scenarios.FromModel` and the other test lemmas generalise the tests' literal names, job start and context to parameters. The tests' own values are instances.
- `Scenarios.FailedToMap`: the legacy half applies the legacy release to the current test fixture. The legacy fixture differs in more than defaults: its `CurrentJob` declares `documents` and `salary`, and its destination declares `documents: list` and `current_work_started_since: str`. The outcome is the same for the same reason: path walks never raise, `_get_full_name` (field 10, after every path field but `skills`) reads `first_name` off the string, and nothing before it raises. That fixture is tests/conftest.py:74-116, and tests/test_mapping.py:62-67 is its test.
- `Scenarios.ModelValidationError`: the legacy half is stated for the current fixture, as for `Scenarios.FailedToMap`. The legacy destination's `current_work_started_since: str` also rejects a `date`, so the outcome is the same. The legacy test is tests/test_mapping.py:70-74.
- `Scenarios.TypeName` names every object `object`. Python would name its class (`UserInfo`), which only changes the text of an `AttributeError` on an object; the tests only meet such an error on a string.
- The `test_dump` serialisation tests are left out. JSON dumping belongs to pydantic.
