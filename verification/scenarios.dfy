/** The repository's unit-test fixtures, as concrete inputs to the model.

  The source is `DummyModel(**TEST_DATA)`; the destination is
  `DummyMappingModel`, twelve fields: nine resolved by dotted paths, two by
  resolvers (`_get_age`, `_get_full_name`) and one implicit. Its pydantic
  constructor is modelled only as far as these scenarios need: required fields
  must be present, every value must have its field's declared type (strictly,
  without pydantic's lax coercions), a job start of the wrong type has its own
  message, and absent fields take their declared defaults.
 */
module Scenarios {
  import opened Outcomes
  import opened Values
  import opened Fields
  import Engine
  import Mapping
  import Path

  // ---------------------------------------------------------------------------
  // Source fixtures
  // ---------------------------------------------------------------------------

  function UserInfo(first: Val, last: Val): Val
  {
    Obj(map["first_name" := first, "last_name" := last])
  }

  function CurrentJob(since: Val): Val
  {
    Obj(map["has_project" := BoolVal(false), "since" := since])
  }

  function WorkProfile(since: Val): Val
  {
    Obj(map[
      "title" := StrVal("Developer"),
      "worked_for" := ListVal([StrVal("Google"), StrVal("Amazon")]),
      "current_job" := CurrentJob(since),
      "skills" := ListVal([Obj(map["name" := StrVal("Python")]), Obj(map["name" := StrVal("Js")])])
    ])
  }

  /** `DummyModel(**TEST_DATA)`, with the parts the tests vary as parameters. */
  function Dummy(userInfo: Val, since: Val): Val
  {
    Obj(map["nickname" := StrVal("baobab"), "user_info" := userInfo, "work_profile" := WorkProfile(since)])
  }

  // ---------------------------------------------------------------------------
  // Destination fixture
  // ---------------------------------------------------------------------------

  /** Python's name for a value's type, as it appears in an `AttributeError`. */
  function TypeName(v: Val): string
  {
    match v
    case Obj(_) => "object"
    case NoneVal => "NoneType"
    case BoolVal(_) => "bool"
    case IntVal(_) => "int"
    case StrVal(_) => "str"
    case ListVal(_) => "list"
    case Opaque(t, _) => t
  }

  /** The message of the `AttributeError` for a missing instance attribute. */
  function NoAttribute(typeName: string, name: string): string
  {
    "'" + typeName + "' object has no attribute '" + name + "'"
  }

  /** `getattr(v, name)` without a default. */
  function Attr(v: Val, name: string): Outcome<Val>
  {
    if v.Obj? && name in v.attrs then Ok(v.attrs[name])
    else Raise(AttributeError(NoAttribute(TypeName(v), name)))
  }

  /** The `TypeError` of a keyword argument that names a parameter already
      bound by position. */
  function MultipleValues(func: string, param: string): Exc
  {
    TypeError(func + "() got multiple values for argument '" + param + "'")
  }

  /** `_get_age(model, default, age=None)`: returns the `age` keyword. A `model`
      keyword clashes with the source passed by position. */
  function GetAgeCall(model: Val, default: Res, kw: map<string, Val>): Outcome<Res>
  {
    if "model" in kw then Raise(MultipleValues("_get_age", "model"))
    else Ok(Present(if "age" in kw then kw["age"] else NoneVal))
  }

  /** `_get_full_name(model, default)`: first and last name joined by a space
      when both are truthy strings, the `default` argument otherwise. */
  function GetFullNameCall(model: Val, default: Res, kw: map<string, Val>): Outcome<Res>
  {
    if "model" in kw then Raise(MultipleValues("_get_full_name", "model")) else
    var userInfo :- Attr(model, "user_info");
    if !Truthy(userInfo) then Ok(default)
    else
      var first :- Attr(userInfo, "first_name");
      if !Truthy(first) then Ok(default)
      else
        var last :- Attr(userInfo, "last_name");
        if !Truthy(last) then Ok(default)
        else if first.StrVal? && last.StrVal? then Ok(Present(StrVal(first.s + " " + last.s)))
        else Raise(TypeError("can only concatenate str to str"))
  }

  /** A field with `json_schema_extra={"source": "<segments joined by dots>"}`. */
  function PathField(name: string, default: Option<Val>, segments: seq<string>): Field
  {
    Field(name, default, Some(Extra(Some(Path.Join(segments, ".")), SepMissing, NoFunc)))
  }

  function FuncField(name: string, default: Option<Val>, func: string): Field
  {
    Field(name, default, Some(Extra(None, SepMissing, FuncName(func))))
  }

  // The dotted `source` paths of `DummyMappingModel`, as segment lists.
  const NamePath: seq<string> := ["user_info", "first_name"]
  const SurnamePath: seq<string> := ["user_info", "last_name"]
  const NicknamePath: seq<string> := ["nickname"]
  const IsWorkingPath: seq<string> := ["work_profile", "current_job", "has_project"]
  const DocumentsPath: seq<string> := ["work_profile", "current_job", "documents"]
  const PreviousCompaniesPath: seq<string> := ["work_profile", "worked_for"]
  const SincePath: seq<string> := ["work_profile", "current_job", "since"]
  const NonExistingPath: seq<string> := ["no_such_field_or_model"]
  const SkillsPath: seq<string> := ["work_profile", "skills"]

  // The fields of `DummyMappingModel`, in declaration order.
  const NameField: Field := PathField("name", Some(NoneVal), NamePath)
  const SurnameField: Field := PathField("surname", None, SurnamePath)
  const NicknameField: Field := PathField("nickname", None, NicknamePath)
  const IsWorkingField: Field := PathField("is_working", None, IsWorkingPath)
  const DocumentsField: Field := PathField("documents", Some(NoneVal), DocumentsPath)
  const PreviousCompaniesField: Field := PathField("previous_companies", None, PreviousCompaniesPath)
  const FieldWithDefaultValueField: Field := Field("field_with_default_value", Some(StrVal("default_value")), None)
  const CurrentWorkStartedSinceField: Field := PathField("current_work_started_since", None, SincePath)
  const NonExistingField: Field := PathField("non_existing", Some(NoneVal), NonExistingPath)
  const AgeField: Field := FuncField("age", None, "_get_age")
  const FullNameField: Field := FuncField("full_name", Some(StrVal("NoFullName")), "_get_full_name")
  const SkillsField: Field := PathField("skills", Some(ListVal([])), SkillsPath)

  const DummyMappingModel: Schema := Schema(
    "DummyMappingModel",
    [
      NameField,
      SurnameField,
      NicknameField,
      IsWorkingField,
      DocumentsField,
      PreviousCompaniesField,
      FieldWithDefaultValueField,
      CurrentWorkStartedSinceField,
      NonExistingField,
      AgeField,
      FullNameField,
      SkillsField
    ],
    map[
      "_get_age" := Callable(Resolver({"model", "default", "age"}, GetAgeCall)),
      "_get_full_name" := Callable(Resolver({"model", "default"}, GetFullNameCall))
    ])

  /** Declared defaults of the fields that have one. */
  const Defaults: map<string, Val> := map[
    "name" := NoneVal,
    "documents" := NoneVal,
    "field_with_default_value" := StrVal("default_value"),
    "non_existing" := NoneVal,
    "full_name" := StrVal("NoFullName"),
    "skills" := ListVal([])
  ]

  const Required: set<string> := {"surname", "nickname", "is_working", "previous_companies", "current_work_started_since", "age"}

  const SinceNotString: string := "1 validation error for DummyMappingModel\ncurrent_work_started_since\n  Input should be a valid string"

  /** The declared types of the fields of `DummyMappingModel`. */
  datatype Kind = StrOrNone | BoolOrNone | IntOrNone | ListOrNone

  /** `v` is a value of type `k`, taken strictly. */
  predicate Fits(k: Kind, v: Val)
  {
    match k
    case StrOrNone => v.StrVal? || v.NoneVal?
    case BoolOrNone => v.BoolVal? || v.NoneVal?
    case IntOrNone => v.IntVal? || v.NoneVal?
    case ListOrNone => v.ListVal? || v.NoneVal?
  }

  /** The payload entry `name`, if any, is of type `k`. */
  predicate FieldFits(p: map<string, Val>, name: string, k: Kind)
  {
    name in p ==> Fits(k, p[name])
  }

  /** Every payload entry other than the job start has its field's type;
      entries that name no field are ignored, as pydantic does by default. */
  predicate OthersFit(p: map<string, Val>)
  {
    && FieldFits(p, "name", StrOrNone)
    && FieldFits(p, "surname", StrOrNone)
    && FieldFits(p, "nickname", StrOrNone)
    && FieldFits(p, "is_working", BoolOrNone)
    && FieldFits(p, "documents", ListOrNone)
    && FieldFits(p, "previous_companies", ListOrNone)
    && FieldFits(p, "field_with_default_value", StrOrNone)
    && FieldFits(p, "non_existing", StrOrNone)
    && FieldFits(p, "age", IntOrNone)
    && FieldFits(p, "full_name", StrOrNone)
    && FieldFits(p, "skills", ListOrNone)
  }

  /** Values pydantic's `str` rejects even with its lax coercions: objects,
      booleans, integers, lists and dates. */
  predicate NeverStr(v: Val)
  {
    v.Obj? || v.BoolVal? || v.IntVal? || v.ListVal? || (v.Opaque? && v.typeName == "date")
  }

  /** The part of `DummyMappingModel(**payload)` these scenarios exercise. */
  function Construct(payload: map<string, Val>): Outcome<Val>
  {
    if !(Required <= payload.Keys) then Raise(ValidationError("Field required"))
    else if !OthersFit(payload) then Raise(ValidationError("validation error for DummyMappingModel"))
    else if !Fits(StrOrNone, payload["current_work_started_since"]) then Raise(ValidationError(SinceNotString))
    else Ok(Obj(Defaults + payload))
  }

  /** A fixture path field resolves to the walk along its segments. */
  lemma PathFieldWalks(schema: Schema, name: string, default: Option<Val>, segments: seq<string>, source: Val, ctx: map<string, Val>)
    requires DottedSegments(segments)
    ensures ResolveField(schema, PathField(name, default, segments), source, ctx) == Ok(Path.Walk(Present(source), segments))
  {
    var path := Path.Join(segments, ".");
    JoinOfNonEmptyHead(segments);
    var f := PathField(name, default, segments);
    assert Fields.SelectLocator(f) == Fields.ByPath(path, ".");
    Path.SplitJoinRoundTrip(segments, ".");
    assert Path.Split(path, ".") == Ok(segments);
  }

  /** Segments that make a dotted `source` path: at least one, the first
      non-empty, none containing a dot. */
  predicate DottedSegments(segments: seq<string>)
  {
    |segments| >= 1 && |segments[0]| > 0 && forall i :: 0 <= i < |segments| ==> '.' !in segments[i]
  }

  /** The path segments of `DummyMappingModel` make dotted paths. */
  lemma FixturePathsDotted()
    ensures DottedSegments(NamePath) && DottedSegments(SurnamePath) && DottedSegments(NicknamePath)
    ensures DottedSegments(IsWorkingPath) && DottedSegments(DocumentsPath) && DottedSegments(PreviousCompaniesPath)
    ensures DottedSegments(SincePath) && DottedSegments(NonExistingPath) && DottedSegments(SkillsPath)
  {
  }

  /** A dotted path whose first segment is non-empty is non-empty. */
  lemma JoinOfNonEmptyHead(segments: seq<string>)
    requires |segments| >= 1 && |segments[0]| > 0
    ensures Path.Join(segments, ".") != ""
  {
    if |segments| > 1 {
      assert Path.Join(segments, ".") == segments[0] + "." + Path.Join(segments[1..], ".");
    }
  }


  /** `_get_age` reads the `age` context entry, `None` when there is none. */
  function ContextAge(ctx: map<string, Val>): Val
  {
    if "age" in ctx then ctx["age"] else NoneVal
  }

  /** No context entry clashes with a parameter both resolvers bind
      themselves: `model` by position, `default` by keyword. */
  predicate NoKeywordClash(ctx: map<string, Val>)
  {
    "model" !in ctx && "default" !in ctx
  }

  /** A context like the tests' (none, or `age=27`): no clashing entry, and an
      `age`, if any, that `age: int | None` accepts. */
  predicate TestContext(ctx: Option<map<string, Val>>)
  {
    NoKeywordClash(Mapping.ContextOrEmpty(ctx)) && Fits(IntOrNone, ContextAge(Mapping.ContextOrEmpty(ctx)))
  }

  // ---------------------------------------------------------------------------
  // DummyMappingModel over any source
  // ---------------------------------------------------------------------------

  /** The dotted path of each field of `DummyMappingModel`, empty for the
      fields that have none. */
  const FieldPaths: seq<seq<string>> := [
    NamePath, SurnamePath, NicknamePath, IsWorkingPath, DocumentsPath, PreviousCompaniesPath,
    [], SincePath, NonExistingPath, [], [], SkillsPath
  ]

  /** What field `i` of `DummyMappingModel` resolves to over `src`: the walk
      along its dotted path, the implicit lookup of `field_with_default_value`,
      the context's `age`, or `fullName` for the `_get_full_name` resolver. */
  function FixtureResult(src: Val, ctx: map<string, Val>, fullName: Res, i: nat): Res
    requires i < 12
  {
    if i == 6 then GetAttr(src, "field_with_default_value")
    else if i == 9 then Present(ContextAge(ctx))
    else if i == 10 then fullName
    else Path.Walk(Present(src), FieldPaths[i])
  }

  // Each path field of `DummyMappingModel` resolves to the walk along its path.

  lemma ResolvesNameField(src: Val, ctx: map<string, Val>, fullName: Res)
    ensures ResolveField(DummyMappingModel, DummyMappingModel.fields[0], src, ctx) == Ok(FixtureResult(src, ctx, fullName, 0))
  {
    assert DummyMappingModel.fields[0] == NameField;
    FixturePathsDotted();
    PathFieldWalks(DummyMappingModel, "name", Some(NoneVal), NamePath, src, ctx);
  }

  lemma ResolvesSurnameField(src: Val, ctx: map<string, Val>, fullName: Res)
    ensures ResolveField(DummyMappingModel, DummyMappingModel.fields[1], src, ctx) == Ok(FixtureResult(src, ctx, fullName, 1))
  {
    assert DummyMappingModel.fields[1] == SurnameField;
    FixturePathsDotted();
    PathFieldWalks(DummyMappingModel, "surname", None, SurnamePath, src, ctx);
  }

  lemma ResolvesNicknameField(src: Val, ctx: map<string, Val>, fullName: Res)
    ensures ResolveField(DummyMappingModel, DummyMappingModel.fields[2], src, ctx) == Ok(FixtureResult(src, ctx, fullName, 2))
  {
    assert DummyMappingModel.fields[2] == NicknameField;
    FixturePathsDotted();
    PathFieldWalks(DummyMappingModel, "nickname", None, NicknamePath, src, ctx);
  }

  lemma ResolvesIsWorkingField(src: Val, ctx: map<string, Val>, fullName: Res)
    ensures ResolveField(DummyMappingModel, DummyMappingModel.fields[3], src, ctx) == Ok(FixtureResult(src, ctx, fullName, 3))
  {
    assert DummyMappingModel.fields[3] == IsWorkingField;
    FixturePathsDotted();
    PathFieldWalks(DummyMappingModel, "is_working", None, IsWorkingPath, src, ctx);
  }

  lemma ResolvesDocumentsField(src: Val, ctx: map<string, Val>, fullName: Res)
    ensures ResolveField(DummyMappingModel, DummyMappingModel.fields[4], src, ctx) == Ok(FixtureResult(src, ctx, fullName, 4))
  {
    assert DummyMappingModel.fields[4] == DocumentsField;
    FixturePathsDotted();
    PathFieldWalks(DummyMappingModel, "documents", Some(NoneVal), DocumentsPath, src, ctx);
  }

  lemma ResolvesPreviousCompaniesField(src: Val, ctx: map<string, Val>, fullName: Res)
    ensures ResolveField(DummyMappingModel, DummyMappingModel.fields[5], src, ctx) == Ok(FixtureResult(src, ctx, fullName, 5))
  {
    assert DummyMappingModel.fields[5] == PreviousCompaniesField;
    FixturePathsDotted();
    PathFieldWalks(DummyMappingModel, "previous_companies", None, PreviousCompaniesPath, src, ctx);
  }

  lemma ResolvesCurrentWorkStartedSinceField(src: Val, ctx: map<string, Val>, fullName: Res)
    ensures ResolveField(DummyMappingModel, DummyMappingModel.fields[7], src, ctx) == Ok(FixtureResult(src, ctx, fullName, 7))
  {
    assert DummyMappingModel.fields[7] == CurrentWorkStartedSinceField;
    FixturePathsDotted();
    PathFieldWalks(DummyMappingModel, "current_work_started_since", None, SincePath, src, ctx);
  }

  lemma ResolvesNonExistingField(src: Val, ctx: map<string, Val>, fullName: Res)
    ensures ResolveField(DummyMappingModel, DummyMappingModel.fields[8], src, ctx) == Ok(FixtureResult(src, ctx, fullName, 8))
  {
    assert DummyMappingModel.fields[8] == NonExistingField;
    FixturePathsDotted();
    PathFieldWalks(DummyMappingModel, "non_existing", Some(NoneVal), NonExistingPath, src, ctx);
  }

  lemma ResolvesSkillsField(src: Val, ctx: map<string, Val>, fullName: Res)
    ensures ResolveField(DummyMappingModel, DummyMappingModel.fields[11], src, ctx) == Ok(FixtureResult(src, ctx, fullName, 11))
  {
    assert DummyMappingModel.fields[11] == SkillsField;
    FixturePathsDotted();
    PathFieldWalks(DummyMappingModel, "skills", Some(ListVal([])), SkillsPath, src, ctx);
  }

  /** `field_with_default_value` has no metadata: the implicit same-name lookup. */
  lemma ResolvesFieldWithDefaultValueField(src: Val, ctx: map<string, Val>, fullName: Res)
    ensures ResolveField(DummyMappingModel, DummyMappingModel.fields[6], src, ctx) == Ok(FixtureResult(src, ctx, fullName, 6))
  {
    assert DummyMappingModel.fields[6] == FieldWithDefaultValueField;
  }

  /** `age` is resolved by `_get_age`, which is handed only the `age` context entry. */
  lemma ResolvesAgeField(src: Val, ctx: map<string, Val>, fullName: Res)
    requires NoKeywordClash(ctx)
    ensures ResolveField(DummyMappingModel, DummyMappingModel.fields[9], src, ctx) == Ok(FixtureResult(src, ctx, fullName, 9))
  {
    assert DummyMappingModel.fields[9] == AgeField;
  }

  /** `full_name` is resolved by `_get_full_name` with the truthy default
      `"NoFullName"`; it declares no context parameter, so it is handed none. */
  lemma ResolvesFullNameField(src: Val, ctx: map<string, Val>)
    requires NoKeywordClash(ctx)
    ensures ResolveField(DummyMappingModel, DummyMappingModel.fields[10], src, ctx)
         == GetFullNameCall(src, Present(StrVal("NoFullName")), map[])
  {
    assert DummyMappingModel.fields[10] == FullNameField;
  }

  /** Field `i` of `DummyMappingModel`, among the first six, resolves as `FixtureResult` says. */
  lemma FixtureFieldBelow6(i: nat, src: Val, ctx: map<string, Val>, fullName: Res)
    requires i < 6
    ensures ResolveField(DummyMappingModel, DummyMappingModel.fields[i], src, ctx) == Ok(FixtureResult(src, ctx, fullName, i))
  {
    if i == 0 {
      ResolvesNameField(src, ctx, fullName);
    } else if i == 1 {
      ResolvesSurnameField(src, ctx, fullName);
    } else if i == 2 {
      ResolvesNicknameField(src, ctx, fullName);
    } else if i == 3 {
      ResolvesIsWorkingField(src, ctx, fullName);
    } else if i == 4 {
      ResolvesDocumentsField(src, ctx, fullName);
    } else {
      ResolvesPreviousCompaniesField(src, ctx, fullName);
    }
  }

  /** Field `i` of `DummyMappingModel`, among the last six and other than the
      resolver fields, resolves as `FixtureResult` says, whatever the context. */
  lemma FixtureFieldFrom6(i: nat, src: Val, ctx: map<string, Val>, fullName: Res)
    requires 6 <= i < 12 && i != 9 && i != 10
    ensures ResolveField(DummyMappingModel, DummyMappingModel.fields[i], src, ctx) == Ok(FixtureResult(src, ctx, fullName, i))
  {
    if i == 6 {
      ResolvesFieldWithDefaultValueField(src, ctx, fullName);
    } else if i == 7 {
      ResolvesCurrentWorkStartedSinceField(src, ctx, fullName);
    } else if i == 8 {
      ResolvesNonExistingField(src, ctx, fullName);
    } else {
      ResolvesSkillsField(src, ctx, fullName);
    }
  }

  /** Over any source and a context without clashing entries, every field but
      `full_name` resolves without raising as `FixtureResult` says; `full_name`
      is `_get_full_name` called with the truthy default `"NoFullName"` and no
      context. */
  lemma FixtureResolves(src: Val, ctx: map<string, Val>, fullName: Res)
    requires NoKeywordClash(ctx)
    ensures |DummyMappingModel.fields| == 12
    ensures forall i :: 0 <= i < 12 && i != 10 ==>
      ResolveField(DummyMappingModel, DummyMappingModel.fields[i], src, ctx) == Ok(FixtureResult(src, ctx, fullName, i))
    ensures ResolveField(DummyMappingModel, DummyMappingModel.fields[10], src, ctx)
         == GetFullNameCall(src, Present(StrVal("NoFullName")), map[])
  {
    forall i | 0 <= i < 12 && i != 10
      ensures ResolveField(DummyMappingModel, DummyMappingModel.fields[i], src, ctx) == Ok(FixtureResult(src, ctx, fullName, i))
    {
      if i < 6 {
        FixtureFieldBelow6(i, src, ctx, fullName);
      } else if i == 9 {
        ResolvesAgeField(src, ctx, fullName);
      } else {
        FixtureFieldFrom6(i, src, ctx, fullName);
      }
    }
    ResolvesFullNameField(src, ctx);
  }

  // ---------------------------------------------------------------------------
  // DummyMappingModel over TEST_DATA
  // ---------------------------------------------------------------------------

  const Companies: Val := ListVal([StrVal("Google"), StrVal("Amazon")])
  const Skills: Val := ListVal([Obj(map["name" := StrVal("Python")]), Obj(map["name" := StrVal("Js")])])

  /** The walks of the path fields over `DummyModel(**TEST_DATA)` with the
      user info and the job start varied: `documents` is not a field of
      `CurrentJob` and `no_such_field_or_model` is not one of `DummyModel`. */
  lemma WalksOverTestData(userInfo: Val, since: Val)
    ensures var src := Present(Dummy(userInfo, since));
      && Path.Walk(src, NicknamePath) == Present(StrVal("baobab"))
      && Path.Walk(src, IsWorkingPath) == Present(BoolVal(false))
      && Path.Walk(src, DocumentsPath) == Absent
      && Path.Walk(src, PreviousCompaniesPath) == Present(Companies)
      && Path.Walk(src, SincePath) == Present(since)
      && Path.Walk(src, NonExistingPath) == Absent
      && Path.Walk(src, SkillsPath) == Present(Skills)
  {
  }

  lemma WalksOverUserInfo(first: Val, last: Val, since: Val)
    ensures var src := Present(Dummy(UserInfo(first, last), since));
      && Path.Walk(src, NamePath) == Present(first)
      && Path.Walk(src, SurnamePath) == Present(last)
  {
  }

  /** The payload `map_fields_from_model` hands the constructor over
      `TEST_DATA` with the names and the job start varied. */
  predicate IsTestDataPayload(p: map<string, Val>, first: Val, last: Val, since: Val, age: Val, fullName: Res)
  {
    && "name" in p && p["name"] == first
    && "surname" in p && p["surname"] == last
    && "nickname" in p && p["nickname"] == StrVal("baobab")
    && "is_working" in p && p["is_working"] == BoolVal(false)
    && "documents" !in p
    && "previous_companies" in p && p["previous_companies"] == Companies
    && "field_with_default_value" !in p
    && "current_work_started_since" in p && p["current_work_started_since"] == since
    && "non_existing" !in p
    && "age" in p && p["age"] == age
    && ("full_name" in p <==> fullName.Present?)
    && (fullName.Present? ==> p["full_name"] == fullName.v)
    && "skills" in p && p["skills"] == Skills
  }

  /** `model_fields` of `DummyMappingModel` names each field once. */
  lemma FixtureNamesUnique()
    ensures Engine.UniqueNames(DummyMappingModel.fields)
  {
    FixtureNames();
    var fs := DummyMappingModel.fields;
    assert |fs| == 12;
    forall i, j | 0 <= i < j < |fs|
      ensures fs[i].name != fs[j].name
    {
    }
  }

  /** Over any source whose `_get_full_name` returns, no field raises. */
  lemma FixtureResolvesAll(src: Val, ctx: map<string, Val>, fullName: Res)
    requires NoKeywordClash(ctx)
    requires GetFullNameCall(src, Present(StrVal("NoFullName")), map[]) == Ok(fullName)
    ensures forall i :: 0 <= i < 12 ==>
      ResolveField(DummyMappingModel, DummyMappingModel.fields[i], src, ctx) == Ok(FixtureResult(src, ctx, fullName, i))
  {
    FixtureResolves(src, ctx, fullName);
  }

  /** Over any source whose `_get_full_name` returns, every field resolves and
      the payload holds exactly the fields that resolved to a value. */
  lemma FixturePayloadEntries(src: Val, ctx: map<string, Val>, fullName: Res)
    requires NoKeywordClash(ctx)
    requires GetFullNameCall(src, Present(StrVal("NoFullName")), map[]) == Ok(fullName)
    ensures var r := Engine.MapFieldsFromModel(DummyMappingModel, src, ctx);
      && r.Ok?
      && (forall i :: 0 <= i < 12 ==> (DummyMappingModel.fields[i].name in r.value <==> FixtureResult(src, ctx, fullName, i).Present?))
      && (forall i :: 0 <= i < 12 && FixtureResult(src, ctx, fullName, i).Present? ==>
            r.value[DummyMappingModel.fields[i].name] == FixtureResult(src, ctx, fullName, i).v)
  {
    FixtureResolvesAll(src, ctx, fullName);
    FixtureNamesUnique();
    Engine.PayloadIsResolvedFields(DummyMappingModel, src, ctx);
  }

  /** The names of the fields of `DummyMappingModel`, in declaration order. */
  lemma FixtureNames()
    ensures var fs := DummyMappingModel.fields;
      && fs[0].name == "name" && fs[1].name == "surname" && fs[2].name == "nickname"
      && fs[3].name == "is_working" && fs[4].name == "documents" && fs[5].name == "previous_companies"
      && fs[6].name == "field_with_default_value" && fs[7].name == "current_work_started_since"
      && fs[8].name == "non_existing" && fs[9].name == "age" && fs[10].name == "full_name"
      && fs[11].name == "skills"
  {
  }

  /** What the fields of `DummyMappingModel` that read `user_info` or no
      path resolve to over `TEST_DATA`. */
  lemma TestDataResultsOfUser(first: Val, last: Val, since: Val, ctx: map<string, Val>, fullName: Res)
    ensures var src := Dummy(UserInfo(first, last), since);
      && FixtureResult(src, ctx, fullName, 0) == Present(first)
      && FixtureResult(src, ctx, fullName, 1) == Present(last)
      && FixtureResult(src, ctx, fullName, 6) == Absent
      && FixtureResult(src, ctx, fullName, 9) == Present(ContextAge(ctx))
      && FixtureResult(src, ctx, fullName, 10) == fullName
  {
    WalksOverUserInfo(first, last, since);
  }

  /** What the fields of `DummyMappingModel` that read the nickname, the work
      profile or a missing attribute resolve to over `TEST_DATA`. */
  lemma TestDataResultsOfWork(userInfo: Val, since: Val, ctx: map<string, Val>, fullName: Res)
    ensures var src := Dummy(userInfo, since);
      && FixtureResult(src, ctx, fullName, 2) == Present(StrVal("baobab"))
      && FixtureResult(src, ctx, fullName, 3) == Present(BoolVal(false))
      && FixtureResult(src, ctx, fullName, 4) == Absent
      && FixtureResult(src, ctx, fullName, 5) == Present(Companies)
      && FixtureResult(src, ctx, fullName, 7) == Present(since)
      && FixtureResult(src, ctx, fullName, 8) == Absent
      && FixtureResult(src, ctx, fullName, 11) == Present(Skills)
  {
    WalksOverTestData(userInfo, since);
  }

  /** `DummyMappingModel` over `TEST_DATA`, with the names and the job start varied. */
  lemma TestDataPayload(first: Val, last: Val, since: Val, ctx: map<string, Val>, fullName: Res)
    requires NoKeywordClash(ctx)
    requires GetFullNameCall(Dummy(UserInfo(first, last), since), Present(StrVal("NoFullName")), map[]) == Ok(fullName)
    ensures var r := Engine.MapFieldsFromModel(DummyMappingModel, Dummy(UserInfo(first, last), since), ctx);
      r.Ok? && IsTestDataPayload(r.value, first, last, since, ContextAge(ctx), fullName)
  {
    var src := Dummy(UserInfo(first, last), since);
    FixturePayloadEntries(src, ctx, fullName);
    TestDataResultsOfUser(first, last, since, ctx, fullName);
    TestDataResultsOfWork(UserInfo(first, last), since, ctx, fullName);
    FixtureNames();
  }

  // ---------------------------------------------------------------------------
  // The tests of the mapping model
  // ---------------------------------------------------------------------------

  /** The instance `r` holds `v` in its field `name`. */
  predicate FieldIs(r: Outcome<Val>, name: string, v: Val)
  {
    r.Ok? && r.value.Obj? && name in r.value.attrs && r.value.attrs[name] == v
  }

  /** `r` is the `DummyMappingModel` the tests expect over `TEST_DATA`, with
      the given `name`, `surname`, `age` and `full_name`. */
  predicate IsExpected(r: Outcome<Val>, first: Val, last: Val, age: Val, fullName: string)
  {
    && FieldIs(r, "name", first)
    && FieldIs(r, "surname", last)
    && FieldIs(r, "nickname", StrVal("baobab"))
    && FieldIs(r, "is_working", BoolVal(false))
    && FieldIs(r, "documents", NoneVal)
    && FieldIs(r, "previous_companies", Companies)
    && FieldIs(r, "field_with_default_value", StrVal("default_value"))
    && FieldIs(r, "current_work_started_since", StrVal("10-10-2022"))
    && FieldIs(r, "non_existing", NoneVal)
    && FieldIs(r, "age", age)
    && FieldIs(r, "full_name", StrVal(fullName))
    && FieldIs(r, "skills", Skills)
  }

  /** `_get_full_name` joins a truthy first and last name. */
  lemma FullNameJoins(first: string, last: string, since: Val, default: Res, kw: map<string, Val>)
    requires first != "" && last != ""
    requires "model" !in kw
    ensures GetFullNameCall(Dummy(UserInfo(StrVal(first), StrVal(last)), since), default, kw) == Ok(Present(StrVal(first + " " + last)))
  {
  }

  /** `_get_full_name` falls back to its default without a first name. */
  lemma FullNameWithoutFirst(last: Val, since: Val, default: Res, kw: map<string, Val>)
    requires "model" !in kw
    ensures GetFullNameCall(Dummy(UserInfo(NoneVal, last), since), default, kw) == Ok(default)
  {
  }

  /** `_get_full_name` raises when `user_info` is a non-empty string. */
  lemma FullNameOfString(s: string, since: Val, default: Res, kw: map<string, Val>)
    requires s != ""
    requires "model" !in kw
    ensures GetFullNameCall(Dummy(StrVal(s), since), default, kw) == Raise(AttributeError(NoAttribute("str", "first_name")))
  {
  }

  /** The constructor fills `documents`, `field_with_default_value` and
      `non_existing` from their defaults and keeps every mapped value. */
  lemma ConstructTestData(p: map<string, Val>, first: Val, last: Val, age: Val, fullName: string)
    requires IsTestDataPayload(p, first, last, StrVal("10-10-2022"), age, Present(StrVal(fullName)))
    requires Fits(StrOrNone, first) && Fits(StrOrNone, last) && Fits(IntOrNone, age)
    ensures IsExpected(Construct(p), first, last, age, fullName)
  {
    assert Required <= p.Keys;
  }

  /** A job start that is neither a string nor `None`, next to well-typed
      other fields, fails validation with its own message. */
  lemma ConstructRejectsSince(p: map<string, Val>, first: Val, last: Val, since: Val, age: Val, fullName: Res)
    requires IsTestDataPayload(p, first, last, since, age, fullName)
    requires Fits(StrOrNone, first) && Fits(StrOrNone, last) && Fits(IntOrNone, age)
    requires fullName.Present? ==> Fits(StrOrNone, fullName.v)
    requires !since.StrVal? && !since.NoneVal?
    ensures Construct(p) == Raise(ValidationError(SinceNotString))
  {
    assert Required <= p.Keys;
  }

  /** `test_from_model` and `test_from_model_with_context`, for any first and
      last name (the tests use "John" and "Smith") and any context like the
      tests' (none, and `age=27`): the paths map, `documents` and `non_existing`
      miss and keep their defaults, `age` is the context's `age` or `None`, and
      `full_name` joins first and last name. */
  lemma FromModel(first: string, last: string, ctx: Option<map<string, Val>>)
    requires first != "" && last != ""
    requires TestContext(ctx)
    ensures var src := Dummy(UserInfo(StrVal(first), StrVal(last)), StrVal("10-10-2022"));
      IsExpected(Mapping.BuildFromModel(Mapping.Current, DummyMappingModel, Construct, src, ctx),
                 StrVal(first), StrVal(last), ContextAge(Mapping.ContextOrEmpty(ctx)), first + " " + last)
  {
    var since := StrVal("10-10-2022");
    var src := Dummy(UserInfo(StrVal(first), StrVal(last)), since);
    var c := Mapping.ContextOrEmpty(ctx);
    FullNameJoins(first, last, since, Present(StrVal("NoFullName")), map[]);
    TestDataPayload(StrVal(first), StrVal(last), since, c, Present(StrVal(first + " " + last)));
    var p := Engine.MapFieldsFromModel(DummyMappingModel, src, c).value;
    ConstructTestData(p, StrVal(first), StrVal(last), ContextAge(c), first + " " + last);
  }

  /** `test_from_model_default`: without a first name, `name` maps to `None`
      (a falsy value is still included) and `_get_full_name` returns its
      default `"NoFullName"`, whatever the surname (a string or `None`). */
  lemma FromModelDefault(last: Val, ctx: Option<map<string, Val>>)
    requires Fits(StrOrNone, last)
    requires TestContext(ctx)
    ensures var src := Dummy(UserInfo(NoneVal, last), StrVal("10-10-2022"));
      IsExpected(Mapping.BuildFromModel(Mapping.Current, DummyMappingModel, Construct, src, ctx),
                 NoneVal, last, ContextAge(Mapping.ContextOrEmpty(ctx)), "NoFullName")
  {
    var since := StrVal("10-10-2022");
    var src := Dummy(UserInfo(NoneVal, last), since);
    var c := Mapping.ContextOrEmpty(ctx);
    var fullName := Present(StrVal("NoFullName"));
    FullNameWithoutFirst(last, since, fullName, map[]);
    TestDataPayload(NoneVal, last, since, c, fullName);
    var p := Engine.MapFieldsFromModel(DummyMappingModel, src, c).value;
    ConstructTestData(p, NoneVal, last, ContextAge(c), "NoFullName");
  }

  /** `test_from_model_failed_to_map_validation_error`, in both releases: with
      `user_info` a string ("John Smith" in the test), the dotted paths through
      it quietly miss, but `_get_full_name` reads `first_name` off the string
      and raises `AttributeError`, which surfaces wrapped. */
  lemma FailedToMap(userInfo: string, ctx: Option<map<string, Val>>)
    requires userInfo != ""
    requires NoKeywordClash(Mapping.ContextOrEmpty(ctx))
    ensures var src := Dummy(StrVal(userInfo), StrVal("10-10-2022"));
      && Mapping.BuildFromModel(Mapping.Current, DummyMappingModel, Construct, src, ctx)
         == Raise(PyMapMeValidationError(AttributeError(NoAttribute("str", "first_name"))))
      && Mapping.BuildFromModel(Mapping.Legacy, DummyMappingModel, Construct, src, ctx)
         == Raise(PyMapMelValidationError(AttributeError(NoAttribute("str", "first_name"))))
  {
    FailedToMapPayload(userInfo, Mapping.ContextOrEmpty(ctx));
  }

  /** With `user_info` a string, resolution stops at `full_name`. */
  lemma FailedToMapPayload(userInfo: string, ctx: map<string, Val>)
    requires userInfo != ""
    requires NoKeywordClash(ctx)
    ensures Engine.MapFieldsFromModel(DummyMappingModel, Dummy(StrVal(userInfo), StrVal("10-10-2022")), ctx)
         == Raise(AttributeError(NoAttribute("str", "first_name")))
  {
    var src := Dummy(StrVal(userInfo), StrVal("10-10-2022"));
    FixtureResolves(src, ctx, Absent);
    FullNameOfString(userInfo, StrVal("10-10-2022"), Present(StrVal("NoFullName")), map[]);
    Engine.CollectRaisesFirstError(DummyMappingModel, src, ctx, DummyMappingModel.fields, map[], 10);
  }

  /** `test_from_model_model_validation_error`, in both releases: a job start
      that pydantic cannot read as a string (a `date` in the test) maps, but
      the constructor rejects it and its `ValidationError` surfaces wrapped. */
  lemma ModelValidationError(first: string, last: string, since: Val, ctx: Option<map<string, Val>>)
    requires first != "" && last != ""
    requires NeverStr(since)
    requires TestContext(ctx)
    ensures var src := Dummy(UserInfo(StrVal(first), StrVal(last)), since);
      && Mapping.BuildFromModel(Mapping.Current, DummyMappingModel, Construct, src, ctx)
         == Raise(PyMapMeValidationError(ValidationError(SinceNotString)))
      && Mapping.BuildFromModel(Mapping.Legacy, DummyMappingModel, Construct, src, ctx)
         == Raise(PyMapMelValidationError(ValidationError(SinceNotString)))
  {
    RejectedSince(first, last, since, ctx);
    var src := Dummy(UserInfo(StrVal(first), StrVal(last)), since);
    Mapping.ReleasesDifferOnlyInWrapperName(DummyMappingModel, Construct, src, ctx);
  }

  /** A job start that is not a string maps, and the constructor rejects it. */
  lemma RejectedSince(first: string, last: string, since: Val, ctx: Option<map<string, Val>>)
    requires first != "" && last != ""
    requires NeverStr(since)
    requires TestContext(ctx)
    ensures Mapping.MapFromModel(DummyMappingModel, Construct, Dummy(UserInfo(StrVal(first), StrVal(last)), since), ctx)
         == Raise(ValidationError(SinceNotString))
  {
    var src := Dummy(UserInfo(StrVal(first), StrVal(last)), since);
    var c := Mapping.ContextOrEmpty(ctx);
    var fullName := Present(StrVal(first + " " + last));
    FullNameJoins(first, last, since, Present(StrVal("NoFullName")), map[]);
    TestDataPayload(StrVal(first), StrVal(last), since, c, fullName);
    var p := Engine.MapFieldsFromModel(DummyMappingModel, src, c).value;
    ConstructRejectsSince(p, StrVal(first), StrVal(last), since, ContextAge(c), fullName);
  }

  /** With a `model` or `default` context entry, `_get_age` is the first
      field to raise: the call clashes with a parameter it already binds. */
  lemma AgeClashes(src: Val, ctx: map<string, Val>)
    requires !NoKeywordClash(ctx)
    ensures ResolveField(DummyMappingModel, DummyMappingModel.fields[9], src, ctx).Raise?
    ensures ResolveField(DummyMappingModel, DummyMappingModel.fields[9], src, ctx).exc.TypeError?
  {
    assert DummyMappingModel.fields[9] == AgeField;
  }

  /** A context with a `model` or `default` entry, over any source and in both
      releases: the nine fields before `age` resolve, `_get_age` is called
      with a clashing keyword, and its `TypeError` surfaces wrapped. */
  lemma ContextKeywordClash(src: Val, ctx: map<string, Val>)
    requires !NoKeywordClash(ctx)
    ensures var r := Mapping.BuildFromModel(Mapping.Current, DummyMappingModel, Construct, src, Some(ctx));
      r.Raise? && r.exc.PyMapMeValidationError? && r.exc.cause.TypeError?
    ensures var r := Mapping.BuildFromModel(Mapping.Legacy, DummyMappingModel, Construct, src, Some(ctx));
      r.Raise? && r.exc.PyMapMelValidationError? && r.exc.cause.TypeError?
  {
    AgeClashes(src, ctx);
    forall j | 0 <= j < 9
      ensures ResolveField(DummyMappingModel, DummyMappingModel.fields[j], src, ctx).Ok?
    {
      if j < 6 {
        FixtureFieldBelow6(j, src, ctx, Absent);
      } else {
        FixtureFieldFrom6(j, src, ctx, Absent);
      }
    }
    Engine.CollectRaisesFirstError(DummyMappingModel, src, ctx, DummyMappingModel.fields, map[], 9);
  }

  /** `_get_age` and `_get_full_name` return the sentinel only when handed it. */
  lemma FixtureResolversKeepSentinelPrivate()
    ensures KeepsSentinelPrivate(Resolver({"model", "default", "age"}, GetAgeCall))
    ensures KeepsSentinelPrivate(Resolver({"model", "default"}, GetFullNameCall))
  {
  }

  /** `MappingWithNonCallableFunc`: one field whose `source_func` is `123`. */
  const NonCallableModel: Schema :=
    Schema("MappingWithNonCallableFunc", [Field("result", Some(NoneVal), Some(Extra(None, SepMissing, NotCallable)))], map[])

  /** Its constructor: `result` defaults to `None`. */
  function ConstructResult(payload: map<string, Val>): Outcome<Val>
  {
    Ok(Obj(map["result" := NoneVal] + payload))
  }

  /** `test_non_callable_source_func`, over any source: a source function that
      is neither a string nor callable contributes nothing, so `result` keeps
      its default. */
  lemma NonCallableSourceFunc(src: Val, ctx: Option<map<string, Val>>)
    ensures FieldIs(Mapping.BuildFromModel(Mapping.Current, NonCallableModel, ConstructResult, src, ctx), "result", NoneVal)
  {
    var c := Mapping.ContextOrEmpty(ctx);
    assert ResolveField(NonCallableModel, NonCallableModel.fields[0], src, c) == Ok(Absent);
    assert Engine.MapFieldsFromModel(NonCallableModel, src, c) == Ok(map[]) by {
      Engine.CollectStep(NonCallableModel, src, c, NonCallableModel.fields, map[]);
    }
  }
}
