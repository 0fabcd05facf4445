/** `map_fields_from_model`: resolve every destination field, in declaration
  order, and collect the ones that did not resolve to the sentinel into the
  construction payload. An exception from any field aborts the remaining ones.
 */
module Engine {
  import opened Outcomes
  import opened Values
  import opened Fields

  /** The names of the given fields. */
  function NamesOf(fs: seq<Field>): set<string>
  {
    set i | 0 <= i < |fs| :: fs[i].name
  }

  /** `model_fields` is a dict: no name appears twice. */
  predicate UniqueNames(fs: seq<Field>)
  {
    forall i, j :: 0 <= i < j < |fs| ==> fs[i].name != fs[j].name
  }

  /** The loop of `map_fields_from_model` from the fields `fs` on, with the
      payload `acc` built so far. The payload only grows, and only by names of
      the fields still to go. */
  function Collect(schema: Schema, source: Val, ctx: map<string, Val>, fs: seq<Field>, acc: map<string, Val>): (r: Outcome<map<string, Val>>)
    decreases |fs|
    ensures r.Ok? ==> acc.Keys <= r.value.Keys <= acc.Keys + NamesOf(fs)
  {
    if fs == [] then Ok(acc)
    else
      var res :- ResolveField(schema, fs[0], source, ctx);
      var acc' := Offer(acc, fs[0].name, res);
      var r := Collect(schema, source, ctx, fs[1..], acc');
      assert NamesOf(fs) == {fs[0].name} + NamesOf(fs[1..]) by {
        forall n | n in NamesOf(fs) ensures n in {fs[0].name} + NamesOf(fs[1..]) {
          var i :| 0 <= i < |fs| && fs[i].name == n;
          if i > 0 {
            assert fs[1..][i - 1].name == n;
          }
        }
        forall n | n in NamesOf(fs[1..]) ensures n in NamesOf(fs) {
          var i :| 0 <= i < |fs[1..]| && fs[1..][i].name == n;
          assert fs[i + 1].name == n;
        }
      }
      r
  }

  /** `map_fields_from_model(cls, source, context)`: the payload's keys are
      destination field names. */
  function MapFieldsFromModel(schema: Schema, source: Val, ctx: map<string, Val>): (r: Outcome<map<string, Val>>)
    ensures r.Ok? ==> r.value.Keys <= NamesOf(schema.fields)
  {
    Collect(schema, source, ctx, schema.fields, map[])
  }

  // ---------------------------------------------------------------------------
  // What the payload holds
  // ---------------------------------------------------------------------------

  /** The loop completes exactly when no field raises. */
  lemma {:induction false} CollectOkIffNoFieldRaises(schema: Schema, source: Val, ctx: map<string, Val>, fs: seq<Field>, acc: map<string, Val>)
    ensures Collect(schema, source, ctx, fs, acc).Ok? <==>
      forall i :: 0 <= i < |fs| ==> ResolveField(schema, fs[i], source, ctx).Ok?
    decreases |fs|
  {
    if fs != [] {
      var res := ResolveField(schema, fs[0], source, ctx);
      if res.Ok? {
        var acc' := Offer(acc, fs[0].name, res.value);
        CollectOkIffNoFieldRaises(schema, source, ctx, fs[1..], acc');
        assert forall i :: 1 <= i < |fs| ==> fs[i] == fs[1..][i - 1];
      }
    }
  }

  /** The first field that raises decides the outcome; the fields after it are
      never resolved. */
  lemma {:induction false} CollectRaisesFirstError(schema: Schema, source: Val, ctx: map<string, Val>, fs: seq<Field>, acc: map<string, Val>, i: nat)
    requires i < |fs|
    requires forall j :: 0 <= j < i ==> ResolveField(schema, fs[j], source, ctx).Ok?
    requires ResolveField(schema, fs[i], source, ctx).Raise?
    ensures Collect(schema, source, ctx, fs, acc) == Raise(ResolveField(schema, fs[i], source, ctx).exc)
    decreases i
  {
    if i > 0 {
      CollectStep(schema, source, ctx, fs, acc);
      var acc' := Offer(acc, fs[0].name, ResolveField(schema, fs[0], source, ctx).value);
      var rest := fs[1..];
      forall j | 0 <= j < i - 1
        ensures ResolveField(schema, rest[j], source, ctx).Ok?
      {
        assert rest[j] == fs[j + 1];
      }
      assert rest[i - 1] == fs[i];
      CollectRaisesFirstError(schema, source, ctx, rest, acc', i - 1);
    }
  }

  /** The payload after offering one resolved field to it. */
  function Offer(acc: map<string, Val>, name: string, res: Res): (r: map<string, Val>)
    ensures r.Keys == (if res.Present? then acc.Keys + {name} else acc.Keys)
    ensures res.Present? ==> r[name] == res.v
    ensures forall n :: n in acc && n != name ==> n in r && r[n] == acc[n]
    ensures res.Absent? ==> r == acc
  {
    if res.Present? then acc[name := res.v] else acc
  }

  /** One turn of the loop, when the first field resolves without raising. */
  lemma CollectStep(schema: Schema, source: Val, ctx: map<string, Val>, fs: seq<Field>, acc: map<string, Val>)
    requires fs != [] && ResolveField(schema, fs[0], source, ctx).Ok?
    ensures Collect(schema, source, ctx, fs, acc)
         == Collect(schema, source, ctx, fs[1..], Offer(acc, fs[0].name, ResolveField(schema, fs[0], source, ctx).value))
  {
  }

  /** Offer each field, in order, its resolved result. */
  function OfferAll(acc: map<string, Val>, fs: seq<Field>, rs: seq<Res>): map<string, Val>
    requires |rs| == |fs|
    decreases |fs|
  {
    if fs == [] then acc else OfferAll(Offer(acc, fs[0].name, rs[0]), fs[1..], rs[1..])
  }

  /** When no field raises, the loop is a left fold of `Offer` over the resolved results. */
  lemma {:induction false} CollectIsFold(schema: Schema, source: Val, ctx: map<string, Val>, fs: seq<Field>, acc: map<string, Val>, rs: seq<Res>)
    requires |rs| == |fs|
    requires forall i :: 0 <= i < |fs| ==> ResolveField(schema, fs[i], source, ctx) == Ok(rs[i])
    ensures Collect(schema, source, ctx, fs, acc) == Ok(OfferAll(acc, fs, rs))
    decreases |fs|
  {
    if fs != [] {
      assert ResolveField(schema, fs[0], source, ctx) == Ok(rs[0]);
      CollectStep(schema, source, ctx, fs, acc);
      assert forall i :: 0 <= i < |fs| - 1 ==> fs[1..][i] == fs[i + 1] && rs[1..][i] == rs[i + 1];
      CollectIsFold(schema, source, ctx, fs[1..], Offer(acc, fs[0].name, rs[0]), rs[1..]);
    }
  }

  /** With unique names not yet in the payload, a completed loop keeps what was
      there and adds exactly the fields that resolved to a value, each with
      that value. */
  lemma {:induction false} CollectContents(schema: Schema, source: Val, ctx: map<string, Val>, fs: seq<Field>, acc: map<string, Val>)
    requires UniqueNames(fs)
    requires forall i :: 0 <= i < |fs| ==> fs[i].name !in acc
    requires Collect(schema, source, ctx, fs, acc).Ok?
    ensures var p := Collect(schema, source, ctx, fs, acc).value;
      forall k :: k in acc ==> k in p && p[k] == acc[k]
    ensures var p := Collect(schema, source, ctx, fs, acc).value;
      forall i :: 0 <= i < |fs| ==>
        ResolveField(schema, fs[i], source, ctx).Ok? &&
        (fs[i].name in p <==> ResolveField(schema, fs[i], source, ctx).value.Present?)
    ensures var p := Collect(schema, source, ctx, fs, acc).value;
      forall i :: 0 <= i < |fs| && fs[i].name in p ==> p[fs[i].name] == ResolveField(schema, fs[i], source, ctx).value.v
    decreases |fs|
  {
    CollectOkIffNoFieldRaises(schema, source, ctx, fs, acc);
    if fs != [] {
      var res := ResolveField(schema, fs[0], source, ctx).value;
      var acc' := Offer(acc, fs[0].name, res);
      var rest := fs[1..];
      var p := Collect(schema, source, ctx, fs, acc).value;
      CollectStep(schema, source, ctx, fs, acc);
      assert Collect(schema, source, ctx, rest, acc') == Ok(p);
      forall i, j | 0 <= i < j < |rest|
        ensures rest[i].name != rest[j].name
      {
        assert rest[i] == fs[i + 1] && rest[j] == fs[j + 1];
      }
      forall i | 0 <= i < |rest|
        ensures rest[i].name !in acc'
      {
        assert rest[i] == fs[i + 1];
      }
      CollectContents(schema, source, ctx, rest, acc');
      assert fs[0].name !in NamesOf(rest);
      assert p.Keys <= acc'.Keys + NamesOf(rest);
      assert fs[0].name in p <==> res.Present?;
      forall i | 1 <= i < |fs|
        ensures fs[i].name in p <==> ResolveField(schema, fs[i], source, ctx).value.Present?
        ensures fs[i].name in p ==> p[fs[i].name] == ResolveField(schema, fs[i], source, ctx).value.v
      {
        assert fs[i] == rest[i - 1];
      }
    }
  }

  /** The payload holds exactly the destination fields that resolved to a
      value (falsy values such as `None` and `False` included), each under its
      own name with its resolved value; `map_fields_from_model` returns at all
      exactly when no field raises, and otherwise raises what the first raising
      field raised. */
  lemma PayloadIsResolvedFields(schema: Schema, source: Val, ctx: map<string, Val>)
    requires UniqueNames(schema.fields)
    ensures var r := MapFieldsFromModel(schema, source, ctx);
      r.Ok? <==> forall i :: 0 <= i < |schema.fields| ==> ResolveField(schema, schema.fields[i], source, ctx).Ok?
    ensures var r := MapFieldsFromModel(schema, source, ctx);
      r.Ok? ==> forall i :: 0 <= i < |schema.fields| ==>
        (schema.fields[i].name in r.value <==> ResolveField(schema, schema.fields[i], source, ctx).value.Present?)
    ensures var r := MapFieldsFromModel(schema, source, ctx);
      r.Ok? ==> forall i :: 0 <= i < |schema.fields| && schema.fields[i].name in r.value ==>
        r.value[schema.fields[i].name] == ResolveField(schema, schema.fields[i], source, ctx).value.v
    ensures var r := MapFieldsFromModel(schema, source, ctx);
      r.Raise? ==> exists i :: 0 <= i < |schema.fields| && ResolveField(schema, schema.fields[i], source, ctx) == Raise(r.exc)
  {
    var fs := schema.fields;
    CollectOkIffNoFieldRaises(schema, source, ctx, fs, map[]);
    if MapFieldsFromModel(schema, source, ctx).Ok? {
      CollectContents(schema, source, ctx, fs, map[]);
    } else {
      var i := FirstRaising(schema, source, ctx, fs);
      CollectRaisesFirstError(schema, source, ctx, fs, map[], i);
    }
  }

  /** The index of the first field that raises, when one does. */
  lemma FirstRaising(schema: Schema, source: Val, ctx: map<string, Val>, fs: seq<Field>) returns (i: nat)
    requires exists j :: 0 <= j < |fs| && ResolveField(schema, fs[j], source, ctx).Raise?
    ensures i < |fs| && ResolveField(schema, fs[i], source, ctx).Raise?
    ensures forall j :: 0 <= j < i ==> ResolveField(schema, fs[j], source, ctx).Ok?
  {
    var raises := seq(|fs|, k requires 0 <= k < |fs| => ResolveField(schema, fs[k], source, ctx).Raise?);
    var j :| 0 <= j < |fs| && ResolveField(schema, fs[j], source, ctx).Raise?;
    assert raises[j];
    i := FirstTrue(raises);
    forall m | 0 <= m < i
      ensures ResolveField(schema, fs[m], source, ctx).Ok?
    {
      assert !raises[m];
    }
  }

  /** The index of the first `true`, when there is one. */
  lemma FirstTrue(bs: seq<bool>) returns (i: nat)
    requires exists j :: 0 <= j < |bs| && bs[j]
    ensures i < |bs| && bs[i]
    ensures forall j :: 0 <= j < i ==> !bs[j]
    decreases |bs|
  {
    if bs[0] {
      i := 0;
    } else {
      var j :| 0 <= j < |bs| && bs[j];
      assert bs[1..][j - 1];
      var k := FirstTrue(bs[1..]);
      i := k + 1;
      forall m | 1 <= m < i
        ensures !bs[m]
      {
        assert bs[m] == bs[1..][m - 1];
      }
    }
  }
}
