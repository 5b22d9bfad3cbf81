/** The two generators' walks over the documentation page: gen.py's
    `generate_api_wrapper`, which builds the models and the client methods in
    one pass, and codegen's `generate_pydantic_models` and
    `parse_api_methods`. Each loop is proved to build exactly the records
    its specification function describes. */
module Generators {
  import opened Strings
  import opened Naming
  import opened Paths
  import opened Docs
  import opened Wrappers
  import opened Endpoints

  /** The model gen.py writes for a surviving heading. */
  function ModelGen(h: Heading): ModelDef
  {
    ModelDef(h.raw, Pascal(h.raw), if h.container.Some? then FieldsGen(h.container.value) else [])
  }

  /** The model codegen writes for a surviving heading. */
  function ModelCodegen(h: Heading): ModelDef
  {
    ModelDef(h.raw, Pascal(h.raw), if h.container.Some? then FieldsCodegen(h.container.value) else [])
  }

  /** The client gen.py writes: its models, then the methods of its
      `NinjaKiwiAPI` class after the fixed constructor, request and close
      block. */
  datatype Wrapper = Wrapper(models: seq<ModelDef>, methods: seq<ClientMethod>)

  /** One step of the heading loop over a heading already seen or without
      a field container: it adds no model. */
  lemma HeadingSkip(hs: seq<Heading>, i: int, seen: set<string>, f: Heading -> ModelDef)
    requires 0 <= i < |hs|
    requires hs[i].raw in seen || hs[i].container.None?
    ensures Map(SurvivorsFrom(hs[i..], seen), f) == Map(SurvivorsFrom(hs[i + 1..], seen + {hs[i].raw}), f)
  {
    assert hs[i..][1..] == hs[i + 1..];
    SurvivorsFromUnfold(hs[i..], seen);
    var rest := SurvivorsFrom(hs[i + 1..], seen + {hs[i].raw});
    assert [] + rest == rest;
    assert SurvivorsFrom(hs[i..], seen) == rest;
  }

  /** One step of the heading loop over a new heading with a field
      container: it adds that heading's model. */
  lemma HeadingEmit(hs: seq<Heading>, i: int, seen: set<string>, f: Heading -> ModelDef)
    requires 0 <= i < |hs|
    requires hs[i].raw !in seen && hs[i].container.Some?
    ensures Map(SurvivorsFrom(hs[i..], seen), f) == [f(hs[i])] + Map(SurvivorsFrom(hs[i + 1..], seen + {hs[i].raw}), f)
  {
    assert hs[i..][1..] == hs[i + 1..];
    SurvivorsFromUnfold(hs[i..], seen);
    MapAppend([hs[i]], SurvivorsFrom(hs[i + 1..], seen + {hs[i].raw}), f);
  }

  lemma EntryStep(es: seq<MenuEntry>, i: int)
    requires 0 <= i < |es|
    ensures Map(es[i..], MethodGen) == [MethodGen(es[i])] + Map(es[i + 1..], MethodGen)
    ensures Map(es[i..], EndpointCodegen) == [EndpointCodegen(es[i])] + Map(es[i + 1..], EndpointCodegen)
  {
    assert es[i..] == [es[i]] + es[i + 1..];
    MapAppend([es[i]], es[i + 1..], MethodGen);
    MapAppend([es[i]], es[i + 1..], EndpointCodegen);
  }

  /** gen.py's `generate_api_wrapper` on the page's headings and menu
      entries: one model per surviving heading, one method per menu entry,
      both in document order. */
  method GenerateApiWrapper(headings: seq<Heading>, entries: seq<MenuEntry>) returns (w: Wrapper)
    ensures w.models == Map(Survivors(headings), ModelGen)
    ensures w.methods == Map(entries, MethodGen)
  {
    var models: seq<ModelDef> := [];
    var processed: set<string> := {};
    var i := 0;
    while i < |headings|
      invariant 0 <= i <= |headings|
      invariant models + Map(SurvivorsFrom(headings[i..], processed), ModelGen) == Map(Survivors(headings), ModelGen)
    {
      var h := headings[i];
      if h.raw in processed {
        HeadingSkip(headings, i, processed, ModelGen);
        assert processed + {h.raw} == processed;
        i := i + 1;
        continue;
      }
      if h.container.None? {
        HeadingSkip(headings, i, processed, ModelGen);
      } else {
        HeadingEmit(headings, i, processed, ModelGen);
      }
      processed := processed + {h.raw};
      var className := Pascal(h.raw);
      if h.container.None? {
        i := i + 1;
        continue;
      }
      var fields := CollectFieldsGen(h.container.value);
      var model := ModelDef(h.raw, className, fields);
      assert model == ModelGen(h);
      Regroup(models, [model], Map(SurvivorsFrom(headings[i + 1..], processed), ModelGen), Map(Survivors(headings), ModelGen));
      models := models + [model];
      i := i + 1;
    }
    assert headings[i..] == [];

    var methods: seq<ClientMethod> := [];
    var j := 0;
    while j < |entries|
      invariant 0 <= j <= |entries|
      invariant methods + Map(entries[j..], MethodGen) == Map(entries, MethodGen)
    {
      EntryStep(entries, j);
      var m := GenMethodOf(entries[j]);
      Regroup(methods, [m], Map(entries[j + 1..], MethodGen), Map(entries, MethodGen));
      methods := methods + [m];
      j := j + 1;
    }
    assert entries[j..] == [];
    w := Wrapper(models, methods);
  }

  /** The body of gen.py's entry loop for one menu entry, written step by
      step as the loop runs it; `MethodGen` is its specification, and the
      properties of the generated method are proved about `MethodGen`. */
  method GenMethodOf(e: MenuEntry) returns (m: ClientMethod)
    ensures m == MethodGen(e)
  {
    var path := Strip(e.title);
    var description := Strip(e.body);
    var modelName, returnModel, isList := "Any", "Any | None", false;
    if e.modelRaw.Some? {
      modelName := Pascal(e.modelRaw.value);
      if IsListPathGen(path) {
        isList := true;
        returnModel := "list[" + modelName + "] | None";
      } else {
        returnModel := modelName + " | None";
      }
    }
    var params := Params(path);
    var name := FunctionNameGen(path);
    var template := EndpointFstring(path);
    var parsing;
    if modelName == "Any" {
      parsing := ReturnBody;
    } else if isList {
      parsing := ValidateList(modelName);
    } else {
      parsing := ValidateObject(modelName);
    }
    m := ClientMethod(Endpoint(name, description, path, params, template, returnModel, modelName, isList), parsing);
  }

  /** codegen's `generate_pydantic_models`: one model per surviving heading. */
  method GeneratePydanticModels(headings: seq<Heading>) returns (models: seq<ModelDef>)
    ensures models == Map(Survivors(headings), ModelCodegen)
  {
    models := [];
    var processed: set<string> := {};
    var i := 0;
    while i < |headings|
      invariant 0 <= i <= |headings|
      invariant models + Map(SurvivorsFrom(headings[i..], processed), ModelCodegen) == Map(Survivors(headings), ModelCodegen)
    {
      var h := headings[i];
      if h.raw in processed {
        HeadingSkip(headings, i, processed, ModelCodegen);
        assert processed + {h.raw} == processed;
        i := i + 1;
        continue;
      }
      if h.container.None? {
        HeadingSkip(headings, i, processed, ModelCodegen);
      } else {
        HeadingEmit(headings, i, processed, ModelCodegen);
      }
      processed := processed + {h.raw};
      var className := Pascal(h.raw);
      if h.container.None? {
        i := i + 1;
        continue;
      }
      var fields := CollectFieldsCodegen(h.container.value);
      var model := ModelDef(h.raw, className, fields);
      assert model == ModelCodegen(h);
      Regroup(models, [model], Map(SurvivorsFrom(headings[i + 1..], processed), ModelCodegen), Map(Survivors(headings), ModelCodegen));
      models := models + [model];
      i := i + 1;
    }
    assert headings[i..] == [];
  }

  /** codegen's `parse_api_methods`: one record per menu entry. */
  method ParseApiMethods(entries: seq<MenuEntry>) returns (methods: seq<Endpoint>)
    ensures methods == Map(entries, EndpointCodegen)
  {
    methods := [];
    var j := 0;
    while j < |entries|
      invariant 0 <= j <= |entries|
      invariant methods + Map(entries[j..], EndpointCodegen) == Map(entries, EndpointCodegen)
    {
      EntryStep(entries, j);
      var m := MethodDataOf(entries[j]);
      Regroup(methods, [m], Map(entries[j + 1..], EndpointCodegen), Map(entries, EndpointCodegen));
      methods := methods + [m];
      j := j + 1;
    }
    assert entries[j..] == [];
  }

  /** The body of codegen's entry loop for one menu entry, written step by
      step as the loop runs it; `EndpointCodegen` is its specification, and
      the properties of the endpoint are proved about `EndpointCodegen`. */
  method MethodDataOf(e: MenuEntry) returns (m: Endpoint)
    ensures m == EndpointCodegen(e)
  {
    var path := Strip(e.title);
    var description := Strip(e.body);
    var modelName, returnModel, isList := "Any", "Any | None", false;
    if e.modelRaw.Some? {
      modelName := Pascal(e.modelRaw.value);
      if !Contains(path, ":") || AnyTrigger(path, ListTriggers) || EndsWith(path, "/maps") {
        isList := true;
        returnModel := "list[" + modelName + "] | None";
      } else {
        returnModel := modelName + " | None";
      }
    }
    var params := Params(path);
    var name := FunctionNameCodegen(path);
    var template := EndpointFstring(path);
    m := Endpoint(name, description, path, params, template, returnModel, modelName, isList);
  }

  // ---- what the generated models are -------------------------------------------------

  /** One model per raw name: the raw names of gen.py's models are
      pairwise different. */
  lemma ModelsDistinct(hs: seq<Heading>)
    ensures var ms := Map(Survivors(hs), ModelGen);
            forall a, b :: 0 <= a < b < |ms| ==> ms[a].rawName != ms[b].rawName
  {
    var ss := Survivors(hs);
    var ms := Map(ss, ModelGen);
    MapIndex(ss, ModelGen);
    SurvivorsDistinct(hs);
    forall a, b | 0 <= a < b < |ms| ensures ms[a].rawName != ms[b].rawName {
      assert ms[a].rawName == RawNames(ss)[a] && ms[b].rawName == RawNames(ss)[b];
    }
  }

  /** Every model comes from the first heading of its raw name, which has a
      field container; the model is named `Pascal(raw)` and has the fields
      of that container. */
  lemma ModelsFromFirstHeadings(hs: seq<Heading>, k: int) returns (i: int)
    requires 0 <= k < |Map(Survivors(hs), ModelGen)|
    ensures 0 <= i < |hs| && FirstAt(hs, i) && hs[i].container.Some?
    ensures Map(Survivors(hs), ModelGen)[k] == ModelDef(hs[i].raw, Pascal(hs[i].raw), FieldsGen(hs[i].container.value))
  {
    MapIndex(Survivors(hs), ModelGen);
    i := SurvivorOrigin(hs, k);
  }

  /** Every first heading of a raw name that has a field container gets its model. */
  lemma ModelsComplete(hs: seq<Heading>, i: int)
    requires 0 <= i < |hs| && FirstAt(hs, i) && hs[i].container.Some?
    ensures ModelGen(hs[i]) in Map(Survivors(hs), ModelGen)
  {
    var ss := Survivors(hs);
    MapIndex(ss, ModelGen);
    SurvivorsComplete(hs, i);
    var k :| 0 <= k < |ss| && ss[k] == hs[i];
    assert Map(ss, ModelGen)[k] == ModelGen(hs[i]);
  }

  /** gen.py and codegen write the same models in the same order, with the
      same raw and class names; only their fields can differ. */
  lemma ModelNamesAgree(hs: seq<Heading>)
    ensures var ms, cs := Map(Survivors(hs), ModelGen), Map(Survivors(hs), ModelCodegen);
            |ms| == |cs|
            && forall k :: 0 <= k < |ms| ==> ms[k].rawName == cs[k].rawName && ms[k].className == cs[k].className
  {
    MapIndex(Survivors(hs), ModelGen);
    MapIndex(Survivors(hs), ModelCodegen);
  }

  /** A model's fields in the two generators: the same number, in the same
      order, with the same names, aliases and type hints; only blank
      descriptions differ. */
  lemma ModelFieldsCompared(h: Heading)
    ensures var g, c := ModelGen(h).fields, ModelCodegen(h).fields;
            |g| == |c|
            && forall k :: 0 <= k < |g| ==>
                 g[k].name == c[k].name && g[k].alias == c[k].alias && g[k].hint == c[k].hint
                 && (g[k].description == c[k].description || (g[k].description == [] && c[k].description == NoDescription))
  {
    if h.container.Some? {
      var rows := h.container.value;
      FieldsInRowOrder(rows);
      var ws := WideRows(rows);
      forall k | 0 <= k < |ws|
        ensures FieldGen(ws[k]).name == FieldCodegen(ws[k]).name && FieldGen(ws[k]).alias == FieldCodegen(ws[k]).alias
             && FieldGen(ws[k]).hint == FieldCodegen(ws[k]).hint
             && (FieldGen(ws[k]).description == FieldCodegen(ws[k]).description
                 || (FieldGen(ws[k]).description == [] && FieldCodegen(ws[k]).description == NoDescription))
      {
        FieldOfRow(ws[k]);
        DescriptionDefault(ws[k]);
      }
    }
  }

  /** gen.py writes one method per menu entry, in menu order, and the
      method of each entry is typed exactly when the entry has a response
      model. */
  lemma MethodsPerEntry(es: seq<MenuEntry>)
    ensures var ms := Map(es, MethodGen);
            |ms| == |es|
            && forall k :: 0 <= k < |es| ==>
                 ms[k].endpoint.url == PathOf(es[k])
                 && (ms[k].endpoint.returnType != "Any | None" ==> es[k].modelRaw.Some?)
                 && (ms[k].parsing != ReturnBody ==> es[k].modelRaw.Some?)
  {
    var ms := Map(es, MethodGen);
    MapIndex(es, MethodGen);
    forall k | 0 <= k < |es|
      ensures ms[k].endpoint.returnType != "Any | None" ==> es[k].modelRaw.Some?
      ensures ms[k].parsing != ReturnBody ==> es[k].modelRaw.Some?
    {
      if es[k].modelRaw.None? { UntypedEndpoint(es[k]); }
    }
  }
}
