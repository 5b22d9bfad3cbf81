/** The documentation page as both generators see it once the XPath queries
    have run: the `Response Model:` headings with the field rows of their
    parameter containers, and the entries of the left menu. Also the
    first-seen de-duplication of model headings and the field rules that
    both generators share. */
module Docs {
  import opened Strings
  import opened Naming
  import opened Wrappers

  /** One `row nkEndpointSectionParameter` div: the text of each of its column divs. */
  type Row = seq<string>

  /** A div whose text contains `Response Model:`: the raw model name that
      follows the marker (`text_content().replace("Response Model:", "").strip()`)
      and the rows of the first following `container-fluid` sibling, or `None`
      when it has no such sibling. */
  datatype Heading = Heading(raw: string, container: Option<seq<Row>>)

  /** One `nkAnchor` link of the left menu: the text of its title div (the
      path) and of its body div (the description), and the raw name of the
      `Response Model:` div in the detail section of that path, or `None`
      when the path has no detail section or the section has no such div. */
  datatype MenuEntry = MenuEntry(title: string, body: string, modelRaw: Option<string>)

  /** A field of a generated Pydantic model. */
  datatype FieldDef = FieldDef(name: string, alias: string, hint: TypeHint, description: string)

  /** A generated Pydantic model: the heading's raw name, its class name and its fields. */
  datatype ModelDef = ModelDef(rawName: string, className: string, fields: seq<FieldDef>)

  // ---- first-seen de-duplication ---------------------------------------------------

  /** The loop over the headings with the `processed_models` set `seen`: a
      name already seen is skipped; otherwise the name is marked seen and
      then, only if the heading has a container, a model is emitted. */
  function SurvivorsFrom(hs: seq<Heading>, seen: set<string>): seq<Heading>
    decreases |hs|
  {
    if hs == [] then []
    else if hs[0].raw in seen then SurvivorsFrom(hs[1..], seen)
    else (if hs[0].container.Some? then [hs[0]] else []) + SurvivorsFrom(hs[1..], seen + {hs[0].raw})
  }

  /** The headings that become models, in document order. */
  function Survivors(hs: seq<Heading>): seq<Heading>
  {
    SurvivorsFrom(hs, {})
  }

  /** The heading at `i` is the first one with its raw name, and no name in
      `seen` is its name. */
  predicate FirstAfter(hs: seq<Heading>, seen: set<string>, i: int)
    requires 0 <= i < |hs|
  {
    hs[i].raw !in seen && forall j :: 0 <= j < i ==> hs[j].raw != hs[i].raw
  }

  /** The heading at `i` is the first one with its raw name. */
  predicate FirstAt(hs: seq<Heading>, i: int)
    requires 0 <= i < |hs|
  {
    FirstAfter(hs, {}, i)
  }

  lemma FirstAfterTail(hs: seq<Heading>, seen: set<string>, i: int)
    requires 1 <= i < |hs|
    ensures FirstAfter(hs, seen, i) <==> FirstAfter(hs[1..], seen + {hs[0].raw}, i - 1)
  {
    var t := hs[1..];
    assert t[i - 1] == hs[i];
    if FirstAfter(hs, seen, i) {
      forall j | 0 <= j < i - 1 ensures t[j].raw != t[i - 1].raw {
        assert t[j] == hs[j + 1];
      }
    }
    if FirstAfter(t, seen + {hs[0].raw}, i - 1) {
      forall j | 0 <= j < i ensures hs[j].raw != hs[i].raw {
        if j > 0 { assert hs[j] == t[j - 1]; }
      }
    }
  }

  lemma SurvivorsFromUnfold(hs: seq<Heading>, seen: set<string>)
    requires hs != []
    ensures SurvivorsFrom(hs, seen) ==
      (if hs[0].raw !in seen && hs[0].container.Some? then [hs[0]] else []) + SurvivorsFrom(hs[1..], seen + {hs[0].raw})
  {
    if hs[0].raw in seen {
      assert seen + {hs[0].raw} == seen;
    }
  }

  /** Every survivor is a first heading of its name, after `seen`, with a container. */
  lemma {:induction false} SurvivorsFromSound(hs: seq<Heading>, seen: set<string>, k: int)
    requires 0 <= k < |SurvivorsFrom(hs, seen)|
    ensures exists i :: 0 <= i < |hs| && SurvivorsFrom(hs, seen)[k] == hs[i] && FirstAfter(hs, seen, i) && hs[i].container.Some?
    decreases |hs|
  {
    var t := hs[1..];
    var seen' := seen + {hs[0].raw};
    SurvivorsFromUnfold(hs, seen);
    var head := if hs[0].raw !in seen && hs[0].container.Some? then [hs[0]] else [];
    var r := SurvivorsFrom(t, seen');
    if k < |head| {
      assert SurvivorsFrom(hs, seen)[k] == hs[0] && FirstAfter(hs, seen, 0);
    } else {
      assert SurvivorsFrom(hs, seen)[k] == r[k - |head|];
      SurvivorsFromSound(t, seen', k - |head|);
      var i :| 0 <= i < |t| && r[k - |head|] == t[i] && FirstAfter(t, seen', i) && t[i].container.Some?;
      assert hs[i + 1] == t[i];
      FirstAfterTail(hs, seen, i + 1);
    }
  }

  /** Every first heading of its name, after `seen`, with a container survives. */
  lemma {:induction false} SurvivorsFromComplete(hs: seq<Heading>, seen: set<string>, i: int)
    requires 0 <= i < |hs| && FirstAfter(hs, seen, i) && hs[i].container.Some?
    ensures hs[i] in SurvivorsFrom(hs, seen)
    decreases |hs|
  {
    SurvivorsFromUnfold(hs, seen);
    if i > 0 {
      FirstAfterTail(hs, seen, i);
      SurvivorsFromComplete(hs[1..], seen + {hs[0].raw}, i - 1);
      assert hs[1..][i - 1] == hs[i];
    }
  }

  /** Where a model comes from: the first heading of its raw name, which
      has a field container. */
  lemma SurvivorOrigin(hs: seq<Heading>, k: int) returns (i: int)
    requires 0 <= k < |Survivors(hs)|
    ensures 0 <= i < |hs| && Survivors(hs)[k] == hs[i] && FirstAt(hs, i) && hs[i].container.Some?
  {
    SurvivorsFromSound(hs, {}, k);
    i :| 0 <= i < |hs| && SurvivorsFrom(hs, {})[k] == hs[i] && FirstAfter(hs, {}, i) && hs[i].container.Some?;
  }

  /** Every first heading of a raw name that has a field container becomes a model. */
  lemma SurvivorsComplete(hs: seq<Heading>, i: int)
    requires 0 <= i < |hs| && FirstAt(hs, i) && hs[i].container.Some?
    ensures hs[i] in Survivors(hs)
  {
    SurvivorsFromComplete(hs, {}, i);
  }

  function RawNames(hs: seq<Heading>): (r: seq<string>)
    ensures |r| == |hs|
  {
    seq(|hs|, k requires 0 <= k < |hs| => hs[k].raw)
  }

  /** No survivor has a name in `seen`. */
  lemma {:induction false} SurvivorsFromUnseen(hs: seq<Heading>, seen: set<string>, k: int)
    requires 0 <= k < |SurvivorsFrom(hs, seen)|
    ensures SurvivorsFrom(hs, seen)[k].raw !in seen
  {
    SurvivorsFromSound(hs, seen, k);
  }

  /** No two survivors share a raw name. */
  lemma {:induction false} SurvivorsFromDistinct(hs: seq<Heading>, seen: set<string>)
    ensures Distinct(RawNames(SurvivorsFrom(hs, seen)))
    decreases |hs|
  {
    if hs != [] {
      var seen' := seen + {hs[0].raw};
      SurvivorsFromUnfold(hs, seen);
      SurvivorsFromDistinct(hs[1..], seen');
      var r := SurvivorsFrom(hs[1..], seen');
      if hs[0].raw !in seen && hs[0].container.Some? {
        var out := [hs[0]] + r;
        assert SurvivorsFrom(hs, seen) == out;
        forall i, j | 0 <= i < j < |out| ensures RawNames(out)[i] != RawNames(out)[j] {
          assert out[j] == r[j - 1];
          if i == 0 {
            SurvivorsFromUnseen(hs[1..], seen', j - 1);
          } else {
            assert out[i] == r[i - 1];
            assert RawNames(r)[i - 1] != RawNames(r)[j - 1];
          }
        }
      } else {
        assert SurvivorsFrom(hs, seen) == r;
      }
    }
  }

  /** The survivors keep document order. */
  lemma {:induction false} SurvivorsFromOrdered(hs: seq<Heading>, seen: set<string>)
    ensures IsSubsequence(SurvivorsFrom(hs, seen), hs)
    decreases |hs|
  {
    if hs != [] {
      var seen' := seen + {hs[0].raw};
      SurvivorsFromUnfold(hs, seen);
      SurvivorsFromOrdered(hs[1..], seen');
      var r := SurvivorsFrom(hs[1..], seen');
      if hs[0].raw !in seen && hs[0].container.Some? {
        assert ([hs[0]] + r)[1..] == r;
      } else {
        assert SurvivorsFrom(hs, seen) == r;
        SubsequenceSkip(r, hs);
      }
    }
  }

  lemma {:induction false} SubsequenceSkip<T>(r: seq<T>, s: seq<T>)
    requires s != [] && IsSubsequence(r, s[1..])
    ensures IsSubsequence(r, s)
    decreases |r| + |s|
  {
    if r != [] && r[0] == s[0] {
      SubsequenceTail(r, s[1..]);
    }
  }

  lemma {:induction false} SubsequenceTail<T>(r: seq<T>, s: seq<T>)
    requires r != [] && IsSubsequence(r, s)
    ensures IsSubsequence(r[1..], s)
    decreases |r| + |s|
  {
    if r[0] != s[0] {
      SubsequenceTail(r, s[1..]);
      SubsequenceSkip(r[1..], s);
    } else {
      SubsequenceSkip(r[1..], s);
    }
  }

  /** The raw names of the models are pairwise different and the models
      appear in document order. */
  lemma SurvivorsDistinct(hs: seq<Heading>)
    ensures Distinct(RawNames(Survivors(hs)))
    ensures IsSubsequence(Survivors(hs), hs)
  {
    SurvivorsFromDistinct(hs, {});
    SurvivorsFromOrdered(hs, {});
  }

  /** Two headings with the same raw name and different rows: the first wins. */
  lemma DuplicateFirstWins(a: Heading, b: Heading)
    requires a.raw == b.raw && a.container.Some?
    ensures Survivors([a, b]) == [a]
  {
    var hs := [a, b];
    SurvivorsFromUnfold(hs, {});
    assert hs[1..] == [b];
    SurvivorsFromUnfold([b], {a.raw});
    assert [b][1..] == [];
  }

  /** The name is marked processed before the container check: when the
      first heading of a name has no container, no model of that name is
      emitted, even if a later heading of the name has one. */
  lemma FirstWithoutContainerSuppresses(a: Heading, b: Heading)
    requires a.raw == b.raw && a.container.None? && b.container.Some?
    ensures Survivors([a, b]) == []
  {
    var hs := [a, b];
    SurvivorsFromUnfold(hs, {});
    assert hs[1..] == [b];
    SurvivorsFromUnfold([b], {a.raw});
    assert [b][1..] == [];
  }

  // ---- fields ---------------------------------------------------------------------

  /** Rows with more than two columns are fields; narrower rows are skipped. */
  predicate Wide(row: Row) { |row| > 2 }

  /** gen.py's field name: a raw name starting with '_' loses its leading
      underscores and gets the suffix `_data`. */
  function FieldNameGen(alias: string): string
  {
    if StartsWith(alias, "_") then Snake(TrimStart(alias, '_')) + "_data" else Snake(alias)
  }

  /** codegen's field name: always `lstrip('_')`, then the suffix when the raw name had one. */
  function FieldNameCodegen(alias: string): string
  {
    Snake(TrimStart(alias, '_')) + (if StartsWith(alias, "_") then "_data" else "")
  }

  /** Both field-name rules give the same name for every raw name; the name
      is lowercase, is the lowercased raw name (without its leading '_')
      with underscores inserted, and has `_data` appended exactly when the
      raw name starts with '_'. */
  lemma FieldNameRulesAgree(alias: string)
    ensures FieldNameGen(alias) == FieldNameCodegen(alias)
    ensures NoUpper(FieldNameGen(alias))
    ensures StartsWith(alias, "_") ==>
      FieldNameGen(alias) == Snake(TrimStart(alias, '_')) + "_data" && Inserts(Snake(TrimStart(alias, '_')), Lower(TrimStart(alias, '_')))
    ensures !StartsWith(alias, "_") ==> Inserts(FieldNameGen(alias), Lower(alias))
  {
    if !StartsWith(alias, "_") {
      assert alias == [] || alias[0] != '_' by { if alias != [] { assert alias[..1] == [alias[0]]; } }
      assert TrimStart(alias, '_') == alias;
      SnakeInserts(alias);
    } else {
      SnakeInserts(TrimStart(alias, '_'));
      var s := Snake(TrimStart(alias, '_'));
      assert NoUpper(s + "_data") by { assert forall i :: |s| <= i < |s + "_data"| ==> (s + "_data")[i] == "_data"[i - |s|]; }
    }
  }

  lemma BloonModifiersTrim(alias: string)
    requires alias == "_bloonModifiers"
    ensures StartsWith(alias, "_") && TrimStart(alias, '_') == "bloonModifiers"
  {
    assert alias[..1] == "_";
    assert alias[1..] == "bloonModifiers";
  }

  lemma BloonModifiersSnake(n: string)
    requires n == "bloonModifiers"
    ensures Snake(n) == "bloon_modifiers"
  {
    assert n == "bloo" + ['n', 'M'] + "odifiers";
    SnakeHumpTail("bloo", 'n', 'M', "odifiers");
  }

  /** The client's `_bloonModifiers` alias becomes `bloon_modifiers_data`. */
  lemma FieldNameBloonModifiers(alias: string)
    requires alias == "_bloonModifiers"
    ensures FieldNameGen(alias) == "bloon_modifiers_data"
  {
    BloonModifiersTrim(alias);
    BloonModifiersSnake(TrimStart(alias, '_'));
  }

  /** The field of a wide row, as gen.py builds it. */
  function FieldGen(row: Row): (f: FieldDef)
    requires Wide(row)
  {
    var alias := Strip(row[0]);
    FieldDef(FieldNameGen(alias), alias, MapTypeHint(Strip(row[2])), CollapseSpace(row[1]))
  }

  const NoDescription: string := "No description available."

  /** The field of a wide row, as codegen builds it: an empty description
      becomes a placeholder. */
  function FieldCodegen(row: Row): (f: FieldDef)
    requires Wide(row)
  {
    var alias := Strip(row[0]);
    var desc := CollapseSpace(row[1]);
    FieldDef(FieldNameCodegen(alias), alias, MapTypeHint(Strip(row[2])), if desc == [] then NoDescription else desc)
  }

  /** The rows that become fields, in row order. */
  function WideRows(rows: seq<Row>): (r: seq<Row>)
    ensures forall k :: 0 <= k < |r| ==> Wide(r[k])
  {
    Filter(rows, Wide)
  }

  /** The fields gen.py builds from the rows of a container. */
  function FieldsGen(rows: seq<Row>): (fs: seq<FieldDef>)
  {
    MapFilter(rows, Wide, FieldGen)
  }

  /** The fields codegen builds from the rows of a container. */
  function FieldsCodegen(rows: seq<Row>): (fs: seq<FieldDef>)
  {
    MapFilter(rows, Wide, FieldCodegen)
  }

  /** The fields of a model: one per wide row, in row order, in both
      generators. */
  lemma FieldsInRowOrder(rows: seq<Row>)
    ensures |FieldsGen(rows)| == |FieldsCodegen(rows)| == |WideRows(rows)|
    ensures forall k :: 0 <= k < |WideRows(rows)| ==> FieldsGen(rows)[k] == FieldGen(WideRows(rows)[k])
    ensures forall k :: 0 <= k < |WideRows(rows)| ==> FieldsCodegen(rows)[k] == FieldCodegen(WideRows(rows)[k])
  {
    MapFilterIndex(rows, Wide, FieldGen);
    MapFilterIndex(rows, Wide, FieldCodegen);
  }

  /** What a field says about its row: the alias is the stripped first
      column, the name is derived from it by the same rule in both
      generators, the type hint comes from the third column. */
  lemma FieldOfRow(row: Row)
    requires Wide(row)
    ensures FieldGen(row).alias == FieldCodegen(row).alias == Strip(row[0])
    ensures FieldGen(row).name == FieldCodegen(row).name
    ensures FieldGen(row).hint == FieldCodegen(row).hint == MapTypeHint(Strip(row[2]))
    ensures NoUpper(FieldGen(row).name)
  {
    FieldNameRulesAgree(Strip(row[0]));
  }

  /** The rows that become fields are the wide rows, in row order. */
  lemma WideRowsExact(rows: seq<Row>)
    ensures IsSubsequence(WideRows(rows), rows)
    ensures forall row :: row in WideRows(rows) <==> row in rows && Wide(row)
  {
    FilterIsSubsequence(rows, Wide);
    forall row ensures row in WideRows(rows) <==> row in rows && Wide(row) { FilterMembers(rows, Wide, row); }
  }

  /** The placeholder description exists only in codegen: the two generators
      describe a field the same way unless the description column is blank,
      where gen.py writes an empty description and codegen the placeholder. */
  lemma DescriptionDefault(row: Row)
    requires Wide(row)
    ensures AllSpace(row[1]) ==> FieldGen(row).description == [] && FieldCodegen(row).description == NoDescription
    ensures !AllSpace(row[1]) ==> FieldGen(row).description == FieldCodegen(row).description != []
  {
    CollapseSpaceEmpty(row[1]);
  }

  /** gen.py's loop over the rows of a container, growing `field_lines`. */
  method CollectFieldsGen(rows: seq<Row>) returns (fields: seq<FieldDef>)
    ensures fields == FieldsGen(rows)
  {
    fields := [];
    var i := 0;
    while i < |rows|
      invariant 0 <= i <= |rows|
      invariant fields + FieldsGen(rows[i..]) == FieldsGen(rows)
    {
      assert rows[i..][1..] == rows[i + 1..];
      MapFilterStep(rows[i..], Wide, FieldGen);
      if |rows[i]| > 2 {
        fields := fields + [FieldGen(rows[i])];
      }
      i := i + 1;
    }
  }

  /** codegen's loop over the rows of a container, growing `fields_data`. */
  method CollectFieldsCodegen(rows: seq<Row>) returns (fields: seq<FieldDef>)
    ensures fields == FieldsCodegen(rows)
  {
    fields := [];
    var i := 0;
    while i < |rows|
      invariant 0 <= i <= |rows|
      invariant fields + FieldsCodegen(rows[i..]) == FieldsCodegen(rows)
    {
      assert rows[i..][1..] == rows[i + 1..];
      MapFilterStep(rows[i..], Wide, FieldCodegen);
      if |rows[i]| > 2 {
        fields := fields + [FieldCodegen(rows[i])];
      }
      i := i + 1;
    }
  }
}
