# bloons-mcp core, modelled in Dafny

bloons-mcp has two parts:

- **Code generators.** They read the Ninja Kiwi Open Data API documentation page and emit a typed Python client. `gen.py` emits the whole client; `codegen/gen.py` emits the Pydantic models and the method data that a template renders. Each generator turns every `Response Model:` heading into a Pydantic class and every entry of the left menu into an async client method.
- **An MCP server of tower statistics.** Its in-memory `TowerDataStore` holds towers and heroes. It is filled from a JSON data file or from built-in sample records, and it answers queries: get, list, search, cost comparison, upgrade path and total upgrade cost.

This project models both parts on values and proves what their code promises.

**Naming helpers.** `to_snake_case`, `to_pascal_case` and `map_type_hint` are modelled as left-to-right scanners with the semantics of Python's `re.sub`, `re.split` and `str` methods. Their copies in `codegen/gen.py` (lines 11-45) compute the same functions as `gen.py`'s, differing only in quoting and in the layout of the type table, so module `Naming` models them once. They come with:

- what `to_snake_case` does to a name: it inserts underscores only, its result has no uppercase letters, and it is idempotent;
- that `to_pascal_case` is case-blind and strips leading underscores;
- the literal and table cases of `map_type_hint`.

**The documentation page** is modelled by module `Docs`, as the generators see it once the XPath queries have run. Module `Generators` holds one method per generator loop. Modules `Endpoints`, `Paths` and `Segments` model what each generator derives from a menu entry:

- the model and return type, and whether the result is a list;
- the parameters, the method name and the endpoint f-string;
- how the generated code parses the response body.

They prove where the two generators agree and where they differ. Module `ClientPaths` proves two more things:

- the thirty endpoints of the generated client `btd6_api_wrapper.py` get thirty distinct method names;
- the naming rule is not injective in general: `/a/:b` and `/a/by/b` get the same name.

**The server's store** is modelled by module `Store`, a class whose dictionary fields the loaders update. The dictionaries are Python dicts that keep insertion order (module `Dicts`). Module `Towers` holds the record types and their conversion from JSON records, and module `Samples` holds the sample data. Module `Tools` holds the three MCP tools `compare_tower_costs`, `get_upgrade_path` and `calculate_total_upgrade_cost`, with the store passed as a parameter instead of the global `tower_data`.

## Model

| member | source | states |
|---|---|---|
| Naming.Snake | gen.py:9-12 | the result of `to_snake_case` never contains an uppercase letter |
| Naming.SnakeInserts | gen.py:9-12 | `to_snake_case(s)` is `s.lower()` with underscores inserted and nothing else changed |
| Naming.SnakeWordChars | gen.py:9-12 | a name made of word characters stays made of word characters |
| Naming.SnakeNoUpper | gen.py:9-12 | a name without uppercase letters is left unchanged |
| Naming.SnakeIdempotent | gen.py:9-12 | converting twice gives the same name as converting once |
| Naming.SnakeAppend | gen.py:9-12 | a name split at a safe boundary converts piece by piece |
| Naming.SnakeUnderscore | gen.py:9-12 | a leading underscore is kept and the rest converts on its own |
| Naming.SnakeAcronymTail | gen.py:9-12 | a trailing acronym such as `raceID` becomes `race_id` |
| Naming.SnakeHumpTail | gen.py:9-12 | a trailing capitalised word such as `teamSize` becomes `team_size` |
| Naming.SnakeMapUrl | gen.py:9-12 | `mapURL` becomes `map_url` |
| Naming.SnakeDoublesUnderscore | gen.py:9-12 | `foo_Bar` becomes `foo__bar`: the first substitution adds an underscore after an existing one |
| Naming.SnakeHighestArenaIndex | gen.py:9-12 | `_highestArenaIndex` becomes `_highest_arena_index` |
| Naming.SnakeCurrentSeason | gen.py:9-12 | the alias `currentSeason_highestArenaIndex` becomes `current_season_highest_arena_index`, the field name the generated client uses |
| Naming.SnakeCurrentlyInHoM | gen.py:9-12 | `currentlyInHoM` becomes `currently_in_ho_m` |
| Naming.Capitalize | gen.py:18 | `str.capitalize` keeps the length, makes the first character not lowercase and the rest not uppercase |
| Naming.PascalIgnoresReplacements | gen.py:14-18 | the `btd6`/`battles2` replacements do not change the result of `to_pascal_case`, because `capitalize` recases each part |
| Naming.PascalCaseBlind | gen.py:14-18 | two names that differ only in case give the same class name, and the same capitalised parts |
| Naming.PascalNoSeparators | gen.py:14-18 | a class name contains neither `_` nor `-` |
| Naming.PascalStripsLeading | gen.py:16 | leading underscores do not change the class name |
| Naming.PascalShape | gen.py:14-18 | the class name is the concatenation of the capitalised parts split at `_` and `-`, each part recased only |
| Naming.PascalBtd6Race | gen.py:14-18 | `_btd6_race` becomes `Btd6Race`, the docstring's example |
| Naming.PascalBtd6race | gen.py:14-18 | `_btd6race` becomes `Btd6race`, as in the generated `Btd6race` class |
| Naming.MapTypeHintBlank | gen.py:21-36 | the hint is `Any` exactly when the stripped text is empty, or has no comma and is not a table key |
| Naming.MapTypeHintLiteral | gen.py:27-29 | with a comma, the hint is a `Literal` with one stripped, lowercase option per comma-separated part, in order |
| Naming.MapTypeHintLookup | gen.py:21-36 | for every type string, with `t` its stripped, lowercased text: the hint is a `Literal` exactly when `t` has a comma, a table entry exactly when `t` has no comma and is a table key (and then it is that key's entry), and `Any` otherwise |
| Naming.MapTypeHintExamples | gen.py:23-36 | ` Number ` gives the union of `int` and `float`, `AssetURL` gives `str`, `string[]` gives `list[str]`, `NestedMap` gives `dict[str, Any]`, while `object` and a blank string give `Any` |
| Docs.SurvivorsFromSound | gen.py:49-60 | every emitted model comes from the first heading with its raw name, and that heading has a container |
| Docs.SurvivorsFromComplete | gen.py:49-60 | the first heading with a given raw name emits a model when it has a container |
| Docs.SurvivorsDistinct | gen.py:49-60 | no two emitted models share a raw name, and they keep the headings' order |
| Docs.DuplicateFirstWins | gen.py:51-53 | of two headings with the same raw name, only the first is turned into a model |
| Docs.FirstWithoutContainerSuppresses | gen.py:51-60 | a first heading without a container marks its name as seen, so a later heading with that name and a container emits nothing |
| Docs.FieldNameRulesAgree | codegen/gen.py:77-79 | both generators name a field the same way: the snake_case name, with `_data` appended when the raw name starts with `_` |
| Docs.FieldNameBloonModifiers | gen.py:68-71 | the raw field `_bloonModifiers` becomes `bloon_modifiers_data` |
| Docs.WideRows | gen.py:63-65 | only rows with more than two columns are kept |
| Docs.FieldsInRowOrder | codegen/gen.py:72-91 | both generators emit one field per wide row, in row order |
| Docs.FieldOfRow | codegen/gen.py:74-91 | a row gives both generators the same alias, field name and type hint, and the name has no uppercase letters |
| Docs.WideRowsExact | gen.py:62-65 | the kept rows are exactly the wide rows, in document order |
| Docs.DescriptionDefault | codegen/gen.py:81-89 | an empty description stays empty in `gen.py` but becomes `No description available.` in `codegen/gen.py`; any other description is the same in both |
| Strings.CollapseSpaceSpec | gen.py:73 | the normalised description is single-spaced: no leading, trailing or doubled whitespace, and each whitespace character left is one space between two non-space characters. It has the same words as the column, and keeps every non-space character of the column, in order |
| Docs.CollectFieldsGen | gen.py:62-78 | the row loop of `generate_api_wrapper` emits exactly the field list of the wide rows |
| Docs.CollectFieldsCodegen | codegen/gen.py:69-91 | the row loop of `generate_pydantic_models` emits exactly the field list of the wide rows |
| Generators.GenerateApiWrapper | gen.py:39-187 | emits one model per surviving heading and one method per menu entry, in document order |
| Generators.GenMethodOf | gen.py:119-187 | the body of the menu loop builds the method that `MethodGen` describes |
| Generators.GeneratePydanticModels | codegen/gen.py:48-109 | emits one model per surviving heading, in document order |
| Generators.ParseApiMethods | codegen/gen.py:112-179 | emits one method record per menu entry, in menu order |
| Generators.MethodDataOf | codegen/gen.py:119-178 | the body of the menu loop builds the record that `EndpointCodegen` describes |
| Generators.ModelsDistinct | gen.py:49-53 | the emitted models have distinct raw names |
| Generators.ModelsFromFirstHeadings | gen.py:49-87 | each emitted model is named by `to_pascal_case` from the first heading with its raw name, whose rows give its fields |
| Generators.ModelsComplete | gen.py:49-87 | the model of each first heading with a container is emitted |
| Generators.ModelNamesAgree | codegen/gen.py:54-60 | both generators emit the same models with the same raw and class names |
| Generators.ModelFieldsCompared | codegen/gen.py:72-91 | the two generators' fields agree in name, alias and hint; the description differs only when it is empty |
| Generators.MethodsPerEntry | gen.py:119-187 | one method per menu entry, with the entry's URL; a typed return or a validating parse only when the entry has a response model |
| Endpoints.UntypedEndpoint | gen.py:125-137 | an entry without a response model returns `Any` or `None`, is not a list, and its body is returned unparsed |
| Endpoints.TypedEndpoint | codegen/gen.py:129-153 | an entry with a response model returns that model's class (in a list exactly when the list rule holds), or `None` |
| Endpoints.EndpointShape | gen.py:139-143 | the URL is the path; there is one snake_case parameter per `:name` in the path; parameter and method names have no uppercase letters |
| Endpoints.ParsingCases | gen.py:152-174 | the generated method returns the body for `Any`, validates a list of models for a list, and validates one model otherwise |
| Endpoints.AnyModelIsNotParsed | gen.py:131-155 | a response model named `any`, in any case and after any leading underscores, becomes the class `Any`. The method is still annotated, as an optional `list[Any]` on a list path and an optional `Any` otherwise, yet it returns the body unparsed, because the parsing branch tests the class name |
| Endpoints.GeneratorsCompared | codegen/gen.py:127-165 | the generators agree on description, URL, parameters, template and model, and every list method of `gen.py` is a list method of `codegen/gen.py`. They differ exactly on typed entries whose path ends in `/maps` and fails `gen.py`'s rule, that is, contains a `:` and none of `leaderboard`, `filter`, `matches` or `homs`; `codegen/gen.py` makes those a list |
| Endpoints.NamesAgree | codegen/gen.py:157-159 | for a well-formed path, both generators derive the same method name |
| Endpoints.NamesDiffer | gen.py:141-143 | for the path `/_a`, `gen.py` names the method `get_a` but `codegen/gen.py` names it `get__a` |
| Endpoints.OdysseyMapsCardinality | codegen/gen.py:144-153 | `/btd6/odyssey/:odysseyID/:difficulty/maps` returns one model in `gen.py` but a list in `codegen/gen.py` |
| Endpoints.UserCardinality | gen.py:133-137 | `/btd6/users/:userID` returns one model in both generators |
| Endpoints.CtLeaderboardCardinality | gen.py:133-135 | `/btd6/ct/:ctID/leaderboard/player` returns a list in both generators |
| Paths.SnakeAll | gen.py:139 | one converted parameter per captured name, in order |
| Paths.FindParamsWords | gen.py:139 | every captured name is a non-empty run of word characters that follows a `:` in the path |
| Paths.FindParamsNoColon | gen.py:139 | a path without `:` has no parameters |
| Paths.FunctionNameGen | gen.py:141-143 | the method name of `gen.py` has no uppercase letters |
| Paths.FunctionNameCodegen | codegen/gen.py:157-159 | the method name of `codegen/gen.py` has no uppercase letters |
| Paths.EndpointFstring | gen.py:145-147 | the replacement loop produces the endpoint template of the path |
| Paths.AnyListTriggers | codegen/gen.py:144-147 | the trigger test holds exactly when the path contains one of `leaderboard`, `filter`, `matches` or `homs` |
| Paths.MapsHasNoColon | gen.py:133 | the path `/maps` has no `:`, so it already passes the first test |
| Paths.GenMapsClauseRedundant | gen.py:133 | the `"/maps" == path` clause of `gen.py`'s list rule never decides anything |
| Paths.CardinalityRulesCompared | codegen/gen.py:144-150 | every list path of `gen.py` is one of `codegen/gen.py`; `codegen/gen.py` adds exactly the paths ending in `/maps` |
| Segments.SpacedPathRender | gen.py:141 | replacing `/` by a space and `:` by ` by ` in a rendered path gives its spaced form |
| Segments.CleanGenRender | gen.py:141-142 | `gen.py`'s cleaned path is the segments joined by underscores, with `by_` before each parameter |
| Segments.CleanCodegenRender | codegen/gen.py:157-158 | `codegen/gen.py`'s cleaned path is the same for a well-formed path |
| Segments.FunctionNameRender | gen.py:141-143 | both method names of a well-formed path are `get` followed by one converted piece per segment |
| Segments.FindParamsRender | gen.py:139 | the captured parameters of a rendered path are its parameter segments, in order |
| Segments.ParamsRender | codegen/gen.py:155 | the method parameters are the converted names of the parameter segments |
| Segments.EndpointTemplateRender | gen.py:145-147 | the endpoint f-string of a well-formed path is the path without its leading `/`, with `{snake_name}` for each parameter |
| Segments.TemplateNoColon | codegen/gen.py:161-165 | no `:` is left in the endpoint f-string |
| Segments.ContainsRender | codegen/gen.py:144-147 | a list trigger appears in a rendered path exactly when it appears in one of its segment names |
| Segments.ColonRender | gen.py:133 | a rendered path contains `:` exactly when it has a parameter segment |
| ClientPaths.SnakeFits | gen.py:9-12 | the snake_case form of a plain, acronym-ending or hump-ending name, as computed by `to_snake_case` |
| ClientPaths.ClientName | gen.py:141-143 | the method name of an endpoint is `get` followed by the snake forms of its pieces |
| ClientPaths.ClientFacts | btd6_api_wrapper.py:1044-1584 | the thirty endpoints of the generated client are well-formed, and their pieces are in strictly ascending order |
| ClientPaths.ClientNames | btd6_api_wrapper.py:1044-1584 | both generators name each of the thirty endpoints `get` followed by its pieces |
| ClientPaths.ClientNamesDistinct | btd6_api_wrapper.py:1044-1584 | the thirty endpoints of the generated client get thirty distinct method names in both generators |
| ClientPaths.BossLeaderboardEndpoint | btd6_api_wrapper.py:1112-1117 | `/btd6/bosses/:bossID/leaderboard/:type/:teamSize` becomes `get_btd6_bosses_by_boss_id_leaderboard_by_type_by_team_size` in both generators, requesting `btd6/bosses/{boss_id}/leaderboard/{type}/{team_size}` |
| ClientPaths.TableNamesDistinct | gen.py:141-143 | any list of well-formed endpoints with strictly ascending pieces gets distinct method names |
| ClientPaths.ByCollision | gen.py:141-143 | the different paths `/a/:b` and `/a/by/b` get the same method name in both generators |
| ClientPaths.NamesCollide | codegen/gen.py:157-159 | `/a/:b` and `/a/by/b` are different paths with the same method name |
| Towers.PathNames | tower_stats_server.py:25 | the path names `top`, `middle` and `bottom` parse back to their path, and nothing else parses |
| Towers.CategoryNames | tower_stats_server.py:55 | the four category names parse back to their category, and nothing else parses |
| Towers.TowerIdShape | tower_stats_server.py:99 | a tower id is the name lowercased, with spaces and hyphens turned into `_`; it has the name's length, no uppercase, no space and no hyphen |
| Towers.HeroIdKeepsHyphens | tower_stats_server.py:149 | a hero id turns only spaces into `_`, so it differs from the tower-style id exactly when the name has a hyphen |
| Towers.ParseCosts | tower_stats_server.py:108-111 | the costs parse exactly when all four difficulties are present, and each cost is the record's value |
| Towers.ParseUpgrade | tower_stats_server.py:103-114 | an upgrade record converts exactly when every required key is present, the path is known and the tier is 1 to 5; the result carries the record's values |
| Towers.ParseUpgradesFrom | tower_stats_server.py:102-115 | the upgrades convert exactly when every one does, and keep their order |
| Towers.StatsDefaults | tower_stats_server.py:118-128 | missing stats default to damage 0, pierce 1, range 30, no projectile speed, no camo and no lead; `frozen_popping` defaults to true, unlike the model's own default |
| Towers.ParseTowerSpec | tower_stats_server.py:97-143 | a tower record converts exactly when every required key is present and valid; its id is derived from its name and the other fields are the record's |
| Towers.ParseHero | tower_stats_server.py:148-158 | a hero record converts exactly when every required key is present; its id is derived from its name and the other fields are the record's |
| Towers.ConvertTower | tower_stats_server.py:98-143 | the conversion of one tower record, upgrade by upgrade, gives `ParseTower`'s result |
| Samples.SampleIdsDerived | tower_stats_server.py:173-268 | each sample record's id is the one its name derives |
| Samples.SampleStatsDefaults | tower_stats_server.py:173-254 | the sample towers cannot pop frozen bloons, unlike the loader's default, and the Sniper Monkey detects camo |
| Samples.SampleTowersFresh | tower_stats_server.py:270-274 | sample data stored in an empty store gives three towers and one hero, in that order |
| Samples.SampleTowersKeep | tower_stats_server.py:270-274 | storing the samples keeps every tower already stored |
| Dicts.Put | tower_stats_server.py:145 | assignment maps the key to the value; a new key goes last and an existing key keeps its place |
| Dicts.Get | tower_stats_server.py:276-278 | `dict.get` gives the key's value, or nothing when the key is absent |
| Dicts.GetPut | tower_stats_server.py:145 | after an assignment, only the assigned key's value changes |
| Dicts.PutValues | tower_stats_server.py:284-289 | `values()` gains the new value at the end, or changes in place for an existing key |
| Dicts.KeyedValuesDistinct | tower_stats_server.py:284-293 | in a dictionary whose records are stored under their own ids, `values()` has no repeats |
| Dicts.PutAll | tower_stats_server.py:98-145 | loading succeeds exactly when every record converts; records stay stored under their own ids, and earlier keys stay |
| Dicts.PutAllStops | tower_stats_server.py:93-167 | the first record that fails ends the loading, and the records before it stay stored |
| Dicts.PutAllSnoc | tower_stats_server.py:145 | loading one more record stores it last, or replaces the value of its key in place |
| Dicts.PutAllStored | tower_stats_server.py:145 | when every record converts, each record's key is stored |
| Store.TowerDataStore.constructor | tower_stats_server.py:82-89 | a new store starts empty, then loads the file when one is given and parses, and the sample data otherwise |
| Store.TowerDataStore.LoadFromFile | tower_stats_server.py:91-167 | the towers, then the heroes; after a failure, the sample data is stored over what was loaded |
| Store.TowerDataStore.LoadTowers | tower_stats_server.py:98-145 | the tower loop stores each converted tower under its id until a record fails, and leaves the heroes alone |
| Store.TowerDataStore.LoadHeroes | tower_stats_server.py:148-160 | the hero loop stores each converted hero under its id until a record fails, and leaves the towers alone |
| Store.TowerDataStore.LoadSampleData | tower_stats_server.py:169-274 | stores the three sample towers and the hero without clearing what is there |
| Store.TowerDataStore.GetTower | tower_stats_server.py:276-278 | a tower is found exactly when its id is stored, and the found tower has that id |
| Store.TowerDataStore.GetHero | tower_stats_server.py:280-282 | a hero is found exactly when its id is stored, and the found hero has that id |
| Store.TowerDataStore.ListTowers | tower_stats_server.py:284-289 | the listed towers are stored towers, in insertion order |
| Store.TowerDataStore.ListHeroes | tower_stats_server.py:291-293 | the list is the stored hero records themselves, one per stored id, in insertion order |
| Store.ListHeroesSpec | tower_stats_server.py:291-293 | a hero is listed exactly when it is the record stored under its id, and no hero is listed twice |
| Store.TowerDataStore.SearchTowers | tower_stats_server.py:295-304 | the search loop keeps the towers that match the lowercased query, in order |
| Store.NoFileSample | tower_stats_server.py:86-89 | without a data file, the store holds exactly the three sample towers and Quincy |
| Store.FailedTowerKeepsEarlier | tower_stats_server.py:164-167 | a failing tower record leaves the towers before it, plus the samples, and the sample hero |
| Store.FailedTowerKeepsIds | tower_stats_server.py:93-167 | after a failing tower record, the ids of all towers before it are still stored |
| Store.LoadedTowersStored | tower_stats_server.py:98-145 | when every tower converts, every tower's id is stored |
| Store.LaterRecordReplaces | tower_stats_server.py:145 | a later record with the same id replaces the earlier one in place; a new id goes last |
| Store.ListTowersSpec | tower_stats_server.py:284-289 | without a category, or with an empty one, all towers are listed; otherwise exactly the towers whose category matches case-insensitively; no tower is listed twice |
| Store.SearchSpec | tower_stats_server.py:295-304 | a tower is found exactly when its name, its description or one of its upgrade names contains the query, case-insensitively; results keep insertion order, without repeats, and an empty query finds every tower |
| Tools.CompareCostsSpec | tower_stats_server.py:387-410 | the result has a key exactly for each requested id that is a stored tower, and maps it to that tower's cost at the difficulty |
| Tools.CompareCostsRepeat | tower_stats_server.py:399-409 | asking for an id twice changes nothing |
| Tools.CompareCostsNew | tower_stats_server.py:399-409 | a new stored id goes last in the result |
| Tools.CompareTowerCosts | tower_stats_server.py:387-410 | the loop builds the cost dictionary that `CompareCosts` describes |
| Tools.PathUpgrades | tower_stats_server.py:414-430 | the upgrade path holds exactly the tower's upgrades on that path, sorted by tier, and keeps the original order within a tier; a missing tower gives an empty list |
| Tools.GetUpgradePath | tower_stats_server.py:414-430 | an unknown id gives an empty list; a known id gives its tower's upgrade path |
| Tools.SortByTierSpec | tower_stats_server.py:430 | sorting by tier gives a sorted permutation with the same total cost |
| Tools.SortByTierStable | tower_stats_server.py:430 | sorting by tier keeps the order of the upgrades within each tier |
| Tools.CountedSpec | tower_stats_server.py:462-465 | the counted upgrades are on the path, at or below the tier, and sorted, with the same total as the unsorted selection |
| Tools.ListUpgrades | tower_stats_server.py:470-481 | the loop lists each upgrade's name, tier and cost, and sums the costs |
| Tools.CalculateTotalUpgradeCost | tower_stats_server.py:434-492 | the tool computes the report that `TotalUpgradeCost` describes for the stored tower |
| Tools.ReportFor | tower_stats_server.py:452-492 | the report of a found tower |
| Tools.TotalUpgradeCostSpec | tower_stats_server.py:434-492 | an unknown id gives the error. Otherwise the base cost is the tower's at the difficulty, the upgrade total is the sum of the costs of the path's upgrades up to the tier, and the total cost adds the two. The listed upgrades are in increasing tier, one per selected upgrade. Each line carries the name, tier and cost at the difficulty of one selected upgrade, and the lines are exactly the selected upgrades' lines, rearranged |
| Tools.CountedLines | tower_stats_server.py:462-479 | the lines built from the sorted selection are the lines of the unsorted selection, rearranged |
| Tools.CountedLineOrigin | tower_stats_server.py:470-479 | each listed line is the name, tier and cost at the difficulty of an upgrade on the path at or below the tier |
| Tools.BelowFirstTier | tower_stats_server.py:462-492 | a tier below 1 counts no upgrade, so the total is the base cost |
| Tools.AllUpTo | tower_stats_server.py:462-464 | when every upgrade is on the path and at or below the tier, the selection keeps all of them |
| Tools.DartMonkeyTopTwo | tower_stats_server.py:434-492 | the sample Dart Monkey, top path to tier 2 on medium, costs 540 in total |
| Tools.SumAppend | tower_stats_server.py:477-481 | the total of a concatenation is the sum of the totals |
| Tools.FilterSplitSum | tower_stats_server.py:462-465 | a selection split into two disjoint parts sums to the parts' totals |

## Left out

- Fetching the documentation page, writing the generated files, and Jinja rendering (`run_generator` in both files) are I/O. lxml parsing and the XPath queries are not modelled: the page is given as the headings and menu entries the queries return (`Docs.Heading`, `Docs.MenuEntry`).
- The layout of the emitted Python text is not modelled: `textwrap`, indentation, docstrings, the fixed `__init__`, `_get_request` and `close` block, and `"\n\n".join`. Models and methods are modelled as records of what the text carries.
- The generated client's runtime (httpx requests, Pydantic validation) is not modelled; only the choice of parsing code is.
- Python's `str.lower`, `str.isspace` and the regex classes `\w`, `\s` and `[A-Z]` are modelled over ASCII only.
- The FastMCP server, the registration of the tools, their `async` wrappers, and the `get_tower_info` … `search_towers` tool wrappers (`tower_stats_server.py:320-384`) just call the store's methods. They are not modelled separately.
- Reading the JSON file is not modelled. `json.load`, `open` and `Path.exists` become an optional parsed `DataFile`; a missing, unreadable or non-object file is `None`.
- JSON type errors are not modelled. A key with a value of the wrong type is not distinguished from a missing key, and Pydantic's coercion of values is not modelled.
- `TowerStats.attack_speed` is a float and is left out of the stats record.
- Each of the tools' `Literal` parameters (difficulty, path) is an enumeration, because FastMCP rejects any other string before the tool runs. The default difficulty `"medium"` is not modelled.
- The tools take the store as a parameter instead of reading the module-level `tower_data`.
- `Tools.SortByTier`: Python's `sorted`/`list.sort` is a library call. It is modelled as a pure stable sort, with no loop of its own.
- The scraper, the demos, the summary script and the tests are not part of this model.
