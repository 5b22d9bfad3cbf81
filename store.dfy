/** `TowerDataStore`: the server's in-memory towers and heroes, each kept in a
    dictionary from id to record in insertion order, filled from the data
    file or from the built-in sample records, and the store's queries. */
module Store {
  import opened Wrappers
  import opened Strings
  import opened Dicts
  import opened Towers
  import opened Samples

  function TowerKey(t: Tower): string { t.id }
  function HeroKey(h: Hero): string { h.id }

  /** Loading a parsed data file into the given dictionaries: every tower
      record, then every hero record; the first record that fails stops the
      loading, and the sample records are then stored over what was loaded. */
  function AfterFile(ts: Dict<Tower>, hs: Dict<Hero>, f: DataFile): (Dict<Tower>, Dict<Hero>)
    requires Consistent(ts) && Consistent(hs)
  {
    var t := PutAll(ts, f.towers, ParseTower, TowerKey);
    if !t.ok then (SampleTowers(t.dict), SampleHeroes(hs))
    else
      var h := PutAll(hs, f.heroes, ParseHero, HeroKey);
      if !h.ok then (SampleTowers(t.dict), SampleHeroes(h.dict))
      else (t.dict, h.dict)
  }

  /** Storing the samples keeps the dictionaries keyed by id. */
  lemma SamplesKeyed(ts: Dict<Tower>, hs: Dict<Hero>)
    requires Consistent(ts) && Consistent(hs) && KeyedBy(ts, TowerKey) && KeyedBy(hs, HeroKey)
    ensures KeyedBy(SampleTowers(ts), TowerKey) && KeyedBy(SampleHeroes(hs), HeroKey)
  {
    PutKeyed(ts, DartMonkey, TowerKey);
    var t1 := Put(ts, DartMonkey.id, DartMonkey);
    PutKeyed(t1, BoomerangMonkey, TowerKey);
    PutKeyed(Put(t1, BoomerangMonkey.id, BoomerangMonkey), SniperMonkey, TowerKey);
    PutKeyed(hs, Quincy, HeroKey);
  }

  /** The state a new store starts in; `data` is the parsed file, or `None`
      when no file was named, it does not exist, or it is not a JSON object. */
  function Initial(data: Option<DataFile>): (Dict<Tower>, Dict<Hero>)
  {
    if data.Some? then AfterFile(Empty(), Empty(), data.value)
    else (SampleTowers(Empty()), SampleHeroes(Empty()))
  }

  class TowerDataStore {
    var towers: Dict<Tower>
    var heroes: Dict<Hero>

    /** Both dictionaries are consistent and every record is stored under its own id. */
    ghost predicate Valid()
      reads this
    {
      Consistent(towers) && Consistent(heroes) && KeyedBy(towers, TowerKey) && KeyedBy(heroes, HeroKey)
    }

    constructor(data: Option<DataFile>)
      ensures Valid()
      ensures (towers, heroes) == Initial(data)
    {
      towers := Empty();
      heroes := Empty();
      new;
      if data.Some? {
        LoadFromFile(data.value);
      } else {
        LoadSampleData();
      }
    }

    /** `_load_from_file` once the file is parsed: the tower records, then
        the hero records; a record that raises ends the loading, and the
        sample records are then stored over what was loaded. */
    method LoadFromFile(f: DataFile)
      requires Valid()
      modifies this
      ensures Valid()
      ensures (towers, heroes) == AfterFile(old(towers), old(heroes), f)
    {
      var ok := LoadTowers(f.towers);
      if !ok {
        LoadSampleData();
        return;
      }
      ok := LoadHeroes(f.heroes);
      if !ok {
        LoadSampleData();
        return;
      }
    }

    /** The loop over the tower records; `ok` is false when a record raised,
        and the towers stored before it stay. */
    method LoadTowers(rs: seq<RawTower>) returns (ok: bool)
      requires Valid()
      modifies this
      ensures Valid() && heroes == old(heroes)
      ensures Loaded(towers, ok) == PutAll(old(towers), rs, ParseTower, TowerKey)
    {
      var i := 0;
      while i < |rs|
        invariant 0 <= i <= |rs| && Valid() && heroes == old(heroes)
        invariant PutAll(towers, rs[i..], ParseTower, TowerKey) == PutAll(old(towers), rs, ParseTower, TowerKey)
      {
        assert rs[i..][1..] == rs[i + 1..];
        PutAllUnfold(towers, rs[i..], ParseTower, TowerKey);
        var t := ConvertTower(rs[i]);
        if t.None? {
          return false;
        }
        PutKeyed(towers, t.value, TowerKey);
        towers := Put(towers, t.value.id, t.value);
        i := i + 1;
      }
      assert rs[i..] == [];
      return true;
    }

    /** The loop over the hero records; `ok` is false when a record raised,
        and the heroes stored before it stay. */
    method LoadHeroes(rs: seq<RawHero>) returns (ok: bool)
      requires Valid()
      modifies this
      ensures Valid() && towers == old(towers)
      ensures Loaded(heroes, ok) == PutAll(old(heroes), rs, ParseHero, HeroKey)
    {
      var j := 0;
      while j < |rs|
        invariant 0 <= j <= |rs| && Valid() && towers == old(towers)
        invariant PutAll(heroes, rs[j..], ParseHero, HeroKey) == PutAll(old(heroes), rs, ParseHero, HeroKey)
      {
        assert rs[j..][1..] == rs[j + 1..];
        PutAllUnfold(heroes, rs[j..], ParseHero, HeroKey);
        var h := ParseHero(rs[j]);
        if h.None? {
          return false;
        }
        PutKeyed(heroes, h.value, HeroKey);
        heroes := Put(heroes, h.value.id, h.value);
        j := j + 1;
      }
      assert rs[j..] == [];
      return true;
    }

    /** `_load_sample_data`: stores the sample records without clearing the dictionaries. */
    method LoadSampleData()
      requires Valid()
      modifies this
      ensures Valid()
      ensures towers == SampleTowers(old(towers)) && heroes == SampleHeroes(old(heroes))
    {
      towers := Put(towers, DartMonkey.id, DartMonkey);
      towers := Put(towers, BoomerangMonkey.id, BoomerangMonkey);
      towers := Put(towers, SniperMonkey.id, SniperMonkey);
      heroes := Put(heroes, Quincy.id, Quincy);
      SamplesKeyed(old(towers), old(heroes));
    }

    /** `get_tower`: the tower stored under `id`, which carries that id, or `None`. */
    function GetTower(id: string): (r: Option<Tower>)
      requires Valid()
      reads this
      ensures r.Some? <==> id in towers.items
      ensures r.Some? ==> r.value == towers.items[id] && r.value.id == id
    {
      Get(towers, id)
    }

    /** `get_hero`: the hero stored under `id`, which carries that id, or `None`. */
    function GetHero(id: string): (r: Option<Hero>)
      requires Valid()
      reads this
      ensures r.Some? <==> id in heroes.items
      ensures r.Some? ==> r.value == heroes.items[id] && r.value.id == id
    {
      Get(heroes, id)
    }

    /** `list_towers`: every tower in insertion order, or, when a non-empty
        category is given, those whose category name equals it ignoring case. */
    function ListTowers(category: Option<string>): (r: seq<Tower>)
      requires Valid()
      reads this
      ensures IsSubsequence(r, Values(towers))
    {
      FilterIsSubsequence(Values(towers), InCategory(GetOr(category, "")));
      SubsequenceOfItself(Values(towers));
      if category.None? || category.value == "" then Values(towers)
      else Filter(Values(towers), InCategory(category.value))
    }

    /** `list_heroes`: every hero in insertion order. */
    function ListHeroes(): (r: seq<Hero>)
      requires Valid()
      reads this
      ensures |r| == |heroes.keys|
      ensures forall i :: 0 <= i < |r| ==> r[i] == heroes.items[heroes.keys[i]] && r[i].id == heroes.keys[i]
    {
      Values(heroes)
    }

    /** `search_towers`: the towers, in store order, whose lowercased name,
        description or some upgrade name contains the lowercased query. */
    method SearchTowers(query: string) returns (results: seq<Tower>)
      requires Valid()
      ensures results == Filter(Values(towers), MatchesQuery(Lower(query)))
    {
      var q := Lower(query);
      var all := Values(towers);
      results := [];
      var i := 0;
      while i < |all|
        invariant 0 <= i <= |all|
        invariant results == Filter(all[..i], MatchesQuery(q))
      {
        FilterAppend(all[..i], [all[i]], MatchesQuery(q));
        assert all[..i + 1] == all[..i] + [all[i]];
        if Matches(all[i], q) {
          results := results + [all[i]];
        }
        i := i + 1;
      }
      assert all[..i] == all;
    }
  }

  /** The category test of `list_towers`. */
  function InCategory(category: string): Tower -> bool
  {
    (t: Tower) => Lower(CategoryName(t.category)) == Lower(category)
  }

  /** Some upgrade's lowercased name contains `q`. */
  predicate SomeUpgradeMatches(ups: seq<TowerUpgrade>, q: string)
  {
    exists i :: 0 <= i < |ups| && Contains(Lower(ups[i].name), q)
  }

  /** The test of `search_towers` for an already lowercased query. */
  predicate Matches(t: Tower, q: string)
  {
    Contains(Lower(t.name), q) || Contains(Lower(t.description), q) || SomeUpgradeMatches(t.upgrades, q)
  }

  function MatchesQuery(q: string): Tower -> bool
  {
    (t: Tower) => Matches(t, q)
  }

  // ---- what the queries return -------------------------------------------------------------

  /** A new store holds exactly the records `Initial` describes: with no
      usable file, the three sample towers in order and Quincy. */
  lemma NoFileSample()
    ensures Initial(None).0.keys == [DartMonkey.id, BoomerangMonkey.id, SniperMonkey.id]
    ensures Values(Initial(None).0) == [DartMonkey, BoomerangMonkey, SniperMonkey]
    ensures Values(Initial(None).1) == [Quincy]
  {
    SampleTowersFresh();
  }

  /** A tower record that fails ends the loading: no hero record is read, and
      the sample towers are stored on top of the towers loaded before it. */
  lemma FailedTowerKeepsEarlier(good: seq<RawTower>, bad: RawTower, rest: seq<RawTower>, heroes: seq<RawHero>)
    requires forall i :: 0 <= i < |good| ==> ParseTower(good[i]).Some?
    requires ParseTower(bad).None?
    ensures var loaded := PutAll(Empty(), good, ParseTower, TowerKey).dict;
            Initial(Some(DataFile(good + [bad] + rest, heroes))) == (SampleTowers(loaded), SampleHeroes(Empty()))
  {
    var loaded := PutAll(Empty(), good, ParseTower, TowerKey).dict;
    PutAllStops(Empty(), good, bad, rest, ParseTower, TowerKey);
    TowerFailureInitial(good + [bad] + rest, heroes, loaded);
  }

  /** After a failing tower record, every tower loaded before it is still
      in the store: the samples are added, they do not replace. */
  lemma FailedTowerKeepsIds(good: seq<RawTower>, bad: RawTower, rest: seq<RawTower>, heroes: seq<RawHero>)
    requires forall i :: 0 <= i < |good| ==> ParseTower(good[i]).Some?
    requires ParseTower(bad).None?
    ensures forall i :: 0 <= i < |good| ==>
              good[i].name.Some? && TowerId(good[i].name.value) in Initial(Some(DataFile(good + [bad] + rest, heroes))).0.items
  {
    var loaded := PutAll(Empty(), good, ParseTower, TowerKey).dict;
    FailedTowerKeepsEarlier(good, bad, rest, heroes);
    SampleTowersKeep(loaded);
    LoadedTowersStored(good);
  }

  lemma TowerFailureInitial(rs: seq<RawTower>, heroes: seq<RawHero>, loaded: Dict<Tower>)
    requires PutAll(Empty(), rs, ParseTower, TowerKey) == Loaded(loaded, false)
    ensures Initial(Some(DataFile(rs, heroes))) == (SampleTowers(loaded), SampleHeroes(Empty()))
  {
  }

  /** Every converted tower record's id is a key after loading. */
  lemma LoadedTowersStored(rs: seq<RawTower>)
    requires forall j :: 0 <= j < |rs| ==> ParseTower(rs[j]).Some?
    ensures forall i :: 0 <= i < |rs| ==>
              rs[i].name.Some? && TowerId(rs[i].name.value) in PutAll(Empty(), rs, ParseTower, TowerKey).dict.items
  {
    forall i | 0 <= i < |rs|
      ensures rs[i].name.Some? && TowerId(rs[i].name.value) in PutAll(Empty(), rs, ParseTower, TowerKey).dict.items
    {
      PutAllStored(Empty(), rs, i, ParseTower, TowerKey);
    }
  }

  /** A later tower record with the same id replaces the earlier one in place. */
  lemma LaterRecordReplaces(rs: seq<RawTower>, x: RawTower)
    requires forall i :: 0 <= i < |rs| ==> ParseTower(rs[i]).Some?
    requires ParseTower(x).Some?
    ensures var before := PutAll(Empty(), rs, ParseTower, TowerKey).dict;
            var after := PutAll(Empty(), rs + [x], ParseTower, TowerKey).dict;
            x.name.Some? && var id := TowerId(x.name.value);
            id in after.items && after.items[id] == ParseTower(x).value
            && (id in before.items ==> after.keys == before.keys)
            && (id !in before.items ==> after.keys == before.keys + [id])
  {
    PutAllSnoc(Empty(), rs, x, ParseTower, TowerKey);
  }

  /** `list_towers` without a category, or with the empty one, lists every
      tower; with a category it lists, in order, exactly the towers whose
      category name equals it ignoring case. */
  lemma ListTowersSpec(s: TowerDataStore, category: Option<string>)
    requires s.Valid()
    ensures category.None? || category.value == "" ==> s.ListTowers(category) == Values(s.towers)
    ensures category.Some? && category.value != "" ==>
              forall t :: t in s.ListTowers(category) <==>
                t in Values(s.towers) && Lower(CategoryName(t.category)) == Lower(category.value)
    ensures Distinct(s.ListTowers(category))
  {
    KeyedValuesDistinct(s.towers, TowerKey);
    if category.Some? && category.value != "" {
      forall t ensures t in s.ListTowers(category) <==>
                t in Values(s.towers) && Lower(CategoryName(t.category)) == Lower(category.value)
      {
        FilterMembers(Values(s.towers), InCategory(category.value), t);
      }
      FilterDistinct(Values(s.towers), InCategory(category.value));
    }
  }

  /** `list_heroes` lists exactly the stored heroes, each once, in insertion order. */
  lemma ListHeroesSpec(s: TowerDataStore)
    requires s.Valid()
    ensures forall h: Hero :: h in s.ListHeroes() <==> h.id in s.heroes.items && s.heroes.items[h.id] == h
    ensures Distinct(s.ListHeroes())
  {
    KeyedValuesDistinct(s.heroes, HeroKey);
    var r := s.ListHeroes();
    forall h: Hero | h.id in s.heroes.items && s.heroes.items[h.id] == h ensures h in r {
      var i :| 0 <= i < |s.heroes.keys| && s.heroes.keys[i] == h.id;
      assert r[i] == h;
    }
  }

  /** `search_towers` returns, in store order and once each, exactly the
      towers that match; the empty query matches every tower. */
  lemma SearchSpec(s: TowerDataStore, query: string)
    requires s.Valid()
    ensures var r := Filter(Values(s.towers), MatchesQuery(Lower(query)));
            (forall t :: t in r <==> t in Values(s.towers) && Matches(t, Lower(query)))
            && IsSubsequence(r, Values(s.towers)) && Distinct(r)
            && (query == "" ==> r == Values(s.towers))
  {
    var p := MatchesQuery(Lower(query));
    var all := Values(s.towers);
    forall t ensures t in Filter(all, p) <==> t in all && Matches(t, Lower(query)) {
      FilterMembers(all, p, t);
    }
    FilterIsSubsequence(all, p);
    KeyedValuesDistinct(s.towers, TowerKey);
    FilterDistinct(all, p);
    if query == "" {
      forall t ensures p(t) {
        assert StartsWith(Lower(t.name), "");
      }
      FilterAll(all, p);
    }
  }

  lemma {:induction false} SubsequenceOfItself<T>(s: seq<T>)
    ensures IsSubsequence(s, s)
    decreases |s|
  {
    if s != [] {
      SubsequenceOfItself(s[1..]);
    }
  }

  /** Filtering by a test every element passes keeps everything. */
  lemma {:induction false} FilterAll<T>(s: seq<T>, p: T -> bool)
    requires forall x :: p(x)
    ensures Filter(s, p) == s
    decreases |s|
  {
    if s != [] {
      FilterAll(s[1..], p);
      assert s == [s[0]] + s[1..];
    }
  }
}
