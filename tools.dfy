/** The cost and upgrade tools of the tower-stats server, which read the
    store: `compare_tower_costs`, `get_upgrade_path` and
    `calculate_total_upgrade_cost`. The difficulty and the path arrive
    already checked against their literal values, so they are the
    `Difficulty` and `UpgradePath` enumerations here. */
module Tools {
  import opened Wrappers
  import opened Strings
  import opened Dicts
  import opened Towers
  import opened Samples
  import opened Store

  // ---- compare_tower_costs ------------------------------------------------------------------

  /** The `costs` dictionary once the ids of `ids` were looked at in order:
      the id of a stored tower is assigned that tower's price at `d`, and an
      unknown id is skipped. */
  function CompareCosts(towers: Dict<Tower>, ids: seq<string>, d: Difficulty): (r: Dict<int>)
    ensures Consistent(r)
    decreases |ids|
  {
    if ids == [] then Empty()
    else
      var id := ids[|ids| - 1];
      var prev := CompareCosts(towers, ids[..|ids| - 1], d);
      if id in towers.items then Put(prev, id, CostAt(towers.items[id].cost, d)) else prev
  }

  /** The costs hold exactly the requested ids that name a stored tower, each
      with that tower's price at the difficulty. */
  lemma {:induction false} CompareCostsSpec(towers: Dict<Tower>, ids: seq<string>, d: Difficulty)
    ensures forall k :: k in CompareCosts(towers, ids, d).items <==> k in ids && k in towers.items
    ensures forall k :: k in CompareCosts(towers, ids, d).items ==>
              CompareCosts(towers, ids, d).items[k] == CostAt(towers.items[k].cost, d)
    decreases |ids|
  {
    if ids != [] {
      var init := ids[..|ids| - 1];
      CompareCostsSpec(towers, init, d);
      assert ids == init + [ids[|ids| - 1]];
    }
  }

  /** Asking for an id a second time changes neither the keys nor their order. */
  lemma CompareCostsRepeat(towers: Dict<Tower>, ids: seq<string>, x: string, d: Difficulty)
    requires x in ids
    ensures CompareCosts(towers, ids + [x], d) == CompareCosts(towers, ids, d)
  {
    assert (ids + [x])[..|ids|] == ids;
    CompareCostsSpec(towers, ids, d);
  }

  /** A stored tower asked for the first time comes last in the result. */
  lemma CompareCostsNew(towers: Dict<Tower>, ids: seq<string>, x: string, d: Difficulty)
    requires x !in ids && x in towers.items
    ensures CompareCosts(towers, ids + [x], d).keys == CompareCosts(towers, ids, d).keys + [x]
  {
    assert (ids + [x])[..|ids|] == ids;
    CompareCostsSpec(towers, ids, d);
  }

  /** `compare_tower_costs`: the loop over the requested ids. */
  method CompareTowerCosts(store: TowerDataStore, ids: seq<string>, difficulty: Difficulty) returns (costs: Dict<int>)
    requires store.Valid()
    ensures costs == CompareCosts(store.towers, ids, difficulty)
  {
    costs := Empty();
    var i := 0;
    while i < |ids|
      invariant 0 <= i <= |ids|
      invariant costs == CompareCosts(store.towers, ids[..i], difficulty)
    {
      assert ids[..i + 1][..i] == ids[..i];
      var tower := store.GetTower(ids[i]);
      if tower.Some? {
        costs := Put(costs, ids[i], CostAt(tower.value.cost, difficulty));
      }
      i := i + 1;
    }
    assert ids[..i] == ids;
  }

  // ---- sorting upgrades by tier ----------------------------------------------------------------

  function OnPath(p: UpgradePath): TowerUpgrade -> bool
  {
    (u: TowerUpgrade) => u.path == p
  }

  function HasTier(k: int): TowerUpgrade -> bool
  {
    (u: TowerUpgrade) => u.tier == k
  }

  function TierAtLeast(k: int): TowerUpgrade -> bool
  {
    (u: TowerUpgrade) => u.tier >= k
  }

  /** The upgrades of tier `k`, then those of tier `k + 1`, up to tier 5,
      each group in its original order. */
  function TiersFrom(us: seq<TowerUpgrade>, k: int): seq<TowerUpgrade>
    decreases 6 - k
  {
    if k > 5 then [] else Filter(us, HasTier(k)) + TiersFrom(us, k + 1)
  }

  /** `sorted(us, key=lambda x: x.tier)`. The sort is stable and a tier is
      1 to 5, so the result is the tier groups in increasing tier. */
  function SortByTier(us: seq<TowerUpgrade>): seq<TowerUpgrade>
  {
    TiersFrom(us, 1)
  }

  predicate SortedByTier(us: seq<TowerUpgrade>)
  {
    forall i, j :: 0 <= i < j < |us| ==> us[i].tier <= us[j].tier
  }

  /** The groups from tier `k` on are in increasing tier, and each tier is at least `k`. */
  lemma {:induction false} TiersFromSorted(us: seq<TowerUpgrade>, k: int)
    ensures forall i :: 0 <= i < |TiersFrom(us, k)| ==> TiersFrom(us, k)[i].tier >= k
    ensures SortedByTier(TiersFrom(us, k))
    decreases 6 - k
  {
    if k <= 5 {
      TiersFromSorted(us, k + 1);
      var a := Filter(us, HasTier(k));
      var b := TiersFrom(us, k + 1);
      var r := a + b;
      forall i | 0 <= i < |r| ensures r[i].tier >= k {
        if i >= |a| { assert r[i] == b[i - |a|]; }
      }
      forall i, j | 0 <= i < j < |r| ensures r[i].tier <= r[j].tier {
        if j < |a| {
          assert r[i] == a[i] && r[j] == a[j];
        } else if i < |a| {
          assert r[i] == a[i] && r[j] == b[j - |a|];
        } else {
          assert r[i] == b[i - |a|] && r[j] == b[j - |a|];
        }
      }
    }
  }

  /** `f` added up over the elements. */
  function Sum<T>(s: seq<T>, f: T -> int): int
    decreases |s|
  {
    if s == [] then 0 else f(s[0]) + Sum(s[1..], f)
  }

  lemma {:induction false} SumAppend<T>(a: seq<T>, b: seq<T>, f: T -> int)
    ensures Sum(a + b, f) == Sum(a, f) + Sum(b, f)
    decreases |a|
  {
    if a == [] {
      assert a + b == b;
    } else {
      assert (a + b)[0] == a[0] && (a + b)[1..] == a[1..] + b;
      SumAppend(a[1..], b, f);
    }
  }

  /** When `p` holds exactly where one of `q` and `r` does, the elements that
      pass `p` are those that pass `q` and those that pass `r`. */
  lemma {:induction false} FilterSplit<T>(s: seq<T>, p: T -> bool, q: T -> bool, r: T -> bool)
    requires forall x :: p(x) == (q(x) || r(x))
    requires forall x :: !(q(x) && r(x))
    ensures multiset(Filter(s, p)) == multiset(Filter(s, q)) + multiset(Filter(s, r))
    decreases |s|
  {
    if s != [] {
      FilterSplit(s[1..], p, q, r);
      var x := s[0];
      assert Filter(s, p) == (if p(x) then [x] else []) + Filter(s[1..], p);
      assert Filter(s, q) == (if q(x) then [x] else []) + Filter(s[1..], q);
      assert Filter(s, r) == (if r(x) then [x] else []) + Filter(s[1..], r);
    }
  }

  /** The same split, for a total over the elements. */
  lemma {:induction false} FilterSplitSum<T>(s: seq<T>, p: T -> bool, q: T -> bool, r: T -> bool, f: T -> int)
    requires forall x :: p(x) == (q(x) || r(x))
    requires forall x :: !(q(x) && r(x))
    ensures Sum(Filter(s, p), f) == Sum(Filter(s, q), f) + Sum(Filter(s, r), f)
    decreases |s|
  {
    if s != [] {
      FilterSplitSum(s[1..], p, q, r, f);
      var x := s[0];
      var hp := if p(x) then [x] else [];
      var hq := if q(x) then [x] else [];
      var hr := if r(x) then [x] else [];
      assert Filter(s, p) == hp + Filter(s[1..], p);
      assert Filter(s, q) == hq + Filter(s[1..], q);
      assert Filter(s, r) == hr + Filter(s[1..], r);
      SumAppend(hp, Filter(s[1..], p), f);
      SumAppend(hq, Filter(s[1..], q), f);
      SumAppend(hr, Filter(s[1..], r), f);
    }
  }

  /** Filtering again by a weaker test keeps everything. */
  lemma {:induction false} FilterWithin<T>(s: seq<T>, q: T -> bool, r: T -> bool)
    requires forall x :: q(x) ==> r(x)
    ensures Filter(Filter(s, q), r) == Filter(s, q)
    decreases |s|
  {
    if s != [] {
      FilterWithin(s[1..], q, r);
      var rest := Filter(s[1..], q);
      var fs := Filter(s, q);
      if q(s[0]) {
        assert fs == [s[0]] + rest;
        assert fs[0] == s[0] && fs[1..] == rest;
      } else {
        assert fs == rest;
      }
    }
  }

  /** Filtering again by a test no kept element passes keeps nothing. */
  lemma {:induction false} FilterDisjoint<T>(s: seq<T>, q: T -> bool, r: T -> bool)
    requires forall x :: q(x) ==> !r(x)
    ensures Filter(Filter(s, q), r) == []
    decreases |s|
  {
    if s != [] {
      FilterDisjoint(s[1..], q, r);
      var rest := Filter(s[1..], q);
      var fs := Filter(s, q);
      if q(s[0]) {
        assert fs == [s[0]] + rest;
        assert fs[0] == s[0] && fs[1..] == rest;
      } else {
        assert fs == rest;
      }
    }
  }

  /** The price of an upgrade at a difficulty. */
  function PriceAt(d: Difficulty): TowerUpgrade -> int
  {
    (u: TowerUpgrade) => CostAt(u.cost, d)
  }

  /** The groups from tier `k` on hold exactly the upgrades of tier at least
      `k`, with the same total price. */
  lemma {:induction false} TiersFromContents(us: seq<TowerUpgrade>, k: int, f: TowerUpgrade -> int)
    ensures multiset(TiersFrom(us, k)) == multiset(Filter(us, TierAtLeast(k)))
    ensures Sum(TiersFrom(us, k), f) == Sum(Filter(us, TierAtLeast(k)), f)
    decreases 6 - k
  {
    if k > 5 {
      FilterNone(us, TierAtLeast(k));
    } else {
      TiersFromContents(us, k + 1, f);
      FilterSplit(us, TierAtLeast(k), HasTier(k), TierAtLeast(k + 1));
      FilterSplitSum(us, TierAtLeast(k), HasTier(k), TierAtLeast(k + 1), f);
      SumAppend(Filter(us, HasTier(k)), TiersFrom(us, k + 1), f);
    }
  }

  /** In the groups from tier `k` on, the upgrades of one tier appear in their original order. */
  lemma {:induction false} TiersFromStable(us: seq<TowerUpgrade>, k: int, j: int)
    ensures Filter(TiersFrom(us, k), HasTier(j)) == if k <= j <= 5 then Filter(us, HasTier(j)) else []
    decreases 6 - k
  {
    if k <= 5 {
      TiersFromStable(us, k + 1, j);
      FilterAppend(Filter(us, HasTier(k)), TiersFrom(us, k + 1), HasTier(j));
      if j == k {
        FilterWithin(us, HasTier(k), HasTier(j));
        assert Filter(us, HasTier(j)) + [] == Filter(us, HasTier(j));
      } else {
        FilterDisjoint(us, HasTier(k), HasTier(j));
      }
    } else {
      assert Filter([], HasTier(j)) == [];
    }
  }

  /** Sorting by tier puts the upgrades in increasing tier, loses and adds
      none, and so keeps any total over them. */
  lemma SortByTierSpec(us: seq<TowerUpgrade>, f: TowerUpgrade -> int)
    ensures SortedByTier(SortByTier(us))
    ensures multiset(SortByTier(us)) == multiset(us)
    ensures |SortByTier(us)| == |us|
    ensures Sum(SortByTier(us), f) == Sum(us, f)
  {
    TiersFromSorted(us, 1);
    TiersFromContents(us, 1, f);
    FilterAll(us, TierAtLeast(1));
    assert |multiset(SortByTier(us))| == |multiset(us)|;
  }

  /** Sorting by tier is stable: the upgrades of each tier keep their order. */
  lemma SortByTierStable(us: seq<TowerUpgrade>, k: int)
    ensures Filter(SortByTier(us), HasTier(k)) == Filter(us, HasTier(k))
  {
    TiersFromStable(us, 1, k);
    if !(1 <= k <= 5) {
      FilterNone(us, HasTier(k));
    }
  }

  /** How many times `u` occurs among the elements that pass `p`. */
  lemma {:induction false} FilterMultiplicity<T>(s: seq<T>, p: T -> bool, u: T)
    ensures multiset(Filter(s, p))[u] == if p(u) then multiset(s)[u] else 0
    decreases |s|
  {
    if s != [] {
      FilterMultiplicity(s[1..], p, u);
      assert s == [s[0]] + s[1..];
    }
  }

  // ---- get_upgrade_path ---------------------------------------------------------------------

  /** The upgrades `get_upgrade_path` returns for the tower it looked up: none
      for an unknown tower, otherwise every upgrade of the path, each as often
      as the tower lists it, in increasing tier, upgrades of equal tier in the
      tower's order. */
  function PathUpgrades(tower: Option<Tower>, p: UpgradePath): (r: seq<TowerUpgrade>)
    ensures tower.None? ==> r == []
    ensures tower.Some? ==> forall u :: multiset(r)[u] == if u.path == p then multiset(tower.value.upgrades)[u] else 0
    ensures SortedByTier(r)
    ensures tower.Some? ==> forall k :: Filter(r, HasTier(k)) == Filter(Filter(tower.value.upgrades, OnPath(p)), HasTier(k))
  {
    match tower
    case None => []
    case Some(t) =>
      var onPath := Filter(t.upgrades, OnPath(p));
      SortByTierSpec(onPath, PriceAt(Medium));
      forall k ensures Filter(SortByTier(onPath), HasTier(k)) == Filter(onPath, HasTier(k)) {
        SortByTierStable(onPath, k);
      }
      forall u ensures multiset(SortByTier(onPath))[u] == if u.path == p then multiset(t.upgrades)[u] else 0 {
        FilterMultiplicity(t.upgrades, OnPath(p), u);
      }
      SortByTier(onPath)
  }

  /** `get_upgrade_path`, on the shared store. */
  function GetUpgradePath(store: TowerDataStore, id: string, p: UpgradePath): (r: seq<TowerUpgrade>)
    requires store.Valid()
    reads store
    ensures id !in store.towers.items ==> r == []
    ensures id in store.towers.items ==> r == PathUpgrades(Some(store.towers.items[id]), p)
  {
    PathUpgrades(store.GetTower(id), p)
  }

  // ---- calculate_total_upgrade_cost ---------------------------------------------------------

  /** One entry of `upgrades` in the report: `{"name", "tier", "cost"}`. */
  datatype UpgradeLine = UpgradeLine(name: string, tier: int, cost: int)

  /** The dictionary `calculate_total_upgrade_cost` returns: the error entry
      for an unknown tower, or the report. */
  datatype CostReport =
    | TowerNotFound
    | Report(towerId: string, path: UpgradePath, targetTier: int, difficulty: Difficulty,
             baseCost: int, upgrades: seq<UpgradeLine>, totalUpgradeCost: int, totalCost: int)

  function UpToTier(p: UpgradePath, tier: int): TowerUpgrade -> bool
  {
    (u: TowerUpgrade) => u.path == p && u.tier <= tier
  }

  function LineOf(d: Difficulty): TowerUpgrade -> UpgradeLine
  {
    (u: TowerUpgrade) => UpgradeLine(u.name, u.tier, CostAt(u.cost, d))
  }

  /** The upgrades the report counts: those of the path up to the target
      tier, sorted by tier. */
  function Counted(t: Tower, p: UpgradePath, tier: int): seq<TowerUpgrade>
  {
    SortByTier(Filter(t.upgrades, UpToTier(p, tier)))
  }

  /** The counted upgrades are the path's upgrades up to the target tier, in
      increasing tier, and their total price does not depend on that order. */
  lemma CountedSpec(t: Tower, p: UpgradePath, tier: int, d: Difficulty)
    ensures |Counted(t, p, tier)| == |Filter(t.upgrades, UpToTier(p, tier))|
    ensures forall i :: 0 <= i < |Counted(t, p, tier)| ==>
              Counted(t, p, tier)[i].path == p && Counted(t, p, tier)[i].tier <= tier
    ensures SortedByTier(Counted(t, p, tier))
    ensures Sum(Counted(t, p, tier), PriceAt(d)) == Sum(Filter(t.upgrades, UpToTier(p, tier)), PriceAt(d))
  {
    var sel := Filter(t.upgrades, UpToTier(p, tier));
    SortByTierSpec(sel, PriceAt(d));
    var counted := SortByTier(sel);
    forall i | 0 <= i < |counted| ensures counted[i].path == p && counted[i].tier <= tier {
      assert counted[i] in multiset(sel);
      FilterMembers(t.upgrades, UpToTier(p, tier), counted[i]);
    }
  }

  /** The report for the tower `get_tower` found (or did not find). */
  function TotalUpgradeCost(tower: Option<Tower>, id: string, p: UpgradePath, tier: int, d: Difficulty): CostReport
  {
    match tower
    case None => TowerNotFound
    case Some(t) =>
      var counted := Counted(t, p, tier);
      var sum := Sum(counted, PriceAt(d));
      Report(id, p, tier, d, CostAt(t.cost, d), Map(counted, LineOf(d)), sum, CostAt(t.cost, d) + sum)
  }

  /** The loop of `calculate_total_upgrade_cost`: one line per upgrade, and
      the running total of their prices. */
  method ListUpgrades(ups: seq<TowerUpgrade>, d: Difficulty) returns (lines: seq<UpgradeLine>, total: int)
    ensures lines == Map(ups, LineOf(d))
    ensures total == Sum(ups, PriceAt(d))
  {
    lines := [];
    total := 0;
    var i := 0;
    while i < |ups|
      invariant 0 <= i <= |ups|
      invariant lines == Map(ups[..i], LineOf(d))
      invariant total == Sum(ups[..i], PriceAt(d))
    {
      var u := ups[i];
      var cost := CostAt(u.cost, d);
      assert ups[..i + 1] == ups[..i] + [u];
      MapAppend(ups[..i], [u], LineOf(d));
      SumAppend(ups[..i], [u], PriceAt(d));
      lines := lines + [UpgradeLine(u.name, u.tier, cost)];
      total := total + cost;
      i := i + 1;
    }
    assert ups[..i] == ups;
  }

  /** `calculate_total_upgrade_cost`. */
  method CalculateTotalUpgradeCost(store: TowerDataStore, id: string, p: UpgradePath, tier: int, d: Difficulty)
    returns (r: CostReport)
    requires store.Valid()
    ensures r == TotalUpgradeCost(store.GetTower(id), id, p, tier, d)
  {
    var tower := store.GetTower(id);
    if tower.None? {
      return TowerNotFound;
    }
    r := ReportFor(tower.value, id, p, tier, d);
  }

  /** The report of `calculate_total_upgrade_cost` once the tower is found. */
  method ReportFor(t: Tower, id: string, p: UpgradePath, tier: int, d: Difficulty) returns (r: CostReport)
    ensures r == TotalUpgradeCost(Some(t), id, p, tier, d)
  {
    var baseCost := CostAt(t.cost, d);
    var lines, total := ListUpgrades(Counted(t, p, tier), d);
    r := Report(id, p, tier, d, baseCost, lines, total, baseCost + total);
  }

  /** The report answers for an unknown tower with the error entry; otherwise
      the base price is the tower's at the difficulty, the upgrade total is
      the price of the path's upgrades up to the target tier (whatever their
      order in the tower), the total adds the two, and the listed upgrades
      are those upgrades in increasing tier, each with its price. */
  lemma TotalUpgradeCostSpec(tower: Option<Tower>, id: string, p: UpgradePath, tier: int, d: Difficulty)
    ensures TotalUpgradeCost(tower, id, p, tier, d).TowerNotFound? <==> tower.None?
    ensures tower.Some? ==>
              var r := TotalUpgradeCost(tower, id, p, tier, d);
              && r.baseCost == CostAt(tower.value.cost, d)
              && r.totalUpgradeCost == Sum(Filter(tower.value.upgrades, UpToTier(p, tier)), PriceAt(d))
              && r.totalCost == r.baseCost + r.totalUpgradeCost
              && |r.upgrades| == |Filter(tower.value.upgrades, UpToTier(p, tier))|
              && (forall i :: 0 <= i < |r.upgrades| ==> r.upgrades[i].tier <= tier)
              && (forall i, j :: 0 <= i < j < |r.upgrades| ==> r.upgrades[i].tier <= r.upgrades[j].tier)
    ensures tower.Some? ==>
              var r := TotalUpgradeCost(tower, id, p, tier, d);
              && multiset(r.upgrades) == multiset(Map(Filter(tower.value.upgrades, UpToTier(p, tier)), LineOf(d)))
              && forall i :: 0 <= i < |r.upgrades| ==>
                   exists u :: u in Filter(tower.value.upgrades, UpToTier(p, tier)) &&
                               r.upgrades[i] == UpgradeLine(u.name, u.tier, CostAt(u.cost, d))
  {
    if tower.Some? {
      var t := tower.value;
      CountedSpec(t, p, tier, d);
      MapIndex(Counted(t, p, tier), LineOf(d));
      CountedLines(t, p, tier, d);
      CountedLineOrigin(t, p, tier, d);
    }
  }

  /** The report's lines are the lines of the selected upgrades, rearranged. */
  lemma CountedLines(t: Tower, p: UpgradePath, tier: int, d: Difficulty)
    ensures multiset(Map(Counted(t, p, tier), LineOf(d))) == multiset(Map(Filter(t.upgrades, UpToTier(p, tier)), LineOf(d)))
  {
    var sel := Filter(t.upgrades, UpToTier(p, tier));
    assert multiset(Counted(t, p, tier)) == multiset(sel) by { SortByTierSpec(sel, PriceAt(d)); }
    MapMultiset(Counted(t, p, tier), sel, LineOf(d));
  }

  /** Each line of the report carries the name, tier and price of one of the
      selected upgrades. */
  lemma CountedLineOrigin(t: Tower, p: UpgradePath, tier: int, d: Difficulty)
    ensures forall i :: 0 <= i < |Map(Counted(t, p, tier), LineOf(d))| ==>
              exists u :: u in Filter(t.upgrades, UpToTier(p, tier)) &&
                          Map(Counted(t, p, tier), LineOf(d))[i] == UpgradeLine(u.name, u.tier, CostAt(u.cost, d))
  {
    var sel := Filter(t.upgrades, UpToTier(p, tier));
    var counted := Counted(t, p, tier);
    assert multiset(counted) == multiset(sel) by { SortByTierSpec(sel, PriceAt(d)); }
    forall i | 0 <= i < |Map(counted, LineOf(d))|
      ensures exists u :: u in sel && Map(counted, LineOf(d))[i] == UpgradeLine(u.name, u.tier, CostAt(u.cost, d))
    {
      LineFrom(counted, sel, d, i);
    }
  }

  /** The `i`-th line of a rearrangement of `sel` is the line of an upgrade in `sel`. */
  lemma LineFrom(counted: seq<TowerUpgrade>, sel: seq<TowerUpgrade>, d: Difficulty, i: int)
    requires multiset(counted) == multiset(sel) && 0 <= i < |counted|
    ensures i < |Map(counted, LineOf(d))|
    ensures exists u :: u in sel && Map(counted, LineOf(d))[i] == UpgradeLine(u.name, u.tier, CostAt(u.cost, d))
  {
    MapIndex(counted, LineOf(d));
    var u := counted[i];
    assert u in multiset(sel);
    assert Map(counted, LineOf(d))[i] == UpgradeLine(u.name, u.tier, CostAt(u.cost, d));
  }

  /** A target tier below 1 counts no upgrade: the total is the base price. */
  lemma BelowFirstTier(t: Tower, id: string, p: UpgradePath, tier: int, d: Difficulty)
    requires tier < 1
    ensures TotalUpgradeCost(Some(t), id, p, tier, d).upgrades == []
    ensures TotalUpgradeCost(Some(t), id, p, tier, d).totalCost == CostAt(t.cost, d)
  {
    assert Counted(t, p, tier) == [] by {
      FilterNone(t.upgrades, UpToTier(p, tier));
      CountedSpec(t, p, tier, d);
    }
  }

  /** A tower whose upgrades are all on the path and within the tier counts them all. */
  lemma {:induction false} AllUpTo(us: seq<TowerUpgrade>, p: UpgradePath, tier: int)
    requires forall i :: 0 <= i < |us| ==> us[i].path == p && us[i].tier <= tier
    ensures Filter(us, UpToTier(p, tier)) == us
    decreases |us|
  {
    if us != [] {
      AllUpTo(us[1..], p, tier);
      assert us == [us[0]] + us[1..];
    }
  }

  /** The Dart Monkey's top path to tier 2 on medium: 200 for the monkey,
      140 and 200 for its two upgrades, 540 in all. */
  lemma DartMonkeyTopTwo()
    ensures TotalUpgradeCost(Some(DartMonkey), "dart_monkey", Top, 2, Medium).totalCost == 540
  {
    var us := DartMonkey.upgrades;
    assert Filter(us, UpToTier(Top, 2)) == us by {
      AllUpTo(us, Top, 2);
    }
    assert Sum(us, PriceAt(Medium)) == 340 by {
      assert us == [us[0], us[1]];
      SumPair(us[0], us[1], PriceAt(Medium));
    }
    TotalUpgradeCostSpec(Some(DartMonkey), "dart_monkey", Top, 2, Medium);
  }

  lemma SumPair<T>(a: T, b: T, f: T -> int)
    ensures Sum([a, b], f) == f(a) + f(b)
  {
    assert [a, b][1..] == [b];
    assert [b][1..] == [];
    assert Sum([b], f) == f(b) + Sum([], f);
  }
}
