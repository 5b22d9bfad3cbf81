/** The records of the tower-stats server: towers, their upgrades and base
    statistics, heroes, and the conversion of the JSON data file's records
    into them (ids, defaults, and the checks the record models enforce). */
module Towers {
  import opened Wrappers
  import opened Strings

  datatype UpgradePath = Top | Middle | Bottom
  datatype Category = Primary | Military | Magic | Support
  datatype Difficulty = Easy | Medium | Hard | Impoppable

  /** The four per-difficulty prices of a tower or an upgrade
      (`cost_easy`, `cost_medium`, `cost_hard`, `cost_impoppable`). */
  datatype Costs = Costs(easy: int, medium: int, hard: int, impoppable: int)

  /** An upgrade tier: the record model accepts 1 to 5 only. */
  type Tier = t: int | 1 <= t <= 5 witness 1

  datatype TowerUpgrade = TowerUpgrade(
    name: string,
    path: UpgradePath,
    tier: Tier,
    cost: Costs,
    description: string,
    abilityDescription: Option<string>)

  /** Base statistics; the float `attack_speed` is not part of this model. */
  datatype TowerStats = TowerStats(
    damage: int,
    pierce: int,
    range: int,
    projectileSpeed: Option<int>,
    camoDetection: bool,
    leadPopping: bool,
    frozenPopping: bool)

  datatype Tower = Tower(
    id: string,
    name: string,
    category: Category,
    cost: Costs,
    description: string,
    baseStats: TowerStats,
    upgrades: seq<TowerUpgrade>,
    hotkey: Option<string>)

  datatype Hero = Hero(
    id: string,
    name: string,
    description: string,
    cost: int,
    abilities: seq<string>,
    levelRequirements: seq<int>)

  // ---- names of the literal values --------------------------------------------------

  function PathName(p: UpgradePath): string
  {
    match p
    case Top => "top"
    case Middle => "middle"
    case Bottom => "bottom"
  }

  function CategoryName(c: Category): string
  {
    match c
    case Primary => "Primary"
    case Military => "Military"
    case Magic => "Magic"
    case Support => "Support"
  }

  /** The `Literal["top", "middle", "bottom"]` check of an upgrade's path. */
  function ParsePath(s: string): (r: Option<UpgradePath>)
  {
    if s == "top" then Some(Top)
    else if s == "middle" then Some(Middle)
    else if s == "bottom" then Some(Bottom)
    else None
  }

  /** The `Literal["Primary", "Military", "Magic", "Support"]` check of a tower's category. */
  function ParseCategory(s: string): (r: Option<Category>)
  {
    if s == "Primary" then Some(Primary)
    else if s == "Military" then Some(Military)
    else if s == "Magic" then Some(Magic)
    else if s == "Support" then Some(Support)
    else None
  }

  /** The path check accepts exactly the three path names, each as its own path. */
  lemma PathNames(p: UpgradePath, s: string)
    ensures ParsePath(PathName(p)) == Some(p)
    ensures ParsePath(s) == Some(p) ==> s == PathName(p)
    ensures ParsePath(s).None? <==> s !in {"top", "middle", "bottom"}
  {
  }

  /** The category check accepts exactly the four category names, case included. */
  lemma CategoryNames(c: Category, s: string)
    ensures ParseCategory(CategoryName(c)) == Some(c)
    ensures ParseCategory(s) == Some(c) ==> s == CategoryName(c)
    ensures ParseCategory(s).None? <==> s !in {"Primary", "Military", "Magic", "Support"}
  {
  }

  /** The price for a difficulty: the `if difficulty == "easy" … elif …` chains. */
  function CostAt(c: Costs, d: Difficulty): int
  {
    match d
    case Easy => c.easy
    case Medium => c.medium
    case Hard => c.hard
    case Impoppable => c.impoppable
  }

  // ---- ids ------------------------------------------------------------------------------

  /** `s.replace(c, d)` for one character each: every `c` becomes `d`. */
  function ReplaceChar(s: string, c: char, d: char): (r: string)
    ensures |r| == |s|
    ensures forall i :: 0 <= i < |s| ==> r[i] == if s[i] == c then d else s[i]
  {
    seq(|s|, i requires 0 <= i < |s| => if s[i] == c then d else s[i])
  }

  /** A one-character `str.replace` is the general replacement on that character. */
  lemma {:induction false} ReplaceCharIsReplaceAll(s: string, c: char, d: char)
    ensures ReplaceAll(s, [c], [d]) == ReplaceChar(s, c, d)
    decreases |s|
  {
    if |s| >= 1 {
      ReplaceCharIsReplaceAll(s[1..], c, d);
      assert ReplaceChar(s, c, d) == [if s[0] == c then d else s[0]] + ReplaceChar(s[1..], c, d);
      if s[..1] == [c] {
        assert s[1..] == s[|[c]|..];
      } else {
        assert s[0] != c;
      }
    }
  }

  /** A tower's id from its name: lowercased, with spaces and `-` turned into `_`. */
  function TowerId(name: string): (id: string)
  {
    ReplaceChar(ReplaceChar(Lower(name), ' ', '_'), '-', '_')
  }

  /** A hero's id from its name: lowercased, with spaces turned into `_`. */
  function HeroId(name: string): (id: string)
  {
    ReplaceChar(Lower(name), ' ', '_')
  }

  /** A tower id keeps the name's length and letters, lowercased, and has no
      capital, space or hyphen; every other character is the name's own. */
  lemma TowerIdShape(name: string)
    ensures var id := TowerId(name);
            |id| == |name| && NoUpper(id) && ' ' !in id && '-' !in id
            && forall i :: 0 <= i < |name| ==>
                 id[i] == if name[i] == ' ' || name[i] == '-' then '_' else LowerChar(name[i])
  {
    var id := TowerId(name);
    forall i | 0 <= i < |name|
      ensures id[i] == if name[i] == ' ' || name[i] == '-' then '_' else LowerChar(name[i])
    {
      assert LowerChar(name[i]) == ' ' <==> name[i] == ' ';
      assert LowerChar(name[i]) == '-' <==> name[i] == '-';
    }
  }

  /** A hero id maps only spaces: a hyphen in a name survives in the hero
      id but not in the tower id, and otherwise the two derivations agree. */
  lemma HeroIdKeepsHyphens(name: string)
    ensures TowerId(name) == ReplaceChar(HeroId(name), '-', '_')
    ensures '-' in name <==> HeroId(name) != TowerId(name)
  {
    if '-' in name {
      var i :| 0 <= i < |name| && name[i] == '-';
      assert HeroId(name)[i] == '-' && TowerId(name)[i] == '_';
    } else {
      forall i | 0 <= i < |name| ensures HeroId(name)[i] == TowerId(name)[i] {
        assert LowerChar(name[i]) != '-';
      }
    }
  }

  // ---- the JSON data file ---------------------------------------------------------------

  /** A `{"easy": …, "medium": …, "hard": …, "impoppable": …}` price object. */
  type PriceTable = map<string, int>

  /** The raw records of the data file; a field is `None` when its key is absent. */
  datatype RawUpgrade = RawUpgrade(
    name: Option<string>,
    path: Option<string>,
    tier: Option<int>,
    cost: Option<PriceTable>,
    description: Option<string>,
    abilityDescription: Option<string>)

  datatype RawStats = RawStats(
    damage: Option<int>,
    pierce: Option<int>,
    range: Option<int>,
    projectileSpeed: Option<int>,
    camoDetection: Option<bool>,
    leadPopping: Option<bool>,
    frozenPopping: Option<bool>)

  /** A tower record; a missing `upgrades` list reads as the empty list. */
  datatype RawTower = RawTower(
    name: Option<string>,
    category: Option<string>,
    baseCost: Option<PriceTable>,
    description: Option<string>,
    baseStats: Option<RawStats>,
    upgrades: seq<RawUpgrade>,
    hotkey: Option<string>)

  datatype RawHero = RawHero(
    name: Option<string>,
    description: Option<string>,
    cost: Option<int>,
    abilities: Option<seq<string>>,
    levelRequirements: Option<seq<int>>)

  /** The parsed file; a missing `towers` or `heroes` list reads as the empty list. */
  datatype DataFile = DataFile(towers: seq<RawTower>, heroes: seq<RawHero>)

  function GetOr<T>(o: Option<T>, default: T): T
  {
    if o.Some? then o.value else default
  }

  /** The four prices of a price object; `None` when a key is missing (a `KeyError`). */
  function ParseCosts(t: PriceTable): (r: Option<Costs>)
    ensures r.Some? <==> "easy" in t && "medium" in t && "hard" in t && "impoppable" in t
    ensures r.Some? ==> forall d :: CostAt(r.value, d) == t[PriceKey(d)]
  {
    if "easy" in t && "medium" in t && "hard" in t && "impoppable" in t
    then Some(Costs(t["easy"], t["medium"], t["hard"], t["impoppable"]))
    else None
  }

  /** The key of a difficulty in a price object. */
  function PriceKey(d: Difficulty): string
  {
    match d
    case Easy => "easy"
    case Medium => "medium"
    case Hard => "hard"
    case Impoppable => "impoppable"
  }

  /** One upgrade record; `None` when a required key is missing, the path is
      not one of the three names, or the tier is outside 1 to 5. */
  function ParseUpgrade(r: RawUpgrade): (u: Option<TowerUpgrade>)
    ensures u.Some? <==>
              r.name.Some? && r.path.Some? && ParsePath(r.path.value).Some?
              && r.tier.Some? && 1 <= r.tier.value <= 5
              && r.cost.Some? && ParseCosts(r.cost.value).Some? && r.description.Some?
    ensures u.Some? ==>
              u.value.name == r.name.value && PathName(u.value.path) == r.path.value
              && u.value.tier == r.tier.value && u.value.description == r.description.value
              && u.value.abilityDescription == r.abilityDescription
              && forall d :: CostAt(u.value.cost, d) == r.cost.value[PriceKey(d)]
  {
    if r.name.None? || r.path.None? || r.tier.None? || r.cost.None? || r.description.None? then None
    else
      var path := ParsePath(r.path.value);
      var cost := ParseCosts(r.cost.value);
      if path.None? || !(1 <= r.tier.value <= 5) || cost.None? then None
      else
        PathNames(path.value, r.path.value);
        Some(TowerUpgrade(r.name.value, path.value, r.tier.value, cost.value, r.description.value, r.abilityDescription))
  }

  /** Converting the upgrade records after the ones already converted into
      `acc`; `None` as soon as one record fails. */
  function ParseUpgradesFrom(acc: seq<TowerUpgrade>, rs: seq<RawUpgrade>): (r: Option<seq<TowerUpgrade>>)
    ensures r.Some? <==> forall i :: 0 <= i < |rs| ==> ParseUpgrade(rs[i]).Some?
    ensures r.Some? ==>
              |r.value| == |acc| + |rs| && r.value[..|acc|] == acc
              && forall i :: 0 <= i < |rs| ==> r.value[|acc| + i] == ParseUpgrade(rs[i]).value
    decreases |rs|
  {
    if rs == [] then Some(acc)
    else match ParseUpgrade(rs[0])
      case None => None
      case Some(u) =>
        var r := ParseUpgradesFrom(acc + [u], rs[1..]);
        assert forall i :: 1 <= i < |rs| ==> rs[i] == rs[1..][i - 1];
        assert r.Some? ==> r.value[..|acc|] == (acc + [u])[..|acc|] == acc by {
          if r.Some? {
            assert r.value[..|acc|] == r.value[..|acc + [u]|][..|acc|];
          }
        }
        r
  }

  /** The `upgrades` list of a tower record: every upgrade, in record order,
      or `None` when one of them fails. */
  function ParseUpgrades(rs: seq<RawUpgrade>): (r: Option<seq<TowerUpgrade>>)
  {
    ParseUpgradesFrom([], rs)
  }

  /** The base statistics of a tower record, with the loader's defaults for
      missing keys. */
  function StatsOf(r: RawStats): TowerStats
  {
    TowerStats(
      GetOr(r.damage, 0), GetOr(r.pierce, 1), GetOr(r.range, 30), r.projectileSpeed,
      GetOr(r.camoDetection, false), GetOr(r.leadPopping, false), GetOr(r.frozenPopping, true))
  }

  /** The defaults of the statistics record itself, used where the loader is not involved. */
  function DefaultStats(damage: int, pierce: int, range: int, projectileSpeed: Option<int>): TowerStats
  {
    TowerStats(damage, pierce, range, projectileSpeed, false, false, false)
  }

  /** Missing statistics load as damage 0, pierce 1, range 30, no
      projectile speed, and a tower that pops frozen bloons, although the
      statistics record on its own defaults to one that cannot. */
  lemma StatsDefaults(r: RawStats)
    requires r == RawStats(None, None, None, None, None, None, None)
    ensures StatsOf(r) == TowerStats(0, 1, 30, None, false, false, true)
    ensures StatsOf(r).frozenPopping != DefaultStats(0, 1, 30, None).frozenPopping
  {
  }

  /** One tower record; `None` when the record would raise: a missing key, an
      upgrade that fails, a category that is not one of the four names, or an
      incomplete price object. */
  function ParseTower(r: RawTower): (t: Option<Tower>)
    ensures t.Some? ==> r.name.Some? && t.value.id == TowerId(r.name.value)
  {
    if r.name.None? || r.baseStats.None? || r.category.None? || r.baseCost.None? || r.description.None? then None
    else
      var upgrades := ParseUpgrades(r.upgrades);
      var category := ParseCategory(r.category.value);
      var cost := ParseCosts(r.baseCost.value);
      if upgrades.None? || category.None? || cost.None? then None
      else
        Some(Tower(TowerId(r.name.value), r.name.value, category.value, cost.value, r.description.value,
                   StatsOf(r.baseStats.value), upgrades.value, r.hotkey))
  }

  /** A tower record converts exactly when every required key is present,
      every upgrade converts, the category is one of the four names and the
      base price object is complete; the tower then carries the record's
      fields, the derived id, the record's upgrades in order and the loaded
      statistics. */
  lemma ParseTowerSpec(r: RawTower)
    ensures var t := ParseTower(r);
            (t.Some? <==>
              r.name.Some? && ParseUpgrades(r.upgrades).Some? && r.baseStats.Some?
              && r.category.Some? && ParseCategory(r.category.value).Some?
              && r.baseCost.Some? && ParseCosts(r.baseCost.value).Some? && r.description.Some?)
            && (t.Some? ==>
              t.value.id == TowerId(r.name.value) && t.value.name == r.name.value
              && CategoryName(t.value.category) == r.category.value
              && t.value.upgrades == ParseUpgrades(r.upgrades).value
              && t.value.baseStats == StatsOf(r.baseStats.value)
              && t.value.description == r.description.value && t.value.hotkey == r.hotkey
              && forall d :: CostAt(t.value.cost, d) == r.baseCost.value[PriceKey(d)])
  {
    if ParseTower(r).Some? {
      CategoryNames(ParseTower(r).value.category, r.category.value);
    }
  }

  /** One hero record; `None` when a key is missing. */
  function ParseHero(r: RawHero): (h: Option<Hero>)
    ensures h.Some? <==>
              r.name.Some? && r.description.Some? && r.cost.Some? && r.abilities.Some? && r.levelRequirements.Some?
    ensures h.Some? ==>
              h.value.id == HeroId(r.name.value) && h.value.name == r.name.value
              && h.value.description == r.description.value && h.value.cost == r.cost.value
              && h.value.abilities == r.abilities.value && h.value.levelRequirements == r.levelRequirements.value
  {
    if r.name.None? || r.description.None? || r.cost.None? || r.abilities.None? || r.levelRequirements.None? then None
    else Some(Hero(HeroId(r.name.value), r.name.value, r.description.value, r.cost.value,
                   r.abilities.value, r.levelRequirements.value))
  }

  /** The conversion of one tower record in the loader's loop, with its inner
      loop over the upgrade records. */
  method ConvertTower(r: RawTower) returns (t: Option<Tower>)
    ensures t == ParseTower(r)
  {
    if r.name.None? {
      return None;
    }
    var id := TowerId(r.name.value);
    var upgrades: seq<TowerUpgrade> := [];
    var j := 0;
    while j < |r.upgrades|
      invariant 0 <= j <= |r.upgrades|
      invariant ParseUpgradesFrom(upgrades, r.upgrades[j..]) == ParseUpgrades(r.upgrades)
    {
      assert r.upgrades[j..][1..] == r.upgrades[j + 1..];
      var u := ParseUpgrade(r.upgrades[j]);
      if u.None? {
        return None;
      }
      upgrades := upgrades + [u.value];
      j := j + 1;
    }
    assert r.upgrades[j..] == [];
    if r.baseStats.None? || r.category.None? || r.baseCost.None? || r.description.None? {
      return None;
    }
    var stats := StatsOf(r.baseStats.value);
    var category := ParseCategory(r.category.value);
    var cost := ParseCosts(r.baseCost.value);
    if category.None? || cost.None? {
      return None;
    }
    t := Some(Tower(id, r.name.value, category.value, cost.value, r.description.value, stats, upgrades, r.hotkey));
  }
}
