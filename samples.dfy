/** The records `_load_sample_data` stores: three towers and one hero. */
module Samples {
  import opened Wrappers
  import opened Dicts
  import opened Towers

  const DartMonkey := Tower(
    "dart_monkey", "Dart Monkey", Primary, Costs(170, 200, 215, 240),
    "Hurls sharp darts that can pop one bloon each.",
    DefaultStats(1, 1, 32, Some(100)),
    [ TowerUpgrade("Sharp Shots", Top, 1, Costs(120, 140, 150, 170),
                   "+1 pierce. Darts can pop one extra bloon.", None),
      TowerUpgrade("Razor Sharp Shots", Top, 2, Costs(170, 200, 215, 240),
                   "+2 pierce. Darts can now pop 2 extra bloons for a total of 4.", None) ],
    Some("Q"))

  const BoomerangMonkey := Tower(
    "boomerang_monkey", "Boomerang Monkey", Primary, Costs(270, 325, 350, 390),
    "Throws boomerangs that travel in a wide arc, popping bloons along the way.",
    DefaultStats(1, 3, 43, Some(80)),
    [],
    Some("W"))

  const SniperMonkey := Tower(
    "sniper_monkey", "Sniper Monkey", Military, Costs(300, 350, 380, 420),
    "Long range sniper that can target any bloon on screen.",
    DefaultStats(2, 1, 999, Some(999)).(camoDetection := true),
    [],
    Some("Z"))

  const Quincy := Hero(
    "quincy", "Quincy",
    "Quincy is a reliable archer hero who starts with a bow and gets various upgrades.",
    470,
    [ "Rapid Shot - Quincy shoots really fast for a short time",
      "Storm of Arrows - Quincy shoots a devastating barrage of arrows" ],
    [0, 180, 460, 1000, 1860, 3280, 5180, 8320, 9380, 13620,
     16380, 14400, 16650, 14940, 16380, 17820, 19260, 20700, 16200, 17820])

  /** The towers after `_load_sample_data`: the three sample towers stored
      under their ids over whatever was already there. */
  function SampleTowers(ts: Dict<Tower>): Dict<Tower>
    requires Consistent(ts)
  {
    Put(Put(Put(ts, DartMonkey.id, DartMonkey), BoomerangMonkey.id, BoomerangMonkey), SniperMonkey.id, SniperMonkey)
  }

  function SampleHeroes(hs: Dict<Hero>): Dict<Hero>
    requires Consistent(hs)
  {
    Put(hs, Quincy.id, Quincy)
  }

  /** The sample ids are the ids the file loader would derive from the sample names. */
  lemma SampleIdsDerived()
    ensures DartMonkey.id == TowerId(DartMonkey.name)
    ensures BoomerangMonkey.id == TowerId(BoomerangMonkey.name)
    ensures SniperMonkey.id == TowerId(SniperMonkey.name)
    ensures Quincy.id == HeroId(Quincy.name)
  {
    DartMonkeyId(DartMonkey.name, DartMonkey.id);
    BoomerangMonkeyId(BoomerangMonkey.name, BoomerangMonkey.id);
    SniperMonkeyId(SniperMonkey.name, SniperMonkey.id);
    HeroIdOfName(Quincy.name, Quincy.id);
  }

  lemma DartMonkeyId(name: string, id: string)
    requires name == "Dart Monkey" && id == "dart_monkey"
    ensures TowerId(name) == id
  {
  }

  lemma BoomerangMonkeyId(name: string, id: string)
    requires name == "Boomerang Monkey" && id == "boomerang_monkey"
    ensures TowerId(name) == id
  {
  }

  lemma SniperMonkeyId(name: string, id: string)
    requires name == "Sniper Monkey" && id == "sniper_monkey"
    ensures TowerId(name) == id
  {
  }

  lemma HeroIdOfName(name: string, id: string)
    requires name == "Quincy" && id == "quincy"
    ensures HeroId(name) == id
  {
  }

  /** The sample records do not pop frozen bloons: unlike the file loader,
      they take the statistics record's own default. */
  lemma SampleStatsDefaults()
    ensures !DartMonkey.baseStats.frozenPopping && !BoomerangMonkey.baseStats.frozenPopping
    ensures !SniperMonkey.baseStats.frozenPopping && SniperMonkey.baseStats.camoDetection
  {
  }

  /** Storing the samples keeps every key already present. */
  lemma SampleTowersKeep(ts: Dict<Tower>)
    requires Consistent(ts)
    ensures forall k :: k in ts.items ==> k in SampleTowers(ts).items
  {
  }

  /** On an empty store the samples are stored in their listed order. */
  lemma SampleTowersFresh()
    ensures SampleTowers(Empty()).keys == [DartMonkey.id, BoomerangMonkey.id, SniperMonkey.id]
    ensures Values(SampleTowers(Empty())) == [DartMonkey, BoomerangMonkey, SniperMonkey]
    ensures Values(SampleHeroes(Empty())) == [Quincy]
  {
    assert |BoomerangMonkey.id| != |DartMonkey.id|;
    assert |SniperMonkey.id| != |DartMonkey.id| && |SniperMonkey.id| != |BoomerangMonkey.id|;
    PutThreeFresh(DartMonkey.id, BoomerangMonkey.id, SniperMonkey.id, DartMonkey, BoomerangMonkey, SniperMonkey);
    PutOneFresh(Quincy.id, Quincy);
  }
}
