/** The endpoints of the generated client: the method name both generators
    derive for each of them, and the proof that these thirty names are
    distinct, although the naming rule is not injective in general. */
module ClientPaths {
  import opened Strings
  import opened Naming
  import opened Paths
  import opened Segments

  // ---- the snake_case form of one name ----------------------------------------------

  /** How a name is written: all lowercase, ending in an acronym (`raceID`),
      or ending in one capitalised word (`teamSize`). */
  datatype Shape = Plain | Acronym(a: string, x: char, u: string) | Hump(a: string, x: char, c: char, v: string)

  predicate Fits(n: string, d: Shape)
  {
    match d
    case Plain => NoUpper(n)
    case Acronym(a, x, u) => n == a + [x] + u && NoUpper(a) && IsLowerOrDigit(x) && u != [] && AllUpper(u)
    case Hump(a, x, c, v) =>
      n == a + [x, c] + v && NoUpper(a) && x != '\n' && !IsUpper(x) && IsUpper(c) && v != [] && AllLower(v)
  }

  /** The snake_case form of a name of the given shape, written out. */
  function SnakeForm(n: string, d: Shape): string
  {
    match d
    case Plain => n
    case Acronym(a, x, u) => a + [x, '_'] + Lower(u)
    case Hump(a, x, c, v) => a + [x, '_', LowerChar(c)] + v
  }

  lemma SnakeFits(n: string, d: Shape)
    requires Fits(n, d)
    ensures Snake(n) == SnakeForm(n, d)
  {
    match d
    case Plain => SnakeNoUpper(n);
    case Acronym(a, x, u) => SnakeAcronymTail(a, x, u);
    case Hump(a, x, c, v) => SnakeHumpTail(a, x, c, v);
  }

  // ---- the pieces of a path -------------------------------------------------------

  /** The piece of a segment whose name has snake_case form `s`. */
  function Piece(param: bool, s: string): string
  {
    (if param then "_by_" else "_") + s
  }

  lemma PieceOf(g: Segment, s: string)
    requires Snake(g.name) == s
    ensures NamePiece(g) == Piece(g.Param?, s)
  {
  }

  lemma {:induction false} NamePiecesOf(segs: seq<Segment>, ps: seq<string>)
    requires |segs| == |ps| && forall k :: 0 <= k < |segs| ==> NamePiece(segs[k]) == ps[k]
    ensures NamePieces(segs) == Concat(ps)
    decreases |segs|
  {
    if segs != [] {
      NamePiecesOf(segs[1..], ps[1..]);
    }
  }

  /** The shape recorded for the `i`-th name; a name without one is taken as plain. */
  function ShapeAt(ds: seq<Shape>, i: nat): Shape
  {
    if i < |ds| then ds[i] else Plain
  }

  /** The method-name pieces of a path whose names have the shapes `ds`,
      written out without snake_case conversion. */
  function PieceForms(segs: seq<Segment>, ds: seq<Shape>): (ps: seq<string>)
    ensures |ps| == |segs|
  {
    seq(|segs|, i requires 0 <= i < |segs| => Piece(segs[i].Param?, SnakeForm(segs[i].name, ShapeAt(ds, i))))
  }

  /** Every name of the path has the shape recorded for it. */
  predicate Described(segs: seq<Segment>, ds: seq<Shape>)
  {
    |segs| == |ds| && forall i :: 0 <= i < |segs| ==> Fits(segs[i].name, ds[i])
  }

  /** Where every name has its recorded shape, the pieces of the method name are
      those `PieceForms` writes out. */
  lemma PathPieces(segs: seq<Segment>, ds: seq<Shape>)
    requires Described(segs, ds)
    ensures NamePieces(segs) == Concat(PieceForms(segs, ds))
  {
    var ps := PieceForms(segs, ds);
    forall i | 0 <= i < |segs| ensures NamePiece(segs[i]) == ps[i] {
      SnakeFits(segs[i].name, ds[i]);
      PieceOf(segs[i], SnakeForm(segs[i].name, ds[i]));
    }
    NamePiecesOf(segs, ps);
  }

  /** The method name of a well-formed path, from its pieces. */
  lemma ClientName(segs: seq<Segment>, ps: seq<string>)
    requires WellFormed(segs) && NamePieces(segs) == Concat(ps)
    ensures FunctionNameGen(Render(segs)) == "get" + Concat(ps)
    ensures FunctionNameCodegen(Render(segs)) == "get" + Concat(ps)
  {
    FunctionNameRender(segs);
  }

  // ---- an order on piece sequences ------------------------------------------------

  /** `a` comes before `b` at a character both of them have. */
  predicate CharsBefore(a: string, b: string)
    decreases |a|
  {
    a != [] && b != [] && (a[0] < b[0] || (a[0] == b[0] && CharsBefore(a[1..], b[1..])))
  }

  lemma {:induction false} CharsBeforeIrreflexive(a: string)
    ensures !CharsBefore(a, a)
    decreases |a|
  {
    if a != [] {
      CharsBeforeIrreflexive(a[1..]);
    }
  }

  lemma {:induction false} CharsBeforeTransitive(a: string, b: string, c: string)
    requires CharsBefore(a, b) && CharsBefore(b, c)
    ensures CharsBefore(a, c)
    decreases |a|
  {
    if a[0] == b[0] && b[0] == c[0] {
      CharsBeforeTransitive(a[1..], b[1..], c[1..]);
    }
  }

  /** Where `a` comes before `b`, the two differ at a position both have,
      after a common prefix. */
  lemma {:induction false} CharsBeforeDiffer(a: string, b: string) returns (j: nat)
    requires CharsBefore(a, b)
    ensures j < |a| && j < |b| && a[..j] == b[..j] && a[j] != b[j]
    decreases |a|
  {
    if a[0] < b[0] {
      j := 0;
    } else {
      var i := CharsBeforeDiffer(a[1..], b[1..]);
      j := i + 1;
      assert a[..j] == [a[0]] + a[1..][..i];
      assert b[..j] == [b[0]] + b[1..][..i];
    }
  }

  /** Lexicographic order on piece sequences: at the first piece that
      differs, the characters decide; a proper prefix comes first. */
  predicate PiecesBefore(ps: seq<string>, qs: seq<string>)
    decreases |ps|
  {
    if ps == [] then qs != [] && qs[0] != []
    else qs != [] && (if ps[0] == qs[0] then PiecesBefore(ps[1..], qs[1..]) else CharsBefore(ps[0], qs[0]))
  }

  lemma {:induction false} PiecesBeforeTransitive(ps: seq<string>, qs: seq<string>, rs: seq<string>)
    requires PiecesBefore(ps, qs) && PiecesBefore(qs, rs)
    ensures PiecesBefore(ps, rs)
    decreases |ps|
  {
    if ps != [] {
      if ps[0] == qs[0] && qs[0] == rs[0] {
        PiecesBeforeTransitive(ps[1..], qs[1..], rs[1..]);
      } else if ps[0] == qs[0] {
        CharsBeforeIrreflexive(ps[0]);
      } else if qs[0] == rs[0] {
        CharsBeforeIrreflexive(ps[0]);
      } else {
        CharsBeforeTransitive(ps[0], qs[0], rs[0]);
        CharsBeforeIrreflexive(ps[0]);
      }
    } else if qs[0] != rs[0] {
      assert CharsBefore(qs[0], rs[0]);
    }
  }

  /** Piece sequences in this order concatenate to different strings. */
  lemma {:induction false} PiecesBeforeConcat(ps: seq<string>, qs: seq<string>)
    requires PiecesBefore(ps, qs)
    ensures Concat(ps) != Concat(qs)
    decreases |ps|
  {
    if ps == [] {
      assert |Concat(qs)| >= |qs[0]|;
    } else if ps[0] == qs[0] {
      PiecesBeforeConcat(ps[1..], qs[1..]);
      var n := |ps[0]|;
      assert Concat(ps)[n..] == Concat(ps[1..]);
      assert Concat(qs)[n..] == Concat(qs[1..]);
    } else {
      var j := CharsBeforeDiffer(ps[0], qs[0]);
      assert Concat(ps)[j] == ps[0][j];
      assert Concat(qs)[j] == qs[0][j];
    }
  }

  predicate Ascending(ls: seq<seq<string>>)
  {
    forall i :: 0 <= i < |ls| - 1 ==> PiecesBefore(ls[i], ls[i + 1])
  }

  lemma {:induction false} AscendingPairs(ls: seq<seq<string>>, i: int, j: int)
    requires Ascending(ls) && 0 <= i < j < |ls|
    ensures PiecesBefore(ls[i], ls[j])
    decreases j - i
  {
    if j > i + 1 {
      AscendingPairs(ls, i, j - 1);
      PiecesBeforeTransitive(ls[i], ls[j - 1], ls[j]);
    }
  }

  /** Strings that agree before position `j` and differ there are ordered by that character. */
  lemma {:induction false} CharsBeforeAt(a: string, b: string, j: nat)
    requires j < |a| && j < |b| && a[..j] == b[..j] && a[j] < b[j]
    ensures CharsBefore(a, b)
    decreases j
  {
    if j > 0 {
      assert a[1..][..j - 1] == a[..j][1..];
      assert b[1..][..j - 1] == b[..j][1..];
      CharsBeforeAt(a[1..], b[1..], j - 1);
    }
  }

  /** Piece sequences that agree before position `j` are ordered by their `j`-th pieces. */
  lemma {:induction false} PiecesBeforeAt(ps: seq<string>, qs: seq<string>, j: nat)
    requires j < |ps| && j < |qs| && (forall i :: 0 <= i < j ==> ps[i] == qs[i])
    requires ps[j] != qs[j] && CharsBefore(ps[j], qs[j])
    ensures PiecesBefore(ps, qs)
    decreases j
  {
    if j > 0 {
      PiecesBeforeAt(ps[1..], qs[1..], j - 1);
    }
  }

  /** A piece sequence comes before its extensions by a non-empty piece. */
  lemma {:induction false} PiecesBeforeExtension(ps: seq<string>, qs: seq<string>)
    requires |ps| < |qs| && (forall i :: 0 <= i < |ps| ==> ps[i] == qs[i]) && qs[|ps|] != []
    ensures PiecesBefore(ps, qs)
    decreases |ps|
  {
    if ps != [] {
      PiecesBeforeExtension(ps[1..], qs[1..]);
    }
  }


  // ---- the client's endpoints -----------------------------------------------------

  // Each endpoint of the generated client: its segments and the shapes of its names.
  const Battles2GuildByGuildIdPath: seq<Segment> := [Lit("battles2"), Lit("guild"), Param("guildID")]
  const Battles2GuildByGuildIdShapes: seq<Shape> := [Plain, Plain, Acronym("guil", 'd', "ID")]

  const Battles2GuildByGuildIdWarPath: seq<Segment> := [Lit("battles2"), Lit("guild"), Param("guildID"), Lit("war")]
  const Battles2GuildByGuildIdWarShapes: seq<Shape> := [Plain, Plain, Acronym("guil", 'd', "ID"), Plain]

  const Battles2HomsPath: seq<Segment> := [Lit("battles2"), Lit("homs")]
  const Battles2HomsShapes: seq<Shape> := [Plain, Plain]

  const Battles2HomsByHomIdLeaderboardPath: seq<Segment> := [Lit("battles2"), Lit("homs"), Param("homID"), Lit("leaderboard")]
  const Battles2HomsByHomIdLeaderboardShapes: seq<Shape> := [Plain, Plain, Acronym("ho", 'm', "ID"), Plain]

  const Battles2UsersByUserIdPath: seq<Segment> := [Lit("battles2"), Lit("users"), Param("userID")]
  const Battles2UsersByUserIdShapes: seq<Shape> := [Plain, Plain, Acronym("use", 'r', "ID")]

  const Battles2UsersByUserIdHomsPath: seq<Segment> := [Lit("battles2"), Lit("users"), Param("userID"), Lit("homs")]
  const Battles2UsersByUserIdHomsShapes: seq<Shape> := [Plain, Plain, Acronym("use", 'r', "ID"), Plain]

  const Battles2UsersByUserIdMatchesPath: seq<Segment> := [Lit("battles2"), Lit("users"), Param("userID"), Lit("matches")]
  const Battles2UsersByUserIdMatchesShapes: seq<Shape> := [Plain, Plain, Acronym("use", 'r', "ID"), Plain]

  const Btd6BossesPath: seq<Segment> := [Lit("btd6"), Lit("bosses")]
  const Btd6BossesShapes: seq<Shape> := [Plain, Plain]

  const Btd6BossesByBossIdLeaderboardByTypeByTeamSizePath: seq<Segment> := [Lit("btd6"), Lit("bosses"), Param("bossID"), Lit("leaderboard"), Param("type"), Param("teamSize")]
  const Btd6BossesByBossIdLeaderboardByTypeByTeamSizeShapes: seq<Shape> := [Plain, Plain, Acronym("bos", 's', "ID"), Plain, Plain, Hump("tea", 'm', 'S', "ize")]

  const Btd6BossesByBossIdMetadataByDifficultyPath: seq<Segment> := [Lit("btd6"), Lit("bosses"), Param("bossID"), Lit("metadata"), Param("difficulty")]
  const Btd6BossesByBossIdMetadataByDifficultyShapes: seq<Shape> := [Plain, Plain, Acronym("bos", 's', "ID"), Plain, Plain]

  const Btd6ChallengesPath: seq<Segment> := [Lit("btd6"), Lit("challenges")]
  const Btd6ChallengesShapes: seq<Shape> := [Plain, Plain]

  const Btd6ChallengesChallengeByChallengeIdPath: seq<Segment> := [Lit("btd6"), Lit("challenges"), Lit("challenge"), Param("challengeID")]
  const Btd6ChallengesChallengeByChallengeIdShapes: seq<Shape> := [Plain, Plain, Plain, Acronym("challeng", 'e', "ID")]

  const Btd6ChallengesFilterByChallengeFilterPath: seq<Segment> := [Lit("btd6"), Lit("challenges"), Lit("filter"), Param("challengeFilter")]
  const Btd6ChallengesFilterByChallengeFilterShapes: seq<Shape> := [Plain, Plain, Plain, Hump("challeng", 'e', 'F', "ilter")]

  const Btd6CtPath: seq<Segment> := [Lit("btd6"), Lit("ct")]
  const Btd6CtShapes: seq<Shape> := [Plain, Plain]

  const Btd6CtByCtIdLeaderboardGroupByGroupIdPath: seq<Segment> := [Lit("btd6"), Lit("ct"), Param("ctID"), Lit("leaderboard"), Lit("group"), Param("groupID")]
  const Btd6CtByCtIdLeaderboardGroupByGroupIdShapes: seq<Shape> := [Plain, Plain, Acronym("c", 't', "ID"), Plain, Plain, Acronym("grou", 'p', "ID")]

  const Btd6CtByCtIdLeaderboardPlayerPath: seq<Segment> := [Lit("btd6"), Lit("ct"), Param("ctID"), Lit("leaderboard"), Lit("player")]
  const Btd6CtByCtIdLeaderboardPlayerShapes: seq<Shape> := [Plain, Plain, Acronym("c", 't', "ID"), Plain, Plain]

  const Btd6CtByCtIdLeaderboardTeamPath: seq<Segment> := [Lit("btd6"), Lit("ct"), Param("ctID"), Lit("leaderboard"), Lit("team")]
  const Btd6CtByCtIdLeaderboardTeamShapes: seq<Shape> := [Plain, Plain, Acronym("c", 't', "ID"), Plain, Plain]

  const Btd6CtByCtIdTilesPath: seq<Segment> := [Lit("btd6"), Lit("ct"), Param("ctID"), Lit("tiles")]
  const Btd6CtByCtIdTilesShapes: seq<Shape> := [Plain, Plain, Acronym("c", 't', "ID"), Plain]

  const Btd6GuildByGuildIdPath: seq<Segment> := [Lit("btd6"), Lit("guild"), Param("guildID")]
  const Btd6GuildByGuildIdShapes: seq<Shape> := [Plain, Plain, Acronym("guil", 'd', "ID")]

  const Btd6MapsPath: seq<Segment> := [Lit("btd6"), Lit("maps")]
  const Btd6MapsShapes: seq<Shape> := [Plain, Plain]

  const Btd6MapsFilterByMapFilterPath: seq<Segment> := [Lit("btd6"), Lit("maps"), Lit("filter"), Param("mapFilter")]
  const Btd6MapsFilterByMapFilterShapes: seq<Shape> := [Plain, Plain, Plain, Hump("ma", 'p', 'F', "ilter")]

  const Btd6MapsMapByMapIdPath: seq<Segment> := [Lit("btd6"), Lit("maps"), Lit("map"), Param("mapID")]
  const Btd6MapsMapByMapIdShapes: seq<Shape> := [Plain, Plain, Plain, Acronym("ma", 'p', "ID")]

  const Btd6OdysseyPath: seq<Segment> := [Lit("btd6"), Lit("odyssey")]
  const Btd6OdysseyShapes: seq<Shape> := [Plain, Plain]

  const Btd6OdysseyByOdysseyIdByDifficultyPath: seq<Segment> := [Lit("btd6"), Lit("odyssey"), Param("odysseyID"), Param("difficulty")]
  const Btd6OdysseyByOdysseyIdByDifficultyShapes: seq<Shape> := [Plain, Plain, Acronym("odysse", 'y', "ID"), Plain]

  const Btd6OdysseyByOdysseyIdByDifficultyMapsPath: seq<Segment> := [Lit("btd6"), Lit("odyssey"), Param("odysseyID"), Param("difficulty"), Lit("maps")]
  const Btd6OdysseyByOdysseyIdByDifficultyMapsShapes: seq<Shape> := [Plain, Plain, Acronym("odysse", 'y', "ID"), Plain, Plain]

  const Btd6RacesPath: seq<Segment> := [Lit("btd6"), Lit("races")]
  const Btd6RacesShapes: seq<Shape> := [Plain, Plain]

  const Btd6RacesByRaceIdLeaderboardPath: seq<Segment> := [Lit("btd6"), Lit("races"), Param("raceID"), Lit("leaderboard")]
  const Btd6RacesByRaceIdLeaderboardShapes: seq<Shape> := [Plain, Plain, Acronym("rac", 'e', "ID"), Plain]

  const Btd6RacesByRaceIdMetadataPath: seq<Segment> := [Lit("btd6"), Lit("races"), Param("raceID"), Lit("metadata")]
  const Btd6RacesByRaceIdMetadataShapes: seq<Shape> := [Plain, Plain, Acronym("rac", 'e', "ID"), Plain]

  const Btd6SaveByOakIdPath: seq<Segment> := [Lit("btd6"), Lit("save"), Param("oakID")]
  const Btd6SaveByOakIdShapes: seq<Shape> := [Plain, Plain, Acronym("oa", 'k', "ID")]

  const Btd6UsersByUserIdPath: seq<Segment> := [Lit("btd6"), Lit("users"), Param("userID")]
  const Btd6UsersByUserIdShapes: seq<Shape> := [Plain, Plain, Acronym("use", 'r', "ID")]

  /** The thirty endpoints of the generated client, in the order of their
      method names. */
  const ClientPaths: seq<seq<Segment>> := [
    Battles2GuildByGuildIdPath, Battles2GuildByGuildIdWarPath, Battles2HomsPath, Battles2HomsByHomIdLeaderboardPath, Battles2UsersByUserIdPath, Battles2UsersByUserIdHomsPath, Battles2UsersByUserIdMatchesPath, Btd6BossesPath, Btd6BossesByBossIdLeaderboardByTypeByTeamSizePath, Btd6BossesByBossIdMetadataByDifficultyPath, Btd6ChallengesPath, Btd6ChallengesChallengeByChallengeIdPath, Btd6ChallengesFilterByChallengeFilterPath, Btd6CtPath, Btd6CtByCtIdLeaderboardGroupByGroupIdPath, Btd6CtByCtIdLeaderboardPlayerPath, Btd6CtByCtIdLeaderboardTeamPath, Btd6CtByCtIdTilesPath, Btd6GuildByGuildIdPath, Btd6MapsPath, Btd6MapsFilterByMapFilterPath, Btd6MapsMapByMapIdPath, Btd6OdysseyPath, Btd6OdysseyByOdysseyIdByDifficultyPath, Btd6OdysseyByOdysseyIdByDifficultyMapsPath, Btd6RacesPath, Btd6RacesByRaceIdLeaderboardPath, Btd6RacesByRaceIdMetadataPath, Btd6SaveByOakIdPath, Btd6UsersByUserIdPath]

  /** The shapes of the names of each endpoint in `ClientPaths`. */
  const ClientShapes: seq<seq<Shape>> := [
    Battles2GuildByGuildIdShapes, Battles2GuildByGuildIdWarShapes, Battles2HomsShapes, Battles2HomsByHomIdLeaderboardShapes, Battles2UsersByUserIdShapes, Battles2UsersByUserIdHomsShapes, Battles2UsersByUserIdMatchesShapes, Btd6BossesShapes, Btd6BossesByBossIdLeaderboardByTypeByTeamSizeShapes, Btd6BossesByBossIdMetadataByDifficultyShapes, Btd6ChallengesShapes, Btd6ChallengesChallengeByChallengeIdShapes, Btd6ChallengesFilterByChallengeFilterShapes, Btd6CtShapes, Btd6CtByCtIdLeaderboardGroupByGroupIdShapes, Btd6CtByCtIdLeaderboardPlayerShapes, Btd6CtByCtIdLeaderboardTeamShapes, Btd6CtByCtIdTilesShapes, Btd6GuildByGuildIdShapes, Btd6MapsShapes, Btd6MapsFilterByMapFilterShapes, Btd6MapsMapByMapIdShapes, Btd6OdysseyShapes, Btd6OdysseyByOdysseyIdByDifficultyShapes, Btd6OdysseyByOdysseyIdByDifficultyMapsShapes, Btd6RacesShapes, Btd6RacesByRaceIdLeaderboardShapes, Btd6RacesByRaceIdMetadataShapes, Btd6SaveByOakIdShapes, Btd6UsersByUserIdShapes]

  // The names that occur in the client's paths, with their shapes.
  lemma Battles2Name() ensures GoodName("battles2") && Fits("battles2", Plain) {}
  lemma BossIDName() ensures GoodName("bossID") && Fits("bossID", Acronym("bos", 's', "ID")) {}
  lemma BossesName() ensures GoodName("bosses") && Fits("bosses", Plain) {}
  lemma Btd6Name() ensures GoodName("btd6") && Fits("btd6", Plain) {}
  lemma ChallengeName() ensures GoodName("challenge") && Fits("challenge", Plain) {}
  lemma ChallengeFilterName() ensures GoodName("challengeFilter") && Fits("challengeFilter", Hump("challeng", 'e', 'F', "ilter")) {}
  lemma ChallengeIDName() ensures GoodName("challengeID") && Fits("challengeID", Acronym("challeng", 'e', "ID")) {}
  lemma ChallengesName() ensures GoodName("challenges") && Fits("challenges", Plain) {}
  lemma CtName() ensures GoodName("ct") && Fits("ct", Plain) {}
  lemma CtIDName() ensures GoodName("ctID") && Fits("ctID", Acronym("c", 't', "ID")) {}
  lemma DifficultyName() ensures GoodName("difficulty") && Fits("difficulty", Plain) {}
  lemma FilterName() ensures GoodName("filter") && Fits("filter", Plain) {}
  lemma GroupName() ensures GoodName("group") && Fits("group", Plain) {}
  lemma GroupIDName() ensures GoodName("groupID") && Fits("groupID", Acronym("grou", 'p', "ID")) {}
  lemma GuildName() ensures GoodName("guild") && Fits("guild", Plain) {}
  lemma GuildIDName() ensures GoodName("guildID") && Fits("guildID", Acronym("guil", 'd', "ID")) {}
  lemma HomIDName() ensures GoodName("homID") && Fits("homID", Acronym("ho", 'm', "ID")) {}
  lemma HomsName() ensures GoodName("homs") && Fits("homs", Plain) {}
  lemma LeaderboardName() ensures GoodName("leaderboard") && Fits("leaderboard", Plain) {}
  lemma MapName() ensures GoodName("map") && Fits("map", Plain) {}
  lemma MapFilterName() ensures GoodName("mapFilter") && Fits("mapFilter", Hump("ma", 'p', 'F', "ilter")) {}
  lemma MapIDName() ensures GoodName("mapID") && Fits("mapID", Acronym("ma", 'p', "ID")) {}
  lemma MapsName() ensures GoodName("maps") && Fits("maps", Plain) {}
  lemma MatchesName() ensures GoodName("matches") && Fits("matches", Plain) {}
  lemma MetadataName() ensures GoodName("metadata") && Fits("metadata", Plain) {}
  lemma OakIDName() ensures GoodName("oakID") && Fits("oakID", Acronym("oa", 'k', "ID")) {}
  lemma OdysseyName() ensures GoodName("odyssey") && Fits("odyssey", Plain) {}
  lemma OdysseyIDName() ensures GoodName("odysseyID") && Fits("odysseyID", Acronym("odysse", 'y', "ID")) {}
  lemma PlayerName() ensures GoodName("player") && Fits("player", Plain) {}
  lemma RaceIDName() ensures GoodName("raceID") && Fits("raceID", Acronym("rac", 'e', "ID")) {}
  lemma RacesName() ensures GoodName("races") && Fits("races", Plain) {}
  lemma SaveName() ensures GoodName("save") && Fits("save", Plain) {}
  lemma TeamName() ensures GoodName("team") && Fits("team", Plain) {}
  lemma TeamSizeName() ensures GoodName("teamSize") && Fits("teamSize", Hump("tea", 'm', 'S', "ize")) {}
  lemma TilesName() ensures GoodName("tiles") && Fits("tiles", Plain) {}
  lemma TypeName() ensures GoodName("type") && Fits("type", Plain) {}
  lemma UserIDName() ensures GoodName("userID") && Fits("userID", Acronym("use", 'r', "ID")) {}
  lemma UsersName() ensures GoodName("users") && Fits("users", Plain) {}
  lemma WarName() ensures GoodName("war") && Fits("war", Plain) {}

  /** `/battles2/guild/:guildID`, the client's `get_battles2_guild_by_guild_id`. */
  lemma Battles2GuildByGuildId()
    ensures Described(Battles2GuildByGuildIdPath, Battles2GuildByGuildIdShapes) && WellFormed(Battles2GuildByGuildIdPath)
  {
    Battles2Name(); GuildName(); GuildIDName();
  }

  lemma Battles2GuildByGuildIdBefore()
    ensures PiecesBefore(PieceForms(Battles2GuildByGuildIdPath, Battles2GuildByGuildIdShapes), PieceForms(Battles2GuildByGuildIdWarPath, Battles2GuildByGuildIdWarShapes))
  {
    PiecesBeforeExtension(PieceForms(Battles2GuildByGuildIdPath, Battles2GuildByGuildIdShapes), PieceForms(Battles2GuildByGuildIdWarPath, Battles2GuildByGuildIdWarShapes));
  }

  /** `/battles2/guild/:guildID/war`, the client's `get_battles2_guild_by_guild_id_war`. */
  lemma Battles2GuildByGuildIdWar()
    ensures Described(Battles2GuildByGuildIdWarPath, Battles2GuildByGuildIdWarShapes) && WellFormed(Battles2GuildByGuildIdWarPath)
  {
    Battles2Name(); GuildName(); GuildIDName(); WarName();
  }

  lemma Battles2GuildByGuildIdWarBefore()
    ensures PiecesBefore(PieceForms(Battles2GuildByGuildIdWarPath, Battles2GuildByGuildIdWarShapes), PieceForms(Battles2HomsPath, Battles2HomsShapes))
  {
    CharsBeforeAt(PieceForms(Battles2GuildByGuildIdWarPath, Battles2GuildByGuildIdWarShapes)[1], PieceForms(Battles2HomsPath, Battles2HomsShapes)[1], 1);
    PiecesBeforeAt(PieceForms(Battles2GuildByGuildIdWarPath, Battles2GuildByGuildIdWarShapes), PieceForms(Battles2HomsPath, Battles2HomsShapes), 1);
  }

  /** `/battles2/homs`, the client's `get_battles2_homs`. */
  lemma Battles2Homs()
    ensures Described(Battles2HomsPath, Battles2HomsShapes) && WellFormed(Battles2HomsPath)
  {
    Battles2Name(); HomsName();
  }

  lemma Battles2HomsBefore()
    ensures PiecesBefore(PieceForms(Battles2HomsPath, Battles2HomsShapes), PieceForms(Battles2HomsByHomIdLeaderboardPath, Battles2HomsByHomIdLeaderboardShapes))
  {
    PiecesBeforeExtension(PieceForms(Battles2HomsPath, Battles2HomsShapes), PieceForms(Battles2HomsByHomIdLeaderboardPath, Battles2HomsByHomIdLeaderboardShapes));
  }

  /** `/battles2/homs/:homID/leaderboard`, the client's `get_battles2_homs_by_hom_id_leaderboard`. */
  lemma Battles2HomsByHomIdLeaderboard()
    ensures Described(Battles2HomsByHomIdLeaderboardPath, Battles2HomsByHomIdLeaderboardShapes) && WellFormed(Battles2HomsByHomIdLeaderboardPath)
  {
    Battles2Name(); HomsName(); HomIDName(); LeaderboardName();
  }

  lemma Battles2HomsByHomIdLeaderboardBefore()
    ensures PiecesBefore(PieceForms(Battles2HomsByHomIdLeaderboardPath, Battles2HomsByHomIdLeaderboardShapes), PieceForms(Battles2UsersByUserIdPath, Battles2UsersByUserIdShapes))
  {
    CharsBeforeAt(PieceForms(Battles2HomsByHomIdLeaderboardPath, Battles2HomsByHomIdLeaderboardShapes)[1], PieceForms(Battles2UsersByUserIdPath, Battles2UsersByUserIdShapes)[1], 1);
    PiecesBeforeAt(PieceForms(Battles2HomsByHomIdLeaderboardPath, Battles2HomsByHomIdLeaderboardShapes), PieceForms(Battles2UsersByUserIdPath, Battles2UsersByUserIdShapes), 1);
  }

  /** `/battles2/users/:userID`, the client's `get_battles2_users_by_user_id`. */
  lemma Battles2UsersByUserId()
    ensures Described(Battles2UsersByUserIdPath, Battles2UsersByUserIdShapes) && WellFormed(Battles2UsersByUserIdPath)
  {
    Battles2Name(); UsersName(); UserIDName();
  }

  lemma Battles2UsersByUserIdBefore()
    ensures PiecesBefore(PieceForms(Battles2UsersByUserIdPath, Battles2UsersByUserIdShapes), PieceForms(Battles2UsersByUserIdHomsPath, Battles2UsersByUserIdHomsShapes))
  {
    PiecesBeforeExtension(PieceForms(Battles2UsersByUserIdPath, Battles2UsersByUserIdShapes), PieceForms(Battles2UsersByUserIdHomsPath, Battles2UsersByUserIdHomsShapes));
  }

  /** `/battles2/users/:userID/homs`, the client's `get_battles2_users_by_user_id_homs`. */
  lemma Battles2UsersByUserIdHoms()
    ensures Described(Battles2UsersByUserIdHomsPath, Battles2UsersByUserIdHomsShapes) && WellFormed(Battles2UsersByUserIdHomsPath)
  {
    Battles2Name(); UsersName(); UserIDName(); HomsName();
  }

  lemma Battles2UsersByUserIdHomsBefore()
    ensures PiecesBefore(PieceForms(Battles2UsersByUserIdHomsPath, Battles2UsersByUserIdHomsShapes), PieceForms(Battles2UsersByUserIdMatchesPath, Battles2UsersByUserIdMatchesShapes))
  {
    CharsBeforeAt(PieceForms(Battles2UsersByUserIdHomsPath, Battles2UsersByUserIdHomsShapes)[3], PieceForms(Battles2UsersByUserIdMatchesPath, Battles2UsersByUserIdMatchesShapes)[3], 1);
    PiecesBeforeAt(PieceForms(Battles2UsersByUserIdHomsPath, Battles2UsersByUserIdHomsShapes), PieceForms(Battles2UsersByUserIdMatchesPath, Battles2UsersByUserIdMatchesShapes), 3);
  }

  /** `/battles2/users/:userID/matches`, the client's `get_battles2_users_by_user_id_matches`. */
  lemma Battles2UsersByUserIdMatches()
    ensures Described(Battles2UsersByUserIdMatchesPath, Battles2UsersByUserIdMatchesShapes) && WellFormed(Battles2UsersByUserIdMatchesPath)
  {
    Battles2Name(); UsersName(); UserIDName(); MatchesName();
  }

  lemma Battles2UsersByUserIdMatchesBefore()
    ensures PiecesBefore(PieceForms(Battles2UsersByUserIdMatchesPath, Battles2UsersByUserIdMatchesShapes), PieceForms(Btd6BossesPath, Btd6BossesShapes))
  {
    CharsBeforeAt(PieceForms(Battles2UsersByUserIdMatchesPath, Battles2UsersByUserIdMatchesShapes)[0], PieceForms(Btd6BossesPath, Btd6BossesShapes)[0], 2);
    PiecesBeforeAt(PieceForms(Battles2UsersByUserIdMatchesPath, Battles2UsersByUserIdMatchesShapes), PieceForms(Btd6BossesPath, Btd6BossesShapes), 0);
  }

  /** `/btd6/bosses`, the client's `get_btd6_bosses`. */
  lemma Btd6Bosses()
    ensures Described(Btd6BossesPath, Btd6BossesShapes) && WellFormed(Btd6BossesPath)
  {
    Btd6Name(); BossesName();
  }

  lemma Btd6BossesBefore()
    ensures PiecesBefore(PieceForms(Btd6BossesPath, Btd6BossesShapes), PieceForms(Btd6BossesByBossIdLeaderboardByTypeByTeamSizePath, Btd6BossesByBossIdLeaderboardByTypeByTeamSizeShapes))
  {
    PiecesBeforeExtension(PieceForms(Btd6BossesPath, Btd6BossesShapes), PieceForms(Btd6BossesByBossIdLeaderboardByTypeByTeamSizePath, Btd6BossesByBossIdLeaderboardByTypeByTeamSizeShapes));
  }

  /** `/btd6/bosses/:bossID/leaderboard/:type/:teamSize`, the client's `get_btd6_bosses_by_boss_id_leaderboard_by_type_by_team_size`. */
  lemma Btd6BossesByBossIdLeaderboardByTypeByTeamSize()
    ensures Described(Btd6BossesByBossIdLeaderboardByTypeByTeamSizePath, Btd6BossesByBossIdLeaderboardByTypeByTeamSizeShapes) && WellFormed(Btd6BossesByBossIdLeaderboardByTypeByTeamSizePath)
  {
    Btd6Name(); BossesName(); BossIDName(); LeaderboardName(); TypeName(); TeamSizeName();
  }

  lemma Btd6BossesByBossIdLeaderboardByTypeByTeamSizeBefore()
    ensures PiecesBefore(PieceForms(Btd6BossesByBossIdLeaderboardByTypeByTeamSizePath, Btd6BossesByBossIdLeaderboardByTypeByTeamSizeShapes), PieceForms(Btd6BossesByBossIdMetadataByDifficultyPath, Btd6BossesByBossIdMetadataByDifficultyShapes))
  {
    CharsBeforeAt(PieceForms(Btd6BossesByBossIdLeaderboardByTypeByTeamSizePath, Btd6BossesByBossIdLeaderboardByTypeByTeamSizeShapes)[3], PieceForms(Btd6BossesByBossIdMetadataByDifficultyPath, Btd6BossesByBossIdMetadataByDifficultyShapes)[3], 1);
    PiecesBeforeAt(PieceForms(Btd6BossesByBossIdLeaderboardByTypeByTeamSizePath, Btd6BossesByBossIdLeaderboardByTypeByTeamSizeShapes), PieceForms(Btd6BossesByBossIdMetadataByDifficultyPath, Btd6BossesByBossIdMetadataByDifficultyShapes), 3);
  }

  /** `/btd6/bosses/:bossID/metadata/:difficulty`, the client's `get_btd6_bosses_by_boss_id_metadata_by_difficulty`. */
  lemma Btd6BossesByBossIdMetadataByDifficulty()
    ensures Described(Btd6BossesByBossIdMetadataByDifficultyPath, Btd6BossesByBossIdMetadataByDifficultyShapes) && WellFormed(Btd6BossesByBossIdMetadataByDifficultyPath)
  {
    Btd6Name(); BossesName(); BossIDName(); MetadataName(); DifficultyName();
  }

  lemma Btd6BossesByBossIdMetadataByDifficultyBefore()
    ensures PiecesBefore(PieceForms(Btd6BossesByBossIdMetadataByDifficultyPath, Btd6BossesByBossIdMetadataByDifficultyShapes), PieceForms(Btd6ChallengesPath, Btd6ChallengesShapes))
  {
    CharsBeforeAt(PieceForms(Btd6BossesByBossIdMetadataByDifficultyPath, Btd6BossesByBossIdMetadataByDifficultyShapes)[1], PieceForms(Btd6ChallengesPath, Btd6ChallengesShapes)[1], 1);
    PiecesBeforeAt(PieceForms(Btd6BossesByBossIdMetadataByDifficultyPath, Btd6BossesByBossIdMetadataByDifficultyShapes), PieceForms(Btd6ChallengesPath, Btd6ChallengesShapes), 1);
  }

  /** `/btd6/challenges`, the client's `get_btd6_challenges`. */
  lemma Btd6Challenges()
    ensures Described(Btd6ChallengesPath, Btd6ChallengesShapes) && WellFormed(Btd6ChallengesPath)
  {
    Btd6Name(); ChallengesName();
  }

  lemma Btd6ChallengesBefore()
    ensures PiecesBefore(PieceForms(Btd6ChallengesPath, Btd6ChallengesShapes), PieceForms(Btd6ChallengesChallengeByChallengeIdPath, Btd6ChallengesChallengeByChallengeIdShapes))
  {
    PiecesBeforeExtension(PieceForms(Btd6ChallengesPath, Btd6ChallengesShapes), PieceForms(Btd6ChallengesChallengeByChallengeIdPath, Btd6ChallengesChallengeByChallengeIdShapes));
  }

  /** `/btd6/challenges/challenge/:challengeID`, the client's `get_btd6_challenges_challenge_by_challenge_id`. */
  lemma Btd6ChallengesChallengeByChallengeId()
    ensures Described(Btd6ChallengesChallengeByChallengeIdPath, Btd6ChallengesChallengeByChallengeIdShapes) && WellFormed(Btd6ChallengesChallengeByChallengeIdPath)
  {
    Btd6Name(); ChallengesName(); ChallengeName(); ChallengeIDName();
  }

  lemma Btd6ChallengesChallengeByChallengeIdBefore()
    ensures PiecesBefore(PieceForms(Btd6ChallengesChallengeByChallengeIdPath, Btd6ChallengesChallengeByChallengeIdShapes), PieceForms(Btd6ChallengesFilterByChallengeFilterPath, Btd6ChallengesFilterByChallengeFilterShapes))
  {
    CharsBeforeAt(PieceForms(Btd6ChallengesChallengeByChallengeIdPath, Btd6ChallengesChallengeByChallengeIdShapes)[2], PieceForms(Btd6ChallengesFilterByChallengeFilterPath, Btd6ChallengesFilterByChallengeFilterShapes)[2], 1);
    PiecesBeforeAt(PieceForms(Btd6ChallengesChallengeByChallengeIdPath, Btd6ChallengesChallengeByChallengeIdShapes), PieceForms(Btd6ChallengesFilterByChallengeFilterPath, Btd6ChallengesFilterByChallengeFilterShapes), 2);
  }

  /** `/btd6/challenges/filter/:challengeFilter`, the client's `get_btd6_challenges_filter_by_challenge_filter`. */
  lemma Btd6ChallengesFilterByChallengeFilter()
    ensures Described(Btd6ChallengesFilterByChallengeFilterPath, Btd6ChallengesFilterByChallengeFilterShapes) && WellFormed(Btd6ChallengesFilterByChallengeFilterPath)
  {
    Btd6Name(); ChallengesName(); FilterName(); ChallengeFilterName();
  }

  lemma Btd6ChallengesFilterByChallengeFilterBefore()
    ensures PiecesBefore(PieceForms(Btd6ChallengesFilterByChallengeFilterPath, Btd6ChallengesFilterByChallengeFilterShapes), PieceForms(Btd6CtPath, Btd6CtShapes))
  {
    CharsBeforeAt(PieceForms(Btd6ChallengesFilterByChallengeFilterPath, Btd6ChallengesFilterByChallengeFilterShapes)[1], PieceForms(Btd6CtPath, Btd6CtShapes)[1], 2);
    PiecesBeforeAt(PieceForms(Btd6ChallengesFilterByChallengeFilterPath, Btd6ChallengesFilterByChallengeFilterShapes), PieceForms(Btd6CtPath, Btd6CtShapes), 1);
  }

  /** `/btd6/ct`, the client's `get_btd6_ct`. */
  lemma Btd6Ct()
    ensures Described(Btd6CtPath, Btd6CtShapes) && WellFormed(Btd6CtPath)
  {
    Btd6Name(); CtName();
  }

  lemma Btd6CtBefore()
    ensures PiecesBefore(PieceForms(Btd6CtPath, Btd6CtShapes), PieceForms(Btd6CtByCtIdLeaderboardGroupByGroupIdPath, Btd6CtByCtIdLeaderboardGroupByGroupIdShapes))
  {
    PiecesBeforeExtension(PieceForms(Btd6CtPath, Btd6CtShapes), PieceForms(Btd6CtByCtIdLeaderboardGroupByGroupIdPath, Btd6CtByCtIdLeaderboardGroupByGroupIdShapes));
  }

  /** `/btd6/ct/:ctID/leaderboard/group/:groupID`, the client's `get_btd6_ct_by_ct_id_leaderboard_group_by_group_id`. */
  lemma Btd6CtByCtIdLeaderboardGroupByGroupId()
    ensures Described(Btd6CtByCtIdLeaderboardGroupByGroupIdPath, Btd6CtByCtIdLeaderboardGroupByGroupIdShapes) && WellFormed(Btd6CtByCtIdLeaderboardGroupByGroupIdPath)
  {
    Btd6Name(); CtName(); CtIDName(); LeaderboardName(); GroupName(); GroupIDName();
  }

  lemma Btd6CtByCtIdLeaderboardGroupByGroupIdBefore()
    ensures PiecesBefore(PieceForms(Btd6CtByCtIdLeaderboardGroupByGroupIdPath, Btd6CtByCtIdLeaderboardGroupByGroupIdShapes), PieceForms(Btd6CtByCtIdLeaderboardPlayerPath, Btd6CtByCtIdLeaderboardPlayerShapes))
  {
    CharsBeforeAt(PieceForms(Btd6CtByCtIdLeaderboardGroupByGroupIdPath, Btd6CtByCtIdLeaderboardGroupByGroupIdShapes)[4], PieceForms(Btd6CtByCtIdLeaderboardPlayerPath, Btd6CtByCtIdLeaderboardPlayerShapes)[4], 1);
    PiecesBeforeAt(PieceForms(Btd6CtByCtIdLeaderboardGroupByGroupIdPath, Btd6CtByCtIdLeaderboardGroupByGroupIdShapes), PieceForms(Btd6CtByCtIdLeaderboardPlayerPath, Btd6CtByCtIdLeaderboardPlayerShapes), 4);
  }

  /** `/btd6/ct/:ctID/leaderboard/player`, the client's `get_btd6_ct_by_ct_id_leaderboard_player`. */
  lemma Btd6CtByCtIdLeaderboardPlayer()
    ensures Described(Btd6CtByCtIdLeaderboardPlayerPath, Btd6CtByCtIdLeaderboardPlayerShapes) && WellFormed(Btd6CtByCtIdLeaderboardPlayerPath)
  {
    Btd6Name(); CtName(); CtIDName(); LeaderboardName(); PlayerName();
  }

  lemma Btd6CtByCtIdLeaderboardPlayerBefore()
    ensures PiecesBefore(PieceForms(Btd6CtByCtIdLeaderboardPlayerPath, Btd6CtByCtIdLeaderboardPlayerShapes), PieceForms(Btd6CtByCtIdLeaderboardTeamPath, Btd6CtByCtIdLeaderboardTeamShapes))
  {
    CharsBeforeAt(PieceForms(Btd6CtByCtIdLeaderboardPlayerPath, Btd6CtByCtIdLeaderboardPlayerShapes)[4], PieceForms(Btd6CtByCtIdLeaderboardTeamPath, Btd6CtByCtIdLeaderboardTeamShapes)[4], 1);
    PiecesBeforeAt(PieceForms(Btd6CtByCtIdLeaderboardPlayerPath, Btd6CtByCtIdLeaderboardPlayerShapes), PieceForms(Btd6CtByCtIdLeaderboardTeamPath, Btd6CtByCtIdLeaderboardTeamShapes), 4);
  }

  /** `/btd6/ct/:ctID/leaderboard/team`, the client's `get_btd6_ct_by_ct_id_leaderboard_team`. */
  lemma Btd6CtByCtIdLeaderboardTeam()
    ensures Described(Btd6CtByCtIdLeaderboardTeamPath, Btd6CtByCtIdLeaderboardTeamShapes) && WellFormed(Btd6CtByCtIdLeaderboardTeamPath)
  {
    Btd6Name(); CtName(); CtIDName(); LeaderboardName(); TeamName();
  }

  lemma Btd6CtByCtIdLeaderboardTeamBefore()
    ensures PiecesBefore(PieceForms(Btd6CtByCtIdLeaderboardTeamPath, Btd6CtByCtIdLeaderboardTeamShapes), PieceForms(Btd6CtByCtIdTilesPath, Btd6CtByCtIdTilesShapes))
  {
    CharsBeforeAt(PieceForms(Btd6CtByCtIdLeaderboardTeamPath, Btd6CtByCtIdLeaderboardTeamShapes)[3], PieceForms(Btd6CtByCtIdTilesPath, Btd6CtByCtIdTilesShapes)[3], 1);
    PiecesBeforeAt(PieceForms(Btd6CtByCtIdLeaderboardTeamPath, Btd6CtByCtIdLeaderboardTeamShapes), PieceForms(Btd6CtByCtIdTilesPath, Btd6CtByCtIdTilesShapes), 3);
  }

  /** `/btd6/ct/:ctID/tiles`, the client's `get_btd6_ct_by_ct_id_tiles`. */
  lemma Btd6CtByCtIdTiles()
    ensures Described(Btd6CtByCtIdTilesPath, Btd6CtByCtIdTilesShapes) && WellFormed(Btd6CtByCtIdTilesPath)
  {
    Btd6Name(); CtName(); CtIDName(); TilesName();
  }

  lemma Btd6CtByCtIdTilesBefore()
    ensures PiecesBefore(PieceForms(Btd6CtByCtIdTilesPath, Btd6CtByCtIdTilesShapes), PieceForms(Btd6GuildByGuildIdPath, Btd6GuildByGuildIdShapes))
  {
    CharsBeforeAt(PieceForms(Btd6CtByCtIdTilesPath, Btd6CtByCtIdTilesShapes)[1], PieceForms(Btd6GuildByGuildIdPath, Btd6GuildByGuildIdShapes)[1], 1);
    PiecesBeforeAt(PieceForms(Btd6CtByCtIdTilesPath, Btd6CtByCtIdTilesShapes), PieceForms(Btd6GuildByGuildIdPath, Btd6GuildByGuildIdShapes), 1);
  }

  /** `/btd6/guild/:guildID`, the client's `get_btd6_guild_by_guild_id`. */
  lemma Btd6GuildByGuildId()
    ensures Described(Btd6GuildByGuildIdPath, Btd6GuildByGuildIdShapes) && WellFormed(Btd6GuildByGuildIdPath)
  {
    Btd6Name(); GuildName(); GuildIDName();
  }

  lemma Btd6GuildByGuildIdBefore()
    ensures PiecesBefore(PieceForms(Btd6GuildByGuildIdPath, Btd6GuildByGuildIdShapes), PieceForms(Btd6MapsPath, Btd6MapsShapes))
  {
    CharsBeforeAt(PieceForms(Btd6GuildByGuildIdPath, Btd6GuildByGuildIdShapes)[1], PieceForms(Btd6MapsPath, Btd6MapsShapes)[1], 1);
    PiecesBeforeAt(PieceForms(Btd6GuildByGuildIdPath, Btd6GuildByGuildIdShapes), PieceForms(Btd6MapsPath, Btd6MapsShapes), 1);
  }

  /** `/btd6/maps`, the client's `get_btd6_maps`. */
  lemma Btd6Maps()
    ensures Described(Btd6MapsPath, Btd6MapsShapes) && WellFormed(Btd6MapsPath)
  {
    Btd6Name(); MapsName();
  }

  lemma Btd6MapsBefore()
    ensures PiecesBefore(PieceForms(Btd6MapsPath, Btd6MapsShapes), PieceForms(Btd6MapsFilterByMapFilterPath, Btd6MapsFilterByMapFilterShapes))
  {
    PiecesBeforeExtension(PieceForms(Btd6MapsPath, Btd6MapsShapes), PieceForms(Btd6MapsFilterByMapFilterPath, Btd6MapsFilterByMapFilterShapes));
  }

  /** `/btd6/maps/filter/:mapFilter`, the client's `get_btd6_maps_filter_by_map_filter`. */
  lemma Btd6MapsFilterByMapFilter()
    ensures Described(Btd6MapsFilterByMapFilterPath, Btd6MapsFilterByMapFilterShapes) && WellFormed(Btd6MapsFilterByMapFilterPath)
  {
    Btd6Name(); MapsName(); FilterName(); MapFilterName();
  }

  lemma Btd6MapsFilterByMapFilterBefore()
    ensures PiecesBefore(PieceForms(Btd6MapsFilterByMapFilterPath, Btd6MapsFilterByMapFilterShapes), PieceForms(Btd6MapsMapByMapIdPath, Btd6MapsMapByMapIdShapes))
  {
    CharsBeforeAt(PieceForms(Btd6MapsFilterByMapFilterPath, Btd6MapsFilterByMapFilterShapes)[2], PieceForms(Btd6MapsMapByMapIdPath, Btd6MapsMapByMapIdShapes)[2], 1);
    PiecesBeforeAt(PieceForms(Btd6MapsFilterByMapFilterPath, Btd6MapsFilterByMapFilterShapes), PieceForms(Btd6MapsMapByMapIdPath, Btd6MapsMapByMapIdShapes), 2);
  }

  /** `/btd6/maps/map/:mapID`, the client's `get_btd6_maps_map_by_map_id`. */
  lemma Btd6MapsMapByMapId()
    ensures Described(Btd6MapsMapByMapIdPath, Btd6MapsMapByMapIdShapes) && WellFormed(Btd6MapsMapByMapIdPath)
  {
    Btd6Name(); MapsName(); MapName(); MapIDName();
  }

  lemma Btd6MapsMapByMapIdBefore()
    ensures PiecesBefore(PieceForms(Btd6MapsMapByMapIdPath, Btd6MapsMapByMapIdShapes), PieceForms(Btd6OdysseyPath, Btd6OdysseyShapes))
  {
    CharsBeforeAt(PieceForms(Btd6MapsMapByMapIdPath, Btd6MapsMapByMapIdShapes)[1], PieceForms(Btd6OdysseyPath, Btd6OdysseyShapes)[1], 1);
    PiecesBeforeAt(PieceForms(Btd6MapsMapByMapIdPath, Btd6MapsMapByMapIdShapes), PieceForms(Btd6OdysseyPath, Btd6OdysseyShapes), 1);
  }

  /** `/btd6/odyssey`, the client's `get_btd6_odyssey`. */
  lemma Btd6Odyssey()
    ensures Described(Btd6OdysseyPath, Btd6OdysseyShapes) && WellFormed(Btd6OdysseyPath)
  {
    Btd6Name(); OdysseyName();
  }

  lemma Btd6OdysseyBefore()
    ensures PiecesBefore(PieceForms(Btd6OdysseyPath, Btd6OdysseyShapes), PieceForms(Btd6OdysseyByOdysseyIdByDifficultyPath, Btd6OdysseyByOdysseyIdByDifficultyShapes))
  {
    PiecesBeforeExtension(PieceForms(Btd6OdysseyPath, Btd6OdysseyShapes), PieceForms(Btd6OdysseyByOdysseyIdByDifficultyPath, Btd6OdysseyByOdysseyIdByDifficultyShapes));
  }

  /** `/btd6/odyssey/:odysseyID/:difficulty`, the client's `get_btd6_odyssey_by_odyssey_id_by_difficulty`. */
  lemma Btd6OdysseyByOdysseyIdByDifficulty()
    ensures Described(Btd6OdysseyByOdysseyIdByDifficultyPath, Btd6OdysseyByOdysseyIdByDifficultyShapes) && WellFormed(Btd6OdysseyByOdysseyIdByDifficultyPath)
  {
    Btd6Name(); OdysseyName(); OdysseyIDName(); DifficultyName();
  }

  lemma Btd6OdysseyByOdysseyIdByDifficultyBefore()
    ensures PiecesBefore(PieceForms(Btd6OdysseyByOdysseyIdByDifficultyPath, Btd6OdysseyByOdysseyIdByDifficultyShapes), PieceForms(Btd6OdysseyByOdysseyIdByDifficultyMapsPath, Btd6OdysseyByOdysseyIdByDifficultyMapsShapes))
  {
    PiecesBeforeExtension(PieceForms(Btd6OdysseyByOdysseyIdByDifficultyPath, Btd6OdysseyByOdysseyIdByDifficultyShapes), PieceForms(Btd6OdysseyByOdysseyIdByDifficultyMapsPath, Btd6OdysseyByOdysseyIdByDifficultyMapsShapes));
  }

  /** `/btd6/odyssey/:odysseyID/:difficulty/maps`, the client's `get_btd6_odyssey_by_odyssey_id_by_difficulty_maps`. */
  lemma Btd6OdysseyByOdysseyIdByDifficultyMaps()
    ensures Described(Btd6OdysseyByOdysseyIdByDifficultyMapsPath, Btd6OdysseyByOdysseyIdByDifficultyMapsShapes) && WellFormed(Btd6OdysseyByOdysseyIdByDifficultyMapsPath)
  {
    Btd6Name(); OdysseyName(); OdysseyIDName(); DifficultyName(); MapsName();
  }

  lemma Btd6OdysseyByOdysseyIdByDifficultyMapsBefore()
    ensures PiecesBefore(PieceForms(Btd6OdysseyByOdysseyIdByDifficultyMapsPath, Btd6OdysseyByOdysseyIdByDifficultyMapsShapes), PieceForms(Btd6RacesPath, Btd6RacesShapes))
  {
    CharsBeforeAt(PieceForms(Btd6OdysseyByOdysseyIdByDifficultyMapsPath, Btd6OdysseyByOdysseyIdByDifficultyMapsShapes)[1], PieceForms(Btd6RacesPath, Btd6RacesShapes)[1], 1);
    PiecesBeforeAt(PieceForms(Btd6OdysseyByOdysseyIdByDifficultyMapsPath, Btd6OdysseyByOdysseyIdByDifficultyMapsShapes), PieceForms(Btd6RacesPath, Btd6RacesShapes), 1);
  }

  /** `/btd6/races`, the client's `get_btd6_races`. */
  lemma Btd6Races()
    ensures Described(Btd6RacesPath, Btd6RacesShapes) && WellFormed(Btd6RacesPath)
  {
    Btd6Name(); RacesName();
  }

  lemma Btd6RacesBefore()
    ensures PiecesBefore(PieceForms(Btd6RacesPath, Btd6RacesShapes), PieceForms(Btd6RacesByRaceIdLeaderboardPath, Btd6RacesByRaceIdLeaderboardShapes))
  {
    PiecesBeforeExtension(PieceForms(Btd6RacesPath, Btd6RacesShapes), PieceForms(Btd6RacesByRaceIdLeaderboardPath, Btd6RacesByRaceIdLeaderboardShapes));
  }

  /** `/btd6/races/:raceID/leaderboard`, the client's `get_btd6_races_by_race_id_leaderboard`. */
  lemma Btd6RacesByRaceIdLeaderboard()
    ensures Described(Btd6RacesByRaceIdLeaderboardPath, Btd6RacesByRaceIdLeaderboardShapes) && WellFormed(Btd6RacesByRaceIdLeaderboardPath)
  {
    Btd6Name(); RacesName(); RaceIDName(); LeaderboardName();
  }

  lemma Btd6RacesByRaceIdLeaderboardBefore()
    ensures PiecesBefore(PieceForms(Btd6RacesByRaceIdLeaderboardPath, Btd6RacesByRaceIdLeaderboardShapes), PieceForms(Btd6RacesByRaceIdMetadataPath, Btd6RacesByRaceIdMetadataShapes))
  {
    CharsBeforeAt(PieceForms(Btd6RacesByRaceIdLeaderboardPath, Btd6RacesByRaceIdLeaderboardShapes)[3], PieceForms(Btd6RacesByRaceIdMetadataPath, Btd6RacesByRaceIdMetadataShapes)[3], 1);
    PiecesBeforeAt(PieceForms(Btd6RacesByRaceIdLeaderboardPath, Btd6RacesByRaceIdLeaderboardShapes), PieceForms(Btd6RacesByRaceIdMetadataPath, Btd6RacesByRaceIdMetadataShapes), 3);
  }

  /** `/btd6/races/:raceID/metadata`, the client's `get_btd6_races_by_race_id_metadata`. */
  lemma Btd6RacesByRaceIdMetadata()
    ensures Described(Btd6RacesByRaceIdMetadataPath, Btd6RacesByRaceIdMetadataShapes) && WellFormed(Btd6RacesByRaceIdMetadataPath)
  {
    Btd6Name(); RacesName(); RaceIDName(); MetadataName();
  }

  lemma Btd6RacesByRaceIdMetadataBefore()
    ensures PiecesBefore(PieceForms(Btd6RacesByRaceIdMetadataPath, Btd6RacesByRaceIdMetadataShapes), PieceForms(Btd6SaveByOakIdPath, Btd6SaveByOakIdShapes))
  {
    CharsBeforeAt(PieceForms(Btd6RacesByRaceIdMetadataPath, Btd6RacesByRaceIdMetadataShapes)[1], PieceForms(Btd6SaveByOakIdPath, Btd6SaveByOakIdShapes)[1], 1);
    PiecesBeforeAt(PieceForms(Btd6RacesByRaceIdMetadataPath, Btd6RacesByRaceIdMetadataShapes), PieceForms(Btd6SaveByOakIdPath, Btd6SaveByOakIdShapes), 1);
  }

  /** `/btd6/save/:oakID`, the client's `get_btd6_save_by_oak_id`. */
  lemma Btd6SaveByOakId()
    ensures Described(Btd6SaveByOakIdPath, Btd6SaveByOakIdShapes) && WellFormed(Btd6SaveByOakIdPath)
  {
    Btd6Name(); SaveName(); OakIDName();
  }

  lemma Btd6SaveByOakIdBefore()
    ensures PiecesBefore(PieceForms(Btd6SaveByOakIdPath, Btd6SaveByOakIdShapes), PieceForms(Btd6UsersByUserIdPath, Btd6UsersByUserIdShapes))
  {
    CharsBeforeAt(PieceForms(Btd6SaveByOakIdPath, Btd6SaveByOakIdShapes)[1], PieceForms(Btd6UsersByUserIdPath, Btd6UsersByUserIdShapes)[1], 1);
    PiecesBeforeAt(PieceForms(Btd6SaveByOakIdPath, Btd6SaveByOakIdShapes), PieceForms(Btd6UsersByUserIdPath, Btd6UsersByUserIdShapes), 1);
  }

  /** `/btd6/users/:userID`, the client's `get_btd6_users_by_user_id`. */
  lemma Btd6UsersByUserId()
    ensures Described(Btd6UsersByUserIdPath, Btd6UsersByUserIdShapes) && WellFormed(Btd6UsersByUserIdPath)
  {
    Btd6Name(); UsersName(); UserIDName();
  }

  /** Every endpoint of the client is well formed, its names have their
      recorded shapes, and its pieces come before those of the next one. */
  lemma ClientFacts()
    ensures |ClientPaths| == |ClientShapes| == 30
    ensures forall k :: 0 <= k < 30 ==>
      Described(ClientPaths[k], ClientShapes[k]) && WellFormed(ClientPaths[k])
    ensures forall k :: 0 <= k < 29 ==>
      PiecesBefore(PieceForms(ClientPaths[k], ClientShapes[k]), PieceForms(ClientPaths[k + 1], ClientShapes[k + 1]))
  {
    ClientDescribed();
    ClientAscending();
  }

  lemma ClientDescribed()
    ensures |ClientPaths| == |ClientShapes| == 30
    ensures forall k :: 0 <= k < 30 ==>
      Described(ClientPaths[k], ClientShapes[k]) && WellFormed(ClientPaths[k])
  {
    ClientDescribed0();
    ClientDescribed1();
    ClientDescribed2();
    ClientDescribed3();
    ClientDescribed4();
    ClientDescribed5();
  }

  lemma ClientDescribed0()
    ensures |ClientPaths| == |ClientShapes| == 30
    ensures forall k :: 0 <= k < 5 ==> Described(ClientPaths[k], ClientShapes[k]) && WellFormed(ClientPaths[k])
  {
    forall k | 0 <= k < 5
      ensures Described(ClientPaths[k], ClientShapes[k]) && WellFormed(ClientPaths[k])
    {
      if k == 0 {
        assert ClientPaths[k] == Battles2GuildByGuildIdPath && ClientShapes[k] == Battles2GuildByGuildIdShapes;
        Battles2GuildByGuildId();
      } else if k == 1 {
        assert ClientPaths[k] == Battles2GuildByGuildIdWarPath && ClientShapes[k] == Battles2GuildByGuildIdWarShapes;
        Battles2GuildByGuildIdWar();
      } else if k == 2 {
        assert ClientPaths[k] == Battles2HomsPath && ClientShapes[k] == Battles2HomsShapes;
        Battles2Homs();
      } else if k == 3 {
        assert ClientPaths[k] == Battles2HomsByHomIdLeaderboardPath && ClientShapes[k] == Battles2HomsByHomIdLeaderboardShapes;
        Battles2HomsByHomIdLeaderboard();
      } else {
        assert ClientPaths[k] == Battles2UsersByUserIdPath && ClientShapes[k] == Battles2UsersByUserIdShapes;
        Battles2UsersByUserId();
      }
    }
  }

  lemma ClientDescribed1()
    ensures |ClientPaths| == |ClientShapes| == 30
    ensures forall k :: 5 <= k < 10 ==> Described(ClientPaths[k], ClientShapes[k]) && WellFormed(ClientPaths[k])
  {
    forall k | 5 <= k < 10
      ensures Described(ClientPaths[k], ClientShapes[k]) && WellFormed(ClientPaths[k])
    {
      if k == 5 {
        assert ClientPaths[k] == Battles2UsersByUserIdHomsPath && ClientShapes[k] == Battles2UsersByUserIdHomsShapes;
        Battles2UsersByUserIdHoms();
      } else if k == 6 {
        assert ClientPaths[k] == Battles2UsersByUserIdMatchesPath && ClientShapes[k] == Battles2UsersByUserIdMatchesShapes;
        Battles2UsersByUserIdMatches();
      } else if k == 7 {
        assert ClientPaths[k] == Btd6BossesPath && ClientShapes[k] == Btd6BossesShapes;
        Btd6Bosses();
      } else if k == 8 {
        assert ClientPaths[k] == Btd6BossesByBossIdLeaderboardByTypeByTeamSizePath && ClientShapes[k] == Btd6BossesByBossIdLeaderboardByTypeByTeamSizeShapes;
        Btd6BossesByBossIdLeaderboardByTypeByTeamSize();
      } else {
        assert ClientPaths[k] == Btd6BossesByBossIdMetadataByDifficultyPath && ClientShapes[k] == Btd6BossesByBossIdMetadataByDifficultyShapes;
        Btd6BossesByBossIdMetadataByDifficulty();
      }
    }
  }

  lemma ClientDescribed2()
    ensures |ClientPaths| == |ClientShapes| == 30
    ensures forall k :: 10 <= k < 15 ==> Described(ClientPaths[k], ClientShapes[k]) && WellFormed(ClientPaths[k])
  {
    forall k | 10 <= k < 15
      ensures Described(ClientPaths[k], ClientShapes[k]) && WellFormed(ClientPaths[k])
    {
      if k == 10 {
        assert ClientPaths[k] == Btd6ChallengesPath && ClientShapes[k] == Btd6ChallengesShapes;
        Btd6Challenges();
      } else if k == 11 {
        assert ClientPaths[k] == Btd6ChallengesChallengeByChallengeIdPath && ClientShapes[k] == Btd6ChallengesChallengeByChallengeIdShapes;
        Btd6ChallengesChallengeByChallengeId();
      } else if k == 12 {
        assert ClientPaths[k] == Btd6ChallengesFilterByChallengeFilterPath && ClientShapes[k] == Btd6ChallengesFilterByChallengeFilterShapes;
        Btd6ChallengesFilterByChallengeFilter();
      } else if k == 13 {
        assert ClientPaths[k] == Btd6CtPath && ClientShapes[k] == Btd6CtShapes;
        Btd6Ct();
      } else {
        assert ClientPaths[k] == Btd6CtByCtIdLeaderboardGroupByGroupIdPath && ClientShapes[k] == Btd6CtByCtIdLeaderboardGroupByGroupIdShapes;
        Btd6CtByCtIdLeaderboardGroupByGroupId();
      }
    }
  }

  lemma ClientDescribed3()
    ensures |ClientPaths| == |ClientShapes| == 30
    ensures forall k :: 15 <= k < 20 ==> Described(ClientPaths[k], ClientShapes[k]) && WellFormed(ClientPaths[k])
  {
    forall k | 15 <= k < 20
      ensures Described(ClientPaths[k], ClientShapes[k]) && WellFormed(ClientPaths[k])
    {
      if k == 15 {
        assert ClientPaths[k] == Btd6CtByCtIdLeaderboardPlayerPath && ClientShapes[k] == Btd6CtByCtIdLeaderboardPlayerShapes;
        Btd6CtByCtIdLeaderboardPlayer();
      } else if k == 16 {
        assert ClientPaths[k] == Btd6CtByCtIdLeaderboardTeamPath && ClientShapes[k] == Btd6CtByCtIdLeaderboardTeamShapes;
        Btd6CtByCtIdLeaderboardTeam();
      } else if k == 17 {
        assert ClientPaths[k] == Btd6CtByCtIdTilesPath && ClientShapes[k] == Btd6CtByCtIdTilesShapes;
        Btd6CtByCtIdTiles();
      } else if k == 18 {
        assert ClientPaths[k] == Btd6GuildByGuildIdPath && ClientShapes[k] == Btd6GuildByGuildIdShapes;
        Btd6GuildByGuildId();
      } else {
        assert ClientPaths[k] == Btd6MapsPath && ClientShapes[k] == Btd6MapsShapes;
        Btd6Maps();
      }
    }
  }

  lemma ClientDescribed4()
    ensures |ClientPaths| == |ClientShapes| == 30
    ensures forall k :: 20 <= k < 25 ==> Described(ClientPaths[k], ClientShapes[k]) && WellFormed(ClientPaths[k])
  {
    forall k | 20 <= k < 25
      ensures Described(ClientPaths[k], ClientShapes[k]) && WellFormed(ClientPaths[k])
    {
      if k == 20 {
        assert ClientPaths[k] == Btd6MapsFilterByMapFilterPath && ClientShapes[k] == Btd6MapsFilterByMapFilterShapes;
        Btd6MapsFilterByMapFilter();
      } else if k == 21 {
        assert ClientPaths[k] == Btd6MapsMapByMapIdPath && ClientShapes[k] == Btd6MapsMapByMapIdShapes;
        Btd6MapsMapByMapId();
      } else if k == 22 {
        assert ClientPaths[k] == Btd6OdysseyPath && ClientShapes[k] == Btd6OdysseyShapes;
        Btd6Odyssey();
      } else if k == 23 {
        assert ClientPaths[k] == Btd6OdysseyByOdysseyIdByDifficultyPath && ClientShapes[k] == Btd6OdysseyByOdysseyIdByDifficultyShapes;
        Btd6OdysseyByOdysseyIdByDifficulty();
      } else {
        assert ClientPaths[k] == Btd6OdysseyByOdysseyIdByDifficultyMapsPath && ClientShapes[k] == Btd6OdysseyByOdysseyIdByDifficultyMapsShapes;
        Btd6OdysseyByOdysseyIdByDifficultyMaps();
      }
    }
  }

  lemma ClientDescribed5()
    ensures |ClientPaths| == |ClientShapes| == 30
    ensures forall k :: 25 <= k < 30 ==> Described(ClientPaths[k], ClientShapes[k]) && WellFormed(ClientPaths[k])
  {
    forall k | 25 <= k < 30
      ensures Described(ClientPaths[k], ClientShapes[k]) && WellFormed(ClientPaths[k])
    {
      if k == 25 {
        assert ClientPaths[k] == Btd6RacesPath && ClientShapes[k] == Btd6RacesShapes;
        Btd6Races();
      } else if k == 26 {
        assert ClientPaths[k] == Btd6RacesByRaceIdLeaderboardPath && ClientShapes[k] == Btd6RacesByRaceIdLeaderboardShapes;
        Btd6RacesByRaceIdLeaderboard();
      } else if k == 27 {
        assert ClientPaths[k] == Btd6RacesByRaceIdMetadataPath && ClientShapes[k] == Btd6RacesByRaceIdMetadataShapes;
        Btd6RacesByRaceIdMetadata();
      } else if k == 28 {
        assert ClientPaths[k] == Btd6SaveByOakIdPath && ClientShapes[k] == Btd6SaveByOakIdShapes;
        Btd6SaveByOakId();
      } else {
        assert ClientPaths[k] == Btd6UsersByUserIdPath && ClientShapes[k] == Btd6UsersByUserIdShapes;
        Btd6UsersByUserId();
      }
    }
  }

  lemma ClientAscending()
    ensures forall k :: 0 <= k < 29 ==>
      PiecesBefore(PieceForms(ClientPaths[k], ClientShapes[k]), PieceForms(ClientPaths[k + 1], ClientShapes[k + 1]))
  {
    ClientAscending0();
    ClientAscending1();
    ClientAscending2();
    ClientAscending3();
    ClientAscending4();
    ClientAscending5();
  }

  lemma ClientAscending0()
    ensures |ClientPaths| == |ClientShapes| == 30
    ensures forall k :: 0 <= k < 5 ==> PiecesBefore(PieceForms(ClientPaths[k], ClientShapes[k]), PieceForms(ClientPaths[k + 1], ClientShapes[k + 1]))
  {
    forall k | 0 <= k < 5
      ensures PiecesBefore(PieceForms(ClientPaths[k], ClientShapes[k]), PieceForms(ClientPaths[k + 1], ClientShapes[k + 1]))
    {
      if k == 0 {
        assert ClientPaths[k] == Battles2GuildByGuildIdPath && ClientShapes[k] == Battles2GuildByGuildIdShapes && ClientPaths[k + 1] == Battles2GuildByGuildIdWarPath && ClientShapes[k + 1] == Battles2GuildByGuildIdWarShapes;
        Battles2GuildByGuildIdBefore();
      } else if k == 1 {
        assert ClientPaths[k] == Battles2GuildByGuildIdWarPath && ClientShapes[k] == Battles2GuildByGuildIdWarShapes && ClientPaths[k + 1] == Battles2HomsPath && ClientShapes[k + 1] == Battles2HomsShapes;
        Battles2GuildByGuildIdWarBefore();
      } else if k == 2 {
        assert ClientPaths[k] == Battles2HomsPath && ClientShapes[k] == Battles2HomsShapes && ClientPaths[k + 1] == Battles2HomsByHomIdLeaderboardPath && ClientShapes[k + 1] == Battles2HomsByHomIdLeaderboardShapes;
        Battles2HomsBefore();
      } else if k == 3 {
        assert ClientPaths[k] == Battles2HomsByHomIdLeaderboardPath && ClientShapes[k] == Battles2HomsByHomIdLeaderboardShapes && ClientPaths[k + 1] == Battles2UsersByUserIdPath && ClientShapes[k + 1] == Battles2UsersByUserIdShapes;
        Battles2HomsByHomIdLeaderboardBefore();
      } else {
        assert ClientPaths[k] == Battles2UsersByUserIdPath && ClientShapes[k] == Battles2UsersByUserIdShapes && ClientPaths[k + 1] == Battles2UsersByUserIdHomsPath && ClientShapes[k + 1] == Battles2UsersByUserIdHomsShapes;
        Battles2UsersByUserIdBefore();
      }
    }
  }

  lemma ClientAscending1()
    ensures |ClientPaths| == |ClientShapes| == 30
    ensures forall k :: 5 <= k < 10 ==> PiecesBefore(PieceForms(ClientPaths[k], ClientShapes[k]), PieceForms(ClientPaths[k + 1], ClientShapes[k + 1]))
  {
    forall k | 5 <= k < 10
      ensures PiecesBefore(PieceForms(ClientPaths[k], ClientShapes[k]), PieceForms(ClientPaths[k + 1], ClientShapes[k + 1]))
    {
      if k == 5 {
        assert ClientPaths[k] == Battles2UsersByUserIdHomsPath && ClientShapes[k] == Battles2UsersByUserIdHomsShapes && ClientPaths[k + 1] == Battles2UsersByUserIdMatchesPath && ClientShapes[k + 1] == Battles2UsersByUserIdMatchesShapes;
        Battles2UsersByUserIdHomsBefore();
      } else if k == 6 {
        assert ClientPaths[k] == Battles2UsersByUserIdMatchesPath && ClientShapes[k] == Battles2UsersByUserIdMatchesShapes && ClientPaths[k + 1] == Btd6BossesPath && ClientShapes[k + 1] == Btd6BossesShapes;
        Battles2UsersByUserIdMatchesBefore();
      } else if k == 7 {
        assert ClientPaths[k] == Btd6BossesPath && ClientShapes[k] == Btd6BossesShapes && ClientPaths[k + 1] == Btd6BossesByBossIdLeaderboardByTypeByTeamSizePath && ClientShapes[k + 1] == Btd6BossesByBossIdLeaderboardByTypeByTeamSizeShapes;
        Btd6BossesBefore();
      } else if k == 8 {
        assert ClientPaths[k] == Btd6BossesByBossIdLeaderboardByTypeByTeamSizePath && ClientShapes[k] == Btd6BossesByBossIdLeaderboardByTypeByTeamSizeShapes && ClientPaths[k + 1] == Btd6BossesByBossIdMetadataByDifficultyPath && ClientShapes[k + 1] == Btd6BossesByBossIdMetadataByDifficultyShapes;
        Btd6BossesByBossIdLeaderboardByTypeByTeamSizeBefore();
      } else {
        assert ClientPaths[k] == Btd6BossesByBossIdMetadataByDifficultyPath && ClientShapes[k] == Btd6BossesByBossIdMetadataByDifficultyShapes && ClientPaths[k + 1] == Btd6ChallengesPath && ClientShapes[k + 1] == Btd6ChallengesShapes;
        Btd6BossesByBossIdMetadataByDifficultyBefore();
      }
    }
  }

  lemma ClientAscending2()
    ensures |ClientPaths| == |ClientShapes| == 30
    ensures forall k :: 10 <= k < 15 ==> PiecesBefore(PieceForms(ClientPaths[k], ClientShapes[k]), PieceForms(ClientPaths[k + 1], ClientShapes[k + 1]))
  {
    forall k | 10 <= k < 15
      ensures PiecesBefore(PieceForms(ClientPaths[k], ClientShapes[k]), PieceForms(ClientPaths[k + 1], ClientShapes[k + 1]))
    {
      if k == 10 {
        assert ClientPaths[k] == Btd6ChallengesPath && ClientShapes[k] == Btd6ChallengesShapes && ClientPaths[k + 1] == Btd6ChallengesChallengeByChallengeIdPath && ClientShapes[k + 1] == Btd6ChallengesChallengeByChallengeIdShapes;
        Btd6ChallengesBefore();
      } else if k == 11 {
        assert ClientPaths[k] == Btd6ChallengesChallengeByChallengeIdPath && ClientShapes[k] == Btd6ChallengesChallengeByChallengeIdShapes && ClientPaths[k + 1] == Btd6ChallengesFilterByChallengeFilterPath && ClientShapes[k + 1] == Btd6ChallengesFilterByChallengeFilterShapes;
        Btd6ChallengesChallengeByChallengeIdBefore();
      } else if k == 12 {
        assert ClientPaths[k] == Btd6ChallengesFilterByChallengeFilterPath && ClientShapes[k] == Btd6ChallengesFilterByChallengeFilterShapes && ClientPaths[k + 1] == Btd6CtPath && ClientShapes[k + 1] == Btd6CtShapes;
        Btd6ChallengesFilterByChallengeFilterBefore();
      } else if k == 13 {
        assert ClientPaths[k] == Btd6CtPath && ClientShapes[k] == Btd6CtShapes && ClientPaths[k + 1] == Btd6CtByCtIdLeaderboardGroupByGroupIdPath && ClientShapes[k + 1] == Btd6CtByCtIdLeaderboardGroupByGroupIdShapes;
        Btd6CtBefore();
      } else {
        assert ClientPaths[k] == Btd6CtByCtIdLeaderboardGroupByGroupIdPath && ClientShapes[k] == Btd6CtByCtIdLeaderboardGroupByGroupIdShapes && ClientPaths[k + 1] == Btd6CtByCtIdLeaderboardPlayerPath && ClientShapes[k + 1] == Btd6CtByCtIdLeaderboardPlayerShapes;
        Btd6CtByCtIdLeaderboardGroupByGroupIdBefore();
      }
    }
  }

  lemma ClientAscending3()
    ensures |ClientPaths| == |ClientShapes| == 30
    ensures forall k :: 15 <= k < 20 ==> PiecesBefore(PieceForms(ClientPaths[k], ClientShapes[k]), PieceForms(ClientPaths[k + 1], ClientShapes[k + 1]))
  {
    forall k | 15 <= k < 20
      ensures PiecesBefore(PieceForms(ClientPaths[k], ClientShapes[k]), PieceForms(ClientPaths[k + 1], ClientShapes[k + 1]))
    {
      if k == 15 {
        assert ClientPaths[k] == Btd6CtByCtIdLeaderboardPlayerPath && ClientShapes[k] == Btd6CtByCtIdLeaderboardPlayerShapes && ClientPaths[k + 1] == Btd6CtByCtIdLeaderboardTeamPath && ClientShapes[k + 1] == Btd6CtByCtIdLeaderboardTeamShapes;
        Btd6CtByCtIdLeaderboardPlayerBefore();
      } else if k == 16 {
        assert ClientPaths[k] == Btd6CtByCtIdLeaderboardTeamPath && ClientShapes[k] == Btd6CtByCtIdLeaderboardTeamShapes && ClientPaths[k + 1] == Btd6CtByCtIdTilesPath && ClientShapes[k + 1] == Btd6CtByCtIdTilesShapes;
        Btd6CtByCtIdLeaderboardTeamBefore();
      } else if k == 17 {
        assert ClientPaths[k] == Btd6CtByCtIdTilesPath && ClientShapes[k] == Btd6CtByCtIdTilesShapes && ClientPaths[k + 1] == Btd6GuildByGuildIdPath && ClientShapes[k + 1] == Btd6GuildByGuildIdShapes;
        Btd6CtByCtIdTilesBefore();
      } else if k == 18 {
        assert ClientPaths[k] == Btd6GuildByGuildIdPath && ClientShapes[k] == Btd6GuildByGuildIdShapes && ClientPaths[k + 1] == Btd6MapsPath && ClientShapes[k + 1] == Btd6MapsShapes;
        Btd6GuildByGuildIdBefore();
      } else {
        assert ClientPaths[k] == Btd6MapsPath && ClientShapes[k] == Btd6MapsShapes && ClientPaths[k + 1] == Btd6MapsFilterByMapFilterPath && ClientShapes[k + 1] == Btd6MapsFilterByMapFilterShapes;
        Btd6MapsBefore();
      }
    }
  }

  lemma ClientAscending4()
    ensures |ClientPaths| == |ClientShapes| == 30
    ensures forall k :: 20 <= k < 25 ==> PiecesBefore(PieceForms(ClientPaths[k], ClientShapes[k]), PieceForms(ClientPaths[k + 1], ClientShapes[k + 1]))
  {
    forall k | 20 <= k < 25
      ensures PiecesBefore(PieceForms(ClientPaths[k], ClientShapes[k]), PieceForms(ClientPaths[k + 1], ClientShapes[k + 1]))
    {
      if k == 20 {
        assert ClientPaths[k] == Btd6MapsFilterByMapFilterPath && ClientShapes[k] == Btd6MapsFilterByMapFilterShapes && ClientPaths[k + 1] == Btd6MapsMapByMapIdPath && ClientShapes[k + 1] == Btd6MapsMapByMapIdShapes;
        Btd6MapsFilterByMapFilterBefore();
      } else if k == 21 {
        assert ClientPaths[k] == Btd6MapsMapByMapIdPath && ClientShapes[k] == Btd6MapsMapByMapIdShapes && ClientPaths[k + 1] == Btd6OdysseyPath && ClientShapes[k + 1] == Btd6OdysseyShapes;
        Btd6MapsMapByMapIdBefore();
      } else if k == 22 {
        assert ClientPaths[k] == Btd6OdysseyPath && ClientShapes[k] == Btd6OdysseyShapes && ClientPaths[k + 1] == Btd6OdysseyByOdysseyIdByDifficultyPath && ClientShapes[k + 1] == Btd6OdysseyByOdysseyIdByDifficultyShapes;
        Btd6OdysseyBefore();
      } else if k == 23 {
        assert ClientPaths[k] == Btd6OdysseyByOdysseyIdByDifficultyPath && ClientShapes[k] == Btd6OdysseyByOdysseyIdByDifficultyShapes && ClientPaths[k + 1] == Btd6OdysseyByOdysseyIdByDifficultyMapsPath && ClientShapes[k + 1] == Btd6OdysseyByOdysseyIdByDifficultyMapsShapes;
        Btd6OdysseyByOdysseyIdByDifficultyBefore();
      } else {
        assert ClientPaths[k] == Btd6OdysseyByOdysseyIdByDifficultyMapsPath && ClientShapes[k] == Btd6OdysseyByOdysseyIdByDifficultyMapsShapes && ClientPaths[k + 1] == Btd6RacesPath && ClientShapes[k + 1] == Btd6RacesShapes;
        Btd6OdysseyByOdysseyIdByDifficultyMapsBefore();
      }
    }
  }

  lemma ClientAscending5()
    ensures |ClientPaths| == |ClientShapes| == 30
    ensures forall k :: 25 <= k < 29 ==> PiecesBefore(PieceForms(ClientPaths[k], ClientShapes[k]), PieceForms(ClientPaths[k + 1], ClientShapes[k + 1]))
  {
    forall k | 25 <= k < 29
      ensures PiecesBefore(PieceForms(ClientPaths[k], ClientShapes[k]), PieceForms(ClientPaths[k + 1], ClientShapes[k + 1]))
    {
      if k == 25 {
        assert ClientPaths[k] == Btd6RacesPath && ClientShapes[k] == Btd6RacesShapes && ClientPaths[k + 1] == Btd6RacesByRaceIdLeaderboardPath && ClientShapes[k + 1] == Btd6RacesByRaceIdLeaderboardShapes;
        Btd6RacesBefore();
      } else if k == 26 {
        assert ClientPaths[k] == Btd6RacesByRaceIdLeaderboardPath && ClientShapes[k] == Btd6RacesByRaceIdLeaderboardShapes && ClientPaths[k + 1] == Btd6RacesByRaceIdMetadataPath && ClientShapes[k + 1] == Btd6RacesByRaceIdMetadataShapes;
        Btd6RacesByRaceIdLeaderboardBefore();
      } else if k == 27 {
        assert ClientPaths[k] == Btd6RacesByRaceIdMetadataPath && ClientShapes[k] == Btd6RacesByRaceIdMetadataShapes && ClientPaths[k + 1] == Btd6SaveByOakIdPath && ClientShapes[k + 1] == Btd6SaveByOakIdShapes;
        Btd6RacesByRaceIdMetadataBefore();
      } else {
        assert ClientPaths[k] == Btd6SaveByOakIdPath && ClientShapes[k] == Btd6SaveByOakIdShapes && ClientPaths[k + 1] == Btd6UsersByUserIdPath && ClientShapes[k + 1] == Btd6UsersByUserIdShapes;
        Btd6SaveByOakIdBefore();
      }
    }
  }

  /** A table of well-formed paths, each with the shapes of its names. */
  predicate DescribedTable(paths: seq<seq<Segment>>, shapes: seq<seq<Shape>>)
  {
    |paths| == |shapes| &&
    forall k :: 0 <= k < |paths| ==> Described(paths[k], shapes[k]) && WellFormed(paths[k])
  }

  /** Both generators name each path of such a table "get" followed by its pieces. */
  lemma TableNames(paths: seq<seq<Segment>>, shapes: seq<seq<Shape>>)
    requires DescribedTable(paths, shapes)
    ensures forall k :: 0 <= k < |paths| ==>
      FunctionNameGen(Render(paths[k])) == "get" + Concat(PieceForms(paths[k], shapes[k])) &&
      FunctionNameCodegen(Render(paths[k])) == "get" + Concat(PieceForms(paths[k], shapes[k]))
  {
    forall k | 0 <= k < |paths|
      ensures FunctionNameGen(Render(paths[k])) == "get" + Concat(PieceForms(paths[k], shapes[k]))
      ensures FunctionNameCodegen(Render(paths[k])) == "get" + Concat(PieceForms(paths[k], shapes[k]))
    {
      PathPieces(paths[k], shapes[k]);
      ClientName(paths[k], PieceForms(paths[k], shapes[k]));
    }
  }

  /** The paths of such a table whose pieces ascend get, from both generators,
      pairwise different method names. */
  lemma TableNamesDistinct(paths: seq<seq<Segment>>, shapes: seq<seq<Shape>>)
    requires DescribedTable(paths, shapes)
    requires forall k :: 0 <= k < |paths| - 1 ==>
      PiecesBefore(PieceForms(paths[k], shapes[k]), PieceForms(paths[k + 1], shapes[k + 1]))
    ensures forall i, j :: 0 <= i < j < |paths| ==>
      FunctionNameGen(Render(paths[i])) != FunctionNameGen(Render(paths[j])) &&
      FunctionNameCodegen(Render(paths[i])) != FunctionNameCodegen(Render(paths[j]))
  {
    var pieces := seq(|paths|, k requires 0 <= k < |paths| => PieceForms(paths[k], shapes[k]));
    assert Ascending(pieces);
    TableNames(paths, shapes);
    forall i, j | 0 <= i < j < |paths|
      ensures FunctionNameGen(Render(paths[i])) != FunctionNameGen(Render(paths[j]))
      ensures FunctionNameCodegen(Render(paths[i])) != FunctionNameCodegen(Render(paths[j]))
    {
      AscendingPairs(pieces, i, j);
      PiecesBeforeConcat(pieces[i], pieces[j]);
      assert ("get" + Concat(pieces[i]))[3..] == Concat(pieces[i]);
      assert ("get" + Concat(pieces[j]))[3..] == Concat(pieces[j]);
    }
  }

  /** Each endpoint of the client gets, from both generators, "get" followed
      by its pieces. */
  lemma ClientNames()
    ensures forall k :: 0 <= k < |ClientPaths| ==>
      FunctionNameGen(Render(ClientPaths[k])) == "get" + Concat(PieceForms(ClientPaths[k], ClientShapes[k])) &&
      FunctionNameCodegen(Render(ClientPaths[k])) == "get" + Concat(PieceForms(ClientPaths[k], ClientShapes[k]))
  {
    ClientFacts();
    TableNames(ClientPaths, ClientShapes);
  }

  /** The thirty endpoints of the client get thirty different method names,
      from either generator. */
  lemma ClientNamesDistinct()
    ensures forall i, j :: 0 <= i < j < |ClientPaths| ==>
      FunctionNameGen(Render(ClientPaths[i])) != FunctionNameGen(Render(ClientPaths[j])) &&
      FunctionNameCodegen(Render(ClientPaths[i])) != FunctionNameCodegen(Render(ClientPaths[j]))
  {
    ClientFacts();
    TableNamesDistinct(ClientPaths, ClientShapes);
  }

  // ---- one endpoint written out ----------------------------------------------------

  /** `/btd6/bosses/:bossID/leaderboard/:type/:teamSize` becomes, from either
      generator, the client's method `get_btd6_bosses_by_boss_id_leaderboard_by_type_by_team_size`,
      which requests `btd6/bosses/{boss_id}/leaderboard/{type}/{team_size}`.
      The strings are written as concatenations of their segments. */
  lemma BossLeaderboardEndpoint()
    ensures Render(Btd6BossesByBossIdLeaderboardByTypeByTeamSizePath)
            == "/btd6" + "/bosses" + "/:bossID" + "/leaderboard" + "/:type" + "/:teamSize"
    ensures FunctionNameGen(Render(Btd6BossesByBossIdLeaderboardByTypeByTeamSizePath))
            == "get" + "_btd6" + "_bosses" + "_by_boss_id" + "_leaderboard" + "_by_type" + "_by_team_size"
    ensures FunctionNameCodegen(Render(Btd6BossesByBossIdLeaderboardByTypeByTeamSizePath))
            == "get" + "_btd6" + "_bosses" + "_by_boss_id" + "_leaderboard" + "_by_type" + "_by_team_size"
    ensures EndpointTemplate(Render(Btd6BossesByBossIdLeaderboardByTypeByTeamSizePath))
            == "btd6" + "/bosses" + "/{boss_id}" + "/leaderboard" + "/{type}" + "/{team_size}"
  {
    var segs := Btd6BossesByBossIdLeaderboardByTypeByTeamSizePath;
    BossLeaderboardPath();
    Btd6BossesByBossIdLeaderboardByTypeByTeamSize();
    var ps := BossLeaderboardPieces();
    PathPieces(segs, Btd6BossesByBossIdLeaderboardByTypeByTeamSizeShapes);
    ClientName(segs, ps);
    BossLeaderboardParams();
    BossLeaderboardPrefixFree();
    EndpointTemplateRender(segs);
    BossLeaderboardTemplate();
  }

  lemma RenderCons(g: Segment, rest: seq<Segment>)
    ensures Render([g] + rest) == SegText(g) + Render(rest)
  {
    assert ([g] + rest)[1..] == rest;
  }

  lemma TemplateCons(g: Segment, rest: seq<Segment>)
    ensures Template([g] + rest) == TemplateText(g) + Template(rest)
  {
    assert ([g] + rest)[1..] == rest;
  }

  lemma ParamNamesCons(g: Segment, rest: seq<Segment>)
    ensures ParamNames([g] + rest) == (if g.Param? then [g.name] else []) + ParamNames(rest)
  {
    assert ([g] + rest)[1..] == rest;
  }

  lemma ConcatCons(p: string, rest: seq<string>)
    ensures Concat([p] + rest) == p + Concat(rest)
  {
    assert ([p] + rest)[1..] == rest;
  }

  /** The path text of six segments, one after the other. */
  lemma RenderSix(a: Segment, b: Segment, c: Segment, d: Segment, e: Segment, f: Segment)
    ensures Render([a, b, c, d, e, f]) == SegText(a) + (SegText(b) + (SegText(c) + (SegText(d) + (SegText(e) + SegText(f)))))
  {
    var sf := [f];
    var se := [e] + sf;
    var sd := [d] + se;
    var sc := [c] + sd;
    var sb := [b] + sc;
    assert [a, b, c, d, e, f] == [a] + sb;
    assert sf == [f] + [];
    RenderCons(f, []);
    RenderCons(e, sf);
    RenderCons(d, se);
    RenderCons(c, sd);
    RenderCons(b, sc);
    RenderCons(a, sb);
    assert Render(sf) == SegText(f) by { assert SegText(f) + [] == SegText(f); }
    assert Render(se) == SegText(e) + SegText(f);
    assert Render(sd) == SegText(d) + (SegText(e) + SegText(f));
    assert Render(sc) == SegText(c) + (SegText(d) + (SegText(e) + SegText(f)));
    assert Render(sb) == SegText(b) + (SegText(c) + (SegText(d) + (SegText(e) + SegText(f))));
  }

  /** The template of six segments, one after the other. */
  lemma TemplateSix(a: Segment, b: Segment, c: Segment, d: Segment, e: Segment, f: Segment)
    ensures Template([a, b, c, d, e, f]) == TemplateText(a) + (TemplateText(b) + (TemplateText(c) + (TemplateText(d) + (TemplateText(e) + TemplateText(f)))))
  {
    var sf := [f];
    var se := [e] + sf;
    var sd := [d] + se;
    var sc := [c] + sd;
    var sb := [b] + sc;
    assert [a, b, c, d, e, f] == [a] + sb;
    assert sf == [f] + [];
    TemplateCons(f, []);
    TemplateCons(e, sf);
    TemplateCons(d, se);
    TemplateCons(c, sd);
    TemplateCons(b, sc);
    TemplateCons(a, sb);
    assert Template(sf) == TemplateText(f) by { assert TemplateText(f) + [] == TemplateText(f); }
    assert Template(se) == TemplateText(e) + TemplateText(f);
    assert Template(sd) == TemplateText(d) + (TemplateText(e) + TemplateText(f));
    assert Template(sc) == TemplateText(c) + (TemplateText(d) + (TemplateText(e) + TemplateText(f)));
    assert Template(sb) == TemplateText(b) + (TemplateText(c) + (TemplateText(d) + (TemplateText(e) + TemplateText(f))));
  }

  /** The concatenation of six pieces. */
  lemma ConcatSix(a: string, b: string, c: string, d: string, e: string, f: string)
    ensures Concat([a, b, c, d, e, f]) == a + (b + (c + (d + (e + f))))
  {
    var sf := [f];
    var se := [e] + sf;
    var sd := [d] + se;
    var sc := [c] + sd;
    var sb := [b] + sc;
    assert [a, b, c, d, e, f] == [a] + sb;
    assert sf == [f] + [];
    ConcatCons(f, []);
    ConcatCons(e, sf);
    ConcatCons(d, se);
    ConcatCons(c, sd);
    ConcatCons(b, sc);
    ConcatCons(a, sb);
    assert Concat(sf) == f by { assert f + [] == f; }
    assert Concat(se) == e + f;
    assert Concat(sd) == d + (e + f);
    assert Concat(sc) == c + (d + (e + f));
    assert Concat(sb) == b + (c + (d + (e + f)));
  }

  lemma AppendSix<T>(a: seq<T>, b: seq<T>, c: seq<T>, d: seq<T>, e: seq<T>, f: seq<T>)
    ensures a + (b + (c + (d + (e + f)))) == a + b + c + d + e + f
  {
  }

  lemma AppendSeven<T>(x: seq<T>, a: seq<T>, b: seq<T>, c: seq<T>, d: seq<T>, e: seq<T>, f: seq<T>)
    ensures x + (a + (b + (c + (d + (e + f))))) == x + a + b + c + d + e + f
  {
  }

  /** The path text of the endpoint, segment by segment. */
  lemma BossLeaderboardPath()
    ensures Render(Btd6BossesByBossIdLeaderboardByTypeByTeamSizePath) == "/btd6" + "/bosses" + "/:bossID" + "/leaderboard" + "/:type" + "/:teamSize"
  {
    RenderSix(Lit("btd6"), Lit("bosses"), Param("bossID"), Lit("leaderboard"), Param("type"), Param("teamSize"));
    AppendSix("/btd6", "/bosses", "/:bossID", "/leaderboard", "/:type", "/:teamSize");
    assert SegText(Lit("btd6")) == "/btd6";
    assert SegText(Lit("bosses")) == "/bosses";
    assert SegText(Param("bossID")) == "/:bossID";
    assert SegText(Lit("leaderboard")) == "/leaderboard";
    assert SegText(Param("type")) == "/:type";
    assert SegText(Param("teamSize")) == "/:teamSize";
  }

  /** The method-name pieces of the endpoint, and the name they make. */
  lemma BossLeaderboardPieces() returns (ps: seq<string>)
    ensures ps == PieceForms(Btd6BossesByBossIdLeaderboardByTypeByTeamSizePath, Btd6BossesByBossIdLeaderboardByTypeByTeamSizeShapes)
    ensures "get" + Concat(ps) == "get" + "_btd6" + "_bosses" + "_by_boss_id" + "_leaderboard" + "_by_type" + "_by_team_size"
  {
    ps := PieceForms(Btd6BossesByBossIdLeaderboardByTypeByTeamSizePath, Btd6BossesByBossIdLeaderboardByTypeByTeamSizeShapes);
    assert ps[0] == "_btd6";
    assert ps[1] == "_bosses";
    assert ps[2] == "_by_boss_id";
    assert ps[3] == "_leaderboard";
    assert ps[4] == "_by_type";
    assert ps[5] == "_by_team_size";
    assert ps == ["_btd6", "_bosses", "_by_boss_id", "_leaderboard", "_by_type", "_by_team_size"];
    ConcatSix("_btd6", "_bosses", "_by_boss_id", "_leaderboard", "_by_type", "_by_team_size");
    AppendSeven("get", "_btd6", "_bosses", "_by_boss_id", "_leaderboard", "_by_type", "_by_team_size");
  }

  /** The parameters of the endpoint, in path order. */
  lemma BossLeaderboardParams()
    ensures ParamNames(Btd6BossesByBossIdLeaderboardByTypeByTeamSizePath) == ["bossID", "type", "teamSize"]
  {
    var f := [Param("teamSize")];
    var e := [Param("type")] + f;
    var d := [Lit("leaderboard")] + e;
    var c := [Param("bossID")] + d;
    var b := [Lit("bosses")] + c;
    assert Btd6BossesByBossIdLeaderboardByTypeByTeamSizePath == [Lit("btd6")] + b;
    ParamNamesCons(Param("teamSize"), []);
    ParamNamesCons(Param("type"), f);
    ParamNamesCons(Lit("leaderboard"), e);
    ParamNamesCons(Param("bossID"), d);
    ParamNamesCons(Lit("bosses"), c);
    ParamNamesCons(Lit("btd6"), b);
  }

  lemma NotStartsWith(s: string, p: string, k: nat)
    requires k < |s| && k < |p| && s[k] != p[k]
    ensures !StartsWith(s, p)
  {
  }

  /** None of `bossID`, `type` and `teamSize` starts with another. */
  lemma BossLeaderboardPrefixFree()
    ensures PrefixFree(["bossID", "type", "teamSize"])
  {
    var ps := ["bossID", "type", "teamSize"];
    NotStartsWith(ps[0], ps[1], 0);
    NotStartsWith(ps[0], ps[2], 0);
    NotStartsWith(ps[1], ps[0], 0);
    NotStartsWith(ps[1], ps[2], 1);
    NotStartsWith(ps[2], ps[0], 0);
    NotStartsWith(ps[2], ps[1], 1);
  }

  lemma SlashTail(n: string, r: string)
    ensures ("/" + n + r)[1..] == n + r
  {
  }

  /** The template text of a parameter whose name has the shape `d`. */
  lemma PlaceholderForm(n: string, d: Shape)
    requires Fits(n, d)
    ensures TemplateText(Param(n)) == "/" + ("{" + SnakeForm(n, d) + "}")
  {
    SnakeFits(n, d);
  }

  lemma BossLeaderboardTexts(b: string, t: string, ts: string)
    ensures Template([Lit("btd6"), Lit("bosses"), Param(b), Lit("leaderboard"), Param(t), Param(ts)])[1..]
            == "btd6" + (TemplateText(Lit("bosses")) + (TemplateText(Param(b)) + (TemplateText(Lit("leaderboard")) + (TemplateText(Param(t)) + TemplateText(Param(ts))))))
  {
    TemplateSix(Lit("btd6"), Lit("bosses"), Param(b), Lit("leaderboard"), Param(t), Param(ts));
    SlashTail("btd6", TemplateText(Lit("bosses")) + (TemplateText(Param(b)) + (TemplateText(Lit("leaderboard")) + (TemplateText(Param(t)) + TemplateText(Param(ts))))));
  }

  lemma BossLeaderboardWords()
    ensures TemplateText(Lit("bosses")) == "/bosses"
    ensures TemplateText(Lit("leaderboard")) == "/leaderboard"
  {
  }

  /** The endpoint's template, for parameter names of the given shapes. */
  lemma BossLeaderboardTemplateForm(b: string, t: string, ts: string, db: Shape, dt: Shape, dts: Shape)
    requires Fits(b, db) && Fits(t, dt) && Fits(ts, dts)
    ensures var pb, pt, pts := "/" + ("{" + SnakeForm(b, db) + "}"), "/" + ("{" + SnakeForm(t, dt) + "}"), "/" + ("{" + SnakeForm(ts, dts) + "}");
            Template([Lit("btd6"), Lit("bosses"), Param(b), Lit("leaderboard"), Param(t), Param(ts)])[1..]
            == "btd6" + ("/bosses" + (pb + ("/leaderboard" + (pt + pts))))
  {
    BossLeaderboardTexts(b, t, ts);
    BossLeaderboardWords();
    PlaceholderForm(b, db);
    PlaceholderForm(t, dt);
    PlaceholderForm(ts, dts);
  }

  lemma BossIDPlaceholder()
    ensures "/" + ("{" + SnakeForm("bossID", Acronym("bos", 's', "ID")) + "}") == "/{boss_id}"
  {
  }

  lemma TypePlaceholder()
    ensures "/" + ("{" + SnakeForm("type", Plain) + "}") == "/{type}"
  {
  }

  lemma TeamSizePlaceholder()
    ensures "/" + ("{" + SnakeForm("teamSize", Hump("tea", 'm', 'S', "ize")) + "}") == "/{team_size}"
  {
  }

  /** The endpoint's template, with the outer '/' stripped. */
  lemma BossLeaderboardTemplate()
    ensures Template(Btd6BossesByBossIdLeaderboardByTypeByTeamSizePath)[1..] == "btd6" + "/bosses" + "/{boss_id}" + "/leaderboard" + "/{type}" + "/{team_size}"
  {
    BossIDName();
    TypeName();
    TeamSizeName();
    BossLeaderboardTemplateForm("bossID", "type", "teamSize", Acronym("bos", 's', "ID"), Plain, Hump("tea", 'm', 'S', "ize"));
    BossIDPlaceholder();
    TypePlaceholder();
    TeamSizePlaceholder();
    AppendSix("btd6", "/bosses", "/{boss_id}", "/leaderboard", "/{type}", "/{team_size}");
  }

  // ---- the naming rule is not injective ----------------------------------------------

  /** `/a/:b`: a parameter `b` after the word `a`. */
  const ColonForm: seq<Segment> := [Lit("a"), Param("b")]

  /** `/a/by/b`: the three words `a`, `by` and `b`. */
  const WordForm: seq<Segment> := [Lit("a"), Lit("by"), Lit("b")]

  lemma NamePiecesCons(g: Segment, rest: seq<Segment>)
    ensures NamePieces([g] + rest) == NamePiece(g) + NamePieces(rest)
  {
    assert ([g] + rest)[0] == g && ([g] + rest)[1..] == rest;
  }

  lemma ColonPieces(a: string, b: string)
    ensures NamePieces([Lit(a), Param(b)]) == NamePiece(Lit(a)) + NamePiece(Param(b))
  {
    NamePiecesCons(Param(b), []);
    assert [Param(b)] + [] == [Param(b)];
    assert NamePiece(Param(b)) + [] == NamePiece(Param(b));
    NamePiecesCons(Lit(a), [Param(b)]);
    assert [Lit(a)] + [Param(b)] == [Lit(a), Param(b)];
  }

  lemma WordPieces(a: string, b: string)
    ensures NamePieces([Lit(a), Lit("by"), Lit(b)]) == NamePiece(Lit(a)) + (NamePiece(Lit("by")) + NamePiece(Lit(b)))
  {
    NamePiecesCons(Lit(b), []);
    assert [Lit(b)] + [] == [Lit(b)];
    assert NamePiece(Lit(b)) + [] == NamePiece(Lit(b));
    NamePiecesCons(Lit("by"), [Lit(b)]);
    assert [Lit("by")] + [Lit(b)] == [Lit("by"), Lit(b)];
    NamePiecesCons(Lit(a), [Lit("by"), Lit(b)]);
    assert [Lit(a)] + [Lit("by"), Lit(b)] == [Lit(a), Lit("by"), Lit(b)];
  }

  lemma ByPathsDiffer(a: string, b: string)
    ensures Render([Lit(a), Param(b)]) != Render([Lit(a), Lit("by"), Lit(b)])
  {
    var p := [Lit(a), Param(b)];
    var q := [Lit(a), Lit("by"), Lit(b)];
    assert p[1..] == [Param(b)] && p[1..][1..] == [];
    assert q[1..] == [Lit("by"), Lit(b)] && q[1..][1..] == [Lit(b)] && q[1..][1..][1..] == [];
    assert Render(p[1..][1..]) == [] && Render(q[1..][1..][1..]) == [];
    assert Render(p[1..]) == "/:" + b + [];
    assert Render(q[1..][1..]) == "/" + b + [];
    assert Render(q[1..]) == "/by" + Render(q[1..][1..]);
    var rp, rq := Render(p), Render(q);
    assert rp == ("/" + a) + ("/:" + b);
    assert rq == ("/" + a) + ("/by" + ("/" + b));
    var i := |a| + 2;
    assert rp[i] == ':' && rq[i] == 'b';
  }

  lemma ByWellFormed(a: string, b: string)
    requires GoodName(a) && GoodName(b)
    ensures WellFormed([Lit(a), Param(b)]) && WellFormed([Lit(a), Lit("by"), Lit(b)])
  {
    assert GoodName("by");
  }

  /** Well-formed paths with the same pieces get the same method name. */
  lemma SamePiecesSameName(p: seq<Segment>, q: seq<Segment>)
    requires WellFormed(p) && WellFormed(q) && NamePieces(p) == NamePieces(q)
    ensures FunctionNameGen(Render(p)) == FunctionNameGen(Render(q))
    ensures FunctionNameCodegen(Render(p)) == FunctionNameCodegen(Render(q))
  {
    FunctionNameRender(p);
    FunctionNameRender(q);
  }

  /** For any two names, `/a/:b` and `/a/by/b` are different paths that get
      the same method name from both generators: the ":" of a parameter and a
      literal segment "by" both become "_by". */
  lemma ByCollision(a: string, b: string)
    requires GoodName(a) && GoodName(b)
    ensures Render([Lit(a), Param(b)]) != Render([Lit(a), Lit("by"), Lit(b)])
    ensures FunctionNameGen(Render([Lit(a), Param(b)])) == FunctionNameGen(Render([Lit(a), Lit("by"), Lit(b)]))
    ensures FunctionNameCodegen(Render([Lit(a), Param(b)])) == FunctionNameCodegen(Render([Lit(a), Lit("by"), Lit(b)]))
  {
    ByWellFormed(a, b);
    ByPieces(a, b);
    SamePiecesSameName([Lit(a), Param(b)], [Lit(a), Lit("by"), Lit(b)]);
    ByPathsDiffer(a, b);
  }

  lemma ByPieces(a: string, b: string)
    ensures NamePieces([Lit(a), Param(b)]) == NamePieces([Lit(a), Lit("by"), Lit(b)])
  {
    ColonPieces(a, b);
    WordPieces(a, b);
    var sb := Snake(b);
    SnakeNoUpper("by");
    assert NamePiece(Lit("by")) == "_by";
    assert "_by_" == "_by" + "_";
    Assoc("_by", "_", sb);
  }

  /** `/a/:b` and `/a/by/b` both become `get_a_by_b`. */
  lemma NamesCollide()
    ensures Render([Lit("a"), Param("b")]) != Render([Lit("a"), Lit("by"), Lit("b")])
    ensures FunctionNameGen(Render([Lit("a"), Param("b")])) == FunctionNameGen(Render([Lit("a"), Lit("by"), Lit("b")]))
  {
    assert GoodName("a") && GoodName("b");
    ByCollision("a", "b");
  }
}
