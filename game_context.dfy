/** The progression engine: the motivational tier table and its lookups, the
    level badges, and the reducer that applies one game event to the
    player's cumulative state. */
module GameContext {
  import opened Common

  // ---------------------------------------------------------------------
  // Motivational tags
  // ---------------------------------------------------------------------

  /** The tiers, by their `id`. */
  datatype TagId = Newcomer | Explorer | Learner | Navigator | Star | Champ | Master | Legend | Mythical

  /** A row of the tier table. Its icon, title and message are fixed by the
      id (`Icon`, `Title`, `Message` below). */
  datatype Tag = Tag(id: TagId, minStars: int)

  /** The nine tiers, in ascending order of the stars they need. */
  const MotivationalTags: seq<Tag> := [
    Tag(Newcomer, 0), Tag(Explorer, 3), Tag(Learner, 8), Tag(Navigator, 15), Tag(Star, 25),
    Tag(Champ, 35), Tag(Master, 50), Tag(Legend, 75), Tag(Mythical, 100)
  ]

  function IdName(id: TagId): string {
    match id
    case Newcomer => "newcomer"
    case Explorer => "explorer"
    case Learner => "learner"
    case Navigator => "navigator"
    case Star => "star"
    case Champ => "champ"
    case Master => "master"
    case Legend => "legend"
    case Mythical => "mythical"
  }

  function Icon(id: TagId): string {
    match id
    case Newcomer => "🌱"
    case Explorer => "🦇"
    case Learner => "📚"
    case Navigator => "🗺️"
    case Star => "⭐"
    case Champ => "🥇"
    case Master => "🏆"
    case Legend => "👑"
    case Mythical => "🌟"
  }

  function Title(id: TagId): string {
    match id
    case Newcomer => "Little Sprout"
    case Explorer => "Cave Explorer"
    case Learner => "Pro Learner"
    case Navigator => "Grid Navigator"
    case Star => "Star Collector"
    case Champ => "Coordinate Champ"
    case Master => "Cave Master"
    case Legend => "Cave Legend"
    case Mythical => "Mythical Explorer"
  }

  function Message(id: TagId): string {
    match id
    case Newcomer => "You're just getting started! 🌱"
    case Explorer => "You're exploring the cave! 🦇"
    case Learner => "You're learning so fast! 📚"
    case Navigator => "You know your way around! 🗺️"
    case Star => "Look at all your stars! ⭐"
    case Champ => "You're a true champion! 🥇"
    case Master => "Master of the cave! 🏆"
    case Legend => "A legendary explorer! 👑"
    case Mythical => "You're truly mythical! 🌟"
  }

  /** The stars needed for the last tier: from here on nothing is left to unlock. */
  const TopTierStars := 100

  predicate Ascending(tags: seq<Tag>) {
    forall i, j :: 0 <= i < j < |tags| ==> tags[i].minStars < tags[j].minStars
  }

  lemma TableAscending()
    ensures |MotivationalTags| == 9
    ensures Ascending(MotivationalTags)
    ensures MotivationalTags[0].minStars == 0
    ensures MotivationalTags[8].minStars == TopTierStars
  {
    var t := MotivationalTags;
    forall i | 0 <= i < 8 ensures t[i].minStars < t[i + 1].minStars { }
    forall i, j | 0 <= i < j < |t| ensures t[i].minStars < t[j].minStars {
      var k := i;
      while k < j
        invariant i <= k <= j
        invariant t[i].minStars <= t[k].minStars
        invariant k > i ==> t[i].minStars < t[k].minStars
      {
        k := k + 1;
      }
    }
  }

  /** `tags.filter(tag => stars >= tag.minStars)`. */
  function FilterUnlocked(tags: seq<Tag>, stars: int): (r: seq<Tag>)
    ensures |r| <= |tags|
  {
    if tags == [] then []
    else if tags[0].minStars <= stars then [tags[0]] + FilterUnlocked(tags[1..], stars)
    else FilterUnlocked(tags[1..], stars)
  }

  /** The filter keeps exactly the rows whose threshold is met. */
  lemma {:induction false} FilterUnlockedMembers(tags: seq<Tag>, stars: int)
    ensures forall t :: t in FilterUnlocked(tags, stars) ==> t in tags && t.minStars <= stars
    ensures forall t :: t in tags && t.minStars <= stars ==> t in FilterUnlocked(tags, stars)
    decreases |tags|
  {
    if tags != [] {
      FilterUnlockedMembers(tags[1..], stars);
      assert tags == [tags[0]] + tags[1..];
    }
  }

  lemma AscendingTail(tags: seq<Tag>)
    requires Ascending(tags) && tags != []
    ensures Ascending(tags[1..])
  {
    var rest := tags[1..];
    forall i, j | 0 <= i < j < |rest| ensures rest[i].minStars < rest[j].minStars {
      assert rest[i] == tags[i + 1] && rest[j] == tags[j + 1];
    }
  }

  /** On a table in ascending order the filter keeps exactly a prefix: the
      rows it keeps are the first ones, and every later row needs more stars. */
  lemma {:induction false} FilterAscendingIsPrefix(tags: seq<Tag>, stars: int)
    requires Ascending(tags)
    ensures var r := FilterUnlocked(tags, stars);
      && r == tags[..|r|]
      && (forall i :: 0 <= i < |r| ==> tags[i].minStars <= stars)
      && (forall i :: |r| <= i < |tags| ==> stars < tags[i].minStars)
    decreases |tags|
  {
    if tags != [] {
      var rest := tags[1..];
      AscendingTail(tags);
      FilterAscendingIsPrefix(rest, stars);
      var r' := FilterUnlocked(rest, stars);
      var r := FilterUnlocked(tags, stars);
      if tags[0].minStars <= stars {
        assert r == [tags[0]] + r';
        assert r == tags[..|r|] by {
          assert r' == rest[..|r'|];
          assert [tags[0]] + rest[..|r'|] == tags[..|r'| + 1];
        }
        forall i | 0 <= i < |r| ensures tags[i].minStars <= stars {
          if i > 0 {
            assert tags[i] == rest[i - 1];
          }
        }
        forall i | |r| <= i < |tags| ensures stars < tags[i].minStars {
          assert tags[i] == rest[i - 1];
        }
      } else {
        assert r == r';
        forall i | 0 <= i < |tags| ensures stars < tags[i].minStars {
          if i > 0 {
            assert tags[0].minStars < tags[i].minStars;
          }
        }
        assert r == tags[..0];
      }
    }
  }

  /** `getUnlockedTags`: the tiers unlocked with `stars`, in table order. */
  function GetUnlockedTags(stars: int): (r: seq<Tag>)
    ensures |r| <= |MotivationalTags|
    ensures r == MotivationalTags[..|r|]
    ensures forall i :: 0 <= i < |r| ==> MotivationalTags[i].minStars <= stars
    ensures forall i :: |r| <= i < |MotivationalTags| ==> stars < MotivationalTags[i].minStars
    ensures stars >= 0 <==> |r| >= 1
    ensures stars >= TopTierStars <==> |r| == |MotivationalTags|
  {
    TableAscending();
    FilterAscendingIsPrefix(MotivationalTags, stars);
    FilterUnlocked(MotivationalTags, stars)
  }

  /** The tier `getCurrentTag` settles on: the last unlocked one, or the first
      row of the table when nothing is unlocked. */
  function CurrentTag(stars: int): (r: Tag)
    ensures r in MotivationalTags
    ensures stars >= 0 ==> r.minStars <= stars
  {
    MotivationalTags[CurrentIndex(stars)]
  }

  function CurrentIndex(stars: int): nat {
    var n := |GetUnlockedTags(stars)|;
    if n == 0 then 0 else n - 1
  }

  /** The tier `getNextTag` finds: the first one still locked, if any. */
  function NextTag(stars: int): (r: Option<Tag>)
    ensures r.None? <==> stars >= TopTierStars
    ensures r.Some? ==> r.value in MotivationalTags && stars < r.value.minStars
  {
    var u := GetUnlockedTags(stars);
    if |u| < |MotivationalTags| then Some(MotivationalTags[|u|]) else None
  }

  /** `getCurrentTag`: scans the whole table, keeping the last row whose
      threshold is met. The result is the row with the largest threshold at
      most `stars`; with a negative count it is the first row. */
  method GetCurrentTag(stars: int) returns (current: Tag)
    ensures current == CurrentTag(stars)
    ensures stars < 0 ==> current == MotivationalTags[0]
    ensures stars >= 0 ==> exists k :: (0 <= k < |MotivationalTags| && MotivationalTags[k] == current
      && current.minStars <= stars
      && forall j :: k < j < |MotivationalTags| ==> stars < MotivationalTags[j].minStars)
  {
    TableAscending();
    var tags := MotivationalTags;
    current := tags[0];
    ghost var k := 0;
    for i := 0 to |tags|
      invariant 0 <= k < |tags| && current == tags[k]
      invariant k < i || k == 0
      invariant k > 0 ==> tags[k].minStars <= stars
      invariant forall j :: k < j < i ==> stars < tags[j].minStars
      invariant tags[k].minStars <= stars || forall j :: 0 <= j < i ==> stars < tags[j].minStars
    {
      if stars >= tags[i].minStars {
        current := tags[i];
        k := i;
      }
    }
    if tags[k].minStars <= stars {
      LargestUnlockedIsCurrent(stars, k);
    } else {
      assert |GetUnlockedTags(stars)| == 0;
    }
  }

  /** The row with the largest threshold at most `stars` is the last unlocked one. */
  lemma LargestUnlockedIsCurrent(stars: int, k: int)
    requires 0 <= k < |MotivationalTags| && MotivationalTags[k].minStars <= stars
    requires forall j :: k < j < |MotivationalTags| ==> stars < MotivationalTags[j].minStars
    ensures CurrentIndex(stars) == k
  {
    var u := GetUnlockedTags(stars);
    SplitPointIsAfterLast(MotivationalTags, |u|, stars, k);
  }

  /** If the first `n` rows are reached and the rest are not, and row `k` is
      the last one reached, then `n == k + 1`. */
  lemma SplitPointIsAfterLast(tags: seq<Tag>, n: nat, stars: int, k: int)
    requires n <= |tags|
    requires forall i :: 0 <= i < n ==> tags[i].minStars <= stars
    requires forall i :: n <= i < |tags| ==> stars < tags[i].minStars
    requires 0 <= k < |tags| && tags[k].minStars <= stars
    requires forall j :: k < j < |tags| ==> stars < tags[j].minStars
    ensures n == k + 1
  {
    assert k < n;
    if k + 1 < |tags| {
      var next := tags[k + 1];
      assert stars < next.minStars;
    }
  }

  /** `getNextTag`: the first row whose threshold is above `stars`, or none
      once every tier is unlocked. So the "N more stars" figure shown on the
      home page, `minStars - stars`, is always at least one. */
  method GetNextTag(stars: int) returns (next: Option<Tag>)
    ensures next == NextTag(stars)
    ensures next.None? <==> stars >= TopTierStars
    ensures next.Some? ==> next.value.minStars - stars >= 1
    ensures next.Some? ==> exists k :: (0 <= k < |MotivationalTags| && MotivationalTags[k] == next.value
      && forall j :: 0 <= j < k ==> MotivationalTags[j].minStars <= stars)
  {
    TableAscending();
    var tags := MotivationalTags;
    var u := GetUnlockedTags(stars);
    for i := 0 to |tags|
      invariant forall j :: 0 <= j < i ==> tags[j].minStars <= stars
      invariant i <= |u|
    {
      if stars < tags[i].minStars {
        assert |u| == i;
        return Some(tags[i]);
      }
    }
    return None;
  }

  /** The current tier sits just below the next one: the stars reach the
      current threshold and fall short of the next. */
  lemma CurrentBelowNext(stars: int)
    requires stars >= 0
    ensures CurrentTag(stars).minStars <= stars
    ensures CurrentTag(stars) == GetUnlockedTags(stars)[|GetUnlockedTags(stars)| - 1]
    ensures NextTag(stars).Some? ==>
      stars < NextTag(stars).value.minStars && NextTag(stars).value.minStars > CurrentTag(stars).minStars
  {
    var u := GetUnlockedTags(stars);
    assert |u| >= 1 && u == MotivationalTags[..|u|];
    var c := MotivationalTags[|u| - 1];
    assert CurrentTag(stars) == c && u[|u| - 1] == c;
    if |u| < |MotivationalTags| {
      var n := MotivationalTags[|u|];
      assert NextTag(stars) == Some(n);
      TableAscending();
      assert c.minStars < n.minStars;
    }
  }

  // ---------------------------------------------------------------------
  // Badges
  // ---------------------------------------------------------------------

  datatype Badge = Badge(id: string, name: string, icon: string)

  /** The levels whose completion awards a trophy. */
  const BadgeLevels: set<int> := {1, 2, 3, 5, 7, 10, 15}

  /** `getBadgeForLevel`: the trophy for completing `level`, if that level
      has one. */
  function GetBadgeForLevel(level: int): (b: Option<Badge>)
    ensures b.Some? <==> level in BadgeLevels
  {
    if level == 1 then Some(Badge("first-steps", "First Steps", "🐾"))
    else if level == 2 then Some(Badge("explorer", "Cave Explorer", "🦇"))
    else if level == 3 then Some(Badge("navigator", "Grid Navigator", "🗺️"))
    else if level == 5 then Some(Badge("pro-learner", "Pro Learner", "📚"))
    else if level == 7 then Some(Badge("champ", "Coordinate Champ", "🥇"))
    else if level == 10 then Some(Badge("master", "Cave Master", "🏆"))
    else if level == 15 then Some(Badge("legend", "Cave Legend", "👑"))
    else None
  }

  /** Distinct levels award trophies with distinct ids. */
  lemma BadgeIdsDistinct(l1: int, l2: int)
    requires l1 != l2 && GetBadgeForLevel(l1).Some? && GetBadgeForLevel(l2).Some?
    ensures GetBadgeForLevel(l1).value.id != GetBadgeForLevel(l2).value.id
  {
  }

  /** What completing `level` appends to the badge list. */
  function Award(level: int): (r: seq<Badge>)
    ensures |r| <= 1
    ensures r != [] <==> level in BadgeLevels
  {
    match GetBadgeForLevel(level)
    case Some(b) => [b]
    case None => []
  }

  // ---------------------------------------------------------------------
  // The reducer
  // ---------------------------------------------------------------------

  datatype GameState = GameState(
    score: int,
    level: int,
    totalGames: int,
    correctAnswers: int,
    totalAnswers: int,
    stars: int,
    badges: seq<Badge>,
    isPaused: bool,
    isCalmMode: bool,
    levelsCompleted: seq<int>)

  const InitialState := GameState(0, 1, 0, 0, 0, 0, [], false, false, [])

  /** The fields of a `LOAD_PROGRESS` payload: each one present overrides the
      state's field (`{ ...state, ...payload }`). */
  datatype Patch = Patch(
    score: Option<int>,
    level: Option<int>,
    totalGames: Option<int>,
    correctAnswers: Option<int>,
    totalAnswers: Option<int>,
    stars: Option<int>,
    badges: Option<seq<Badge>>,
    isPaused: Option<bool>,
    isCalmMode: Option<bool>,
    levelsCompleted: Option<seq<int>>)

  datatype Action =
    | CorrectAnswer
    | WrongAnswer
    | NextLevel
    | FinishGame
    | TogglePause
    | EnterCalmMode
    | ExitCalmMode
    | ResetGame
    | LoadProgress(payload: Patch)
    | Unknown(name: string)

  function Or<T>(o: Option<T>, d: T): T {
    match o
    case Some(v) => v
    case None => d
  }

  /** The six lifetime fields written to storage after every change. */
  datatype SavedProgress = SavedProgress(
    totalGames: int,
    correctAnswers: int,
    totalAnswers: int,
    stars: int,
    badges: seq<Badge>,
    levelsCompleted: seq<int>)

  function SavedView(s: GameState): SavedProgress {
    SavedProgress(s.totalGames, s.correctAnswers, s.totalAnswers, s.stars, s.badges, s.levelsCompleted)
  }

  /** The payload dispatched when the saved blob is read back. */
  function BlobPatch(p: SavedProgress): (r: Patch)
    ensures r.score.None? && r.level.None? && r.isPaused.None? && r.isCalmMode.None?
  {
    Patch(None, None, Some(p.totalGames), Some(p.correctAnswers), Some(p.totalAnswers),
          Some(p.stars), Some(p.badges), None, None, Some(p.levelsCompleted))
  }

  /** `gameReducer`. Apart from loading saved progress, no event lowers a
      lifetime statistic, shortens the badge or completed-level history, or
      breaks `correctAnswers <= totalAnswers`; only answers, level-ups and
      finishes change what is saved; and only `TOGGLE_PAUSE` can leave the
      calm mode on without the pause. */
  function Reduce(s: GameState, a: Action): (r: GameState)
    ensures !a.LoadProgress? ==>
      && s.stars <= r.stars && s.correctAnswers <= r.correctAnswers
      && s.totalAnswers <= r.totalAnswers && s.totalGames <= r.totalGames
      && s.badges <= r.badges && s.levelsCompleted <= r.levelsCompleted
    ensures !a.LoadProgress? && s.correctAnswers <= s.totalAnswers ==> r.correctAnswers <= r.totalAnswers
    ensures !(a.CorrectAnswer? || a.WrongAnswer? || a.NextLevel? || a.FinishGame? || a.LoadProgress?) ==>
      SavedView(r) == SavedView(s)
    ensures !a.TogglePause? && !a.LoadProgress? && (s.isCalmMode ==> s.isPaused) ==>
      (r.isCalmMode ==> r.isPaused)
  {
    match a
    case CorrectAnswer =>
      s.(score := s.score + 10, correctAnswers := s.correctAnswers + 1,
         totalAnswers := s.totalAnswers + 1, stars := s.stars + 1)
    case WrongAnswer =>
      s.(totalAnswers := s.totalAnswers + 1)
    case NextLevel =>
      s.(level := s.level + 1, levelsCompleted := s.levelsCompleted + [s.level],
         badges := s.badges + Award(s.level), totalGames := s.totalGames + 1)
    case FinishGame =>
      s.(totalGames := s.totalGames + 1)
    case TogglePause =>
      s.(isPaused := !s.isPaused)
    case EnterCalmMode =>
      s.(isPaused := true, isCalmMode := true)
    case ExitCalmMode =>
      s.(isPaused := false, isCalmMode := false)
    case ResetGame =>
      InitialState.(totalGames := s.totalGames, badges := s.badges, stars := s.stars,
                    correctAnswers := s.correctAnswers, totalAnswers := s.totalAnswers,
                    levelsCompleted := s.levelsCompleted)
    case LoadProgress(p) =>
      GameState(Or(p.score, s.score), Or(p.level, s.level), Or(p.totalGames, s.totalGames),
                Or(p.correctAnswers, s.correctAnswers), Or(p.totalAnswers, s.totalAnswers),
                Or(p.stars, s.stars), Or(p.badges, s.badges), Or(p.isPaused, s.isPaused),
                Or(p.isCalmMode, s.isCalmMode), Or(p.levelsCompleted, s.levelsCompleted))
    case Unknown(_) =>
      s
  }

  /** The state after dispatching `actions` in order. */
  function ApplyAll(s: GameState, actions: seq<Action>): GameState
    decreases |actions|
  {
    if actions == [] then s else ApplyAll(Reduce(s, actions[0]), actions[1..])
  }

  function Repeat(n: nat, a: Action): (r: seq<Action>)
    ensures |r| == n && forall i :: 0 <= i < n ==> r[i] == a
  {
    if n == 0 then [] else [a] + Repeat(n - 1, a)
  }

  // ---------------------------------------------------------------------
  // One event at a time
  // ---------------------------------------------------------------------

  lemma CorrectAnswerEffect(s: GameState)
    ensures var r := Reduce(s, CorrectAnswer);
      && r.score == s.score + 10 && r.correctAnswers == s.correctAnswers + 1
      && r.totalAnswers == s.totalAnswers + 1 && r.stars == s.stars + 1
      && r.level == s.level && r.totalGames == s.totalGames && r.badges == s.badges
      && r.isPaused == s.isPaused && r.isCalmMode == s.isCalmMode
      && r.levelsCompleted == s.levelsCompleted
  {
  }

  lemma WrongAnswerEffect(s: GameState)
    ensures Reduce(s, WrongAnswer) == s.(totalAnswers := s.totalAnswers + 1)
    ensures Reduce(s, WrongAnswer).stars == s.stars && Reduce(s, WrongAnswer).score == s.score
    ensures Reduce(s, WrongAnswer).correctAnswers == s.correctAnswers
  {
  }

  /** Completing a level moves to the next one, records the old level, counts
      one game, and appends exactly one trophy when the old level has one. */
  lemma NextLevelEffect(s: GameState)
    ensures var r := Reduce(s, NextLevel);
      && r.level == s.level + 1
      && r.levelsCompleted == s.levelsCompleted + [s.level]
      && r.totalGames == s.totalGames + 1
      && (s.level in BadgeLevels ==>
            |r.badges| == |s.badges| + 1 && r.badges[..|s.badges|] == s.badges
            && Some(r.badges[|s.badges|]) == GetBadgeForLevel(s.level))
      && (s.level !in BadgeLevels ==> r.badges == s.badges)
      && r.score == s.score && r.stars == s.stars && r.correctAnswers == s.correctAnswers
      && r.totalAnswers == s.totalAnswers && r.isPaused == s.isPaused && r.isCalmMode == s.isCalmMode
  {
    var r := Reduce(s, NextLevel);
    if s.level in BadgeLevels {
      assert r.badges[..|s.badges|] == s.badges;
    }
  }

  /** A reset starts the round over (score 0, level 1, no pause, no calm mode)
      and keeps every lifetime field, so the saved view does not change. */
  lemma ResetGameEffect(s: GameState)
    ensures var r := Reduce(s, ResetGame);
      && r.score == 0 && r.level == 1 && !r.isPaused && !r.isCalmMode
      && SavedView(r) == SavedView(s)
  {
  }

  lemma CalmModeEffect(s: GameState)
    ensures Reduce(s, EnterCalmMode) == s.(isPaused := true, isCalmMode := true)
    ensures Reduce(s, ExitCalmMode) == s.(isPaused := false, isCalmMode := false)
    ensures Reduce(Reduce(s, EnterCalmMode), ExitCalmMode) == s.(isPaused := false, isCalmMode := false)
  {
  }

  lemma UnknownActionIgnored(s: GameState, name: string)
    ensures Reduce(s, Unknown(name)) == s
  {
  }

  /** Loading a saved blob makes the saved view equal the blob and leaves the
      round fields alone; loading what was saved changes nothing. */
  lemma LoadSavedProgress(s: GameState, p: SavedProgress)
    ensures var r := Reduce(s, LoadProgress(BlobPatch(p)));
      && SavedView(r) == p
      && r.score == s.score && r.level == s.level
      && r.isPaused == s.isPaused && r.isCalmMode == s.isCalmMode
    ensures Reduce(s, LoadProgress(BlobPatch(SavedView(s)))) == s
  {
  }

  // ---------------------------------------------------------------------
  // Sequences of events
  // ---------------------------------------------------------------------

  /** `n` correct answers add `n` stars, `10 n` points and `n` to both
      answer counters. */
  lemma {:induction false} CorrectAnswers(s: GameState, n: nat)
    ensures var r := ApplyAll(s, Repeat(n, CorrectAnswer));
      && r.stars == s.stars + n && r.score == s.score + 10 * n
      && r.correctAnswers == s.correctAnswers + n && r.totalAnswers == s.totalAnswers + n
      && r.level == s.level && r.badges == s.badges && r.levelsCompleted == s.levelsCompleted
    decreases n
  {
    if n > 0 {
      assert Repeat(n, CorrectAnswer)[1..] == Repeat(n - 1, CorrectAnswer);
      CorrectAnswers(Reduce(s, CorrectAnswer), n - 1);
    }
  }

  /** From a fresh game, `n` correct answers give exactly `n` stars. */
  lemma FreshCorrectAnswers(n: nat)
    ensures var r := ApplyAll(InitialState, Repeat(n, CorrectAnswer));
      r.stars == n && r.score == 10 * n && r.correctAnswers == n && r.totalAnswers == n && r.level == 1
  {
    CorrectAnswers(InitialState, n);
  }

  /** Without `LOAD_PROGRESS`, `correctAnswers <= totalAnswers` holds after
      any sequence of events that starts where it holds. */
  lemma {:induction false} AccuracyBounded(s: GameState, actions: seq<Action>)
    requires s.correctAnswers <= s.totalAnswers
    requires forall i :: 0 <= i < |actions| ==> !actions[i].LoadProgress?
    ensures ApplyAll(s, actions).correctAnswers <= ApplyAll(s, actions).totalAnswers
    decreases |actions|
  {
    if actions != [] {
      AccuracyBounded(Reduce(s, actions[0]), actions[1..]);
    }
  }

  /** The levels `lo, lo+1, ..., hi-1`. */
  function LevelRange(lo: int, hi: int): (r: seq<int>)
    ensures |r| == if lo < hi then hi - lo else 0
    ensures forall i :: 0 <= i < |r| ==> r[i] == lo + i
    decreases hi - lo
  {
    if lo >= hi then [] else [lo] + LevelRange(lo + 1, hi)
  }

  /** The trophies for completing levels `lo, ..., hi-1`, in that order. */
  function AwardsBetween(lo: int, hi: int): seq<Badge>
    decreases hi - lo
  {
    if lo >= hi then [] else Award(lo) + AwardsBetween(lo + 1, hi)
  }

  /** Dispatching `n > 0` copies of `a` is dispatching `a` and then `n - 1` copies. */
  lemma ApplyRepeatStep(s: GameState, n: nat, a: Action)
    requires n > 0
    ensures ApplyAll(s, Repeat(n, a)) == ApplyAll(Reduce(s, a), Repeat(n - 1, a))
  {
    assert Repeat(n, a)[1..] == Repeat(n - 1, a);
  }

  lemma ConcatAssoc<T>(a: seq<T>, b: seq<T>, c: seq<T>)
    ensures a + b + c == a + (b + c)
  {
  }

  /** `n` level-ups in a row add `n` to the level and to the game count and
      leave stars and score alone. */
  lemma {:induction false} NextLevelsCounters(s: GameState, n: nat)
    ensures var r := ApplyAll(s, Repeat(n, NextLevel));
      && r.level == s.level + n && r.totalGames == s.totalGames + n
      && r.stars == s.stars && r.score == s.score
    decreases n
  {
    if n > 0 {
      ApplyRepeatStep(s, n, NextLevel);
      NextLevelsCounters(Reduce(s, NextLevel), n - 1);
    } else {
      assert Repeat(n, NextLevel) == [];
    }
  }

  /** `n` level-ups in a row from level `L` record `L .. L+n-1`. */
  lemma {:induction false} NextLevelsHistory(s: GameState, n: nat)
    ensures ApplyAll(s, Repeat(n, NextLevel)).levelsCompleted
      == s.levelsCompleted + LevelRange(s.level, s.level + n)
    decreases n
  {
    var L := s.level;
    if n > 0 {
      var s' := Reduce(s, NextLevel);
      assert s'.level == L + 1 && s'.levelsCompleted == s.levelsCompleted + [L];
      ApplyRepeatStep(s, n, NextLevel);
      NextLevelsHistory(s', n - 1);
      assert LevelRange(L, L + n) == [L] + LevelRange(L + 1, L + n);
      ConcatAssoc(s.levelsCompleted, [L], LevelRange(L + 1, L + n));
    } else {
      assert Repeat(n, NextLevel) == [] && LevelRange(L, L) == [];
      assert s.levelsCompleted + [] == s.levelsCompleted;
    }
  }

  /** `n` level-ups in a row from level `L` append the trophies of
      `L .. L+n-1`, in order. */
  lemma {:induction false} NextLevelsBadges(s: GameState, n: nat)
    ensures ApplyAll(s, Repeat(n, NextLevel)).badges == s.badges + AwardsBetween(s.level, s.level + n)
    decreases n
  {
    var L := s.level;
    if n > 0 {
      var s' := Reduce(s, NextLevel);
      assert s'.level == L + 1 && s'.badges == s.badges + Award(L);
      ApplyRepeatStep(s, n, NextLevel);
      NextLevelsBadges(s', n - 1);
      assert AwardsBetween(L, L + n) == Award(L) + AwardsBetween(L + 1, L + n);
      ConcatAssoc(s.badges, Award(L), AwardsBetween(L + 1, L + n));
    } else {
      assert Repeat(n, NextLevel) == [] && AwardsBetween(L, L) == [];
      assert s.badges + [] == s.badges;
    }
  }

  /** Completing `n` levels in a row from level `L` reaches level `L + n`,
      records `L .. L+n-1`, and appends their trophies in order. */
  lemma NextLevels(s: GameState, n: nat)
    ensures var r := ApplyAll(s, Repeat(n, NextLevel));
      && r.level == s.level + n
      && r.levelsCompleted == s.levelsCompleted + LevelRange(s.level, s.level + n)
      && r.badges == s.badges + AwardsBetween(s.level, s.level + n)
      && r.totalGames == s.totalGames + n
      && r.stars == s.stars && r.score == s.score
  {
    NextLevelsCounters(s, n);
    NextLevelsHistory(s, n);
    NextLevelsBadges(s, n);
  }

  /** Every trophy for levels `lo .. hi-1` is the trophy of one of those levels. */
  lemma {:induction false} AwardsBetweenFrom(lo: int, hi: int, k: int)
    requires 0 <= k < |AwardsBetween(lo, hi)|
    ensures exists l :: lo <= l < hi && GetBadgeForLevel(l) == Some(AwardsBetween(lo, hi)[k])
    decreases hi - lo
  {
    if lo < hi {
      var a := Award(lo);
      if k < |a| {
        assert GetBadgeForLevel(lo) == Some(AwardsBetween(lo, hi)[k]);
      } else {
        assert AwardsBetween(lo, hi)[k] == AwardsBetween(lo + 1, hi)[k - |a|];
        AwardsBetweenFrom(lo + 1, hi, k - |a|);
      }
    }
  }

  predicate DistinctIds(bs: seq<Badge>) {
    forall i, j :: 0 <= i < j < |bs| ==> bs[i].id != bs[j].id
  }

  /** The trophy of level `lo` differs from every trophy of the levels after it. */
  lemma FirstAwardNotLater(lo: int, hi: int, k: int)
    requires lo in BadgeLevels && 0 <= k < |AwardsBetween(lo + 1, hi)|
    ensures AwardsBetween(lo + 1, hi)[k].id != GetBadgeForLevel(lo).value.id
  {
    AwardsBetweenFrom(lo + 1, hi, k);
    var l :| lo + 1 <= l < hi && GetBadgeForLevel(l) == Some(AwardsBetween(lo + 1, hi)[k]);
    BadgeIdsDistinct(lo, l);
  }

  /** One pass through the levels never awards the same trophy twice. */
  lemma {:induction false} AwardsBetweenDistinct(lo: int, hi: int)
    ensures DistinctIds(AwardsBetween(lo, hi))
    decreases hi - lo
  {
    if lo < hi {
      AwardsBetweenDistinct(lo + 1, hi);
      var rest := AwardsBetween(lo + 1, hi);
      var all := AwardsBetween(lo, hi);
      assert all == Award(lo) + rest;
      if lo in BadgeLevels {
        var first := GetBadgeForLevel(lo).value;
        assert all == [first] + rest;
        forall i, j | 0 <= i < j < |all| ensures all[i].id != all[j].id {
          assert all[j] == rest[j - 1];
          if i == 0 {
            FirstAwardNotLater(lo, hi, j - 1);
          } else {
            assert all[i] == rest[i - 1];
          }
        }
      } else {
        assert all == rest;
      }
    }
  }

  /** From a fresh game, `n` level-ups in a row give distinct trophies. */
  lemma FreshRunBadgesDistinct(n: nat)
    ensures ApplyAll(InitialState, Repeat(n, NextLevel)).badges == AwardsBetween(1, 1 + n)
    ensures DistinctIds(ApplyAll(InitialState, Repeat(n, NextLevel)).badges)
  {
    NextLevels(InitialState, n);
    AwardsBetweenDistinct(1, 1 + n);
  }

  /** Trophies are not de-duplicated: a reset goes back to level 1 while
      keeping the trophies, so completing level 1 again awards "first-steps"
      a second time. */
  lemma BadgesRepeatAfterReset()
    ensures var r := ApplyAll(InitialState, [NextLevel, ResetGame, NextLevel]);
      |r.badges| == 2 && r.badges[0] == r.badges[1] && r.badges[0].id == "first-steps"
  {
    var s1 := Reduce(InitialState, NextLevel);
    var s2 := Reduce(s1, ResetGame);
    var s3 := Reduce(s2, NextLevel);
    assert ApplyAll(InitialState, [NextLevel, ResetGame, NextLevel]) == s3 by {
      assert [NextLevel, ResetGame, NextLevel][1..] == [ResetGame, NextLevel];
      assert [ResetGame, NextLevel][1..] == [NextLevel];
    }
  }

  /** `TOGGLE_PAUSE` flips the pause alone, so in calm mode it leaves the game
      calm but unpaused. */
  lemma TogglePauseLeavesCalmUnpaused(s: GameState)
    requires s.isCalmMode && s.isPaused
    ensures Reduce(s, TogglePause).isCalmMode && !Reduce(s, TogglePause).isPaused
  {
  }

  /** A saved blob with 12 stars puts the player on the "learner" tier. */
  lemma TwelveStarsIsLearner(s: GameState, p: SavedProgress)
    requires p.stars == 12
    ensures CurrentTag(Reduce(s, LoadProgress(BlobPatch(p))).stars).id == Learner
  {
    var r := Reduce(s, LoadProgress(BlobPatch(p)));
    assert r.stars == 12;
    LargestUnlockedIsCurrent(12, 2);
  }

  // ---------------------------------------------------------------------
  // The provider: one shared state and its dispatch
  // ---------------------------------------------------------------------

  /** Dispatching `actions` and then `a` is dispatching `actions + [a]`. */
  lemma {:induction false} ApplyAllSnoc(s: GameState, actions: seq<Action>, a: Action)
    ensures ApplyAll(s, actions + [a]) == Reduce(ApplyAll(s, actions), a)
    decreases |actions|
  {
    if actions != [] {
      assert (actions + [a])[1..] == actions[1..] + [a];
      ApplyAllSnoc(Reduce(s, actions[0]), actions[1..], a);
    } else {
      assert actions + [a] == [a];
      assert [a][1..] == [];
    }
  }

  /** The state held by the game provider, and the log of every action
      dispatched to it since it started from `start`. */
  class GameStore {
    var state: GameState
    ghost var start: GameState
    ghost var log: seq<Action>

    /** The state is always the start state with the log replayed on it. */
    ghost predicate Valid()
      reads this
    {
      state == ApplyAll(start, log)
    }

    constructor(initial: GameState)
      ensures state == initial && start == initial && log == [] && Valid()
    {
      state := initial;
      start := initial;
      log := [];
    }

    /** `dispatch(action)`: the reducer's next state replaces the old one. */
    method Dispatch(a: Action)
      requires Valid()
      modifies this
      ensures state == Reduce(old(state), a) && log == old(log) + [a] && start == old(start)
      ensures Valid()
    {
      ApplyAllSnoc(start, log, a);
      state := Reduce(state, a);
      log := log + [a];
    }
  }
}
