# Coordinate Cave: a Dafny model of the game core

Coordinate Cave is a browser game that teaches children (x, y) grid
coordinates. The player looks for a hidden target on a square grid by
clicking a cell or typing its coordinates. Five found targets complete a
level, and levels, stars and trophies are kept across visits.

This project models the parts of the game that decide what happens, one
module per source file:

- `GameContext` (`src/context/GameContext.jsx`): the motivational tier table
  and its three lookups, the level trophies, and the reducer that applies
  one game event to the player's state. It also contains `GameStore`, the
  provider's state together with a ghost log of every action dispatched to it.
- `GameLogic` (`src/hooks/useGameLogic.js`): the round controller as a class.
  It holds the target, the verdict, the message, the streak, the number of
  targets found in this level, and the one auto-advance timer that may be
  pending.
- `Play` (`src/pages/Play.jsx`) as a class that owns the game store and the
  round controller. It covers:
  - the guarded cell click;
  - typed coordinates;
  - the Next, Level Up and Reset buttons;
  - the Escape, R and H shortcuts.
- `CoordInput`: the coordinate pattern of `src/pages/Play.jsx` and the live
  feedback messages. The pattern is written out as a grammar (`CoordText`).
  The parser is proved both sound and complete against that grammar.
- `Grid` (`src/components/Grid.jsx`):
  - clamped focus and arrow navigation;
  - the click guard and the key handler;
  - the row and column order of the layout.
- `Learn` (`src/pages/Learn.jsx`): the five-lesson stepper.
- `Settings` (`src/context/SettingsContext.jsx`): the defaults, the saved
  blob merged over them, single-key updates and the base font size.
- `Theme` (`src/context/ThemeContext.jsx`): the initial theme, the
  three-way cycle and the CSS variables of each theme.
- `Keyboard` (`src/hooks/useKeyboardControls.js`) and `Debounce`
  (`src/hooks/debounce.js`): the shortcut decision and the two rate limiters.

Clocks, timers and `Math.random()` become parameters:

- Every handler that reads `Date.now()` takes the time `now` in milliseconds.
- A pending `setTimeout` is a field, and a method fires it. Examples are
  `FireAutoAdvance`, `HideHint` and `Tick`.
- Each `Math.random()` result is a `RandomDraw(num, den)` with
  `num < den`. It stands for the number `num / den` in [0, 1).

Storage reads are a `SavedBlob` value or a `SavedProgress` payload. A write
is the value the model returns (`Persist`, `SavedView`, `ApplyTheme`).

Where the code and its design notes differ, the model follows the code.

- **Trophies are not de-duplicated.** A reset keeps the trophies but goes
  back to level 1, so the next level-up awards "first-steps" again
  (`BadgesRepeatAfterReset`). In one run from a fresh game the trophies are
  distinct (`FreshRunBadgesDistinct`).
- **Calm mode without the pause.** `TOGGLE_PAUSE` flips the pause alone, so
  calm mode can be on while the game is unpaused
  (`TogglePauseLeavesCalmUnpaused`). Every other event keeps
  "calm implies paused" (`Reduce`).
- **Grid-size change and the timer.** The effect that runs when the grid
  size changes does not cancel a pending auto-advance. That timer then draws
  on the grid size it captured (`RoundController.OnGridSize`,
  `RoundController.FireAutoAdvance`).
- **The highlight after an auto-advance.** The auto-advance does not clear
  the correct-answer highlight of the play page (`PlayPage.FireAutoAdvance`).
- **Keyboard throttle inside form fields.** The keyboard throttle runs
  before the form-field check. A key pressed inside an input therefore still
  uses up the 250 ms window (`KeyboardControls.KeyDown`).
- **Submitted coordinates are not range-checked.** A typed coordinate is
  forwarded as a click without a range check (`PlayPage.CoordInputSubmit`).

## Model

| member | source | states |
|---|---|---|
| Common.RandomIndex | src/hooks/useGameLogic.js:19-20 | `Math.floor(Math.random() * n)` lies in [0, n) for a positive n, and in [n, 0] otherwise |
| GameContext.TableAscending | src/context/GameContext.jsx:22-32 | the nine tiers have strictly increasing thresholds, from 0 stars up to 100 |
| GameContext.FilterUnlocked | src/context/GameContext.jsx:63 | the filter never returns more tiers than the table has |
| GameContext.FilterUnlockedMembers | src/context/GameContext.jsx:63 | the filter keeps exactly the rows whose threshold is met, and nothing else |
| GameContext.FilterAscendingIsPrefix | src/context/GameContext.jsx:62-64 | on an ascending table the unlocked rows are a prefix, and every row after it needs more stars |
| GameContext.GetUnlockedTags | src/context/GameContext.jsx:62-64 | the unlocked tiers are the prefix of the table whose thresholds are met; at least one is unlocked iff stars >= 0; all are unlocked iff stars >= 100 |
| GameContext.CurrentTag | src/context/GameContext.jsx:37-45 | the tier `getCurrentTag` returns: a row of the table, and one whose threshold is met for a non-negative count |
| GameContext.GetCurrentTag | src/context/GameContext.jsx:37-45 | the loop returns the unlocked tier with the largest threshold, and the first tier for a negative count |
| GameContext.LargestUnlockedIsCurrent | src/context/GameContext.jsx:37-45 | a met row after which no threshold is met is the last unlocked tier |
| GameContext.SplitPointIsAfterLast | src/context/GameContext.jsx:37-45 | the number of met rows is one more than the position of the last met row |
| GameContext.NextTag | src/context/GameContext.jsx:50-57 | the tier `getNextTag` returns: none iff stars >= 100, otherwise a row of the table still above the count |
| GameContext.GetNextTag | src/context/GameContext.jsx:50-57 | the first locked tier, or none iff stars >= 100; every tier before it is met, and it needs at least one more star |
| GameContext.CurrentBelowNext | src/pages/Home.jsx:72 | the current tier's threshold is met and the next tier's is not, so the "N more stars" figure is positive |
| GameContext.GetBadgeForLevel | src/context/GameContext.jsx:69-80 | a trophy exists exactly for levels 1, 2, 3, 5, 7, 10 and 15 |
| GameContext.BadgeIdsDistinct | src/context/GameContext.jsx:70-78 | different levels award trophies with different ids |
| GameContext.Award | src/context/GameContext.jsx:99-104 | completing a level appends at most one trophy, and one exactly when the level has one |
| GameContext.Reduce | src/context/GameContext.jsx:82-134 | apart from a load, no event lowers a lifetime counter, shortens the trophy or level history, or breaks correct <= total; only answers, level-ups and finishes change the saved fields; only the pause toggle breaks "calm implies paused" |
| GameContext.Repeat | src/context/GameContext.jsx:82-134 | n copies of one event |
| GameContext.CorrectAnswerEffect | src/context/GameContext.jsx:84-91 | a correct answer adds 10 points, one star and one to both counters, and changes nothing else |
| GameContext.WrongAnswerEffect | src/context/GameContext.jsx:92-96 | a wrong answer only adds one to the total |
| GameContext.NextLevelEffect | src/context/GameContext.jsx:97-107 | a level-up moves to the next level, records the old one, counts one game, and appends exactly the old level's trophy if it has one |
| GameContext.ResetGameEffect | src/context/GameContext.jsx:119-128 | a reset restores score 0, level 1, unpaused and not calm, and keeps every saved field |
| GameContext.CalmModeEffect | src/context/GameContext.jsx:115-118 | entering calm mode pauses; leaving it unpauses; the two in turn only clear both flags |
| GameContext.UnknownActionIgnored | src/context/GameContext.jsx:131-132 | an unknown event leaves the state unchanged |
| GameContext.SavedView | src/context/GameContext.jsx:150-158 | the six lifetime fields written to storage |
| GameContext.BlobPatch | src/context/GameContext.jsx:139-146 | the LOAD_PROGRESS payload read back from storage never sets score, level, pause or calm mode |
| GameContext.LoadSavedProgress | src/context/GameContext.jsx:129-130 | loading a saved blob makes the saved view equal to it and keeps the round fields; loading what is saved is a no-op |
| GameContext.CorrectAnswers | src/context/GameContext.jsx:84-91 | n correct answers add n stars, 10 n points and n to both counters, and keep level and trophies |
| GameContext.FreshCorrectAnswers | src/context/GameContext.jsx:5-16 | from the initial state, n correct answers give exactly n stars and 10 n points |
| GameContext.AccuracyBounded | src/context/GameContext.jsx:82-134 | without a load, correct <= total holds after any sequence of events |
| GameContext.LevelRange | src/context/GameContext.jsx:103 | the levels lo .. hi-1 in order |
| GameContext.NextLevelsCounters | src/context/GameContext.jsx:97-107 | n level-ups add n to the level and to the game count and keep stars and score |
| GameContext.NextLevelsHistory | src/context/GameContext.jsx:103 | n level-ups from level L record L .. L+n-1 |
| GameContext.NextLevelsBadges | src/context/GameContext.jsx:99-104 | n level-ups from level L append the trophies of L .. L+n-1, in order |
| GameContext.NextLevels | src/context/GameContext.jsx:97-107 | n level-ups from level L reach L + n, record L .. L+n-1, and append those levels' trophies in order |
| GameContext.AwardsBetweenFrom | src/context/GameContext.jsx:99-104 | every trophy of a run of level-ups belongs to one of the levels completed |
| GameContext.FirstAwardNotLater | src/context/GameContext.jsx:97-107 | the trophy of a level differs in id from every trophy of the levels completed after it |
| GameContext.AwardsBetweenDistinct | src/context/GameContext.jsx:97-107 | one pass through the levels never awards the same trophy id twice |
| GameContext.FreshRunBadgesDistinct | src/context/GameContext.jsx:97-107 | from a fresh game, n level-ups give the trophies of levels 1 .. n, all distinct |
| GameContext.BadgesRepeatAfterReset | src/context/GameContext.jsx:119-128 | a level-up, a reset and a level-up award "first-steps" twice |
| GameContext.TogglePauseLeavesCalmUnpaused | src/context/GameContext.jsx:113-114 | toggling the pause in calm mode leaves calm mode on and the game unpaused |
| GameContext.TwelveStarsIsLearner | src/context/GameContext.jsx:140-147 | loading a blob with 12 stars puts the player on the "learner" tier |
| GameContext.ApplyAllSnoc | src/context/GameContext.jsx:137 | dispatching a list and then one more action is dispatching the longer list |
| GameContext.ApplyRepeatStep | src/context/GameContext.jsx:137 | dispatching n > 0 copies of an event is dispatching it once and then n - 1 copies |
| GameContext.GameStore.constructor | src/context/GameContext.jsx:137 | the store starts with the given state and an empty log |
| GameContext.GameStore.Dispatch | src/context/GameContext.jsx:137 | the new state is the reducer applied to the old one, the action is logged, and the state is still the start state with the log replayed |
| GameLogic.DrawTarget | src/hooks/useGameLogic.js:18-24 | a drawn target lies on the grid |
| GameLogic.PickMessage | src/hooks/useGameLogic.js:64 | the picked message is one of the pool |
| GameLogic.RoundController.constructor | src/hooks/useGameLogic.js:9-14 | no target, no verdict, empty message, zero streak and count, no timer |
| GameLogic.RoundController.GenerateTarget | src/hooks/useGameLogic.js:18-24 | a new target on the grid; verdict and message cleared; nothing else changes |
| GameLogic.RoundController.OnGridSize | src/hooks/useGameLogic.js:27-31 | new grid size and target, streak and count reset; a pending timer is kept, and the round is settled iff none is pending |
| GameLogic.RoundController.IsLevelComplete | src/hooks/useGameLogic.js:91 | the level is complete once five targets are found |
| GameLogic.RoundController.CheckAnswer | src/hooks/useGameLogic.js:58-89 | no verdict and no change without a target or while a correct answer shows; true iff the guess is the target, with an encouraging message, streak+1, count+1 and a timer iff the count is below 5; false otherwise, with a hint message and streak 0; keeps the round settled; a complete level ignores guesses |
| GameLogic.RoundController.FireAutoAdvance | src/hooks/useGameLogic.js:74-77 | a pending timer draws a target on its captured grid size and clears verdict and message; with none pending nothing changes |
| GameLogic.RoundController.NextQuestion | src/hooks/useGameLogic.js:93-99 | cancels the timer, draws a new target, keeps streak and count |
| GameLogic.RoundController.ResetLevel | src/hooks/useGameLogic.js:101-109 | cancels the timer, zeroes count and streak, draws a new target; the level is not complete |
| GameLogic.RoundController.Unmount | src/hooks/useGameLogic.js:34-38 | cancels the timer and changes nothing else |
| Play.ClickEvents | src/pages/Play.jsx:79-88 | at most one event per click: CORRECT_ANSWER exactly for a hit, WRONG_ANSWER exactly for a miss, and none exactly when there is no verdict |
| Play.PlayPage.ClickAccepted | src/pages/Play.jsx:70-74 | a click passes the guard iff the game is not paused and 300 ms have passed since the last accepted click |
| Play.PlayPage.NextButtonShown | src/pages/Play.jsx:246-250 | the Next button shows for a correct answer in an incomplete level, and never together with Level Up |
| Play.PlayPage.LevelUpButtonShown | src/pages/Play.jsx:251-255 | the Level Up button shows iff the level is complete |
| Play.PlayPage.constructor | src/pages/Play.jsx:15-38 | a fresh round on the configured grid with its first target, no verdict, empty message, zero streak and count, and no timer; empty input, no highlight, hint or banner |
| Play.PlayPage.HandleCellClick | src/pages/Play.jsx:69-89 | a paused game or a click within 300 ms changes nothing; otherwise the time is recorded, and: a hit (iff the guess is the target and no correct answer shows) dispatches CORRECT_ANSWER, highlights the cell, hides the hint, and gives the round an encouraging message, streak+1, count+1 and a timer iff the count is below 5; a miss (iff there is a target, the guess is not it and no correct answer shows) dispatches WRONG_ANSWER, gives a hint message and streak 0 and keeps the timer; no verdict leaves the round and the game state unchanged; the target and grid size stay |
| Play.PlayPage.CoordInputChange | src/pages/Play.jsx:92-111 | the text is kept and the feedback is the live feedback for the grid size |
| Play.PlayPage.CoordInputSubmit | src/pages/Play.jsx:113-125 | a matching text clears the box and has exactly the effects of a click on the parsed cell: true iff accepted and the target, false iff accepted and a different target, each with the dispatched event, highlight, hint, streak, message, count and timer of a click, and no change to the round without a verdict; any other text keeps the box, shows the format hint and changes nothing else |
| Play.PlayPage.HandleNextQuestion | src/pages/Play.jsx:128-131 | clears the highlight; the round cancels its timer, draws a new target and clears verdict and message, keeping streak and count; hint, banner, input, click time and mode stay; from a shown Next button the page stays settled |
| Play.PlayPage.HandleLevelUp | src/pages/Play.jsx:133-139 | dispatches NEXT_LEVEL, shows the banner, clears the highlight; the round restarts with a new target, no verdict or message, zero streak and count, and no timer; hint, input, click time and mode stay |
| Play.PlayPage.HideLevelUp | src/pages/Play.jsx:138 | hides the banner; hint, highlight, input, click time and mode stay |
| Play.PlayPage.HandleReset | src/pages/Play.jsx:141-146 | dispatches RESET_GAME, clears highlight and hint; the round restarts with a new target, no verdict or message, zero streak and count, and no timer; banner, input, click time and mode stay |
| Play.PlayPage.OnEscape | src/pages/Play.jsx:42-46 | enters calm mode unless already in it |
| Play.PlayPage.OnReset | src/pages/Play.jsx:48-56 | outside calm mode: the Reset button's effect, and the input feedback is cleared; in calm mode nothing changes |
| Play.PlayPage.OnHint | src/pages/Play.jsx:58-63 | shows the hint iff not in calm mode and a target exists; highlight, banner, input, click time and mode stay |
| Play.PlayPage.HideHint | src/pages/Play.jsx:61 | hides the hint; highlight, banner, input, click time and mode stay |
| Play.PlayPage.TakeBreak | src/pages/Play.jsx:262 | dispatches ENTER_CALM_MODE, after which the game is calm and paused |
| Play.PlayPage.ToggleInputMode | src/pages/Play.jsx:210 | flips between typing and clicking; input, highlight, hint, banner and click time stay |
| Play.PlayPage.FireAutoAdvance | src/hooks/useGameLogic.js:74-77 | with a timer pending: a new target drawn on the captured grid size, no verdict, empty message, streak and count kept, timer cleared; without one the round is unchanged; the highlight is kept and the page stays settled |
| Play.PlayPage.Leave | src/hooks/useGameLogic.js:34-38 | leaving the page cancels the pending auto-advance |
| CoordInput.ParseCoord | src/pages/Play.jsx:115-118 | the regular expression and the two `parseInt` calls; both numbers are never negative (soundness and completeness: `AcceptedMatchesPattern`, `AcceptsPattern`) |
| CoordInput.SkipSpaces | src/pages/Play.jsx:97 | dropping leading `\s` never lengthens the text |
| CoordInput.SkipSpacesSplits | src/pages/Play.jsx:97 | the dropped part is all whitespace, and what is left does not start with whitespace |
| CoordInput.SkipSpacesSuffix | src/pages/Play.jsx:97 | what is left after the leading whitespace is a suffix of the text |
| CoordInput.SkipSpacesRemovesSpaces | src/pages/Play.jsx:97 | only whitespace is removed |
| CoordInput.SkipSpacesStops | src/pages/Play.jsx:97 | what is left does not start with whitespace |
| CoordInput.SplitDigits | src/pages/Play.jsx:97 | the text splits into its longest run of leading digits and the rest |
| CoordInput.SkipLeadingSpaces | src/pages/Play.jsx:97 | whitespace before a text is skipped entirely |
| CoordInput.SplitLeadingDigits | src/pages/Play.jsx:97 | a digit run followed by a non-digit is split exactly there |
| CoordInput.TailAccepted | src/pages/Play.jsx:97 | whitespace, an optional `)` and whitespace form an accepted end |
| CoordInput.YAccepted | src/pages/Play.jsx:99-100 | a well-formed second group parses to the value of its digits |
| CoordInput.CommaYAccepted | src/pages/Play.jsx:97-100 | a comma and a well-formed second group parse to the value of its digits |
| CoordInput.XStart | src/pages/Play.jsx:97 | leading whitespace, an optional `(` and whitespace are skipped up to the first digits |
| CoordInput.DigitStart | src/pages/Play.jsx:97 | a text starting with a digit has no leading whitespace or `(` to skip |
| CoordInput.AcceptsPattern | src/pages/Play.jsx:97-100 | every text the pattern describes matches, with x and y the decimal values of its two digit groups |
| CoordInput.TailSplit | src/pages/Play.jsx:97 | an accepted end is whitespace, an optional `)` and whitespace |
| CoordInput.YSplit | src/pages/Play.jsx:97-100 | an accepted second part is one the pattern describes |
| CoordInput.CommaYSplit | src/pages/Play.jsx:97-100 | an accepted text after x is one the pattern describes |
| CoordInput.XSplit | src/pages/Play.jsx:97-99 | an accepted text is whitespace, an optional `(`, whitespace and the digits of x, followed by what the rest of the pattern accepts; x is the value of those digits |
| CoordInput.AcceptedMatchesPattern | src/pages/Play.jsx:97-100 | every text that matches is one the pattern describes, and the numbers are its digit groups' values |
| CoordInput.LiveFeedback | src/pages/Play.jsx:96-110 | "Great choice" iff the text matches and both numbers are on the grid; the range hint iff it matches and one is off; the format hint iff it does not match and is not empty; nothing iff it is empty |
| CoordInput.FeedbackText | src/pages/Play.jsx:102-109 | the text of each feedback case, empty exactly for no feedback |
| Grid.Clamp | src/components/Grid.jsx:43-44 | on a non-empty grid the result is a valid index; an index already on the grid is kept; a larger one becomes the last |
| Grid.FocusCellAt | src/components/Grid.jsx:41-49 | the focused cell is on the grid, and is the asked-for cell when that one is |
| Grid.ArrowStep | src/components/Grid.jsx:53-60 | exactly the four arrows move, each by one cell: right adds one to x, left takes one from x, up adds one to y, down takes one from y |
| Grid.ArrowsUndo | src/components/Grid.jsx:53-60 | away from the border, right then left, and up then down, return to the start |
| Grid.Layout | src/components/Grid.jsx:98-150 | row i shows y = size-1-i and its cell j shows x = j, with size rows of size cells |
| Grid.CellAt | src/components/Grid.jsx:101-125 | each rendered cell carries its own coordinates, is in the tab order iff focused, and is highlighted iff it is the highlight cell |
| Grid.RenderRows | src/components/Grid.jsx:98-150 | the two loops build exactly that layout |
| Grid.LayoutCoversGrid | src/components/Grid.jsx:98-103 | every cell of the grid appears in the layout |
| Grid.LayoutInjective | src/components/Grid.jsx:98-103 | no cell appears twice |
| Grid.OneTabStop | src/components/Grid.jsx:123 | a cell has tabIndex 0 iff it is the focused one, and -1 otherwise |
| Grid.CellCountUniform | src/components/Grid.jsx:98-150 | rows of equal length n hold rows * n cells |
| Grid.LayoutSize | src/components/Grid.jsx:98-150 | the grid renders size * size cells |
| Grid.GridView.constructor | src/components/Grid.jsx:30-35 | focus on (0, 0), no hover or ripple, no click yet |
| Grid.GridView.HandleCellClick | src/components/Grid.jsx:64-77 | forwarded iff not disabled and 300 ms have passed; a forwarded click records the time, starts the ripple and passes exactly (x, y) on |
| Grid.GridView.HideRipple | src/components/Grid.jsx:74 | the ripple goes, nothing else changes |
| Grid.GridView.HandleArrowNav | src/components/Grid.jsx:52-62 | within 120 ms nothing moves; otherwise an arrow moves focus to the clamped neighbour |
| Grid.GridView.HandleKeyDown | src/components/Grid.jsx:79-96 | Enter and Space act as a click on the cell: forwarded iff not disabled and 300 ms have passed, recording the time, ripple and click exactly then, and leave focus and throttle alone; an arrow records the throttle time when it passes, then moves focus to the clamped neighbour, keeps the focus when throttled, and never clicks; other keys change nothing |
| Grid.GridView.OnCellFocus | src/components/Grid.jsx:130-133 | a focused cell becomes the focused and the hovered cell |
| Learn.LessonTable | src/pages/Learn.jsx:8-44 | five lessons, and only the fourth has a task, cell (3, 2), which lies on the 5 x 5 grid |
| Learn.LessonStepper.constructor | src/pages/Learn.jsx:47-49 | first lesson, no highlight, task not done |
| Learn.LessonStepper.HandleCellClick | src/pages/Learn.jsx:53-58 | a click completes the task and highlights the cell iff it is the lesson's task cell |
| Learn.LessonStepper.NextStep | src/pages/Learn.jsx:60-66 | the next lesson with the task state cleared, unless this is the last |
| Learn.LessonStepper.PrevStep | src/pages/Learn.jsx:68-74 | the previous lesson with the task state cleared, unless this is the first |
| Learn.LessonStepper.NextDisabled | src/pages/Learn.jsx:138 | Next is disabled on the last lesson, or on a lesson with a task not yet done |
| Learn.LessonStepper.BackDisabled | src/pages/Learn.jsx:126 | Back is disabled on the first lesson |
| Learn.LessonStepper.GridDisabled | src/pages/Learn.jsx:110 | the grid takes no clicks on a lesson without a task or once the task is done |
| Learn.LessonStepper.OpenTaskBlocksNext | src/pages/Learn.jsx:110-138 | while the grid takes clicks, Next is disabled |
| Learn.LessonStepper.NextBlockedOnlyByTask | src/pages/Learn.jsx:138 | before the last lesson, Next is disabled only on the task lesson until the task is done |
| Settings.MergeOverDefaults | src/context/SettingsContext.jsx:18 | the saved fields win, and the defaults fill in every other key |
| Settings.LoadSettings | src/context/SettingsContext.jsx:15-22 | a parsed blob is merged over the defaults; a missing or unparseable one gives the defaults |
| Settings.UpdateSetting | src/context/SettingsContext.jsx:39-41 | only the given key changes, to the given value |
| Settings.Persist | src/context/SettingsContext.jsx:24-25 | the settings are written as one parsed blob |
| Settings.ReloadRestores | src/context/SettingsContext.jsx:15-25 | settings holding every default key come back unchanged after a save and a load |
| Settings.UpdatesKeepDefaults | src/context/SettingsContext.jsx:39-41 | updates never remove a key |
| Settings.UpdatesSurviveReload | src/context/SettingsContext.jsx:15-41 | loaded settings, updated any number of times, survive a save and a load |
| Settings.BaseFontSize | src/context/SettingsContext.jsx:28-29 | 14 px iff the text size is small, 20 px iff large, 16 px otherwise |
| Settings.DefaultFontSize | src/context/SettingsContext.jsx:5-12 | the default settings give 16 px |
| Theme.InitialTheme | src/context/ThemeContext.jsx:54-57 | the saved theme, or "light" when none or an empty one is saved |
| Theme.IndexOf | src/context/ThemeContext.jsx:72 | the first position of the name, or -1 exactly when it is absent |
| Theme.CycleTheme | src/context/ThemeContext.jsx:70-74 | the next theme is always one of the three, and "light" after an unknown one |
| Theme.CycleSteps | src/context/ThemeContext.jsx:70-74 | light goes to soft-dark, soft-dark to high-contrast, high-contrast to light |
| Theme.CycleThreeTimes | src/context/ThemeContext.jsx:70-74 | three steps bring a known theme back |
| Theme.ApplyTheme | src/context/ThemeContext.jsx:59-68 | the theme's variables are set when it is known, none otherwise; the attribute and the saved name are the theme |
| Theme.SavedThemeRestored | src/context/ThemeContext.jsx:54-67 | the saved name is the theme restored at the next start |
| Theme.CycledThemeApplies | src/context/ThemeContext.jsx:59-74 | cycling always lands on a theme whose variables are set |
| Keyboard.ToLower | src/hooks/useKeyboardControls.js:26 | lower-cases each ASCII letter and keeps the length |
| Keyboard.LowerCapitals | src/hooks/useKeyboardControls.js:26 | a text of capital letters lower-cases to the same letters in small case |
| Keyboard.FromFormField | src/hooks/useKeyboardControls.js:25-27 | the key came from an element whose lower-cased tag is input, textarea or select |
| Keyboard.Decide | src/hooks/useKeyboardControls.js:26-52 | no shortcut from a form field; Escape iff the key is Escape; reset iff r or R without Ctrl or Meta; hint iff h or H without Ctrl or Meta |
| Keyboard.UpperCaseFormFields | src/hooks/useKeyboardControls.js:26-27 | keys pressed in an INPUT, TEXTAREA or SELECT call no handler |
| Keyboard.KeyboardControls.constructor | src/hooks/useKeyboardControls.js:15-16 | the given handlers, and a fresh 250 ms throttle |
| Keyboard.KeyboardControls.SetHandlers | src/hooks/useKeyboardControls.js:19-21 | later handlers replace the stored ones |
| Keyboard.KeyboardControls.SetEnabled | src/hooks/useKeyboardControls.js:57-61 | attaches or removes the listener |
| Keyboard.KeyboardControls.KeyDown | src/hooks/useKeyboardControls.js:23-53 | without a listener nothing happens; within 250 ms nothing is called; otherwise the decided handler is called if present, and the window is used up even inside a form field |
| Debounce.Throttle.constructor | src/hooks/debounce.js:31-32 | no call yet |
| Debounce.Throttle.Call | src/hooks/debounce.js:31-39 | runs iff the interval has passed since the last run; runs are always at least the interval apart |
| Debounce.Debouncer.constructor | src/hooks/debounce.js:8-9 | no call waits |
| Debounce.Debouncer.Call | src/hooks/debounce.js:10-16 | a new call replaces any waiting one and waits for the delay |
| Debounce.Debouncer.Cancel | src/hooks/debounce.js:17-20 | nothing waits any more |
| Debounce.Debouncer.Tick | src/hooks/debounce.js:12-15 | a due waiting call runs once with its arguments; otherwise nothing happens |

## Left out

- GridView.HandleCellClick: the `onCellClick` callback is taken to be present. The component checks for it before calling it (`src/components/Grid.jsx:76`). The play and learn pages always pass one.
- Storage is left out. The model has no `localStorage`, no JSON parsing and
  no stringifying. A saved blob is the value it parses to. Values that are
  not objects, and fields of the wrong type, are not modelled.
- Persist: writing and reading back assumes that JSON keeps every value
  exactly.
- The DOM is left out: CSS variables and classes, `focus()`, ARIA attributes
  and class names. `ApplyTheme` and `BaseFontSize` return what would be
  written.
- Sound effects are left out: `useSound` is not part of this model.
- React's batching of state updates and stale closures are left out. Each
  handler works on the current state.
- Hovering is left out: mouse enter/leave and blur only set `hoveredCell`.
  Only the focus handler is modelled (`OnCellFocus`).
- The learn-mode axis highlight and labels are left out. They are rendering
  only.
- Accuracy is left out: the percentage at `src/pages/Play.jsx:148-150` uses
  floating-point division.
- The calm-mode overlay, the parent dashboard, the home page and the
  settings page are not part of this model. From the home page only the
  "N more stars" figure is used (`CurrentBelowNext`).
- DecimalValue: `parseInt` is exact on unbounded naturals here. JavaScript
  loses precision above 2^53.
- BaseFontSize: the lookup `sizes[...]` also finds keys on the object
  prototype (for example "constructor"). The model maps every other text
  size to 16 px.
- ToLower: only ASCII letters are lower-cased. Tag names reported by browsers
  are ASCII.
- RoundController.FireAutoAdvance: the timer's callback is modelled as the
  grid size it captured. The other parts of the closure are not modelled.
- Debounce.Debouncer: the `debounce` helper is not used by the modelled
  handlers. Its default delay of 200 ms is a constructor argument here.
- Debounce.Throttle: its default interval of 150 ms is a constructor
  argument here. The modelled callers pass 250 ms and 120 ms.
