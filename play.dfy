/** The play page: it forwards clicks and typed coordinates to the round
    controller, turns each verdict into an event for the game state, and
    offers the Next, Level Up and Reset actions and the keyboard shortcuts. */
module Play {
  import opened Common
  import opened GameContext
  import opened GameLogic
  import opened CoordInput

  /** Milliseconds within which a second click is ignored. */
  const ClickGuard := 300

  /** Milliseconds the hint and the level-up banner stay on screen. */
  const HintDuration := 3000
  const LevelUpDuration := 2000

  /** The events dispatched for a verdict of the round controller: one
      `CORRECT_ANSWER` for a hit, one `WRONG_ANSWER` for a miss, none when the
      answer was not judged. */
  function ClickEvents(verdict: Option<bool>): (r: seq<Action>)
    ensures |r| <= 1 && (r == [] <==> verdict.None?)
    ensures r == [CorrectAnswer] <==> verdict == Some(true)
    ensures r == [WrongAnswer] <==> verdict == Some(false)
  {
    match verdict
    case Some(true) => [CorrectAnswer]
    case Some(false) => [WrongAnswer]
    case None => []
  }

  class PlayPage {
    const store: GameStore
    const round: RoundController
    var lastClickTime: int
    var coordInput: string
    var inputFeedback: string
    var inputMode: bool
    var highlightCell: Option<Coord>
    var showHint: bool
    var showLevelUp: bool

    ghost predicate Valid()
      reads this, store, round
    {
      store.Valid() && round.Settled()
    }

    /** A click at time `now` gets past the guard: the game is not paused and
        the last accepted click is at least `ClickGuard` ms old. */
    predicate ClickAccepted(now: int)
      reads this, store
    {
      !store.state.isPaused && now - lastClickTime >= ClickGuard
    }

    /** "Next" is on screen: the answer is right and the level not complete. */
    predicate NextButtonShown()
      reads this, round
      ensures NextButtonShown() ==> !LevelUpButtonShown()
    {
      round.isCorrect == Some(true) && !round.IsLevelComplete()
    }

    /** "Level Up" is on screen: the level is complete. */
    predicate LevelUpButtonShown()
      reads this, round
    {
      round.IsLevelComplete()
    }

    /** Mounting the page: a new round on the configured grid, with the
        grid-size effect run once. */
    constructor(store: GameStore, gridSize: int, rx: RandomDraw, ry: RandomDraw)
      requires IsDraw(rx) && IsDraw(ry) && store.Valid()
      ensures this.store == store && fresh(round) && round.gridSize == gridSize
      ensures round.target == Some(DrawTarget(gridSize, rx, ry)) && round.questionsInLevel == 0
      ensures round.streak == 0 && round.isCorrect == None && round.message == "" && round.pendingAdvance == None
      ensures lastClickTime == 0 && coordInput == "" && inputFeedback == "" && !inputMode
      ensures highlightCell == None && !showHint && !showLevelUp
      ensures Valid()
    {
      var r := new RoundController(gridSize);
      r.OnGridSize(gridSize, rx, ry);
      this.store := store;
      round := r;
      lastClickTime := 0;
      coordInput := "";
      inputFeedback := "";
      inputMode := false;
      highlightCell := None;
      showHint := false;
      showLevelUp := false;
    }

    /** A click on cell (x, y) at time `now`. A click that the guard stops
        changes nothing; otherwise the time is recorded, the round judges the
        guess, and the verdict is dispatched as `ClickEvents(verdict)`. */
    method HandleCellClick(x: int, y: int, now: int, rm: RandomDraw) returns (verdict: Option<bool>)
      requires IsDraw(rm) && Valid()
      modifies this, store, round
      ensures Valid()
      ensures !old(ClickAccepted(now)) ==> verdict == None && unchanged(this, store, round)
      ensures old(ClickAccepted(now)) ==> lastClickTime == now
      ensures verdict == Some(true) <==>
        old(ClickAccepted(now)) && old(round.target) == Some(Coord(x, y)) && old(round.isCorrect) != Some(true)
      ensures verdict == Some(false) <==>
        && old(ClickAccepted(now)) && old(round.target).Some? && old(round.target) != Some(Coord(x, y))
        && old(round.isCorrect) != Some(true)
      ensures store.log == old(store.log) + ClickEvents(verdict)
      ensures store.state == ApplyAll(old(store.state), ClickEvents(verdict))
      ensures verdict.Some? ==> round.isCorrect == verdict
      ensures verdict == None ==> unchanged(round)
      ensures verdict == Some(true) ==>
        && highlightCell == Some(Coord(x, y)) && !showHint
        && round.questionsInLevel == old(round.questionsInLevel) + 1
        && round.streak == old(round.streak) + 1
        && round.message == PickMessage(EncouragingMessages, rm)
        && round.pendingAdvance ==
             (if round.questionsInLevel < QuestionsPerLevel then Some(round.gridSize) else old(round.pendingAdvance))
        && (NextButtonShown() <==> !LevelUpButtonShown())
      ensures verdict == Some(false) ==>
        && round.streak == 0 && round.message == PickMessage(HintMessages, rm)
        && round.pendingAdvance == old(round.pendingAdvance)
      ensures verdict != Some(true) ==>
        highlightCell == old(highlightCell) && showHint == old(showHint)
        && round.questionsInLevel == old(round.questionsInLevel)
      ensures round.target == old(round.target) && round.gridSize == old(round.gridSize)
      ensures coordInput == old(coordInput) && inputFeedback == old(inputFeedback)
      ensures inputMode == old(inputMode) && showLevelUp == old(showLevelUp)
    {
      if store.state.isPaused {
        return None;
      }
      if now - lastClickTime < ClickGuard {
        return None;
      }
      lastClickTime := now;
      verdict := round.CheckAnswer(x, y, rm);
      if verdict == Some(true) {
        highlightCell := Some(Coord(x, y));
        store.Dispatch(CorrectAnswer);
        showHint := false;
      } else if verdict == Some(false) {
        store.Dispatch(WrongAnswer);
      }
      assert ClickEvents(verdict) == [] || ClickEvents(verdict)[1..] == [];
    }

    /** Typing into the coordinate box: the text is kept and the live
        feedback recomputed for the grid size. */
    method CoordInputChange(value: string)
      modifies this
      ensures coordInput == value
      ensures inputFeedback == FeedbackText(LiveFeedback(value, round.gridSize))
      ensures lastClickTime == old(lastClickTime) && inputMode == old(inputMode)
      ensures highlightCell == old(highlightCell) && showHint == old(showHint)
      ensures showLevelUp == old(showLevelUp)
    {
      coordInput := value;
      inputFeedback := FeedbackText(LiveFeedback(value, round.gridSize));
    }

    /** Submitting the coordinate box. Text that matches is forwarded, with
        no range check, as a click on the parsed cell, and the box and its
        feedback are cleared; other text stays and gets the format hint. */
    method CoordInputSubmit(now: int, rm: RandomDraw) returns (verdict: Option<bool>)
      requires IsDraw(rm) && Valid()
      modifies this, store, round
      ensures Valid()
      ensures ParseCoord(old(coordInput)) == None ==>
        && verdict == None && coordInput == old(coordInput)
        && inputFeedback == FeedbackText(SubmitFormatHint)
        && unchanged(store, round) && lastClickTime == old(lastClickTime)
        && highlightCell == old(highlightCell) && showHint == old(showHint)
      ensures ParseCoord(old(coordInput)).Some? ==>
        var c := ParseCoord(old(coordInput)).value;
        && coordInput == "" && inputFeedback == ""
        && (verdict == Some(true) <==>
              old(ClickAccepted(now)) && old(round.target) == Some(c) && old(round.isCorrect) != Some(true))
        && (verdict == Some(false) <==>
              && old(ClickAccepted(now)) && old(round.target).Some? && old(round.target) != Some(c)
              && old(round.isCorrect) != Some(true))
        && (old(ClickAccepted(now)) ==> lastClickTime == now)
        && (!old(ClickAccepted(now)) ==> lastClickTime == old(lastClickTime))
        && (verdict == Some(true) ==>
              && highlightCell == Some(c) && !showHint
              && round.questionsInLevel == old(round.questionsInLevel) + 1
              && round.streak == old(round.streak) + 1
              && round.message == PickMessage(EncouragingMessages, rm)
              && round.pendingAdvance ==
                   (if round.questionsInLevel < QuestionsPerLevel then Some(round.gridSize) else old(round.pendingAdvance)))
        && (verdict == Some(false) ==>
              && round.streak == 0 && round.message == PickMessage(HintMessages, rm)
              && round.pendingAdvance == old(round.pendingAdvance))
        && (verdict != Some(true) ==>
              highlightCell == old(highlightCell) && showHint == old(showHint)
              && round.questionsInLevel == old(round.questionsInLevel))
      ensures verdict.Some? ==> round.isCorrect == verdict
      ensures verdict == None ==> unchanged(round)
      ensures round.target == old(round.target) && round.gridSize == old(round.gridSize)
      ensures inputMode == old(inputMode) && showLevelUp == old(showLevelUp)
      ensures store.log == old(store.log) + ClickEvents(verdict)
      ensures store.state == ApplyAll(old(store.state), ClickEvents(verdict))
    {
      match ParseCoord(coordInput)
      case Some(c) =>
        verdict := HandleCellClick(c.x, c.y, now, rm);
        coordInput := "";
        inputFeedback := "";
      case None =>
        verdict := None;
        inputFeedback := FeedbackText(SubmitFormatHint);
    }

    /** The "Next" button: the highlight goes and the round moves on. */
    method HandleNextQuestion(rx: RandomDraw, ry: RandomDraw)
      requires IsDraw(rx) && IsDraw(ry) && Valid()
      modifies this, round
      ensures highlightCell == None && round.pendingAdvance == None
      ensures round.target == Some(DrawTarget(round.gridSize, rx, ry)) && round.isCorrect == None && round.message == ""
      ensures round.questionsInLevel == old(round.questionsInLevel) && round.streak == old(round.streak)
      ensures round.gridSize == old(round.gridSize)
      ensures showHint == old(showHint) && showLevelUp == old(showLevelUp)
      ensures coordInput == old(coordInput) && inputFeedback == old(inputFeedback)
      ensures lastClickTime == old(lastClickTime) && inputMode == old(inputMode)
      ensures old(NextButtonShown()) ==> Valid()
      ensures store.Valid()
    {
      highlightCell := None;
      round.NextQuestion(rx, ry);
    }

    /** The "Level Up" button: `NEXT_LEVEL` is dispatched, the banner shows,
        and the round starts over. */
    method HandleLevelUp(rx: RandomDraw, ry: RandomDraw)
      requires IsDraw(rx) && IsDraw(ry) && Valid()
      modifies this, store, round
      ensures store.log == old(store.log) + [NextLevel]
      ensures store.state == Reduce(old(store.state), NextLevel)
      ensures showLevelUp && highlightCell == None
      ensures round.questionsInLevel == 0 && round.streak == 0 && round.pendingAdvance == None
      ensures round.target == Some(DrawTarget(round.gridSize, rx, ry)) && round.isCorrect == None && round.message == ""
      ensures round.gridSize == old(round.gridSize)
      ensures showHint == old(showHint) && coordInput == old(coordInput) && inputFeedback == old(inputFeedback)
      ensures lastClickTime == old(lastClickTime) && inputMode == old(inputMode)
      ensures Valid()
    {
      store.Dispatch(NextLevel);
      showLevelUp := true;
      round.ResetLevel(rx, ry);
      highlightCell := None;
    }

    /** The level-up banner's timer goes off. */
    method HideLevelUp()
      modifies this
      ensures !showLevelUp && showHint == old(showHint) && highlightCell == old(highlightCell)
      ensures coordInput == old(coordInput) && inputFeedback == old(inputFeedback)
      ensures lastClickTime == old(lastClickTime) && inputMode == old(inputMode)
    {
      showLevelUp := false;
    }

    /** The "Reset" button: `RESET_GAME` is dispatched and the round starts
        over; the highlight and the hint go. */
    method HandleReset(rx: RandomDraw, ry: RandomDraw)
      requires IsDraw(rx) && IsDraw(ry) && Valid()
      modifies this, store, round
      ensures store.log == old(store.log) + [ResetGame]
      ensures store.state == Reduce(old(store.state), ResetGame)
      ensures highlightCell == None && !showHint
      ensures round.questionsInLevel == 0 && round.streak == 0 && round.pendingAdvance == None
      ensures round.target == Some(DrawTarget(round.gridSize, rx, ry)) && round.isCorrect == None && round.message == ""
      ensures round.gridSize == old(round.gridSize)
      ensures showLevelUp == old(showLevelUp) && coordInput == old(coordInput) && inputFeedback == old(inputFeedback)
      ensures lastClickTime == old(lastClickTime) && inputMode == old(inputMode)
      ensures Valid()
    {
      store.Dispatch(ResetGame);
      round.ResetLevel(rx, ry);
      highlightCell := None;
      showHint := false;
    }

    /** The Escape shortcut: calm mode, unless already in it. */
    method OnEscape()
      requires Valid()
      modifies store
      ensures old(store.state.isCalmMode) ==> unchanged(store)
      ensures !old(store.state.isCalmMode) ==>
        store.log == old(store.log) + [EnterCalmMode] && store.state == Reduce(old(store.state), EnterCalmMode)
      ensures Valid()
    {
      if !store.state.isCalmMode {
        store.Dispatch(EnterCalmMode);
      }
    }

    /** The R shortcut: outside calm mode, the Reset button's effect, and the
        input feedback is cleared too. */
    method OnReset(rx: RandomDraw, ry: RandomDraw)
      requires IsDraw(rx) && IsDraw(ry) && Valid()
      modifies this, store, round
      ensures old(store.state.isCalmMode) ==> unchanged(this, store, round)
      ensures !old(store.state.isCalmMode) ==>
        && store.log == old(store.log) + [ResetGame]
        && store.state == Reduce(old(store.state), ResetGame)
        && highlightCell == None && !showHint && inputFeedback == ""
        && round.questionsInLevel == 0 && round.streak == 0 && round.pendingAdvance == None
        && round.target == Some(DrawTarget(round.gridSize, rx, ry)) && round.isCorrect == None && round.message == ""
        && round.gridSize == old(round.gridSize)
        && showLevelUp == old(showLevelUp) && coordInput == old(coordInput)
        && lastClickTime == old(lastClickTime) && inputMode == old(inputMode)
      ensures Valid()
    {
      if !store.state.isCalmMode {
        store.Dispatch(ResetGame);
        round.ResetLevel(rx, ry);
        highlightCell := None;
        showHint := false;
        inputFeedback := "";
      }
    }

    /** The H shortcut: outside calm mode and with a target, the hint shows
        (its timer is `HideHint`). */
    method OnHint()
      modifies this
      ensures showHint == (old(showHint) || (!store.state.isCalmMode && round.target.Some?))
      ensures highlightCell == old(highlightCell) && showLevelUp == old(showLevelUp)
      ensures coordInput == old(coordInput) && inputFeedback == old(inputFeedback)
      ensures lastClickTime == old(lastClickTime) && inputMode == old(inputMode)
    {
      if !store.state.isCalmMode && round.target.Some? {
        showHint := true;
      }
    }

    /** The hint's timer goes off. */
    method HideHint()
      modifies this
      ensures !showHint && highlightCell == old(highlightCell) && showLevelUp == old(showLevelUp)
      ensures coordInput == old(coordInput) && inputFeedback == old(inputFeedback)
      ensures lastClickTime == old(lastClickTime) && inputMode == old(inputMode)
    {
      showHint := false;
    }

    /** The "Take a Break" button: calm mode, whatever the current mode. */
    method TakeBreak()
      requires Valid()
      modifies store
      ensures store.log == old(store.log) + [EnterCalmMode]
      ensures store.state == Reduce(old(store.state), EnterCalmMode)
      ensures store.state.isCalmMode && store.state.isPaused
      ensures Valid()
    {
      store.Dispatch(EnterCalmMode);
    }

    /** The "Type Mode" / "Click Mode" toggle. */
    method ToggleInputMode()
      modifies this
      ensures inputMode == !old(inputMode)
      ensures coordInput == old(coordInput) && inputFeedback == old(inputFeedback)
      ensures highlightCell == old(highlightCell) && showHint == old(showHint) && showLevelUp == old(showLevelUp)
      ensures lastClickTime == old(lastClickTime)
    {
      inputMode := !inputMode;
    }

    /** The round's auto-advance timer goes off; the highlight stays. */
    method FireAutoAdvance(rx: RandomDraw, ry: RandomDraw)
      requires IsDraw(rx) && IsDraw(ry) && Valid()
      modifies round
      ensures round.pendingAdvance == None
      ensures old(round.pendingAdvance) == None ==> unchanged(round)
      ensures old(round.pendingAdvance).Some? ==>
        && round.target == Some(DrawTarget(old(round.pendingAdvance).value, rx, ry))
        && round.isCorrect == None && round.message == ""
        && round.streak == old(round.streak) && round.gridSize == old(round.gridSize)
      ensures round.questionsInLevel == old(round.questionsInLevel)
      ensures Valid()
    {
      round.FireAutoAdvance(rx, ry);
    }

    /** Leaving the page: the pending auto-advance is cancelled. */
    method Leave()
      requires Valid()
      modifies round
      ensures round.pendingAdvance == None && round.questionsInLevel == old(round.questionsInLevel)
      ensures round.target == old(round.target) && round.isCorrect == old(round.isCorrect)
      ensures round.message == old(round.message) && round.streak == old(round.streak)
      ensures Valid()
    {
      round.Unmount();
    }
  }
}
