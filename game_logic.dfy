/** The round controller of play mode: the current target, whether it was
    found, the streak, the count of targets found in this level, and the one
    auto-advance that may be waiting to draw the next target. */
module GameLogic {
  import opened Common

  /** Targets to find before the level is complete. */
  const QuestionsPerLevel := 5

  /** Milliseconds between a correct answer and the automatic next target. */
  const AutoAdvanceDelay := 1500

  const EncouragingMessages: seq<string> := [
    "Great job! You found it! ⭐",
    "You are doing amazing! 🌟",
    "Wonderful! Keep exploring! 🦇",
    "Incredible work, explorer! 💎",
    "You're a coordinate superstar! ✨",
    "Pro Learner! You nailed it! 🏆",
    "Champ move! That was perfect! 🥇"
  ]

  const HintMessages: seq<string> := [
    "Almost there! Let's try again together! 💙",
    "That's okay! Look at the numbers on the sides! 🔍",
    "No worries! Try counting across, then up! 🗺️",
    "You're learning! Give it another try! 🌈",
    "So close! You've got this, explorer! 🌟"
  ]

  /** The target drawn from two random numbers on a grid of `gridSize`. */
  function DrawTarget(gridSize: int, rx: RandomDraw, ry: RandomDraw): (c: Coord)
    requires IsDraw(rx) && IsDraw(ry)
    ensures gridSize > 0 ==> 0 <= c.x < gridSize && 0 <= c.y < gridSize
    ensures gridSize <= 0 ==> gridSize <= c.x <= 0 && gridSize <= c.y <= 0
  {
    Coord(RandomIndex(rx, gridSize), RandomIndex(ry, gridSize))
  }

  /** A message picked from `messages` by one random number. */
  function PickMessage(messages: seq<string>, r: RandomDraw): (m: string)
    requires IsDraw(r) && |messages| > 0
    ensures m in messages
  {
    messages[RandomIndex(r, |messages|)]
  }

  class RoundController {
    var gridSize: int
    var target: Option<Coord>
    var message: string
    var isCorrect: Option<bool>
    var streak: nat
    var questionsInLevel: nat
    /** The auto-advance timer: the grid size its callback captured, or
        `None` when no timer is set. */
    var pendingAdvance: Option<int>

    /** The state before the first effect has run: no target yet. */
    constructor(gridSize: int)
      ensures this.gridSize == gridSize && target == None && message == "" && isCorrect == None
      ensures streak == 0 && questionsInLevel == 0 && pendingAdvance == None
    {
      this.gridSize := gridSize;
      target := None;
      message := "";
      isCorrect := None;
      streak := 0;
      questionsInLevel := 0;
      pendingAdvance := None;
    }

    predicate IsLevelComplete()
      reads this
    {
      questionsInLevel >= QuestionsPerLevel
    }

    /** The round is in a state the play page can reach: the count never
        passes the level size; a complete level still shows its correct
        answer and has no timer; a timer is only pending after a correct
        answer that did not complete the level. */
    predicate Settled()
      reads this
    {
      && questionsInLevel <= QuestionsPerLevel
      && (questionsInLevel == QuestionsPerLevel ==> isCorrect == Some(true) && pendingAdvance == None)
      && (pendingAdvance.Some? ==> isCorrect == Some(true) && questionsInLevel < QuestionsPerLevel)
    }

    /** Draws a new target on the grid and clears the verdict and message. */
    method GenerateTarget(rx: RandomDraw, ry: RandomDraw)
      requires IsDraw(rx) && IsDraw(ry)
      modifies this
      ensures target == Some(DrawTarget(gridSize, rx, ry))
      ensures gridSize > 0 ==> 0 <= target.value.x < gridSize && 0 <= target.value.y < gridSize
      ensures isCorrect == None && message == ""
      ensures gridSize == old(gridSize) && streak == old(streak)
      ensures questionsInLevel == old(questionsInLevel) && pendingAdvance == old(pendingAdvance)
    {
      target := Some(DrawTarget(gridSize, rx, ry));
      isCorrect := None;
      message := "";
    }

    /** The effect that runs on mount and whenever the grid size changes: a
        new target, streak and level count back to zero. A timer already
        pending is left alone. */
    method OnGridSize(size: int, rx: RandomDraw, ry: RandomDraw)
      requires IsDraw(rx) && IsDraw(ry)
      modifies this
      ensures gridSize == size && target == Some(DrawTarget(size, rx, ry))
      ensures isCorrect == None && message == ""
      ensures streak == 0 && questionsInLevel == 0 && pendingAdvance == old(pendingAdvance)
      ensures Settled() <==> pendingAdvance == None
    {
      gridSize := size;
      GenerateTarget(rx, ry);
      streak := 0;
      questionsInLevel := 0;
    }

    /** Judges a guess. `None` (and no change) without a target or while a
        correct answer is shown; otherwise `Some(true)` exactly when the guess
        is the target, with the effects of a correct or a wrong answer. */
    method CheckAnswer(x: int, y: int, rm: RandomDraw) returns (result: Option<bool>)
      requires IsDraw(rm)
      modifies this
      ensures old(target) == None || old(isCorrect) == Some(true) ==>
        result == None && unchanged(this)
      ensures result == Some(true) <==>
        old(target) == Some(Coord(x, y)) && old(isCorrect) != Some(true)
      ensures result == Some(true) ==>
        && message in EncouragingMessages && message == PickMessage(EncouragingMessages, rm)
        && isCorrect == Some(true)
        && streak == old(streak) + 1 && questionsInLevel == old(questionsInLevel) + 1
        && pendingAdvance == (if questionsInLevel < QuestionsPerLevel then Some(gridSize) else old(pendingAdvance))
      ensures result == Some(false) <==>
        old(target).Some? && old(target) != Some(Coord(x, y)) && old(isCorrect) != Some(true)
      ensures result == Some(false) ==>
        && message in HintMessages && message == PickMessage(HintMessages, rm)
        && isCorrect == Some(false) && streak == 0
        && questionsInLevel == old(questionsInLevel) && pendingAdvance == old(pendingAdvance)
      ensures target == old(target) && gridSize == old(gridSize)
      ensures old(Settled()) ==> Settled()
      ensures old(Settled()) && old(IsLevelComplete()) ==> result == None && unchanged(this)
    {
      if target == None || isCorrect == Some(true) {
        return None;
      }
      if x == target.value.x && y == target.value.y {
        message := PickMessage(EncouragingMessages, rm);
        isCorrect := Some(true);
        streak := streak + 1;
        var next := questionsInLevel + 1;
        if next < QuestionsPerLevel {
          // the earlier timer, if any, is cleared and replaced
          pendingAdvance := Some(gridSize);
        }
        questionsInLevel := next;
        result := Some(true);
      } else {
        message := PickMessage(HintMessages, rm);
        isCorrect := Some(false);
        streak := 0;
        result := Some(false);
      }
    }

    /** The auto-advance timer goes off: a new target on the grid size the
        timer captured, and the slot is empty again. Nothing happens when no
        timer is set. */
    method FireAutoAdvance(rx: RandomDraw, ry: RandomDraw)
      requires IsDraw(rx) && IsDraw(ry)
      modifies this
      ensures old(pendingAdvance) == None ==> unchanged(this)
      ensures old(pendingAdvance).Some? ==>
        && target == Some(DrawTarget(old(pendingAdvance).value, rx, ry))
        && isCorrect == None && message == ""
        && streak == old(streak) && questionsInLevel == old(questionsInLevel)
        && gridSize == old(gridSize)
      ensures pendingAdvance == None
      ensures old(Settled()) ==> Settled()
      ensures old(Settled()) && old(IsLevelComplete()) ==> unchanged(this)
    {
      if pendingAdvance.Some? {
        target := Some(DrawTarget(pendingAdvance.value, rx, ry));
        isCorrect := None;
        message := "";
        pendingAdvance := None;
      }
    }

    /** Moves on at once: the timer is cancelled and a new target drawn;
        streak and level count are kept. */
    method NextQuestion(rx: RandomDraw, ry: RandomDraw)
      requires IsDraw(rx) && IsDraw(ry)
      modifies this
      ensures pendingAdvance == None
      ensures target == Some(DrawTarget(gridSize, rx, ry)) && isCorrect == None && message == ""
      ensures gridSize == old(gridSize) && streak == old(streak) && questionsInLevel == old(questionsInLevel)
      ensures old(Settled()) && old(questionsInLevel) < QuestionsPerLevel ==> Settled()
    {
      pendingAdvance := None;
      GenerateTarget(rx, ry);
    }

    /** Starts the level over: the timer is cancelled, count and streak go to
        zero and a new target is drawn. */
    method ResetLevel(rx: RandomDraw, ry: RandomDraw)
      requires IsDraw(rx) && IsDraw(ry)
      modifies this
      ensures pendingAdvance == None && questionsInLevel == 0 && streak == 0
      ensures target == Some(DrawTarget(gridSize, rx, ry)) && isCorrect == None && message == ""
      ensures gridSize == old(gridSize)
      ensures Settled() && !IsLevelComplete()
    {
      pendingAdvance := None;
      questionsInLevel := 0;
      streak := 0;
      GenerateTarget(rx, ry);
    }

    /** The clean-up when the page goes away: the timer is cancelled. */
    method Unmount()
      modifies this
      ensures pendingAdvance == None
      ensures target == old(target) && message == old(message) && isCorrect == old(isCorrect)
      ensures streak == old(streak) && questionsInLevel == old(questionsInLevel) && gridSize == old(gridSize)
      ensures old(Settled()) ==> Settled()
    {
      pendingAdvance := None;
    }
  }
}
