/** The lesson stepper of the learning page: five lessons, one of which asks
    the player to click a cell, with Back and Next buttons. */
module Learn {
  import opened Common

  datatype Lesson = Lesson(id: int, title: string, description: string, guideMessage: string, task: Option<Coord>)

  const Lessons: seq<Lesson> := [
    Lesson(1, "What is a Grid?",
      "A grid is made of rows and columns — like a treasure map! Each square has a special address.",
      "Think of it like a treasure map! 🗺️", None),
    Lesson(2, "X Goes Across ➡️",
      "The X number tells us how far to go across (left to right). Start from 0 and count!",
      "X goes across like a road! ➡️", None),
    Lesson(3, "Y Goes Up ⬆️",
      "The Y number tells us how far to go up. Start from 0 at the bottom and count up!",
      "Y goes up like a rocket! ⬆️", None),
    Lesson(4, "Put Them Together!",
      "We write coordinates as (X, Y). First go across, then go up!\nTry clicking on (3, 2) on the grid!",
      "First across, then up! Try (3, 2)! 📍", Some(Coord(3, 2))),
    Lesson(5, "You're Ready! 🌟",
      "Amazing! You know how coordinates work! Now try the game and find hidden treasures in the cave!",
      "You're a coordinate expert now! 🏆", None)
  ]

  /** The size of the lesson grid. */
  const LessonGridSize := 5

  /** Five lessons; only the fourth has a task, the cell (3, 2), which lies
      on the lesson grid. */
  lemma LessonTable()
    ensures |Lessons| == 5
    ensures forall i :: 0 <= i < |Lessons| ==> (Lessons[i].task.Some? <==> i == 3)
    ensures Lessons[3].task == Some(Coord(3, 2))
    ensures 0 <= Lessons[3].task.value.x < LessonGridSize && 0 <= Lessons[3].task.value.y < LessonGridSize
  {
  }

  class LessonStepper {
    var currentStep: int
    var highlightCell: Option<Coord>
    var taskComplete: bool

    /** The step is a lesson; the highlight is shown exactly when the task is
        complete, and then it is the task's cell. */
    predicate Valid()
      reads this
    {
      && 0 <= currentStep < |Lessons|
      && (taskComplete <==> highlightCell.Some?)
      && (taskComplete ==> Lessons[currentStep].task.Some? && highlightCell == Lessons[currentStep].task)
    }

    constructor()
      ensures currentStep == 0 && highlightCell == None && !taskComplete && Valid()
    {
      currentStep := 0;
      highlightCell := None;
      taskComplete := false;
    }

    function CurrentLesson(): Lesson
      reads this
      requires Valid()
    {
      Lessons[currentStep]
    }

    /** A click on (x, y) completes the lesson's task exactly when the lesson
        has one and (x, y) is its cell. */
    method HandleCellClick(x: int, y: int)
      requires Valid()
      modifies this
      ensures Valid() && currentStep == old(currentStep)
      ensures old(CurrentLesson().task) == Some(Coord(x, y)) ==>
        taskComplete && highlightCell == Some(Coord(x, y))
      ensures old(CurrentLesson().task) != Some(Coord(x, y)) ==>
        taskComplete == old(taskComplete) && highlightCell == old(highlightCell)
    {
      var task := Lessons[currentStep].task;
      if task.Some? && x == task.value.x && y == task.value.y {
        highlightCell := Some(Coord(x, y));
        taskComplete := true;
      }
    }

    /** Next lesson, unless this is the last; the highlight and the task
        state are cleared. */
    method NextStep()
      requires Valid()
      modifies this
      ensures old(currentStep) < |Lessons| - 1 ==>
        currentStep == old(currentStep) + 1 && highlightCell == None && !taskComplete
      ensures old(currentStep) == |Lessons| - 1 ==> unchanged(this)
      ensures Valid()
    {
      if currentStep < |Lessons| - 1 {
        currentStep := currentStep + 1;
        highlightCell := None;
        taskComplete := false;
      }
    }

    /** Previous lesson, unless this is the first; same clearing. */
    method PrevStep()
      requires Valid()
      modifies this
      ensures old(currentStep) > 0 ==>
        currentStep == old(currentStep) - 1 && highlightCell == None && !taskComplete
      ensures old(currentStep) == 0 ==> unchanged(this)
      ensures Valid()
    {
      if currentStep > 0 {
        currentStep := currentStep - 1;
        highlightCell := None;
        taskComplete := false;
      }
    }

    /** "Next" is disabled on the last lesson and while a task is open. */
    predicate NextDisabled()
      reads this
      requires Valid()
    {
      currentStep == |Lessons| - 1 || (CurrentLesson().task.Some? && !taskComplete)
    }

    predicate BackDisabled()
      reads this
    {
      currentStep == 0
    }

    /** The grid takes no clicks on a lesson without a task or once the
        task is done. */
    predicate GridDisabled()
      reads this
      requires Valid()
    {
      CurrentLesson().task.None? || taskComplete
    }

    /** While the grid takes clicks, the Next button is disabled: the task
        has to be done before moving on. */
    lemma OpenTaskBlocksNext()
      requires Valid() && !GridDisabled()
      ensures NextDisabled()
    {
    }

    /** The only step where Next can be disabled before the last lesson is
        the task's, and only until the task is done. */
    lemma NextBlockedOnlyByTask()
      requires Valid() && NextDisabled() && currentStep < |Lessons| - 1
      ensures currentStep == 3 && !taskComplete
    {
      LessonTable();
    }
  }
}
