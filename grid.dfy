/** The coordinate grid: clamped keyboard focus, arrow navigation, the
    guarded cell click, and the order in which rows and cells are laid out
    (highest y first, x from left to right). */
module Grid {
  import opened Common
  import opened Debounce

  /** Milliseconds within which a second click is ignored. */
  const ClickGuard := 300

  /** Milliseconds between two handled arrow keys. */
  const ArrowInterval := 120

  /** `Math.max(0, Math.min(v, size - 1))`. */
  function Clamp(v: int, size: int): (r: int)
    ensures size >= 1 ==> 0 <= r < size
    ensures size >= 1 && 0 <= v < size ==> r == v
    ensures size >= 1 && v >= size ==> r == size - 1
    ensures v < 0 || size < 1 ==> r == 0
  {
    var m := if v < size - 1 then v else size - 1;
    if m > 0 then m else 0
  }

  predicate InGrid(c: Coord, size: int) {
    0 <= c.x < size && 0 <= c.y < size
  }

  /** The cell `focusCellAt(x, y)` focuses. */
  function FocusCellAt(x: int, y: int, size: int): (c: Coord)
    ensures size >= 1 ==> InGrid(c, size)
    ensures InGrid(Coord(x, y), size) ==> c == Coord(x, y)
  {
    Coord(Clamp(x, size), Clamp(y, size))
  }

  /** The cell an arrow key asks for, before clamping: right and left move
      x, up and down move y. Other keys ask for nothing. */
  function ArrowStep(key: string, x: int, y: int): (r: Option<Coord>)
    ensures r.Some? <==> key in {"ArrowRight", "ArrowLeft", "ArrowUp", "ArrowDown"}
    ensures r.Some? ==> (r.value.x - x) * (r.value.x - x) + (r.value.y - y) * (r.value.y - y) == 1
    ensures key == "ArrowUp" ==> r == Some(Coord(x, y + 1))
    ensures key == "ArrowRight" ==> r == Some(Coord(x + 1, y))
    ensures key == "ArrowDown" ==> r == Some(Coord(x, y - 1))
    ensures key == "ArrowLeft" ==> r == Some(Coord(x - 1, y))
  {
    if key == "ArrowRight" then Some(Coord(x + 1, y))
    else if key == "ArrowLeft" then Some(Coord(x - 1, y))
    else if key == "ArrowUp" then Some(Coord(x, y + 1))
    else if key == "ArrowDown" then Some(Coord(x, y - 1))
    else None
  }

  /** An arrow press and the opposite press undo each other away from the
      border. */
  lemma ArrowsUndo(x: int, y: int, size: int)
    requires 0 < x < size - 1 && 0 < y < size - 1
    ensures var r := ArrowStep("ArrowRight", x, y).value;
      var c := FocusCellAt(r.x, r.y, size);
      FocusCellAt(ArrowStep("ArrowLeft", c.x, c.y).value.x, ArrowStep("ArrowLeft", c.x, c.y).value.y, size)
        == Coord(x, y)
    ensures var u := ArrowStep("ArrowUp", x, y).value;
      var c := FocusCellAt(u.x, u.y, size);
      FocusCellAt(ArrowStep("ArrowDown", c.x, c.y).value.x, ArrowStep("ArrowDown", c.x, c.y).value.y, size)
        == Coord(x, y)
  {
  }

  // ---------------------------------------------------------------------
  // Layout
  // ---------------------------------------------------------------------

  /** What the layout says about one cell: its coordinates, its `tabIndex`
      and whether it shows the correct-answer star. */
  datatype GridCell = GridCell(x: int, y: int, tabIndex: int, highlighted: bool)

  function CellAt(x: int, y: int, focused: Coord, highlight: Option<Coord>): (r: GridCell)
    ensures r.x == x && r.y == y
    ensures r.tabIndex == 0 <==> focused == Coord(x, y)
    ensures r.highlighted <==> highlight == Some(Coord(x, y))
  {
    GridCell(x, y, if focused == Coord(x, y) then 0 else -1, highlight == Some(Coord(x, y)))
  }

  /** Row `i` of the layout shows y = size - 1 - i, and its cell `j` shows
      x = j. */
  function Layout(size: int, focused: Coord, highlight: Option<Coord>): (rows: seq<seq<GridCell>>)
    ensures |rows| == if size > 0 then size else 0
    ensures forall i :: 0 <= i < |rows| ==> |rows[i]| == size
    ensures forall i, j :: 0 <= i < |rows| && 0 <= j < |rows[i]| ==>
      rows[i][j] == CellAt(j, size - 1 - i, focused, highlight)
  {
    if size <= 0 then []
    else
      seq(size, i requires 0 <= i < size =>
        seq(size, j requires 0 <= j < size => CellAt(j, size - 1 - i, focused, highlight)))
  }

  /** The rendering loops: rows for y from size - 1 down to 0, and in each
      row the cells for x from 0 up to size - 1. */
  method RenderRows(size: int, focused: Coord, highlight: Option<Coord>) returns (rows: seq<seq<GridCell>>)
    ensures rows == Layout(size, focused, highlight)
  {
    rows := [];
    var y := size - 1;
    while y >= 0
      invariant y <= size - 1 && (size >= 0 ==> -1 <= y)
      invariant |rows| == size - 1 - y && (size <= 0 ==> rows == [])
      invariant forall i :: 0 <= i < |rows| ==> |rows[i]| == size
      invariant forall i, j :: 0 <= i < |rows| && 0 <= j < |rows[i]| ==>
        rows[i][j] == CellAt(j, size - 1 - i, focused, highlight)
    {
      var cells := [];
      var x := 0;
      while x < size
        invariant 0 <= x <= size
        invariant |cells| == x
        invariant forall j :: 0 <= j < x ==> cells[j] == CellAt(j, y, focused, highlight)
      {
        cells := cells + [CellAt(x, y, focused, highlight)];
        x := x + 1;
      }
      rows := rows + [cells];
      y := y - 1;
    }
    var layout := Layout(size, focused, highlight);
    assert |rows| == |layout|;
    forall i | 0 <= i < |rows|
      ensures rows[i] == layout[i]
    {
      assert |rows[i]| == |layout[i]|;
    }
  }

  /** Every cell of the grid is laid out, at row size - 1 - y, column x. */
  lemma LayoutCoversGrid(size: int, focused: Coord, highlight: Option<Coord>, c: Coord)
    requires InGrid(c, size)
    ensures var rows := Layout(size, focused, highlight);
      0 <= size - 1 - c.y < |rows| && c.x < |rows[size - 1 - c.y]|
      && rows[size - 1 - c.y][c.x].x == c.x && rows[size - 1 - c.y][c.x].y == c.y
  {
  }

  /** No cell is laid out twice: two positions showing the same coordinates
      are the same position. */
  lemma LayoutInjective(size: int, focused: Coord, highlight: Option<Coord>, i1: int, j1: int, i2: int, j2: int)
    requires var rows := Layout(size, focused, highlight);
      0 <= i1 < |rows| && 0 <= j1 < |rows[i1]| && 0 <= i2 < |rows| && 0 <= j2 < |rows[i2]|
    requires var rows := Layout(size, focused, highlight);
      rows[i1][j1].x == rows[i2][j2].x && rows[i1][j1].y == rows[i2][j2].y
    ensures i1 == i2 && j1 == j2
  {
  }

  /** Exactly the focused cell is in the tab order. */
  lemma OneTabStop(size: int, focused: Coord, highlight: Option<Coord>, i: int, j: int)
    requires var rows := Layout(size, focused, highlight); 0 <= i < |rows| && 0 <= j < |rows[i]|
    ensures var rows := Layout(size, focused, highlight);
      (rows[i][j].tabIndex == 0 <==> focused == Coord(j, size - 1 - i))
      && (rows[i][j].tabIndex != 0 ==> rows[i][j].tabIndex == -1)
  {
  }

  /** The number of cells in `rows`. */
  function CellCount(rows: seq<seq<GridCell>>): nat {
    if rows == [] then 0 else |rows[0]| + CellCount(rows[1..])
  }

  lemma {:induction false} CellCountUniform(rows: seq<seq<GridCell>>, n: nat)
    requires forall i :: 0 <= i < |rows| ==> |rows[i]| == n
    ensures CellCount(rows) == |rows| * n
  {
    if rows != [] {
      CellCountUniform(rows[1..], n);
      assert |rows| * n == n + (|rows| - 1) * n;
    }
  }

  /** The layout has `size * size` cells in all. */
  lemma LayoutSize(size: int, focused: Coord, highlight: Option<Coord>)
    requires size >= 0
    ensures CellCount(Layout(size, focused, highlight)) == size * size
  {
    CellCountUniform(Layout(size, focused, highlight), size);
  }

  // ---------------------------------------------------------------------
  // The component
  // ---------------------------------------------------------------------

  /** The grid's interaction state: the focused, hovered and rippling cell,
      the time of the last accepted click, the throttle on arrow keys, and
      the cells passed on to `onCellClick`. */
  class GridView {
    const size: int
    var focusedCell: Coord
    var hoveredCell: Option<Coord>
    var rippleCell: Option<Coord>
    var lastClickTime: int
    const arrows: Throttle
    ghost var clicked: seq<Coord>

    /** Focus never leaves the grid, and the arrow throttle is the 120 ms
        one. */
    ghost predicate Valid()
      reads this, arrows
    {
      && (size >= 1 ==> InGrid(focusedCell, size))
      && arrows.Valid() && arrows.interval == ArrowInterval
    }

    constructor(size: int)
      ensures this.size == size && focusedCell == Coord(0, 0) && hoveredCell == None && rippleCell == None
      ensures lastClickTime == 0 && clicked == [] && fresh(arrows) && Valid()
    {
      this.size := size;
      focusedCell := Coord(0, 0);
      hoveredCell := None;
      rippleCell := None;
      lastClickTime := 0;
      arrows := new Throttle(ArrowInterval);
      clicked := [];
    }

    /** A click on (x, y) at time `now`: ignored when the grid is disabled or
        within 300 ms of the last accepted click; otherwise the ripple starts
        and exactly (x, y) goes to `onCellClick`. */
    method HandleCellClick(x: int, y: int, now: int, disabled: bool) returns (forwarded: Option<Coord>)
      requires Valid()
      modifies this
      ensures forwarded == (if !disabled && now - old(lastClickTime) >= ClickGuard then Some(Coord(x, y)) else None)
      ensures forwarded.Some? ==>
        lastClickTime == now && rippleCell == forwarded && clicked == old(clicked) + [forwarded.value]
      ensures forwarded.None? ==>
        lastClickTime == old(lastClickTime) && rippleCell == old(rippleCell) && clicked == old(clicked)
      ensures focusedCell == old(focusedCell) && hoveredCell == old(hoveredCell)
      ensures Valid()
    {
      if disabled {
        return None;
      }
      if now - lastClickTime < ClickGuard {
        return None;
      }
      lastClickTime := now;
      rippleCell := Some(Coord(x, y));
      clicked := clicked + [Coord(x, y)];
      forwarded := Some(Coord(x, y));
    }

    /** The ripple's timer goes off. */
    method HideRipple()
      modifies this
      ensures rippleCell == None && focusedCell == old(focusedCell) && lastClickTime == old(lastClickTime)
      ensures clicked == old(clicked)
    {
      rippleCell := None;
    }

    /** An arrow key at time `now` from cell (x, y): when the throttle lets
        it through, focus moves to the clamped neighbour. */
    method HandleArrowNav(key: string, x: int, y: int, now: int)
      requires Valid()
      modifies this, arrows
      ensures now - old(arrows.lastCall) >= ArrowInterval && ArrowStep(key, x, y).Some? ==>
        var c := ArrowStep(key, x, y).value;
        focusedCell == FocusCellAt(c.x, c.y, size)
      ensures now - old(arrows.lastCall) < ArrowInterval || ArrowStep(key, x, y).None? ==>
        focusedCell == old(focusedCell)
      ensures arrows.lastCall == (if now - old(arrows.lastCall) >= ArrowInterval then now else old(arrows.lastCall))
      ensures lastClickTime == old(lastClickTime) && rippleCell == old(rippleCell) && clicked == old(clicked)
      ensures hoveredCell == old(hoveredCell)
      ensures Valid()
    {
      var ran := arrows.Call(now);
      if ran {
        match ArrowStep(key, x, y)
        case Some(c) => focusedCell := FocusCellAt(c.x, c.y, size);
        case None =>
      }
    }

    /** A key pressed on cell (x, y): Enter and Space click it, the arrows
        navigate, any other key does nothing. */
    method HandleKeyDown(key: string, x: int, y: int, now: int, disabled: bool) returns (forwarded: Option<Coord>)
      requires Valid()
      modifies this, arrows
      ensures key == "Enter" || key == " " ==>
        && forwarded == (if !disabled && now - old(lastClickTime) >= ClickGuard then Some(Coord(x, y)) else None)
        && (forwarded.Some? ==>
              lastClickTime == now && rippleCell == forwarded && clicked == old(clicked) + [forwarded.value])
        && (forwarded.None? ==>
              lastClickTime == old(lastClickTime) && rippleCell == old(rippleCell) && clicked == old(clicked))
        && unchanged(arrows) && focusedCell == old(focusedCell)
      ensures ArrowStep(key, x, y).Some? ==>
        && forwarded == None && clicked == old(clicked)
        && lastClickTime == old(lastClickTime) && rippleCell == old(rippleCell)
        && arrows.lastCall == (if now - old(arrows.lastCall) >= ArrowInterval then now else old(arrows.lastCall))
        && (now - old(arrows.lastCall) >= ArrowInterval ==>
              var c := ArrowStep(key, x, y).value; focusedCell == FocusCellAt(c.x, c.y, size))
        && (now - old(arrows.lastCall) < ArrowInterval ==> focusedCell == old(focusedCell))
      ensures key != "Enter" && key != " " && ArrowStep(key, x, y).None? ==>
        forwarded == None && unchanged(this, arrows)
      ensures hoveredCell == old(hoveredCell)
      ensures Valid()
    {
      if key == "Enter" || key == " " {
        forwarded := HandleCellClick(x, y, now, disabled);
      } else if ArrowStep(key, x, y).Some? {
        HandleArrowNav(key, x, y, now);
        forwarded := None;
      } else {
        forwarded := None;
      }
    }

    /** A rendered cell receives focus: it becomes the focused and hovered
        cell. */
    method OnCellFocus(x: int, y: int)
      requires Valid() && InGrid(Coord(x, y), size)
      modifies this
      ensures focusedCell == Coord(x, y) && hoveredCell == Some(Coord(x, y))
      ensures lastClickTime == old(lastClickTime) && rippleCell == old(rippleCell) && clicked == old(clicked)
      ensures Valid()
    {
      focusedCell := Coord(x, y);
      hoveredCell := Some(Coord(x, y));
    }
  }
}
