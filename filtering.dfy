/**
 * The category filter: a per-card visibility rule and `filterCards`, which
 * applies it to every rendered card of both grids and only sets the card's
 * display flag.
 */
module Filtering {
  import opened Cards

  /** The sentinel category that shows every card. */
  const All: string := "all"

  /** A card is shown iff the selected category is "all" or equals the card's `data-category`. */
  function Shows(selected: string, cardCategory: string): (shown: bool)
    ensures selected == All ==> shown
    ensures selected != All ==> (shown <==> cardCategory == selected)
  {
    selected == All || cardCategory == selected
  }

  /** A rendered card in a grid with its display flag (`block` is true, `none` false). */
  datatype Cell = Cell(unit: Unit, visible: bool)

  /** A freshly rendered unit carries no display style, so it is shown. */
  function FreshCells(us: seq<Unit>): (cells: seq<Cell>)
    ensures |cells| == |us| && UnitsOf(cells) == us
    ensures forall i :: 0 <= i < |us| ==> cells[i].visible
  {
    if us == [] then [] else [Cell(us[0], true)] + FreshCells(us[1..])
  }

  /** The rendered units of a grid, without their display flags. */
  function UnitsOf(cells: seq<Cell>): (us: seq<Unit>)
    ensures |us| == |cells|
    ensures forall i :: 0 <= i < |cells| ==> us[i] == cells[i].unit
  {
    if cells == [] then [] else [cells[0].unit] + UnitsOf(cells[1..])
  }

  /** Every flag of the grid agrees with the rule for `selected`. */
  predicate Filtered(cells: seq<Cell>, selected: string) {
    forall i :: 0 <= i < |cells| ==> cells[i].visible == Shows(selected, cells[i].unit.category)
  }

  /** What one pass of `filterCards(selected)` leaves in a grid. */
  function Filter(cells: seq<Cell>, selected: string): (r: seq<Cell>)
    ensures |r| == |cells|
    ensures forall i :: 0 <= i < |cells| ==>
      r[i].unit == cells[i].unit && r[i].visible == Shows(selected, cells[i].unit.category)
  {
    if cells == [] then []
    else [Cell(cells[0].unit, Shows(selected, cells[0].unit.category))] + Filter(cells[1..], selected)
  }

  /** After a pass every flag follows the rule, and a grid that already does is left as it is. */
  lemma FilterEstablishes(cells: seq<Cell>, selected: string)
    ensures Filtered(Filter(cells, selected), selected)
    ensures Filtered(cells, selected) <==> Filter(cells, selected) == cells
  {
    if Filter(cells, selected) == cells {
      assert Filtered(cells, selected);
    }
  }

  /** The pass reads only the selection and each card's category, never the flag it had. */
  lemma FilterIgnoresPreviousFlags(a: seq<Cell>, b: seq<Cell>, selected: string)
    requires UnitsOf(a) == UnitsOf(b)
    ensures Filter(a, selected) == Filter(b, selected)
  {
    assert |a| == |UnitsOf(a)| == |UnitsOf(b)| == |b|;
    forall i | 0 <= i < |a|
      ensures Filter(a, selected)[i] == Filter(b, selected)[i]
    {
      assert a[i].unit == UnitsOf(a)[i] == UnitsOf(b)[i] == b[i].unit;
    }
  }

  /** The last selection alone decides visibility; in particular a pass is idempotent. */
  lemma FilterLastWins(cells: seq<Cell>, first: string, second: string)
    ensures Filter(Filter(cells, first), second) == Filter(cells, second)
    ensures Filter(Filter(cells, second), second) == Filter(cells, second)
  {
    FilterKeepsUnits(cells, first);
    FilterKeepsUnits(cells, second);
    FilterIgnoresPreviousFlags(Filter(cells, first), cells, second);
    FilterIgnoresPreviousFlags(Filter(cells, second), cells, second);
  }

  /** A pass changes only display flags: the rendered units are untouched. */
  lemma FilterKeepsUnits(cells: seq<Cell>, selected: string)
    ensures UnitsOf(Filter(cells, selected)) == UnitsOf(cells)
  {
  }

  /**
   * Rendering under the old selection and then selecting gives the same
   * grid as selecting first and then rendering under the new selection.
   */
  lemma RenderSelectCommute(cards: seq<Card>, previous: string, selected: string)
    ensures Filter(Filter(FreshCells(RenderUnits(cards)), previous), selected)
         == Filter(FreshCells(RenderUnits(cards)), selected)
  {
    FilterLastWins(FreshCells(RenderUnits(cards)), previous, selected);
  }

  /** `filterCards`' loop over one grid: set each card's flag from the rule. */
  method ApplyFilter(cells: array<Cell>, selected: string)
    modifies cells
    ensures cells[..] == Filter(old(cells[..]), selected)
  {
    var k := 0;
    while k < cells.Length
      invariant 0 <= k <= cells.Length
      invariant forall j :: 0 <= j < k ==>
        cells[j] == Cell(old(cells[j]).unit, Shows(selected, old(cells[j]).unit.category))
      invariant forall j :: k <= j < cells.Length ==> cells[j] == old(cells[j])
    {
      var cardCategory := cells[k].unit.category;
      if Shows(selected, cardCategory) {
        cells[k] := cells[k].(visible := true);
      } else {
        cells[k] := cells[k].(visible := false);
      }
      k := k + 1;
    }
  }
}
