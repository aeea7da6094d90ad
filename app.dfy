/**
 * The page's state and its event handlers: the theme on the root element,
 * the tab buttons and panels, the category tags and the selected category,
 * the user's card list and its stored copy, and the two card grids.
 */
module FlashQ {
  import opened Wrappers
  import opened Text
  import opened Theme
  import opened Cards
  import opened Filtering

  /** The two keys of the page's local storage. */
  datatype Storage = Storage(theme: Option<string>, myCards: StoredCards)

  /** `getElementById` over the tab panels: the first panel carrying that id. */
  function PanelIndex(ids: seq<string>, target: string): (r: Option<nat>)
    ensures r.None? <==> target !in ids
    ensures r.Some? ==> r.value < |ids| && ids[r.value] == target
    ensures r.Some? ==> forall j :: 0 <= j < r.value ==> ids[j] != target
  {
    if ids == [] then None
    else if ids[0] == target then Some(0)
    else match PanelIndex(ids[1..], target)
      case None => None
      case Some(k) => Some(k + 1)
  }

  /** `list.forEach(x => x.classList.remove('active'))` */
  method ClearActive(flags: array<bool>)
    modifies flags
    ensures forall j :: 0 <= j < flags.Length ==> !flags[j]
  {
    var k := 0;
    while k < flags.Length
      invariant 0 <= k <= flags.Length
      invariant forall j :: 0 <= j < k ==> !flags[j]
    {
      flags[k] := false;
      k := k + 1;
    }
  }

  /** A grid shows what a render of `v` puts there; an absent grid shows nothing. */
  ghost predicate GridShows(present: bool, emptyState: bool, cells: seq<Cell>, v: View) {
    if !present then !emptyState && cells == []
    else match v
      case Placeholder(_) => emptyState && cells == []
      case Units(us) => !emptyState && UnitsOf(cells) == us
  }

  class App {
    /** The `data-theme` attribute of the root element. */
    var theme: string
    /** The selected category, "all" at start. */
    var activeCategory: string
    /** The user's cards, in creation order. */
    var myCards: seq<Card>
    /** The page's local storage. */
    var store: Storage

    /** `data-tab` of each tab button, and which buttons are active. */
    const tabTargets: seq<string>
    const tabButtons: array<bool>
    /** `id` of each tab panel, and which panels are active. */
    const panelIds: seq<string>
    const panels: array<bool>
    /** `data-category` of each category tag, and which tags are active. */
    const tagCategories: seq<string>
    const tags: array<bool>

    /** The sample cards the public grid renders. */
    const publicCards: seq<Card>

    /** Whether the page has each grid element at all. */
    const hasMyGrid: bool
    const hasPublicGrid: bool
    /** Each grid: whether it shows its placeholder, and its rendered cards. */
    var myEmptyState: bool
    var myGrid: array<Cell>
    var publicEmptyState: bool
    var publicGrid: array<Cell>

    /**
     * The fixed shape of the page: one flag per element, distinct
     * collections, and a grid element that is missing holds nothing.
     */
    ghost predicate Wellformed()
      reads this
    {
      && tabButtons.Length == |tabTargets|
      && panels.Length == |panelIds|
      && tags.Length == |tagCategories|
      && tabButtons != panels && tabButtons != tags && panels != tags
      && myGrid != publicGrid
      && (!hasMyGrid ==> myGrid.Length == 0 && !myEmptyState)
      && (!hasPublicGrid ==> publicGrid.Length == 0 && !publicEmptyState)
    }

    /**
     * Storage mirrors memory (a reload would give back the same theme and
     * the same card list) and every rendered card obeys the selected category.
     */
    ghost predicate Coherent()
      reads this, myGrid, publicGrid
    {
      && Wellformed()
      && InitialTheme(store.theme) == theme
      && LoadMyCards(store.myCards) == Success(myCards)
      && Filtered(myGrid[..], activeCategory)
      && Filtered(publicGrid[..], activeCategory)
    }

    /** Coherent, and each grid shows the rendering of its list. */
    ghost predicate Valid()
      reads this, myGrid, publicGrid
    {
      && Coherent()
      && GridShows(hasMyGrid, myEmptyState, myGrid[..], RenderView(myCards, MyGrid))
      && GridShows(hasPublicGrid, publicEmptyState, publicGrid[..], RenderView(publicCards, PublicGrid))
    }

    /**
     * The script's top level: the theme and the card list are read from
     * storage and the selection is "all". The tab and tag flags are those of
     * the markup; the grids have not been rendered yet.
     */
    constructor (stored: Storage, tabTargets: seq<string>, initialTabs: seq<bool>,
                 panelIds: seq<string>, initialPanels: seq<bool>,
                 tagCategories: seq<string>, initialTags: seq<bool>,
                 hasMyGrid: bool, hasPublicGrid: bool)
      requires LoadMyCards(stored.myCards).Success?
      requires |initialTabs| == |tabTargets| && |initialPanels| == |panelIds| && |initialTags| == |tagCategories|
      ensures Coherent()
      ensures theme == InitialTheme(stored.theme) && activeCategory == All
      ensures myCards == LoadMyCards(stored.myCards).value && store == stored
      ensures publicCards == PublicCards
      ensures this.tabTargets == tabTargets && this.panelIds == panelIds && this.tagCategories == tagCategories
      ensures this.hasMyGrid == hasMyGrid && this.hasPublicGrid == hasPublicGrid
      ensures tabButtons[..] == initialTabs && panels[..] == initialPanels && tags[..] == initialTags
      ensures myGrid.Length == 0 && publicGrid.Length == 0
      ensures fresh(tabButtons) && fresh(panels) && fresh(tags) && fresh(myGrid) && fresh(publicGrid)
    {
      theme := InitialTheme(stored.theme);
      activeCategory := All;
      myCards := LoadMyCards(stored.myCards).value;
      store := stored;
      this.tabTargets := tabTargets;
      this.panelIds := panelIds;
      this.tagCategories := tagCategories;
      publicCards := PublicCards;
      tabButtons := new bool[|initialTabs|](i requires 0 <= i < |initialTabs| => initialTabs[i]);
      panels := new bool[|initialPanels|](i requires 0 <= i < |initialPanels| => initialPanels[i]);
      tags := new bool[|initialTags|](i requires 0 <= i < |initialTags| => initialTags[i]);
      this.hasMyGrid := hasMyGrid;
      this.hasPublicGrid := hasPublicGrid;
      myEmptyState, publicEmptyState := false, false;
      myGrid := new Cell[0];
      publicGrid := new Cell[0];
    }

    /** The `DOMContentLoaded` handler: both grids are rendered, the user's first. */
    method OnContentLoaded()
      requires Coherent()
      modifies this`myEmptyState, this`myGrid, this`publicEmptyState, this`publicGrid, myGrid, publicGrid
      ensures Valid()
      ensures hasMyGrid && myCards != [] ==>
        myGrid[..] == Filter(FreshCells(RenderUnits(myCards)), activeCategory)
      ensures hasPublicGrid && publicCards != [] ==>
        publicGrid[..] == Filter(FreshCells(RenderUnits(publicCards)), activeCategory)
    {
      RenderMyCards();
      RenderPublicCards();
    }

    /** The theme toggle's click handler. */
    method ToggleTheme()
      requires Coherent()
      modifies this`theme, this`store
      ensures Coherent()
      ensures old(Valid()) ==> Valid()
      ensures theme == Toggled(old(theme))
      ensures theme == "light" || theme == "dark"
      ensures store == old(store).(theme := Some(theme))
    {
      var newTheme := Toggled(theme);
      theme := newTheme;
      store := store.(theme := Some(newTheme));
    }

    /**
     * A tab button's click handler: every button and panel loses `active`,
     * then the clicked button and the first panel whose id is its `data-tab`
     * gain it. `found` is false when no panel has that id: then either no
     * element of the document has it and the script fails after the buttons
     * are updated, or some element outside the panels has it and gains
     * `active`; such elements carry no flag here. Panel ids are taken to be
     * non-empty and shared with no element outside the panels.
     */
    method SwitchTab(i: nat) returns (found: bool)
      requires Coherent() && i < tabButtons.Length
      modifies tabButtons, panels
      ensures Coherent()
      ensures old(Valid()) ==> Valid()
      ensures forall j :: 0 <= j < tabButtons.Length ==> tabButtons[j] == (j == i)
      ensures forall k :: 0 <= k < panels.Length ==> panels[k] == (PanelIndex(panelIds, tabTargets[i]) == Some(k))
      ensures found <==> tabTargets[i] in panelIds
    {
      var target := tabTargets[i];
      ClearActive(tabButtons);
      ClearActive(panels);
      tabButtons[i] := true;
      var at := PanelIndex(panelIds, target);
      found := at.Some?;
      if at.Some? {
        panels[at.value] := true;
      }
    }

    /** `filterCards(selected)`: the visibility rule over the cards of both grids. */
    method FilterCards(selected: string)
      requires Wellformed()
      modifies myGrid, publicGrid
      ensures myGrid[..] == Filter(old(myGrid[..]), selected)
      ensures publicGrid[..] == Filter(old(publicGrid[..]), selected)
    {
      ApplyFilter(myGrid, selected);
      ApplyFilter(publicGrid, selected);
    }

    /**
     * A category tag's click handler: exactly the clicked tag is active, the
     * selection becomes its `data-category`, and both grids are re-filtered.
     */
    method SelectCategory(i: nat)
      requires Coherent() && i < tags.Length
      modifies tags, this`activeCategory, myGrid, publicGrid
      ensures Coherent()
      ensures old(Valid()) ==> Valid()
      ensures forall j :: 0 <= j < tags.Length ==> tags[j] == (j == i)
      ensures activeCategory == tagCategories[i]
      ensures myGrid[..] == Filter(old(myGrid[..]), activeCategory)
      ensures publicGrid[..] == Filter(old(publicGrid[..]), activeCategory)
    {
      ClearActive(tags);
      tags[i] := true;
      activeCategory := tagCategories[i];
      FilterCards(activeCategory);
      FilterEstablishes(old(myGrid[..]), activeCategory);
      FilterEstablishes(old(publicGrid[..]), activeCategory);
      FilterKeepsUnits(old(myGrid[..]), activeCategory);
      FilterKeepsUnits(old(publicGrid[..]), activeCategory);
    }

    /**
     * `renderMyCards`: nothing without the grid element; the placeholder for
     * an empty list; otherwise one fresh card per record, then the current
     * filter over both grids.
     */
    method RenderMyCards()
      requires Coherent()
      modifies this`myEmptyState, this`myGrid, publicGrid
      ensures Coherent()
      ensures GridShows(hasMyGrid, myEmptyState, myGrid[..], RenderView(myCards, MyGrid))
      ensures hasMyGrid && myCards != [] ==>
        myGrid[..] == Filter(FreshCells(RenderUnits(myCards)), activeCategory)
      ensures hasMyGrid ==> fresh(myGrid)
      ensures !hasMyGrid ==> myGrid == old(myGrid) && myEmptyState == old(myEmptyState)
      ensures publicGrid[..] == old(publicGrid[..])
    {
      if !hasMyGrid {
        return;
      }
      var view := RenderView(myCards, MyGrid);
      if view.Placeholder? {
        myEmptyState := true;
        myGrid := new Cell[0];
        return;
      }
      var cells := FreshCells(view.units);
      myEmptyState := false;
      myGrid := new Cell[|cells|](i requires 0 <= i < |cells| => cells[i]);
      assert myGrid[..] == cells;
      FilterCards(activeCategory);
      FilterEstablishes(cells, activeCategory);
      FilterEstablishes(old(publicGrid[..]), activeCategory);
      FilterKeepsUnits(cells, activeCategory);
    }

    /** `renderPublicCards`: the same template over the sample cards. */
    method RenderPublicCards()
      requires Coherent()
      modifies this`publicEmptyState, this`publicGrid, myGrid
      ensures Coherent()
      ensures GridShows(hasPublicGrid, publicEmptyState, publicGrid[..], RenderView(publicCards, PublicGrid))
      ensures hasPublicGrid ==>
        publicGrid[..] == Filter(FreshCells(RenderUnits(publicCards)), activeCategory)
      ensures hasPublicGrid ==> fresh(publicGrid)
      ensures !hasPublicGrid ==> publicGrid == old(publicGrid) && publicEmptyState == old(publicEmptyState)
      ensures myGrid[..] == old(myGrid[..])
    {
      if !hasPublicGrid {
        return;
      }
      var view := RenderView(publicCards, PublicGrid);
      if view.Placeholder? {
        publicEmptyState := true;
        publicGrid := new Cell[0];
        return;
      }
      var cells := FreshCells(view.units);
      publicEmptyState := false;
      publicGrid := new Cell[|cells|](i requires 0 <= i < |cells| => cells[i]);
      assert publicGrid[..] == cells;
      FilterCards(activeCategory);
      FilterEstablishes(cells, activeCategory);
      FilterEstablishes(old(myGrid[..]), activeCategory);
      FilterKeepsUnits(cells, activeCategory);
    }

    /**
     * The card form's submit handler: the new record goes at the end of the
     * list, the whole list is written to storage, and the user's grid is
     * rendered again. `now` and `isoNow` are the clock's two readings.
     */
    method CreateCard(category: string, question: string, answer: string, now: int, isoNow: string)
      requires Valid()
      modifies this`myCards, this`store, this`myEmptyState, this`myGrid, publicGrid
      ensures Valid()
      ensures myCards == old(myCards) + [NewCard(category, question, answer, now, isoNow)]
      ensures store == old(store).(myCards := CardArray(myCards))
      ensures LoadMyCards(store.myCards) == Success(myCards)
      ensures hasMyGrid ==>
        !myEmptyState && UnitsOf(myGrid[..]) == old(UnitsOf(myGrid[..])) + [UnitOf(NewCard(category, question, answer, now, isoNow))]
      ensures publicGrid[..] == old(publicGrid[..])
    {
      var card := NewCard(category, question, answer, now, isoNow);
      ghost var shown := UnitsOf(myGrid[..]);
      assert hasMyGrid ==> shown == RenderUnits(myCards);
      myCards := myCards + [card];
      store := store.(myCards := CardArray(myCards));
      RenderMyCards();
      RenderAppend(old(myCards), card);
      assert hasMyGrid ==> UnitsOf(myGrid[..]) == RenderUnits(myCards);
    }
  }
}
