# Flash-Q: a verified model of the flashcard page's state

Flash-Q is a single-page flashcard study tool. It runs as one browser script,
`Flash-Q/script.js`. Underneath the DOM wiring it keeps a small state machine:

- a colour theme that is read from storage and toggled between "light" and "dark";
- a selected category (`activeCategory`, "all" at start) that decides which rendered cards are shown;
- the user's own cards (`myCards`), which only ever grow and are mirrored into storage key `myCards`;
- tab buttons and panels, and category tags, of which one is made active by a click;
- two grids, one for the user's cards and one for five built-in sample cards.

A grid is rendered from a card list. An empty list gives a placeholder. A
non-empty list gives one card unit per record. Each unit has a capitalised
category heading, and a question face and an answer face whose text passes
through `escapeHtml`.

This Dafny project models that state and proves what the script promises about it.

- `wrappers.dfy` (module `Wrappers`): `Option` and `Result`.
- `text.dfy` (module `Text`): `capitalizeFirst` and `escapeHtml` as string functions. Beside them is `UnescapeHtml`, which reads escaped text back as text.
- `theme.dfy` (module `Theme`): the start-up read of the theme and the toggle rule.
- `cards.dfy` (module `Cards`): the card record and the stored `myCards` value with its start-up read. Also the new-card record, the sample cards, and the templating of a list into grid units.
- `filtering.dfy` (module `Filtering`): the visibility rule, and `Filter`, which gives a grid's contents after one pass of `filterCards`. `ApplyFilter` is that pass's loop over an array of cells.
- `app.dfy` (module `FlashQ`): class `App`. Its fields hold the module-level state (`theme`, `activeCategory`, `myCards`) and the local storage (`store`). Arrays of flags hold the tab buttons, panels and category tags. Arrays of cells hold the two grids, each cell a unit with its display flag. The click and submit handlers are methods with `modifies` clauses. `Valid()` is the invariant every handler keeps:
  - storage mirrors memory, so a reload would give back the same theme and the same card list;
  - every rendered card's display flag follows the selected category;
  - each grid shows exactly the rendering of its list.

Each handler's clock readings (`Date.now()`, `new Date().toISOString()`) are method parameters. Local storage is the abstract value `Storage`.

Three behaviours of the script are modelled as written:

- A stored `myCards` value that is not JSON is not read as an empty list. `JSON.parse` throws at `Flash-Q/script.js:119`. `Cards.LoadMyCards` returns `Failure` for it, and an `App` exists only when that read succeeds.
- A stored theme is not limited to "light" and "dark". Any non-empty stored string is used as it is. An empty string falls back to "light", like an absent one.
- Card ids are not claimed unique. Nothing in the code enforces it.

## Model

| member | source | states |
|---|---|---|
| `Theme.InitialTheme` | Flash-Q/script.js:6 | with no stored theme, or an empty one, the theme is "light"; any other stored string is used unchanged; the result is never empty |
| `Theme.Toggled` | Flash-Q/script.js:12-15 | the toggle always yields "light" or "dark", and yields "dark" exactly when the current theme is "light" |
| `Theme.ToggleTwice` | Flash-Q/script.js:13 | from "light" (or "dark") two toggles give the start value back |
| `Theme.ToggleAlternates` | Flash-Q/script.js:13 | from any start value, after the first toggle every further toggle changes the theme and every second one restores it |
| `Theme.ToggledSurvivesReload` | Flash-Q/script.js:6-15 | a theme the toggle persisted is read back unchanged at the next start-up |
| `FlashQ.App.ToggleTheme` | Flash-Q/script.js:11-16 | the theme becomes the toggle of the old one, is "light" or "dark", is written to storage key `theme`, and the invariant (including "a reload gives the same theme") is kept |
| `FlashQ.PanelIndex` | Flash-Q/script.js:41 | the lookup finds a panel exactly when some panel has the id, and then the first such panel |
| `FlashQ.ClearActive` | Flash-Q/script.js:36-37 | after the pass no element of the collection is active |
| `FlashQ.App.SwitchTab` | Flash-Q/script.js:32-42 | afterwards exactly one tab button, the clicked one, is active; a panel is active iff it is the first panel whose id is the button's `data-tab`; `found` tells whether some panel has that id |
| `FlashQ.App.SelectCategory` | Flash-Q/script.js:50-62 | afterwards exactly one tag, the clicked one, is active; the selection equals that tag's `data-category`; both grids are re-filtered by it |
| `FlashQ.App.FilterCards` | Flash-Q/script.js:65-79 | the rule is applied to every card of both grids: each grid becomes `Filter` of its previous contents |
| `Filtering.Shows` | Flash-Q/script.js:73 | with selection "all" every card is shown; otherwise a card is shown iff its category equals the selection |
| `Filtering.ApplyFilter` | Flash-Q/script.js:71-78 | the loop leaves the grid equal to `Filter` of what it held |
| `Filtering.Filter` | Flash-Q/script.js:71-78 | after a pass each card is visible iff the selection is "all" or equals its category; its unit is unchanged, and so is the number of cards |
| `Filtering.FilterEstablishes` | Flash-Q/script.js:71-78 | after a pass every flag obeys the rule; a grid whose flags already obey it is left exactly as it was |
| `Filtering.FilterIgnoresPreviousFlags` | Flash-Q/script.js:72-73 | the pass reads only the selection and each card's category: two grids with the same units end up identical whatever flags they had |
| `Filtering.FilterLastWins` | Flash-Q/script.js:71-78 | two passes give the result of the last alone; in particular a pass is idempotent |
| `Filtering.FilterKeepsUnits` | Flash-Q/script.js:74-76 | a pass changes only display flags, never the rendered units |
| `Filtering.FreshCells` | Flash-Q/script.js:171-186 | freshly rendered cards carry exactly the rendered units and are all shown until the filter runs |
| `Filtering.RenderSelectCommute` | Flash-Q/script.js:191-192 | rendering under the old selection and then selecting gives the same grid as selecting first and then rendering |
| `Cards.LoadMyCards` | Flash-Q/script.js:119 | the start-up read fails exactly on text that is not JSON; a stored array is taken as it is; an absent or falsy value gives the empty list |
| `Cards.NewCard` | Flash-Q/script.js:129-135 | the new record has the clock reading as id, the ISO time as `createdAt`, and the three form fields unchanged |
| `FlashQ.App.CreateCard` | Flash-Q/script.js:122-143 | exactly one record is appended with the given fields and the earlier ones are unchanged; storage then holds the whole list, and reading it back gives that list; the user's grid gains exactly one unit at the end and the public grid is unchanged |
| `FlashQ.App.constructor` | Flash-Q/script.js:6-119 | the theme comes from storage, the selection is "all", the card list is the stored one, and storage and memory agree |
| `FlashQ.App.OnContentLoaded` | Flash-Q/script.js:338-341 | after the load handler both grids show the rendering of their lists, filtered by the selection |
| `FlashQ.App.RenderMyCards` | Flash-Q/script.js:153-193 | with no grid element nothing changes; an empty list shows the placeholder and no cards; otherwise one card per record in list order, filtered by the current selection, and the other grid is unchanged |
| `FlashQ.App.RenderPublicCards` | Flash-Q/script.js:229-269 | the same for the sample list and the public grid |
| `Cards.UnitOf` | Flash-Q/script.js:171-186 | a unit carries its card's category and id and the capitalised category on both faces; each face's text has no `<` or `>` and reads back as the card's question or answer |
| `Cards.RenderUnits` | Flash-Q/script.js:171-186 | one unit per card, in the list's order, each the template of that card |
| `Cards.RenderView` | Flash-Q/script.js:158-186 | the placeholder appears exactly for an empty list; otherwise the grid holds the units of the list |
| `Cards.RenderAppend` | Flash-Q/script.js:137-140 | appending a card to the list appends exactly its unit to the rendering, leaving the earlier units as they were |
| `Cards.RenderedTextIsEscaped` | Flash-Q/script.js:177-182 | every rendered question and answer has no tag delimiter and reads back as the card's own text |
| `Cards.PublicCardsContents` | Flash-Q/script.js:196-227 | the sample list has five cards numbered 1 to 5, with categories science, math, programming, history and language, and no creation time |
| `Cards.PublicGridShowsFiveUnits` | Flash-Q/script.js:196-245 | the sample list is never empty, so its grid shows five units and never its placeholder |
| `Text.CapitalizeFirst` | Flash-Q/script.js:327-329 | the empty string maps to itself; otherwise the length is kept, the first character is upper-cased and the rest is unchanged |
| `Text.CapitalizeFirstIdempotent` | Flash-Q/script.js:327-329 | capitalising a capitalised heading changes nothing |
| `Text.EscapeChar` | Flash-Q/script.js:331-335 | each of `&`, U+00A0, `<`, `>` becomes a character reference starting with `&`; every other character stays itself |
| `Text.EscapeHtml` | Flash-Q/script.js:331-335 | the escaped text contains no `<` and no `>`, and is never shorter than the input |
| `Text.EscapeRoundTrip` | Flash-Q/script.js:331-335 | reversing the four replacements gives back exactly the input |
| `Text.EscapePlainText` | Flash-Q/script.js:331-335 | text without any of the four characters is put into markup unchanged |
| `Text.EscapeConcat` | Flash-Q/script.js:331-335 | escaping works character by character, so it distributes over concatenation |

## Left out

- Local storage and JSON are not modelled as text. `Storage` holds the two keys as values. The stored card array is the list of records it parses to.
- `Cards.LoadMyCards`: stored JSON that parses to a truthy value other than an array is not distinguished. The script would keep that value and fail on first use. That case is not modelled.
- `FlashQ.App.constructor`: requires the stored card list to parse. When it does not, the script stops at `Flash-Q/script.js:119`. The handlers registered before that line stay active on a page without a card form or rendering. That degraded page is not modelled.
- `Text.CapitalizeFirst`: upper-cases ASCII letters only. `toUpperCase` uses Unicode's case mapping, which does not depend on the locale. It also upper-cases non-ASCII letters (`é` becomes `É`) and can change the length (`ß` becomes `SS`). Neither is modelled.
- The clock is not modelled. `Date.now()` and the ISO timestamp are parameters of `FlashQ.App.CreateCard`, so ids are not claimed unique.
- The card modal's open, close and backdrop handlers and the form reset are not modelled. They only toggle a CSS class and clear form fields (`Flash-Q/script.js:81-115`, 141-150).
- The flip listeners are not modelled (`Flash-Q/script.js:316-324`). Each render attaches another click handler to every card in the document, including the other grid's. No flip property is claimed.
- Login, signup and the "let's go" redirect are not modelled (`Flash-Q/script.js:20-25`, 271-314). They only log, alert and navigate.
- Markup text is not modelled: templates, SVG placeholders and CSS class names are abstracted to `Unit`, `View` and boolean flags.
- `data-category` and `data-id` are written into attributes unescaped. The model reads the category back exactly as written, which holds only when the category contains no `"` and no `&`. The capitalised category is also put into both heading spans unescaped; `Face.heading` is that raw string, and the page displays it as written only when the category contains no `<` and no `&`. The escaping property covers only question and answer text.
- `Text.UnescapeHtml` reads back only the four character references `escapeHtml` produces. It is not the browser's full character-reference decoder. The browser also parses the template again when it is assigned to `innerHTML` (`Flash-Q/script.js:171`, 247). That parse turns CR and CRLF into LF and drops U+0000, so in the page a question or answer reads back unchanged only when it holds no CR and no U+0000.
- Handlers whose element is missing from the page are not modelled: the script never attaches them. The methods model the handlers of elements that exist. A missing grid element is modelled, because the render functions check for it.
- `FlashQ.App.SwitchTab`: `getElementById` searches the whole document, not only the panels. `found == false` covers two cases. When no element has the clicked button's `data-tab`, the script throws after updating the buttons. When an element other than a panel has it, that element is made active and nothing throws. Active flags of elements other than panels are not modelled; the model leaves no panel active in both cases. The model also assumes that panel ids are non-empty and that no other element shares a panel's id. Two cases fall outside it. When a non-panel element earlier in the document has a panel's id, the script activates that element and no panel, while the model activates the panel. When a panel has no `id` and a button has `data-tab=""`, the script throws because `getElementById("")` returns null, while the model activates that panel.
- Storage writes are assumed to succeed. `localStorage.setItem` can throw, for example when the quota is full. At `Flash-Q/script.js:138` the card is then already in memory (line 137) but not stored, and neither `renderMyCards` nor the modal close is reached, so storage and grid no longer mirror the list. At line 15 the theme attribute has already changed but is not stored.
