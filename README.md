# Page controller of `10_java.js`, modelled in Dafny

`10_java.js` drives one static page. It has two toggleable panels: the filter menu
(`#filterContent`) and the add-article form (`#newContent`). Three checkboxes show
or hide article cards by category. A form creates new cards. This project
replaces the document with an explicit state record and models each event handler
as a deterministic transition on it:

- `text.dfy` (module `Text`): `String.prototype.trim` over the full ECMAScript
  WhiteSpace and LineTerminator set. The trimming functions and their lemmas are
  stated for any white-space test `ws`, and `Trim` applies them with `IsSpace`.
- `numerals.dfy` (module `Numerals`): how a template literal renders a
  non-negative number (`${n}`), with its inverse. Card ids are built from it.
- `page_model.dfy` (module `PageModel`): the state as values and the pure
  transitions:
  - the two-panel toggler (`AfterShowFilter`, `AfterShowAddNew`, `AfterClicks`);
  - the checkbox filter (`FilterCard`, `Filtered`);
  - the radio and label helpers (`SelectedType`, `PrettyType`);
  - validation (`Validate`) and the card appended by `addNewArticle` (`NewCard`,
    `AppendArticle`);
  - the lemmas about all of these.
- `page_controller.dfy` (module `PageController`): class `Page`. Its fields are
  the panel displays, the three checkboxes, the card list, the two text inputs and
  the `articleType` radios. Each handler is a method that changes only the fields
  it names in `modifies`. Each method is proved against the `PageModel` function
  that specifies it. The constructor is the page as loaded followed by the
  `DOMContentLoaded` handler.
- `scenarios.dfy` (module `Scenarios`): client methods. They drive the handlers
  through toggling, unchecking and rechecking a box, and submitting without a
  title, and assert what the contracts let a caller conclude.

Display values are kept as strings, because the source compares against
`'none'` and a card may carry any display. `IsVisible(d)` is the source's test
`d !== 'none'`. A created card has no inline display yet, so its `display` is `""`.

Three points of the code that the model reproduces as written:

- The code does not restrict a card's class to three values. It uses whatever
  value the checked radio has as the class (line 108), labels anything other than
  `opinion`/`recipe` as `Update` (lines 83-87), and its filter leaves a card of an
  unknown class untouched (lines 67-73). `AppendArticleShape` states that last case.
- A card may carry several of the three classes; the first one present decides, in
  the order opinion, recipe, update (lines 67-73). `CategoryOf` and `FilteredCards`
  state that order.
- `getSelectedType` can return the empty string when a radio's value is `""`.
  The test `!type` rejects it just like `null`, so `HasType` requires the value
  to be present and non-empty.

## Model

| member | source | states |
|---|---|---|
| `Text.IsSpace` | 10_java.js:96-97 | the ECMAScript WhiteSpace and LineTerminator code points that `.trim()` removes (a definition, used by `Trim`) |
| `Text.Trim` | 10_java.js:96-97 | `.trim()`: the result is empty exactly when the value is all white space, and otherwise starts and ends with a non-space; `TrimIsInfix` and `TrimUnique` (stated for any white-space test) pin it down completely |
| `Text.TrimBoth` | 10_java.js:96-97 | the trimmed value is empty or starts and ends with a non-space character |
| `Text.TrimIsInfix` | 10_java.js:96-97 | trimming keeps a slice `s[i..j]` and removes only a white-space prefix and a white-space suffix |
| `Text.TrimUnique` | 10_java.js:96-97 | the trimmed value is the only slice that has white-space margins and non-space ends (an independent definition of trim) |
| `Text.TrimEmptyIff` | 10_java.js:100-102 | trimming gives `""` exactly when the whole field is white space, which is when a required field is reported missing |
| `Text.TrimIdempotent` | 10_java.js:96-97 | trimming an already trimmed value changes nothing |
| `Text.TrimStart` | 10_java.js:96-97 | removing leading white space leaves a suffix that is empty or starts with a non-space |
| `Text.TrimEnd` | 10_java.js:96-97 | removing trailing white space leaves a prefix that is empty or ends with a non-space |
| `Numerals.Decimal` | 10_java.js:109 | `${n}` is a non-empty string of digits with no leading zero unless `n` is 0 |
| `Numerals.ValueOfDecimal` | 10_java.js:109 | reading the rendered numeral back gives `n` (the round trip) |
| `Numerals.DecimalInjective` | 10_java.js:109 | different card numbers render differently |
| `PageModel.AfterShowFilter` | 10_java.js:35-43 | showFilter always hides the add panel and flips the filter panel's visibility, showing it as `block`; afterwards at most one panel is visible |
| `PageModel.AfterShowAddNew` | 10_java.js:47-55 | showAddNew always hides the filter panel and flips the add panel's visibility, showing it as `flex`; afterwards at most one panel is visible |
| `PageModel.IsVisible` | 10_java.js:39 | the `display !== 'none'` test of showFilter and showAddNew (line 51); the contracts of `AfterShowFilter` and `AfterShowAddNew` are stated with it |
| `PageModel.AfterClick` | 10_java.js:145-146 | one click on `#filterButton` runs showFilter and one on `#addButton` runs showAddNew; specified by the contracts of `AfterShowFilter` and `AfterShowAddNew` |
| `PageModel.AfterClicks` | 10_java.js:145-146 | the panels after a sequence of clicks, each handler run to completion in turn; `ClicksKeepAtMostOne` and `AfterClicksAppend` are its properties |
| `PageModel.AfterClicksAppend` | 10_java.js:145-146 | running clicks `a` and then clicks `b` gives the same panels as running `a + b` |
| `PageModel.ClicksKeepAtMostOne` | 10_java.js:33-55 | from a state with at most one visible panel, any sequence of Filter/Add clicks keeps at most one visible |
| `PageModel.ClicksFromInit` | 10_java.js:141-146 | from `InitPanels`, the state lines 142-143 leave (both panels hidden), at most one panel is visible after any sequence of clicks |
| `PageModel.FilterTwice` | 10_java.js:35-43 | two Filter clicks restore the filter panel's visibility and leave the add panel hidden |
| `PageModel.FilterTwiceFromInit` | 10_java.js:142-143 | two Filter clicks on the initial page return it to the initial state |
| `PageModel.CategoryOf` | 10_java.js:67-73 | the category governing a card is its first recognised class, tested in the order opinion, recipe, update; there is none exactly when no such class is present |
| `PageModel.FilterCard` | 10_java.js:66-74 | one step of the `forEach`: a card of category `k` gets display `block`/`none` after box `k`, one with no recognised class is left as it is; `FilteredCards` states it per card |
| `PageModel.Filtered` | 10_java.js:60-75 | filterArticles as a function of the cards and the three checkboxes; `FilteredCards`, `FilteredIdempotent`, `RefilterOverrides`, `UncheckOne` and `FilteredAppend` are its properties, and `Page.FilterArticles` is proved equal to it |
| `PageModel.FilteredCards` | 10_java.js:60-75 | the filter keeps length, order and every field but display; each card's display is `block`/`none` after the checkbox of its category; a card with no recognised class keeps its display |
| `PageModel.FilteredIdempotent` | 10_java.js:60-75 | filtering twice with unchanged checkboxes equals filtering once |
| `PageModel.RefilterOverrides` | 10_java.js:60-75 | a later filter pass overrides any earlier one: only the current checkboxes matter |
| `PageModel.UncheckOne` | 10_java.js:148-150 | unchecking one box hides exactly the previously visible cards of that category and changes no other card; re-checking restores the previous list |
| `PageModel.FilteredAppend` | 10_java.js:132-138 | filtering a list with a card appended equals filtering the list and appending the filtered card |
| `PageModel.FirstChecked` | 10_java.js:79 | the first checked radio in document order, or none |
| `PageModel.SelectedType` | 10_java.js:78-81 | `null` exactly when no radio is checked; otherwise the value of the first checked radio in document order, as `querySelector` returns it |
| `PageModel.SelectedTypeOfGroup` | 10_java.js:78-81 | in a radio group with radio `k` checked, the selected type is radio `k`'s value |
| `PageModel.HasType` | 10_java.js:101 | the `!type` test passes only for a present, non-empty type; `Validate` reports `MissingType` exactly when it fails |
| `PageModel.PrettyType` | 10_java.js:83-87 | `Opinion` exactly for `opinion`, `Recipe` exactly for `recipe`, `Update` for every other string |
| `PageModel.Unchecked` | 10_java.js:136 | the radios after the reset loop; `UncheckedClearsSelection` states its meaning and `Page.ClearTypes` is proved equal to it |
| `PageModel.UncheckedClearsSelection` | 10_java.js:136 | the radio reset keeps every radio's value and leaves no type selected |
| `PageModel.Validate` | 10_java.js:96-102 | title, type and body are checked in that order and the first failure is reported (each error iff its condition and the earlier ones); on success the form is the selected non-empty type with the non-empty trimmed title and body |
| `PageModel.CardId` | 10_java.js:109 | the id `` `a${nextNum}` ``; `CardIdInjective` shows different numbers give different ids |
| `PageModel.CardIdInjective` | 10_java.js:109 | two card numbers with the same id are equal |
| `PageModel.NewCard` | 10_java.js:107-130 | the `<article>` built from a validated form; `AppendArticleShape` states each of its fields |
| `PageModel.AppendArticle` | 10_java.js:104-138 | the card list after a successful addNewArticle: append the new card with number `length + 1`, then filter; `AppendArticleShape` states its shape and `Page.AddNewArticle` is proved to produce it |
| `PageModel.AppendArticleShape` | 10_java.js:104-138 | success appends exactly one card at the end and re-filters the old ones; the new card has class `type`, id `a<old length + 1>`, marker `prettyType(type)`, the trimmed title and body, and the link `moreDetails.html`/`Read more...`; it is shown iff its type's box is checked, and a card of an unknown type keeps its unset display |
| `PageModel.AppendKeepsSequentialIds` | 10_java.js:105-109 | if the cards are numbered `a1..an`, they stay so after an addition |
| `PageModel.AddMany` | 10_java.js:104-138 | the card list after several successful additions in turn; `AddManyKeepsIds` and `KthAddedId` are its properties |
| `PageModel.AddManyKeepsIds` | 10_java.js:105-109 | each addition appends exactly one card and keeps the ids of the cards already present |
| `PageModel.KthAddedId` | 10_java.js:105-109 | whatever ids the markup's `n` cards carry, the K-th added card gets id `a<n + K>` |
| `PageModel.SequentialIdsDistinct` | 10_java.js:105-109 | sequentially numbered cards have pairwise distinct ids |
| `PageController.Page.constructor` | 10_java.js:141-154 | the loaded page with both panels hidden and one filter pass over the markup's cards; the checkboxes and form are as given |
| `PageController.Page.ShowFilter` | 10_java.js:35-43 | the new panel state is `AfterShowFilter` of the old one; nothing else changes |
| `PageController.Page.ShowAddNew` | 10_java.js:47-55 | the new panel state is `AfterShowAddNew` of the old one; nothing else changes |
| `PageController.Page.FilterArticles` | 10_java.js:60-75 | the in-place loop leaves the card list equal to `Filtered` of the old list under the current checkboxes; nothing else changes |
| `PageController.Page.ClearTypes` | 10_java.js:136 | the reset loop unchecks every radio and keeps their values |
| `PageController.Page.AddNewArticle` | 10_java.js:95-138 | on a validation failure it returns that error and nothing changes; on success the cards are `AppendArticle` of the old ones, the title and body are `""`, no radio is checked, and the panels and checkboxes are untouched |

## Left out

- DOM lookup (`byId`, `querySelector`, `querySelectorAll`) is not modelled. The elements are fields of `Page`, and the markup is assumed to contain every id it needs (the assumption stated at line 140). On a missing element `hide` would throw, despite its "defensive" comment; that case is outside the model.
- `getComputedStyle`: each panel field holds the panel's computed display. Setting an inline display overrides the stylesheet, so the model writes that field directly.
- Event-listener registration (lines 145-152) is not modelled. Each handler is a method called directly. Handlers run to completion one at a time, so there is no interleaving to capture.
- A box being ticked or unticked by the user is not modelled as a handler. A client assigns the checkbox field and then calls `FilterArticles`, which is the `change` listener. Typing into the form works the same way: the client assigns the input fields.
- `alert` dialogs become the `AddError` returned by `AddNewArticle` (`MissingTitle`, `MissingType`, `MissingBody`).
- `createElement`/`appendChild` node mechanics, `innerText` rendering and CSS are not modelled. A card is a plain record of its class set, id, marker text, heading, paragraph, link and inline display.
- `classList.add` throws on an empty token or one containing white space. The empty case is rejected earlier by `!type`; the white-space case cannot arise with the page's radio values, and the model does not represent it.
- The two query scopes `#articleList article` and `articleList.querySelectorAll('article')` are both "the card list".
- `Text.Trim` uses the ECMAScript white-space set as of current Unicode (Zs, the ASCII controls, U+FEFF, U+2028/2029). Future Unicode additions to category Zs are not tracked.
