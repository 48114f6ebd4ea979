/**
  The page controller's state as values, and the pure transitions that the handlers of
  10_java.js perform on it: the two-panel toggler, the checkbox filter over the article
  cards, the radio/label helpers and the validation and shape of a new article card.
 */
module PageModel {
  import opened Text
  import opened Numerals

  datatype Option<T> = None | Some(value: T)

  datatype Result<T, E> = Success(value: T) | Failure(error: E)

  // ---------------------------------------------------------------------------
  // Display values, category tokens and fixed strings
  // ---------------------------------------------------------------------------

  /** CSS `display` values written by hide, showBlock and showFlex. */
  const HIDDEN: string := "none"
  const BLOCK: string := "block"
  const FLEX: string := "flex"

  /** The class tokens (and radio values) of the three article types. */
  const OPINION: string := "opinion"
  const RECIPE: string := "recipe"
  const UPDATE: string := "update"

  /** The fixed link every created card carries. */
  const MORE_DETAILS: string := "moreDetails.html"
  const READ_MORE: string := "Read more..."

  /** An element counts as visible when its display is anything but `none`. */
  predicate IsVisible(display: string) {
    display != HIDDEN
  }

  // ---------------------------------------------------------------------------
  // Panel toggler
  // ---------------------------------------------------------------------------

  /** The displays of #filterContent and #newContent. */
  datatype Panels = Panels(filter: string, add: string)

  /** The state the DOMContentLoaded handler leaves: both panels hidden. */
  const InitPanels: Panels := Panels(HIDDEN, HIDDEN)

  predicate AtMostOneVisible(p: Panels) {
    !(IsVisible(p.filter) && IsVisible(p.add))
  }

  /** showFilter: hides the add panel and flips the filter panel (shown as a block). */
  function AfterShowFilter(p: Panels): (r: Panels)
    ensures r.add == HIDDEN
    ensures IsVisible(r.filter) <==> !IsVisible(p.filter)
    ensures IsVisible(r.filter) ==> r.filter == BLOCK
    ensures AtMostOneVisible(r)
  {
    var isVisible := IsVisible(p.filter);
    Panels(if isVisible then HIDDEN else BLOCK, HIDDEN)
  }

  /** showAddNew: hides the filter panel and flips the add panel (shown as a flex box). */
  function AfterShowAddNew(p: Panels): (r: Panels)
    ensures r.filter == HIDDEN
    ensures IsVisible(r.add) <==> !IsVisible(p.add)
    ensures IsVisible(r.add) ==> r.add == FLEX
    ensures AtMostOneVisible(r)
  {
    var isVisible := IsVisible(p.add);
    Panels(HIDDEN, if isVisible then HIDDEN else FLEX)
  }

  /** The two buttons wired to the toggler. */
  datatype Click = FilterButton | AddButton

  function AfterClick(p: Panels, c: Click): Panels {
    match c
    case FilterButton => AfterShowFilter(p)
    case AddButton => AfterShowAddNew(p)
  }

  /** The panels after a sequence of button clicks, first click first. */
  function AfterClicks(p: Panels, clicks: seq<Click>): Panels
    decreases |clicks|
  {
    if clicks == [] then p else AfterClicks(AfterClick(p, clicks[0]), clicks[1..])
  }

  /** Clicks compose: running `a` and then `b` is running the concatenated sequence. */
  lemma {:induction false} AfterClicksAppend(p: Panels, a: seq<Click>, b: seq<Click>)
    ensures AfterClicks(p, a + b) == AfterClicks(AfterClicks(p, a), b)
    decreases |a|
  {
    if a == [] {
      assert a + b == b;
    } else {
      assert (a + b)[0] == a[0];
      assert (a + b)[1..] == a[1..] + b;
      AfterClicksAppend(AfterClick(p, a[0]), a[1..], b);
    }
  }

  /** No sequence of clicks breaks "at most one panel is visible". */
  lemma {:induction false} ClicksKeepAtMostOne(p: Panels, clicks: seq<Click>)
    requires AtMostOneVisible(p)
    ensures AtMostOneVisible(AfterClicks(p, clicks))
    decreases |clicks|
  {
    if clicks != [] {
      ClicksKeepAtMostOne(AfterClick(p, clicks[0]), clicks[1..]);
    }
  }

  /** From the initial page, at most one panel is visible after any sequence of clicks. */
  lemma {:induction false} ClicksFromInit(clicks: seq<Click>)
    ensures AtMostOneVisible(AfterClicks(InitPanels, clicks))
  {
    ClicksKeepAtMostOne(InitPanels, clicks);
  }

  /** Clicking Filter twice puts the filter panel back and leaves the add panel hidden. */
  lemma FilterTwice(p: Panels)
    ensures AfterClicks(p, [FilterButton, FilterButton])
         == Panels(if IsVisible(p.filter) then BLOCK else HIDDEN, HIDDEN)
  {
    assert [FilterButton, FilterButton][1..] == [FilterButton];
    assert [FilterButton][1..] == [];
  }

  /** From the initial page, clicking Filter twice returns to the initial page. */
  lemma FilterTwiceFromInit()
    ensures AfterClicks(InitPanels, [FilterButton, FilterButton]) == InitPanels
  {
    FilterTwice(InitPanels);
  }

  // ---------------------------------------------------------------------------
  // Article cards and the checkbox filter
  // ---------------------------------------------------------------------------

  /**
    An <article> card of #articleList: its class list, its id, the text of its marker
    span, heading and paragraph, its link, and its inline display ("" when none was set).
   */
  datatype Card = Card(
    classes: set<string>, id: string, marker: string, title: string, body: string,
    href: string, linkText: string, display: string)

  /** The checked states of #opinionCheckbox, #recipeCheckbox and #updateCheckbox. */
  datatype Filter = Filter(opinion: bool, recipe: bool, update: bool)

  function Shown(checked: bool): string {
    if checked then BLOCK else HIDDEN
  }

  /** The three article types, in the order filterArticles tests them. */
  datatype Category = Opinion | Recipe | Update

  function Tag(k: Category): string {
    match k
    case Opinion => OPINION
    case Recipe => RECIPE
    case Update => UPDATE
  }

  function Checked(f: Filter, k: Category): bool {
    match k
    case Opinion => f.opinion
    case Recipe => f.recipe
    case Update => f.update
  }

  function WithChecked(f: Filter, k: Category, b: bool): (g: Filter)
    ensures Checked(g, k) == b
    ensures forall k' :: k' != k ==> Checked(g, k') == Checked(f, k')
  {
    match k
    case Opinion => f.(opinion := b)
    case Recipe => f.(recipe := b)
    case Update => f.(update := b)
  }

  /** The category that governs a card: its first recognised class, if any. */
  function CategoryOf(c: Card): (r: Option<Category>)
    ensures r.Some? ==> Tag(r.value) in c.classes
    ensures r == Some(Recipe) ==> OPINION !in c.classes
    ensures r == Some(Update) ==> OPINION !in c.classes && RECIPE !in c.classes
    ensures r == None <==> OPINION !in c.classes && RECIPE !in c.classes && UPDATE !in c.classes
  {
    if OPINION in c.classes then Some(Opinion)
    else if RECIPE in c.classes then Some(Recipe)
    else if UPDATE in c.classes then Some(Update)
    else None
  }

  /** One step of the forEach in filterArticles: the card's category decides its display. */
  function FilterCard(c: Card, f: Filter): Card {
    match CategoryOf(c)
    case Some(k) => c.(display := Shown(Checked(f, k)))
    case None => c
  }

  /** The card list after filterArticles. */
  function Filtered(cards: seq<Card>, f: Filter): seq<Card> {
    seq(|cards|, i requires 0 <= i < |cards| => FilterCard(cards[i], f))
  }

  /**
    filterArticles keeps the length and order of the list and every field but the display;
    a card's new display is `block` or `none` after the checkbox of its category, and a card
    with no recognised class keeps its old display.
   */
  lemma FilteredCards(cards: seq<Card>, f: Filter)
    ensures |Filtered(cards, f)| == |cards|
    ensures forall i :: 0 <= i < |cards| ==>
      Filtered(cards, f)[i] == cards[i].(display := Filtered(cards, f)[i].display)
    ensures forall i :: 0 <= i < |cards| ==>
      Filtered(cards, f)[i].display ==
        match CategoryOf(cards[i])
        case Some(k) => Shown(Checked(f, k))
        case None => cards[i].display
  {
  }

  /** Running filterArticles twice with the same checkboxes is the same as running it once. */
  lemma FilteredIdempotent(cards: seq<Card>, f: Filter)
    ensures Filtered(Filtered(cards, f), f) == Filtered(cards, f)
  {
  }

  /** Only the last filter pass matters: a later pass overrides every earlier one. */
  lemma RefilterOverrides(cards: seq<Card>, f: Filter, g: Filter)
    ensures Filtered(Filtered(cards, g), f) == Filtered(cards, f)
  {
  }

  /**
    Unchecking one box hides exactly the cards of that category that were visible and
    changes nothing else; checking it again restores the previous list.
   */
  lemma UncheckOne(cards: seq<Card>, f: Filter, k: Category)
    requires Checked(f, k)
    ensures var before, after := Filtered(cards, f), Filtered(cards, WithChecked(f, k, false));
      |after| == |before| &&
      (forall i :: 0 <= i < |cards| ==>
        (CategoryOf(cards[i]) == Some(k) ==> IsVisible(before[i].display) && !IsVisible(after[i].display)) &&
        (CategoryOf(cards[i]) != Some(k) ==> after[i] == before[i]))
    ensures Filtered(Filtered(cards, WithChecked(f, k, false)), f) == Filtered(cards, f)
  {
    RefilterOverrides(cards, f, WithChecked(f, k, false));
  }

  /** Filtering a list with one more card at the end filters the old list and that card. */
  lemma FilteredAppend(cards: seq<Card>, c: Card, f: Filter)
    ensures Filtered(cards + [c], f) == Filtered(cards, f) + [FilterCard(c, f)]
  {
  }

  // ---------------------------------------------------------------------------
  // Type helpers
  // ---------------------------------------------------------------------------

  /** One input[name="articleType"] radio: its value and whether it is checked. */
  datatype Radio = Radio(value: string, checked: bool)

  /** The index of the first checked radio, in document order, or |radios| if none is. */
  function FirstChecked(radios: seq<Radio>): (k: nat)
    ensures k <= |radios|
    ensures forall j :: 0 <= j < k ==> !radios[j].checked
    ensures k < |radios| ==> radios[k].checked
  {
    if radios == [] then 0
    else if radios[0].checked then 0
    else 1 + FirstChecked(radios[1..])
  }

  /** getSelectedType: the value of the checked radio, or null when none is checked. */
  function SelectedType(radios: seq<Radio>): (r: Option<string>)
    ensures r == None <==> forall i :: 0 <= i < |radios| ==> !radios[i].checked
    ensures r.Some? ==> exists i :: 0 <= i < |radios| && radios[i].checked && radios[i].value == r.value
    ensures r.Some? ==> FirstChecked(radios) < |radios| && r.value == radios[FirstChecked(radios)].value
  {
    var k := FirstChecked(radios);
    if k < |radios| then Some(radios[k].value) else None
  }

  /** A radio group has at most one checked member. */
  predicate IsRadioGroup(radios: seq<Radio>) {
    forall i, j :: 0 <= i < |radios| && 0 <= j < |radios| && radios[i].checked && radios[j].checked ==> i == j
  }

  /** In a radio group, getSelectedType returns the value of the one checked radio. */
  lemma SelectedTypeOfGroup(radios: seq<Radio>, k: nat)
    requires IsRadioGroup(radios)
    requires k < |radios| && radios[k].checked
    ensures SelectedType(radios) == Some(radios[k].value)
  {
  }

  /** A selected type passes the `!type` test only when it is present and not "". */
  predicate HasType(t: Option<string>) {
    t.Some? && t.value != ""
  }

  /** prettyType: the label shown in a card's marker. */
  function PrettyType(t: string): (r: string)
    ensures r == "Opinion" <==> t == OPINION
    ensures r == "Recipe" <==> t == RECIPE
    ensures r == "Update" <==> t != OPINION && t != RECIPE
  {
    if t == OPINION then "Opinion"
    else if t == RECIPE then "Recipe"
    else "Update"
  }

  /** The radios after the reset loop of addNewArticle: same values, none checked. */
  function Unchecked(radios: seq<Radio>): seq<Radio> {
    seq(|radios|, i requires 0 <= i < |radios| => radios[i].(checked := false))
  }

  lemma UncheckedClearsSelection(radios: seq<Radio>)
    ensures |Unchecked(radios)| == |radios|
    ensures forall i :: 0 <= i < |radios| ==> Unchecked(radios)[i].value == radios[i].value
    ensures SelectedType(Unchecked(radios)) == None
  {
  }

  // ---------------------------------------------------------------------------
  // Article creator
  // ---------------------------------------------------------------------------

  /** The alerts addNewArticle can raise, in the order it checks for them. */
  datatype AddError = MissingTitle | MissingType | MissingBody

  /** The validated form: the selected type and the trimmed title and body. */
  datatype Draft = Draft(kind: string, title: string, body: string)

  /** Lines 96-102 of addNewArticle: read, trim and check the three fields. */
  function Validate(header: string, article: string, radios: seq<Radio>): (r: Result<Draft, AddError>)
    ensures r == Failure(MissingTitle) <==> Trim(header) == ""
    ensures r == Failure(MissingType) <==> Trim(header) != "" && !HasType(SelectedType(radios))
    ensures r == Failure(MissingBody) <==>
      Trim(header) != "" && HasType(SelectedType(radios)) && Trim(article) == ""
    ensures r.Success? ==>
      && r.value.kind == SelectedType(radios).value && r.value.kind != ""
      && r.value.title == Trim(header) && r.value.title != ""
      && r.value.body == Trim(article) && r.value.body != ""
  {
    var title := Trim(header);
    var body := Trim(article);
    var kind := SelectedType(radios);
    if title == "" then Failure(MissingTitle)
    else if !HasType(kind) then Failure(MissingType)
    else if body == "" then Failure(MissingBody)
    else Success(Draft(kind.value, title, body))
  }

  /** The id `a<n>` given to the n-th card. */
  function CardId(n: nat): string {
    "a" + Decimal(n)
  }

  /** Different card numbers give different ids. */
  lemma CardIdInjective(m: nat, n: nat)
    ensures CardId(m) == CardId(n) ==> m == n
  {
    assert CardId(m)[1..] == Decimal(m);
    assert CardId(n)[1..] == Decimal(n);
    DecimalInjective(m, n);
  }

  /** The <article> built from a validated form as the list's `n`-th card. */
  function NewCard(d: Draft, n: nat): Card {
    Card({d.kind}, CardId(n), PrettyType(d.kind), d.title, d.body, MORE_DETAILS, READ_MORE, "")
  }

  /** The card list after a successful addNewArticle: append the new card, then filter. */
  function AppendArticle(cards: seq<Card>, d: Draft, f: Filter): seq<Card> {
    Filtered(cards + [NewCard(d, |cards| + 1)], f)
  }

  /**
    A successful addNewArticle adds exactly one card, at the end, and re-filters the
    old cards. The new card has the selected type as its only class, the id
    `a<old length + 1>`, the pretty type as marker, the trimmed title and body and the
    fixed link; it is shown iff its type's box is checked. A type outside the three keeps
    the card's unset display, although its marker reads "Update".
   */
  lemma AppendArticleShape(cards: seq<Card>, d: Draft, f: Filter)
    ensures var r := AppendArticle(cards, d, f);
      && |r| == |cards| + 1
      && r[..|cards|] == Filtered(cards, f)
      && r[|cards|].classes == {d.kind}
      && r[|cards|].id == "a" + Decimal(|cards| + 1)
      && r[|cards|].marker == PrettyType(d.kind)
      && r[|cards|].title == d.title && r[|cards|].body == d.body
      && r[|cards|].href == MORE_DETAILS && r[|cards|].linkText == READ_MORE
    ensures forall k :: d.kind == Tag(k) ==> AppendArticle(cards, d, f)[|cards|].display == Shown(Checked(f, k))
    ensures d.kind !in {OPINION, RECIPE, UPDATE} ==> AppendArticle(cards, d, f)[|cards|].display == ""
  {
    FilteredAppend(cards, NewCard(d, |cards| + 1), f);
  }

  /** The ids the markup and addNewArticle give: the i-th card (from 1) is `a<i>`. */
  predicate SequentialIds(cards: seq<Card>) {
    forall i :: 0 <= i < |cards| ==> cards[i].id == CardId(i + 1)
  }

  /** If the cards are numbered `a1..an`, a successful addition keeps them so. */
  lemma AppendKeepsSequentialIds(cards: seq<Card>, d: Draft, f: Filter)
    requires SequentialIds(cards)
    ensures SequentialIds(AppendArticle(cards, d, f))
  {
    AppendArticleShape(cards, d, f);
  }

  /** Sequential ids never repeat. */
  lemma SequentialIdsDistinct(cards: seq<Card>)
    requires SequentialIds(cards)
    ensures forall i, j :: 0 <= i < j < |cards| ==> cards[i].id != cards[j].id
  {
    forall i, j | 0 <= i < j < |cards| ensures cards[i].id != cards[j].id {
      CardIdInjective(i + 1, j + 1);
    }
  }

  /** The card list after the given successful additions, first draft first. */
  function AddMany(cards: seq<Card>, ds: seq<Draft>, f: Filter): seq<Card>
    decreases |ds|
  {
    if ds == [] then cards else AddMany(AppendArticle(cards, ds[0], f), ds[1..], f)
  }

  /** Each addition appends one card and leaves the ids of the cards already there. */
  lemma {:induction false} AddManyKeepsIds(cards: seq<Card>, ds: seq<Draft>, f: Filter)
    ensures |AddMany(cards, ds, f)| == |cards| + |ds|
    ensures forall i :: 0 <= i < |cards| ==> AddMany(cards, ds, f)[i].id == cards[i].id
    decreases |ds|
  {
    if ds != [] {
      var next := AppendArticle(cards, ds[0], f);
      AppendArticleShape(cards, ds[0], f);
      FilteredCards(cards, f);
      assert forall i :: 0 <= i < |cards| ==> next[i].id == next[..|cards|][i].id == cards[i].id;
      AddManyKeepsIds(next, ds[1..], f);
    }
  }

  /**
    The K-th added card is `a<n + K>`, where n is the number of cards before the first
    addition, whatever ids those cards carry.
   */
  lemma {:induction false} KthAddedId(cards: seq<Card>, ds: seq<Draft>, f: Filter, k: nat)
    requires 1 <= k <= |ds|
    ensures |AddMany(cards, ds, f)| == |cards| + |ds|
    ensures AddMany(cards, ds, f)[|cards| + k - 1].id == CardId(|cards| + k)
    decreases |ds|
  {
    var next := AppendArticle(cards, ds[0], f);
    AppendArticleShape(cards, ds[0], f);
    AddManyKeepsIds(next, ds[1..], f);
    if k > 1 {
      KthAddedId(next, ds[1..], f, k - 1);
    }
  }
}
