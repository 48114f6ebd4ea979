/**
  Clients of the page controller: each method drives one user interaction through the
  handlers and asserts what the handlers' contracts let a caller conclude.
 */
module Scenarios {
  import opened PageModel
  import opened PageController

  /** The three articleType radios with the given checked states. */
  function TypeRadios(opinion: bool, recipe: bool, update: bool): seq<Radio> {
    [Radio(OPINION, opinion), Radio(RECIPE, recipe), Radio(UPDATE, update)]
  }

  function Sample(kind: string, n: nat): Card {
    Card({kind}, CardId(n), PrettyType(kind), "t", "b", MORE_DETAILS, READ_MORE, "")
  }

  /** Toggling the filter twice: open, then closed, the add panel hidden throughout. */
  method ToggleFilterTwice() {
    var page := new Page(Filter(true, true, true), [], "", "", TypeRadios(false, false, false));
    page.ShowFilter();
    assert page.filterDisplay == BLOCK && page.addDisplay == HIDDEN;
    page.ShowFilter();
    assert page.PanelState() == InitPanels;
  }

  /** Opening the add panel while the filter panel is open closes the filter panel. */
  method OpenAddOverFilter() {
    var page := new Page(Filter(true, true, true), [], "", "", TypeRadios(false, false, false));
    page.ShowFilter();
    page.ShowAddNew();
    assert page.filterDisplay == HIDDEN && page.addDisplay == FLEX;
  }

  /** Unchecking Recipe hides only the recipe card; checking it again shows it again. */
  method UncheckAndRecheckRecipe() {
    var markup := [Sample(OPINION, 1), Sample(RECIPE, 2), Sample(UPDATE, 3)];
    var page := new Page(Filter(true, true, true), markup, "", "", TypeRadios(false, false, false));
    assert page.cards[0].display == BLOCK && page.cards[1].display == BLOCK && page.cards[2].display == BLOCK;
    page.recipeChecked := false;
    page.FilterArticles();
    assert page.cards[0].display == BLOCK && page.cards[1].display == HIDDEN && page.cards[2].display == BLOCK;
    page.recipeChecked := true;
    page.FilterArticles();
    assert page.cards == Filtered(markup, Filter(true, true, true));
  }

  /** An empty title is reported first and adds no card. */
  method SubmitWithoutTitle() {
    var page := new Page(Filter(true, true, true), [], "", "x", TypeRadios(false, true, false));
    var outcome := page.AddNewArticle();
    assert outcome == Fail(MissingTitle);
    assert page.cards == [] && page.articleInput == "x";
  }
}
