/**
  The page controller of 10_java.js with the document replaced by the fields of one
  object. Each event handler is a method that runs to completion on those fields.
 */
module PageController {
  import opened PageModel

  /** The outcome of addNewArticle: a card was added, or an alert was raised. */
  datatype Outcome = Pass | Fail(error: AddError)

  class Page {
    /** Computed displays of #filterContent and #newContent. */
    var filterDisplay: string
    var addDisplay: string
    /** Checked states of #opinionCheckbox, #recipeCheckbox and #updateCheckbox. */
    var opinionChecked: bool
    var recipeChecked: bool
    var updateChecked: bool
    /** The <article> elements of #articleList, in document order. */
    var cards: seq<Card>
    /** Values of #inputHeader and #inputArticle, and the articleType radios. */
    var headerInput: string
    var articleInput: string
    var radios: seq<Radio>

    function PanelState(): Panels
      reads this
    {
      Panels(filterDisplay, addDisplay)
    }

    function Checks(): Filter
      reads this
    {
      Filter(opinionChecked, recipeChecked, updateChecked)
    }

    /**
      The page as loaded, followed by the DOMContentLoaded handler: both panels are
      hidden and one filter pass runs over the markup's cards.
     */
    constructor (checks: Filter, markup: seq<Card>, header: string, article: string, types: seq<Radio>)
      ensures PanelState() == InitPanels
      ensures Checks() == checks
      ensures cards == Filtered(markup, checks)
      ensures headerInput == header && articleInput == article && radios == types
    {
      filterDisplay := HIDDEN;
      addDisplay := HIDDEN;
      opinionChecked, recipeChecked, updateChecked := checks.opinion, checks.recipe, checks.update;
      cards := markup;
      headerInput, articleInput, radios := header, article, types;
      new;
      FilterArticles();
    }

    /** Click on #filterButton. */
    method ShowFilter()
      modifies this`filterDisplay, this`addDisplay
      ensures PanelState() == AfterShowFilter(old(PanelState()))
    {
      var isVisible := IsVisible(filterDisplay);
      addDisplay := HIDDEN;
      if isVisible {
        filterDisplay := HIDDEN;
      } else {
        filterDisplay := BLOCK;
      }
    }

    /** Click on #addButton. */
    method ShowAddNew()
      modifies this`filterDisplay, this`addDisplay
      ensures PanelState() == AfterShowAddNew(old(PanelState()))
    {
      var isVisible := IsVisible(addDisplay);
      filterDisplay := HIDDEN;
      if isVisible {
        addDisplay := HIDDEN;
      } else {
        addDisplay := FLEX;
      }
    }

    /** Change of any of the three checkboxes: one pass over the cards. */
    method FilterArticles()
      modifies this`cards
      ensures cards == Filtered(old(cards), Checks())
    {
      var f := Checks();
      var i := 0;
      while i < |cards|
        invariant 0 <= i <= |cards| == |old(cards)|
        invariant forall j :: 0 <= j < i ==> cards[j] == FilterCard(old(cards)[j], f)
        invariant forall j :: i <= j < |cards| ==> cards[j] == old(cards)[j]
      {
        cards := cards[i := FilterCard(cards[i], f)];
        i := i + 1;
      }
    }

    /** The reset loop of addNewArticle: every articleType radio is unchecked. */
    method ClearTypes()
      modifies this`radios
      ensures radios == Unchecked(old(radios))
    {
      var i := 0;
      while i < |radios|
        invariant 0 <= i <= |radios| == |old(radios)|
        invariant forall j :: 0 <= j < i ==> radios[j] == old(radios)[j].(checked := false)
        invariant forall j :: i <= j < |radios| ==> radios[j] == old(radios)[j]
      {
        radios := radios[i := radios[i].(checked := false)];
        i := i + 1;
      }
    }

    /**
      Click on #submitNewArticle. On an alert nothing changes; otherwise one card is
      appended, the form is cleared and the filter runs again.
     */
    method AddNewArticle() returns (outcome: Outcome)
      modifies this`cards, this`headerInput, this`articleInput, this`radios
      ensures var v := Validate(old(headerInput), old(articleInput), old(radios));
        && (v.Failure? ==> outcome == Fail(v.error) && unchanged(this))
        && (v.Success? ==>
              && outcome == Pass
              && cards == AppendArticle(old(cards), v.value, Checks())
              && headerInput == "" && articleInput == ""
              && radios == Unchecked(old(radios)))
    {
      var v := Validate(headerInput, articleInput, radios);
      if v.Failure? {
        return Fail(v.error);
      }
      var nextNum := |cards| + 1;
      cards := cards + [NewCard(v.value, nextNum)];

      headerInput := "";
      articleInput := "";
      ClearTypes();

      FilterArticles();
      outcome := Pass;
    }
  }
}
