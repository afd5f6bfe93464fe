/**
 * The generic button. On initialisation, in a browser, it hands the
 * space-separated tokens of its `classButton` input that name utility classes
 * (those containing "ank-") to the CSS generator; its content is the custom
 * HTML when one is given and the HTML registered for its `type` otherwise.
 */
module GenericButton {
  import opened Wrappers
  import opened Strings
  import opened Lists

  /** A token worth generating CSS for. */
  predicate IsUtilityClass(c: string)
  {
    c != "" && Contains(c, "ank-")
  }

  /**
   * The class list `ngOnInit` passes to `updateClasses`, or `None` when it
   * does not call it (an empty `classButton`, or no window).
   */
  function ClassTokens(classButton: string, hasWindow: bool): (r: Option<seq<string>>)
    ensures r.None? <==> classButton == "" || !hasWindow
    ensures r.Some? ==> forall c | c in r.value :: IsUtilityClass(c)
    ensures r.Some? ==> IsSublist(r.value, Split(classButton, ' '))
    ensures r.Some? ==> forall c | c in Split(classButton, ' ') && Contains(c, "ank-") :: c in r.value
    ensures r.Some? ==> forall c | c in r.value :: ' ' !in c
  {
    if classButton != "" && hasWindow then
      var tokens := Split(classButton, ' ');
      FilterSound(tokens, IsUtilityClass);
      FilterComplete(tokens, IsUtilityClass);
      FilterIsSublist(tokens, IsUtilityClass);
      SplitPiecesAvoidSeparator(classButton, ' ');
      Some(Filter(tokens, IsUtilityClass))
    else None
  }

  /** A class list of tokens separated by single spaces hands on exactly its utility classes, in order. */
  lemma ClassTokensOfJoined(tokens: seq<string>)
    requires |tokens| >= 1 && Join(tokens, ' ') != ""
    requires forall c | c in tokens :: ' ' !in c && IsUtilityClass(c)
    ensures ClassTokens(Join(tokens, ' '), true) == Some(tokens)
  {
    SplitJoin(tokens, ' ');
    FilterKeepsAll(tokens, IsUtilityClass);
  }

  /** The key `getHtml` looks up: the custom HTML when it is a non-empty text, the button type otherwise. */
  function HtmlKey(customHtml: Option<string>, kind: string): (key: string)
    ensures customHtml.Some? && customHtml.value != "" ==> key == customHtml.value
    ensures customHtml.None? || customHtml.value == "" ==> key == kind
  {
    if customHtml.Some? && customHtml.value != "" then customHtml.value else kind
  }
}
