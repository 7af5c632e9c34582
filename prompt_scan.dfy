/**
 * The search the before-model callbacks run over a request's conversation:
 * every part of every content, in order, until a part's text contains a
 * keyword.
 */
module PromptScan {
  import opened Genai
  import Text

  /** A part's text contains the keyword, after upper-casing it when `fold` is set. */
  predicate Hit(text: string, keyword: string, fold: bool) {
    Text.Contains(if fold then Text.ToUpper(text) else text, keyword)
  }

  /** Some part of some content hits the keyword. */
  predicate Mentions(contents: seq<Content>, keyword: string, fold: bool) {
    exists i, j :: 0 <= i < |contents| && 0 <= j < |contents[i].parts| && Hit(contents[i].parts[j].text, keyword, fold)
  }

  /** The two nested loops, returning as soon as a part hits. */
  method Scan(contents: seq<Content>, keyword: string, fold: bool) returns (found: bool)
    ensures found <==> Mentions(contents, keyword, fold)
  {
    var i := 0;
    while i < |contents|
      invariant 0 <= i <= |contents|
      invariant forall i', j :: 0 <= i' < i && 0 <= j < |contents[i'].parts| ==> !Hit(contents[i'].parts[j].text, keyword, fold)
    {
      var parts := contents[i].parts;
      var j := 0;
      while j < |parts|
        invariant 0 <= j <= |parts|
        invariant forall j' :: 0 <= j' < j ==> !Hit(parts[j'].text, keyword, fold)
      {
        if Hit(parts[j].text, keyword, fold) {
          return true;
        }
        j := j + 1;
      }
      i := i + 1;
    }
    return false;
  }

  /** Case-folded search finds the keyword whatever the letter case of the conversation. */
  lemma FoldedIgnoresCase(text: string, keyword: string)
    ensures Hit(Text.ToLower(text), keyword, true) == Hit(text, keyword, true)
  {
    Text.UpperOfLower(text);
  }
}
