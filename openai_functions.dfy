/**
 * `OpenAi/functions.py`'s `extract_text_between_tags`: the same extraction as
 * `ApiGpt.ExtractTextBetweenTags`, with the tags defaulting to the stock-list
 * markers that the final prompt asks the model to use.
 */
module OpenAiFunctions {
  import Text
  import ApiGpt

  const DefaultStartTag: string := "[stocks]"
  const DefaultEndTag: string := "[/stocks]"

  function ExtractTextBetweenTags(text: string, startTag: string := DefaultStartTag, endTag: string := DefaultEndTag): (r: string)
    ensures Text.IsStripped(r)
    ensures r == ApiGpt.ExtractTextBetweenTags(text, startTag, endTag)
  {
    ApiGpt.ExtractTextBetweenTags(text, startTag, endTag)
  }

  /**
   * With the default tags, a stock block `[stocks]s[/stocks]` whose body holds no `[/stocks]`
   * yields the body, stripped; a reply with no complete block yields "".
   */
  lemma StocksBlock(s: string, text: string)
    requires forall k: nat :: k < |s| ==> !Text.OccursAt(s + DefaultEndTag, DefaultEndTag, k)
    ensures ExtractTextBetweenTags(DefaultStartTag + s + DefaultEndTag) == Text.Strip(s)
    ensures !ApiGpt.HasMatch(text, DefaultStartTag, DefaultEndTag) ==> ExtractTextBetweenTags(text) == ""
  {
    ApiGpt.RoundTrip(DefaultStartTag, s, DefaultEndTag);
  }
}
