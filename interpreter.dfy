/**
 * The Interpreter pattern of the program: a keyword expression classifies a
 * text by whether the keyword occurs in it.
 */
module Interpreter {

  /** The keyword stands in `text` starting at position `i`. */
  predicate OccursAt(keyword: string, text: string, i: int)
  {
    0 <= i <= |text| - |keyword| && text[i..i + |keyword|] == keyword
  }

  /** Java's String.contains: `keyword` stands somewhere in `text`. */
  predicate Contains(text: string, keyword: string): (r: bool)
    ensures keyword == [] ==> r
    ensures r ==> |keyword| <= |text|
  {
    assert keyword == [] ==> OccursAt(keyword, text, 0);
    exists i | 0 <= i <= |text| - |keyword| :: OccursAt(keyword, text, i)
  }

  /**
   * Containment by position agrees with containment by splitting: the text
   * contains the keyword iff it is some text, the keyword and some more text.
   */
  lemma ContainsIffSplit(text: string, keyword: string)
    ensures Contains(text, keyword) <==> exists p, q :: text == p + keyword + q
  {
    if Contains(text, keyword) {
      var i :| 0 <= i <= |text| - |keyword| && OccursAt(keyword, text, i);
      var p, q := text[..i], text[i + |keyword|..];
      assert text == p + keyword + q;
    }
    if exists p, q :: text == p + keyword + q {
      var p, q :| text == p + keyword + q;
      assert text[|p|..|p| + |keyword|] == keyword;
      assert OccursAt(keyword, text, |p|);
    }
  }

  /** A one-character keyword is contained exactly when the text holds that character. */
  lemma ContainsChar(text: string, c: char)
    ensures Contains(text, [c]) <==> c in text
  {
    if c in text {
      var i :| 0 <= i < |text| && text[i] == c;
      assert text[i..i + 1] == [c];
      assert OccursAt([c], text, i);
    }
    if Contains(text, [c]) {
      var i :| 0 <= i <= |text| - 1 && OccursAt([c], text, i);
      assert text[i] == text[i..i + 1][0];
    }
  }

  /** KeywordExpression: an expression holding a keyword fixed at construction. */
  datatype KeywordExpression = KeywordExpression(keyword: string)
  {
    /**
     * interpret: does `keyword` occur in `context`? The empty keyword
     * matches every text, and no keyword longer than the text matches.
     */
    predicate Interpret(context: string): (r: bool)
      ensures keyword == [] ==> r
      ensures r ==> |keyword| <= |context|
    {
      Contains(context, keyword)
    }
  }
}
