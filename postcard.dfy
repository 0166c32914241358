/** The excerpt a post card shows in the post list: the first 150
    characters of the content, followed by "..." when something was cut. */
module PostCard {

  /** How many characters of the content a card shows. */
  const ExcerptLength: nat := 150

  const Ellipsis := "..."

  /** `content.substring(0, 150)` followed by `...` when the content is
      longer than 150 characters. */
  function Excerpt(content: string): (r: string)
    ensures |content| <= ExcerptLength ==> r == content
    ensures |content| > ExcerptLength ==> |r| == ExcerptLength + |Ellipsis| && r[..ExcerptLength] == content[..ExcerptLength] && r[ExcerptLength..] == Ellipsis
    ensures |r| <= ExcerptLength + |Ellipsis|
  {
    var shown := if |content| <= ExcerptLength then content else content[..ExcerptLength];
    shown + (if |content| > ExcerptLength then Ellipsis else "")
  }

  /** The text before any ellipsis is a prefix of the content, and an
      ellipsis is added exactly when that prefix is shorter than the content. */
  lemma ExcerptIsPrefixThenEllipsis(content: string)
    ensures var r := Excerpt(content);
      exists k :: 0 <= k <= |r| && k <= |content| && r[..k] == content[..k]
                  && r[k..] == (if k < |content| then Ellipsis else "")
  {
    var r := Excerpt(content);
    if |content| <= ExcerptLength {
      assert r[..|content|] == content[..|content|];
    } else {
      assert r[..ExcerptLength] == content[..ExcerptLength];
    }
  }

  /** Every content longer than the limit gets the same visible length, so
      two such contents with the same first 150 characters show the same card. */
  lemma ExcerptOnlySeesFirstCharacters(a: string, b: string)
    requires |a| > ExcerptLength && |b| > ExcerptLength
    requires a[..ExcerptLength] == b[..ExcerptLength]
    ensures Excerpt(a) == Excerpt(b)
  {
  }
}
