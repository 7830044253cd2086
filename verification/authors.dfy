/**
 * The choice Video.extractAuthor makes between the author field and the
 * segments of a "•"-separated description, before the chosen text is
 * trimmed and abbreviated.
 */
module Authors {
  import opened Optional
  import opened JavaText

  const TertiaryTextDelim: string := "•"
  const MaxAuthorLengthChars: int := 20

  /**
   * The text extractAuthor abbreviates. A description always wins over the
   * author. A description that does not split on "•" into at least two parts
   * is used whole. Otherwise the first part is taken when there are fewer
   * than four parts and it is longer than two characters (so that a short
   * label such as "4K" is skipped), else the second part.
   */
  function AuthorText(author: Option<string>, description: Option<string>): (r: Option<string>)
    ensures r.None? <==> author.None? && description.None?
    ensures description.None? ==> r == author
    ensures description.Some? ==> r.Some?
    ensures description.Some? && r != description ==>
              r.value in Split(description.value, TertiaryTextDelim) && !Occurs(r.value, TertiaryTextDelim)
    ensures description.Some? && !Occurs(description.value, TertiaryTextDelim) ==> r == description
    ensures description.Some? ==>
              var parts := Split(description.value, TertiaryTextDelim);
              && (|parts| <= 1 ==> r == description)
              && (|parts| >= 4 ==> r == Some(parts[1]))
              && (2 <= |parts| < 4 && |parts[0]| > 2 ==> r == Some(parts[0]))
              && (2 <= |parts| < 4 && |parts[0]| <= 2 ==> r == Some(parts[1]))
  {
    if description.Some? then
      var parts := Split(description.value, TertiaryTextDelim);
      if |parts| <= 1 then description
      else if |parts| < 4 && |parts[0]| > 2 then Some(parts[0])
      else Some(parts[1])
    else
      author
  }

  /** A label of two characters before the bullet is skipped: "4K•Official Music Video" gives its second part. */
  lemma ShortLabelIsSkipped(author: Option<string>)
    ensures AuthorText(author, Some("4K•Official Music Video")) == Some("Official Music Video")
  {
    var parts := ["4K", "Official Music Video"];
    assert Join(parts[1..], TertiaryTextDelim) == "Official Music Video";
    assert Join(parts, TertiaryTextDelim) == "4K•Official Music Video";
    forall p | p in parts
      ensures !Occurs(p, TertiaryTextDelim)
    {
      NoLeadCharNoOccurrence(p, TertiaryTextDelim);
    }
    SplitJoin(parts, TertiaryTextDelim);
  }

  /** With four or more parts the second is taken, however long the first is. */
  lemma FourPartsTakeTheSecond(author: Option<string>)
    ensures AuthorText(author, Some("Channel•Title•Views•Date")) == Some("Title")
  {
    var parts := ["Channel", "Title", "Views", "Date"];
    assert Join(parts[3..], TertiaryTextDelim) == "Date";
    assert Join(parts[2..], TertiaryTextDelim) == "Views•Date";
    assert Join(parts[1..], TertiaryTextDelim) == "Title•Views•Date";
    assert Join(parts, TertiaryTextDelim) == "Channel•Title•Views•Date";
    forall p | p in parts
      ensures !Occurs(p, TertiaryTextDelim)
    {
      NoLeadCharNoOccurrence(p, TertiaryTextDelim);
    }
    SplitJoin(parts, TertiaryTextDelim);
  }

  /**
   * A description that ends with the bullet splits into one part only, since
   * Java drops the trailing empty string, so it is used whole, bullet included.
   */
  lemma TrailingBulletKeepsDescription(author: Option<string>)
    ensures AuthorText(author, Some("Channel•")) == Some("Channel•")
  {
    NoLeadCharNoOccurrence("Channel", TertiaryTextDelim);
    SplitAllAfterPiece("Channel", TertiaryTextDelim, "");
    assert "Channel" + TertiaryTextDelim + "" == "Channel•";
    assert SplitAll("", TertiaryTextDelim) == [""];
  }

  /**
   * A description that is only the bullet splits into no parts at all, since
   * both pieces around the bullet are trailing empty strings, so it is used whole.
   */
  lemma LoneBulletKeepsDescription(author: Option<string>)
    ensures AuthorText(author, Some("•")) == Some("•")
  {
    SplitAllAtDelimiter(TertiaryTextDelim, "");
    assert TertiaryTextDelim + "" == "•";
    assert SplitAll("", TertiaryTextDelim) == [""];
    assert |Split("•", TertiaryTextDelim)| == 0;
  }
}
