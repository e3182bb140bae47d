/** The product card's title shortening. */
module ProductCard {

  /** The length the card cuts titles to. */
  const TITLE_MAX_LENGTH := 60

  /** `truncateTitle`: a title longer than `maxLength` becomes its first
      `maxLength` characters followed by "..."; any other title is kept.
      `substring` treats a negative end as 0. */
  function TruncateTitle(title: string, maxLength: int): (r: string)
    ensures |title| <= maxLength ==> r == title
    ensures |title| > maxLength ==> r == title[..if maxLength < 0 then 0 else maxLength] + "..."
    ensures maxLength >= 0 ==> |r| <= maxLength + 3
    ensures maxLength >= 0 ==> (|r| == maxLength + 3 <==> |title| > maxLength)
    ensures var k := if |title| <= maxLength then |title| else if maxLength < 0 then 0 else maxLength;
      k <= |r| && r[..k] == title[..k]
  {
    if |title| > maxLength then title[..if maxLength < 0 then 0 else maxLength] + "..." else title
  }

  /** Shortening a shortened title again changes nothing. */
  lemma TruncateIdempotent(title: string, maxLength: int)
    ensures TruncateTitle(TruncateTitle(title, maxLength), maxLength) == TruncateTitle(title, maxLength)
  {
    var r := TruncateTitle(title, maxLength);
    if |title| > maxLength {
      var k := if maxLength < 0 then 0 else maxLength;
      assert r[..k] == title[..k];
    }
  }

  /** The title as the card shows it is at most 63 characters long, and keeps
      its first 60 characters or all of a shorter title. */
  lemma CardTitleBound(title: string)
    ensures |TruncateTitle(title, TITLE_MAX_LENGTH)| <= TITLE_MAX_LENGTH + 3
    ensures |title| <= TITLE_MAX_LENGTH ==> TruncateTitle(title, TITLE_MAX_LENGTH) == title
    ensures |title| > TITLE_MAX_LENGTH ==> TruncateTitle(title, TITLE_MAX_LENGTH)[..TITLE_MAX_LENGTH] == title[..TITLE_MAX_LENGTH]
  {
  }
}
