/** The barcode test that gates every book-specific behaviour. */
module Isbn {
  import opened Text

  /**
   * A barcode is treated as an ISBN-13 when it is set and starts with one of
   * the two ISO 2108 "Bookland" prefixes, 978 or 979. Nothing else is checked:
   * neither the length, nor the digits, nor the check digit.
   */
  predicate IsIsbn(barcode: string)
  {
    barcode != "" && (StartsWith(barcode, "978") || StartsWith(barcode, "979"))
  }

  /** The test looks at the first three characters only, and at all three of them. */
  lemma IsIsbnPrefix(barcode: string)
    ensures IsIsbn(barcode) <==>
      |barcode| >= 3 && barcode[0] == '9' && barcode[1] == '7' && (barcode[2] == '8' || barcode[2] == '9')
    ensures IsIsbn(barcode) ==> forall rest :: IsIsbn(barcode[..3] + rest)
  {
    if |barcode| >= 3 {
      assert barcode[..3] == [barcode[0], barcode[1], barcode[2]];
      forall rest ensures (barcode[..3] + rest)[..3] == barcode[..3] {}
    }
  }

  /** Only the prefix counts: a short non-numeric code passes, a 13-digit 977 code (ISSN) does not. */
  lemma PrefixOnlyExamples()
    ensures IsIsbn("978x")
    ensures !IsIsbn("9771234567897")
    ensures !IsIsbn("")
    ensures !IsIsbn("97")
  {
    IsIsbnPrefix("978x");
    IsIsbnPrefix("9771234567897");
    IsIsbnPrefix("97");
  }
}
