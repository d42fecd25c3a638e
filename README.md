# booksandco — book metadata, BookScan export and customer orders, in Dafny

This project models the Odoo add-ons of a New Zealand bookshop:

- **Book data** (`book_data`). A product whose barcode is an ISBN (it starts
  with 978 or 979) gets its title, description, authors, publisher,
  publication date, cover image, weight and list price from two catalogs:
  - Hardcover, a GraphQL JSON API;
  - Titlepage, an ONIX 3.1 XML API.

  There are two orchestrations:
  - the barcode *onchange* fills gaps. Hardcover's values are applied to the
    record before Titlepage parses, so Titlepage only fills what is still
    empty;
  - the *refresh* button overwrites. Both catalogs are read with `force`
    against the record as it was, Titlepage is the base and Hardcover wins
    every collision.

  Titlepage's New Zealand supply also gives the list price (rounded up) and
  a vendor. The vendor is linked to the product unless it already is one.
- **BookScan export** (`bookscan_export`). Each day's POS and website book
  sales become a CSV file. The file is uploaded by SFTP to Nielsen BookScan
  as `<outlet><YYYYMMDD>.csv`, and every run appends exactly one entry to
  the export log.
- **Customer orders** (`customer_to_order`). The `customer.order` database
  view lists every confirmed sale line that still has goods to deliver. Each
  row carries the remaining quantity, the preferred vendor and an
  availability status. The "create purchase orders" action:
  - groups the selected *unordered* rows by vendor;
  - adds their quantities to that vendor's newest draft customer-order
    purchase order, or to a new one.
- **Web search** (`web_search`). Author and publisher become searchable, and
  each search result gets the subtitle "author • publisher".
- **Bookstore** (`bookstore`). The ISBN flag of a product, and the rule that
  a sale order cannot be confirmed without a shipping method.

Layout (one module per file, `wrappers.dfy` aside):

| file | module | contents |
|---|---|---|
| `wrappers.dfy` | `Wrappers` | `Option`, `Result` |
| `text.dfy` | `Text` | Python string tests, `join`, digits, `str`/`int`/`float` on decimal text |
| `calendar.dfy` | `Calendar` | `datetime.date` values and the one-day step |
| `isbn.dfy` | `Isbn` | the 978/979 barcode test |
| `product_record.dfy` | `BookFields`, `ProductRecord` | the reconciled fields, the inclusion policy, the `product.template` record (a class) |
| `onix.dfy` | `Onix` | the ONIX element tree and `find`/`findall`/path lookups |
| `hardcover.dfy` | `Hardcover` | the edition fetch and parser |
| `titlepage.dfy` | `Titlepage` | the product fetch, the ONIX parser and the vendor link |
| `book_data.dfy` | `BookData` | the onchange and the refresh |
| `bookscan_export.dfy` | `BookscanExport` | CSV rows, price and date formats, file name, SFTP configuration, the export log (a class) |
| `customer_order.dfy` | `CustomerOrder` | the view and the purchase-order action over a purchase store (a class) |
| `web_search.dfy` | `WebSearch` | the search detail (a class) and the result subtitles |
| `bookstore.dfy` | `Bookstore` | the ISBN flag computation and the confirmation check |

How the model is built:

- **Outside inputs.** Network replies, database queries, the clock, the
  image download, the partner search and the SFTP transport are all inputs.
  - Fetch replies are datatypes: the decoded JSON edition, or the ONIX tree.
  - The download, the partner search and the transport are function
    parameters.
  - The SQL views are functions of the table contents.
- **Records and tables.** Records that the add-ons update in place are
  classes:
  - `ProductRecord.ProductTemplate`;
  - `BookscanExport.ExportLog`;
  - `CustomerOrder.PurchaseStore`;
  - `WebSearch.SearchDetail`.
- **Loops.** Each loop of the source is a method with a `while`/`for` loop,
  proved equal to a specification function. That function's properties are
  then proved as lemmas.

Behaviours of the code that the model keeps:

- Titlepage's list price is proposed whatever `force` says and whatever the
  record holds. The inclusion policy does not gate it
  (`Titlepage.PriceUngated`).
- A weight of zero grams is proposed. Only texts must be non-empty.
- Hardcover's title falls back to the book title when the edition has none
  (`Hardcover.BaseTitle`).
- Two parser exceptions that the orchestrations catch make a catalog
  contribute nothing:
  - a `null` contribution author in Hardcover;
  - a `CountriesIncluded` element without text in Titlepage (`'NZ' in None`).
- The subtitle separator is the text the web-search source holds: a space,
  U+00E2, U+20AC, U+00A2 and a space. These three characters are how the
  bullet U+2022 reads when its UTF-8 bytes are decoded as Windows-1252.

## Model

Source paths are relative to the repository root. `book_data/models/product_template.py` is the main file.

| member | source | states |
|---|---|---|
| Isbn.IsIsbnPrefix | book_data/models/product_template.py:60-63 | A barcode is an ISBN exactly when its first three characters are 978 or 979; whatever follows such a prefix keeps it one |
| Isbn.PrefixOnlyExamples | book_data/models/product_template.py:63 | Only the prefix counts: "978x" passes; a 13-digit 977 code, "" and "97" do not |
| Bookstore.ComputeIsIsbn | bookstore/models/product_template.py:10-12 | Every record's flag becomes the ISBN test of its own barcode; no other field of any record changes |
| Bookstore.ConfirmationError | bookstore/models/sale_order.py:7-13 | The inherited error is kept when there is one; otherwise a missing carrier gives the shipping-method message, and a carrier gives no error |
| Bookstore.OnlyAddsBlocks | bookstore/models/sale_order.py:7-13 | The extension never clears an inherited error, and lets an order through exactly when there was no error and a carrier is set |
| BookFields.Gated | book_data/models/product_template.py:229-259 | A field is proposed exactly when the source offers it and the policy wants it, with the offered value |
| BookFields.GatedForced | book_data/models/product_template.py:135 | Under `force` every offer goes through, whatever the record holds |
| BookFields.ApplyTwice | book_data/models/product_template.py:100-118 | Applying Hardcover's values before the final write of all values equals applying them once, then Titlepage's |
| BookFields.EmptyUpdate | book_data/models/product_template.py:117-118 | Skipping an empty update (`if all_vals:`) leaves the fields as an update would |
| BookFields.Put | book_data/models/product_template.py:229-230 | A value is added under its field when present, and the map is unchanged otherwise |
| ProductRecord.Blank | book_data/models/product_template.py:229 | An unset field reads as falsy, a number for weight and price and a text otherwise |
| ProductRecord.FilledIn | book_data/models/product_template.py:229-259 | The filled fields are exactly those holding a truthy value |
| ProductRecord.ProductTemplate.Get | book_data/models/product_template.py:229-259 | An unset field reads as blank; on a valid record numbers are read from the numeric fields only |
| ProductRecord.ProductTemplate.Filled | book_data/models/product_template.py:229-259 | The record's filled fields are exactly those whose current value is truthy |
| ProductRecord.ProductTemplate.Update | book_data/models/product_template.py:117-118 | `update(vals)`: every proposed field takes its value, every other field keeps its own, and barcode, reference, vendors and flag are unchanged |
| Hardcover.FetchEdition | book_data/models/product_template.py:184-217 | A failed request is an error; the first edition comes back exactly when the payload has no `errors` and a non-empty `editions` list |
| Hardcover.EditionTitle | book_data/models/product_template.py:225-228 | A title exists exactly when the edition or its book has one; with a subtitle it is "title: subtitle" |
| Hardcover.ContributionAuthors | book_data/models/product_template.py:238-239 | Raises exactly when some contribution's author is `null`; otherwise the names are exactly the non-empty names of the contributions, no more of them than contributions; their order and repetitions are stated by `ContributionAuthorsConcat` and `ContributionAuthorsOne` |
| Hardcover.ContributionAuthorsConcat | book_data/models/product_template.py:238-239 | The names of `a + b` are the names of `a` followed by those of `b`, and `a + b` raises exactly when one half does: contribution order and repeated names are kept |
| Hardcover.ContributionAuthorsOne | book_data/models/product_template.py:238-239 | One contribution gives its name when it is non-empty, nothing when absent or empty, and raises on `null` |
| Hardcover.Offered | book_data/models/product_template.py:224-262 | An edition offers only non-empty texts, and never a weight or a price |
| Hardcover.Offers | book_data/models/product_template.py:219-262 | The offer map holds exactly the fields the edition offers, with the offered values |
| Hardcover.EditionVals | book_data/models/product_template.py:219-264 | The parse fails exactly on a `null` author; otherwise it proposes well-typed non-empty texts the policy wants, never a weight or a price |
| Hardcover.ParseEdition | book_data/models/product_template.py:219-264 | The parse on the record equals `EditionVals` against the record's filled fields |
| Hardcover.CollectAuthors | book_data/models/product_template.py:238-239 | The comprehension loop yields `ContributionAuthors` (the `null` author error included) |
| Hardcover.ContributionAuthorsNull | book_data/models/product_template.py:239 | A `null` author anywhere makes the whole comprehension raise |
| Hardcover.AuthorsInOrder | book_data/models/product_template.py:238-241 | The author text is `ContributionAuthors`' names joined with ", ", starting with the first; that list is in contribution order by `ContributionAuthorsConcat` |
| Hardcover.ForcedIgnoresRecord | book_data/models/product_template.py:229-259 | Under `force` the proposal does not depend on what the record holds |
| Hardcover.GapFillSkipsFilled | book_data/models/product_template.py:229-259 | Without `force` a filled field is never proposed |
| Hardcover.ForcedTitle | book_data/models/product_template.py:225-230 | Under `force` the title is proposed exactly when the edition or book has one, as the composed title |
| Hardcover.ForcedDescription | book_data/models/product_template.py:233-235 | Under `force` the description is proposed exactly when the book has one, wrapped in `<p>` |
| Onix.FirstTagged | book_data/models/product_template.py:309 | The position found holds the tag and no earlier element does; none is found only when no element holds it |
| Onix.Find | book_data/models/product_template.py:309 | `find` returns a child with the qualified tag; it returns none exactly when no child has that tag |
| Onix.FindAll | book_data/models/product_template.py:312-315 | `findall` returns exactly the children with the qualified tag; it is `Tagged` of the children, so `TaggedConcat` gives document order, which every first-match scan over it relies on |
| Onix.Tagged | book_data/models/product_template.py:312-315 | The filter keeps exactly the elements with the tag, and never more than there are |
| Onix.TaggedConcat | book_data/models/product_template.py:312-315 | Filtering `a + b` is filtering `a`, then `b`: document order and repeated elements are kept |
| Onix.TaggedOne | book_data/models/product_template.py:312-315 | One element is kept exactly when it has the tag |
| Onix.FindPathConcat | book_data/models/product_template.py:302-310 | Walking `p + q` is walking `p`, then `q` from where `p` ended |
| Onix.FindPathStops | book_data/models/product_template.py:306-308 | A missing step makes the whole walk give none |
| Onix.TitlepageFind | book_data/models/product_template.py:302-310 | The loop returns the path walk `FindPath` |
| Onix.FirstWithCode | book_data/models/product_template.py:327-339 | The position found carries the code and no earlier element does; none is found only when no element carries it |
| Onix.FirstOfType | book_data/models/product_template.py:327-339 | The scan-and-break loop returns the first element carrying the code |
| Titlepage.FetchProduct | book_data/models/product_template.py:280-300 | A product comes back only from a successful, well-formed response, as its first `Product` child; a 404 gives none |
| Titlepage.TextOf | book_data/models/product_template.py:334 | `el is not None and el.text`: some text exactly when the element exists and has non-empty text |
| Titlepage.Ceil | book_data/models/product_template.py:424 | `math.ceil`: the least integer not below the amount |
| Titlepage.ReformatDate | book_data/models/product_template.py:365-368 | An 8-digit date gets dashes after the year and the month and keeps its digits; any other text is unchanged |
| Titlepage.DetailTitle | book_data/models/product_template.py:330-338 | A distinctive title, when there is one, is non-empty |
| Titlepage.TitleIn | book_data/models/product_template.py:326-339 | The title from the first distinctive `TitleDetail`, when there is one, is non-empty |
| Titlepage.AuthorNames | book_data/models/product_template.py:343-348 | The names are exactly those of the author-role contributors, all non-empty, no more of them than contributors |
| Titlepage.AuthorNamesConcat | book_data/models/product_template.py:344-348 | Author names keep document order |
| Titlepage.AuthorsIn | book_data/models/product_template.py:342-350 | Every author name of `DescriptiveDetail` is non-empty |
| Titlepage.PublisherIn | book_data/models/product_template.py:353-356 | A publisher, when there is one, is non-empty |
| Titlepage.DateIn | book_data/models/product_template.py:359-370 | A publication date, when there is one, is non-empty |
| Titlepage.DescriptionIn | book_data/models/product_template.py:373-380 | A description, when there is one, is non-empty |
| Titlepage.CoverIn | book_data/models/product_template.py:383-394 | A downloaded cover, when there is one, is non-empty |
| Titlepage.ProductSections | book_data/models/product_template.py:320-408 | Every text the sections offer is non-empty |
| Titlepage.SectionOffers | book_data/models/product_template.py:320-408 | The offer map gives exactly each section's offer, is well-typed, and has no list price |
| Titlepage.SectionOffersNonEmpty | book_data/models/product_template.py:326-394 | Every text field the sections offer is non-empty |
| Titlepage.ScanFindsFirstTarget | book_data/models/product_template.py:411-432 | The first NZ supply decides the terms once the supplies before it are passed over |
| Titlepage.ScanFindsNothing | book_data/models/product_template.py:411-432 | When every supply is passed over there are no terms and no error |
| Titlepage.ScanRaises | book_data/models/product_template.py:412-413 | A territory without text raises unless an NZ supply comes before it |
| Titlepage.WithPrice | book_data/models/product_template.py:417-427 | The list price is set when the supply states one, and the values are unchanged otherwise |
| Titlepage.ProductVals | book_data/models/product_template.py:317-434 | The parse fails exactly when the supply scan raises; otherwise the values are well-typed, every field but the price is wanted by the policy, texts are non-empty, and a price is proposed exactly when the NZ supply states one |
| Titlepage.Partners | book_data/models/product_template.py:445 | The partners are exactly those of the seller lines |
| Titlepage.LinkVendor | book_data/models/product_template.py:436-452 | No match, or a partner that already is a vendor, changes nothing; otherwise one line with minimum quantity 1 is appended |
| Titlepage.LinkVendorPartners | book_data/models/product_template.py:436-452 | Linking keeps every existing line and makes the matched partner a vendor |
| Titlepage.LinkVendorIdempotent | book_data/models/product_template.py:445-446 | Linking again changes nothing |
| Titlepage.LinkVendorDistinct | book_data/models/product_template.py:445-452 | Linking never puts a partner on two lines |
| Titlepage.SetVendor | book_data/models/product_template.py:436-452 | The record's vendors become `LinkVendor` of the searched partner; nothing else changes |
| Titlepage.CollectAuthors | book_data/models/product_template.py:343-348 | The author loop returns `AuthorNames` |
| Titlepage.ScanSupply | book_data/models/product_template.py:411-432 | The supply loop returns `ScanSupplies`, including its error |
| Titlepage.ReadTitle | book_data/models/product_template.py:326-339 | The title loop returns `TitleIn` |
| Titlepage.ReadWeight | book_data/models/product_template.py:397-408 | The weight loop returns `WeightIn` |
| Titlepage.ReadPublishing | book_data/models/product_template.py:353-370 | The publishing walks return `PublisherIn` and `DateIn` |
| Titlepage.ReadCollateral | book_data/models/product_template.py:373-394 | The collateral walks return `DescriptionIn` and `CoverIn` |
| Titlepage.ReadSections | book_data/models/product_template.py:320-408 | The section walks return `ProductSections` |
| Titlepage.ParseProduct | book_data/models/product_template.py:317-434 | The parse returns `ProductVals` against the record's filled fields, links the NZ supplier, and leaves the fields unchanged |
| Titlepage.ForcedIgnoresRecord | book_data/models/product_template.py:326-408 | Under `force` the proposal does not depend on what the record holds |
| Titlepage.PriceUngated | book_data/models/product_template.py:411-427 | The NZ list price is proposed whatever `force` and the record say |
| Titlepage.GapFillSkipsFilled | book_data/models/product_template.py:326-408 | Without `force` a filled field (the price aside) is never proposed |
| Titlepage.WeightExample | book_data/models/product_template.py:397-405 | A measurement of "450" grams gives a weight of 0.45 |
| Titlepage.WeightNotNumeric | book_data/models/product_template.py:403-407 | A measurement of "n/a" gives no weight and no error |
| Titlepage.CeilExamples | book_data/models/product_template.py:424 | 24.01 rounds up to 25, 24.00 stays 24 |
| BookData.HardcoverValsShape | book_data/models/product_template.py:78-88 | What Hardcover contributes is well-typed non-empty text that the policy wants, never a weight or a price |
| BookData.TitlepageValsShape | book_data/models/product_template.py:95-105 | What Titlepage contributes is well-typed, wanted by the policy (the price aside), with non-empty texts |
| BookData.GapFillKeepsHardcover | book_data/models/product_template.py:94-118 | After the onchange, a field Hardcover proposed holds Hardcover's value |
| BookData.GapFillKeepsFilled | book_data/models/product_template.py:64-118 | The onchange never changes a field that already held a value, the list price aside |
| BookData.PriorityMerge | book_data/models/product_template.py:156 | The merged fields are those of both catalogs |
| BookData.HardcoverWins | book_data/models/product_template.py:155-156 | In the merge Hardcover wins every collision, and Titlepage supplies the rest |
| BookData.RefreshSources | book_data/models/product_template.py:127-148 | No source is named exactly when neither catalog yielded a value |
| BookData.RefreshIgnoresRecord | book_data/models/product_template.py:125-150 | The refresh's reads do not depend on which fields the record holds |
| BookData.HardcoverIgnoresRecord | book_data/models/product_template.py:130-139 | The forced Hardcover read does not depend on the record's fields |
| BookData.TitlepageIgnoresRecord | book_data/models/product_template.py:141-150 | The forced Titlepage read does not depend on the record's fields |
| BookData.HardcoverPart | book_data/models/product_template.py:130-139 | The Hardcover block returns `HardcoverContribution`: nothing without a key, a failed fetch or a raising parse |
| BookData.TitlepagePart | book_data/models/product_template.py:89-105 | The Titlepage block applies the pending values only when a product came back, parses against the record so updated, and links the vendor |
| BookData.OnchangeBarcode | book_data/models/product_template.py:64-118 | A non-ISBN barcode changes nothing. An ISBN is copied to an empty internal reference, the fields become `GapFill` of the old ones, the vendor is linked, and the warning comes exactly when neither catalog is configured |
| BookData.GapFillBookData | book_data/models/product_template.py:74-118 | The fields become `GapFill`, the vendors `VendorLink`, and the warning comes exactly when neither catalog is configured |
| BookData.GatherBookData | book_data/models/product_template.py:74-105 | The gathered values are Hardcover's, then Titlepage's against the record with Hardcover's applied; the record holds Hardcover's values only when Titlepage yielded a product |
| BookData.TitlepageGapFill | book_data/models/product_template.py:89-105 | The Titlepage block of the onchange over Hardcover's values, and the union of both |
| BookData.OnchangeFields | book_data/models/product_template.py:96-118 | Whether or not Hardcover's values were applied early, the last write lands on `GapFill`; unconfigured, nothing changes |
| BookData.RefreshBookData | book_data/models/product_template.py:119-172 | A non-ISBN barcode, missing keys and empty reads are errors that leave the record as it was; otherwise the fields take Titlepage's values overlaid by Hardcover's, and the sources are named |
| BookData.ForcedRefresh | book_data/models/product_template.py:125-172 | Missing keys are an error; "no data" exactly when both forced reads are empty, and then the record is as it was; otherwise the fields take Titlepage's values overlaid by Hardcover's, and the vendor is linked |
| BookData.WriteRefresh | book_data/models/product_template.py:155-172 | "No data" exactly when both reads are empty, and then the record is restored; otherwise the priority merge is written and reported |
| BookData.NameSources | book_data/models/product_template.py:127-148 | The sources appended are `RefreshSources` |
| BookData.ForcedRead | book_data/models/product_template.py:125-150 | Both forced reads are taken against the original record, and the vendor is linked |
| Text.JoinEnds | web_search/models/product_template.py:25 | A join starts with the first part and ends with the last |
| Text.JoinNonEmpty | web_search/models/product_template.py:24-25 | A join of non-empty parts is empty exactly when there are no parts |
| Text.NatToStringValue | bookscan_export/models/bookscan_export.py:100 | `str(n)` reads back as `n` |
| Text.PadLeftValue | bookscan_export/models/bookscan_export.py:98 | A zero-padded number below 10^width has width digits and reads back as itself |
| Text.IntToStringRoundTrip | bookscan_export/models/bookscan_export.py:129 | `int(str(i)) == i` |
| Text.ParsePointed | book_data/models/product_template.py:404 | Digits, a point and digits read as the whole part plus the shifted fraction |
| Text.NoDigitsNotNumber | book_data/models/product_template.py:403-407 | A text without digits (such as "n/a") is never a number |
| Text.NatParsesAsDecimal | book_data/models/product_template.py:404 | The digits of a natural number read back through `float()` as that number |
| Calendar.PrevDay | bookscan_export/models/bookscan_export.py:163 | The day before is valid, earlier, and its next day is today; there is none exactly for the first representable date |
| BookscanExport.Trunc | bookscan_export/models/bookscan_export.py:99 | `int(qty)` truncates toward zero |
| BookscanExport.RoundHalfEven | bookscan_export/models/bookscan_export.py:100 | The nearest whole number, ties going to the even one |
| BookscanExport.RoundedPrice | bookscan_export/models/bookscan_export.py:100 | The price the two-decimal text stands for is within half a cent of the price |
| BookscanExport.PriceRoundTrip | bookscan_export/models/bookscan_export.py:100 | The two-decimal text reads back through `float()` as the rounded price |
| BookscanExport.CentsRoundTrip | bookscan_export/models/bookscan_export.py:100 | A count of cents written with its point reads back as that many hundredths |
| BookscanExport.PriceTwoDecimals | bookscan_export/models/bookscan_export.py:100 | The price text always ends with a point and exactly two digits |
| BookscanExport.PriceExamples | bookscan_export/models/bookscan_export.py:100 | 12.5 is "12.50", 0.125 is "0.12" (ties to even), -0.001 is "-0.00" |
| BookscanExport.YmdRoundTrip | bookscan_export/models/bookscan_export.py:98 | A valid date's `%Y%m%d` text has eight digits and reads back as the date |
| BookscanExport.FormatRow | bookscan_export/models/bookscan_export.py:97-119 | Seven cells with a location, five without, starting with the outlet and ending with the date |
| BookscanExport.RowRoundTrip | bookscan_export/models/bookscan_export.py:97-119 | Every row reads back as the sale's outlet, location (when complete), ISBN, truncated quantity, rounded price and date |
| BookscanExport.RenderConcat | bookscan_export/models/bookscan_export.py:176 | The CSV of POS rows then website rows is the POS CSV followed by the website CSV |
| BookscanExport.RenderAt | bookscan_export/models/bookscan_export.py:97-120 | Each row's record sits between the records of the rows before and after it |
| BookscanExport.BuildCsv | bookscan_export/models/bookscan_export.py:93-120 | The writer loop produces `Render(rows)` |
| BookscanExport.FilenameParts | bookscan_export/models/bookscan_export.py:178 | The file name is the outlet, eight digits naming the last day, and ".csv" |
| BookscanExport.CronRange | bookscan_export/models/bookscan_export.py:160-164 | The range is yesterday alone; there is none exactly on the first representable date |
| BookscanExport.Param | bookscan_export/models/bookscan_export.py:128-132 | `get_param(key, default)`: a set, non-empty value is read as it is; an unset or empty one reads as the default |
| BookscanExport.OutletName | bookscan_export/models/bookscan_export.py:172 | The outlet name is never empty: the stored name when non-empty, `booksandco` otherwise |
| BookscanExport.EmptyPortIsDefault | bookscan_export/models/bookscan_export.py:128-130 | An unset or empty port reads as 22, so a host and a user name give a request on port 22 |
| BookscanExport.UploadRequestFor | bookscan_export/models/bookscan_export.py:125-143 | A non-integer port raises first, then a missing host or user; otherwise the request carries the configuration, with the key file used exactly when one is set |
| BookscanExport.NoSalesLogsSuccess | bookscan_export/models/bookscan_export.py:180-189 | A day without sales logs a success with no records |
| BookscanExport.SalesLogOutcome | bookscan_export/models/bookscan_export.py:191-211 | With sales, the entry counts the rows and is a success exactly when the upload returns, the error text otherwise |
| BookscanExport.UnconfiguredLogsError | bookscan_export/models/bookscan_export.py:134-135 | A missing host or user logs an error with the configuration message |
| BookscanExport.ExportLog.RunExport | bookscan_export/models/bookscan_export.py:169-211 | Exactly one entry is appended per run; the upload is attempted only with rows and a well-formed configuration |
| BookscanExport.ExportLog.CronExport | bookscan_export/models/bookscan_export.py:160-166 | Exports yesterday alone; on the first date nothing is logged |
| CustomerOrder.NoQuantNoStock | customer_to_order/models/customer_order.py:63-70 | A product without internal quants has no free stock (the `COALESCE`) |
| CustomerOrder.FreeQtyAppend | customer_to_order/models/customer_order.py:64-69 | Free stock is a sum over quants: splitting the quants splits it |
| CustomerOrder.StatusOf | customer_to_order/models/customer_order.py:47-59 | Available exactly when free stock covers the demand; on order exactly when it does not and an open purchase awaits goods; unordered otherwise |
| CustomerOrder.FirstCandidate | customer_to_order/models/customer_order.py:35-43 | None exactly when no vendor line is in force; otherwise one in force that precedes every other in (sequence, id) order |
| CustomerOrder.SellerIsPreferred | customer_to_order/models/customer_order.py:35-43 | The vendor is the partner of an in-force line preceding all in-force lines; none exactly when none is in force |
| CustomerOrder.View | customer_to_order/models/customer_order.py:27-73 | No more rows than sale lines |
| CustomerOrder.ViewRows | customer_to_order/models/customer_order.py:29-73 | Exactly the listed sale lines appear; each row's remaining quantity is positive and is ordered minus delivered, its vendor is the preferred vendor, and its status follows free stock and open purchases |
| CustomerOrder.LatestTarget | customer_to_order/models/customer_order.py:99-103 | The vendor's newest draft customer-order purchase, or none exactly when there is none |
| CustomerOrder.LatestTargetStable | customer_to_order/models/customer_order.py:97-108 | Orders created for other vendors do not change which order a vendor's search finds |
| CustomerOrder.QtyOfRaise | customer_to_order/models/customer_order.py:113-114 | Raising a line's quantity raises only its own order's total for its product |
| CustomerOrder.QtyOfAppend | customer_to_order/models/customer_order.py:116-120 | A new line adds its quantity to its own order's total |
| CustomerOrder.FirstLine | customer_to_order/models/customer_order.py:110-112 | The line found belongs to the order and product; none only when no line does |
| CustomerOrder.PurchaseStore.CreateOrder | customer_to_order/models/customer_order.py:104-108 | A new draft customer-order purchase for the vendor is appended; the lines are unchanged |
| CustomerOrder.PurchaseStore.AddQuantity | customer_to_order/models/customer_order.py:109-120 | The quantity goes onto the first matching line or a new one; only that order's total for that product rises, by the quantity; every line keeps its order, product and received quantity, and a new line is unreceived |
| CustomerOrder.UnorderedRows | customer_to_order/models/customer_order.py:78 | Exactly the selected rows whose status is unordered |
| CustomerOrder.VendorsOf | customer_to_order/models/customer_order.py:82-89 | The vendors of the rows, each once |
| CustomerOrder.RowsOf | customer_to_order/models/customer_order.py:88-89 | Exactly the rows of one vendor |
| CustomerOrder.MissingVendor | customer_to_order/models/customer_order.py:83-86 | The products of the rows without a vendor, each once |
| CustomerOrder.GroupByVendor | customer_to_order/models/customer_order.py:82-89 | The loop's groups hold each vendor's rows, and it collects the products without a vendor |
| CustomerOrder.CreditOfTouched | customer_to_order/models/customer_order.py:97-121 | With one order per vendor, an order gets exactly its vendor's demand |
| CustomerOrder.UncreditedOrder | customer_to_order/models/customer_order.py:97-121 | An order the action did not use gets nothing |
| CustomerOrder.LinesKeptTrans | customer_to_order/models/customer_order.py:109-120 | Two steps that only raise quantities of lines of the used orders, or add unreceived lines to them, together do only that |
| CustomerOrder.AddGroup | customer_to_order/models/customer_order.py:109-120 | Each product's total on the order rises by the group's remaining quantity and other orders' totals are unchanged; the orders are unchanged, every old line keeps its order, product and received quantity, only lines of this order change quantity, and new lines are unreceived lines of this order |
| CustomerOrder.OrderFor | customer_to_order/models/customer_order.py:99-108 | The vendor's newest draft customer-order purchase is reused with nothing changed, or exactly one new draft is appended and used; the lines are unchanged |
| CustomerOrder.ServeVendor | customer_to_order/models/customer_order.py:98-121 | One vendor's turn keeps the loop's state: the vendor gets its own order, distinct from the earlier ones, any order added is that vendor's new draft and is the one used, the lines are only changed on that order, and every total rises by the vendor's demand on that order |
| CustomerOrder.CreditOfOrders | customer_to_order/models/customer_order.py:97-121 | With distinct orders, each used order gets exactly its vendor's demand and every other order nothing |
| CustomerOrder.FillOrders | customer_to_order/models/customer_order.py:97-121 | One distinct order per vendor; existing orders kept; every order added is a draft customer-order purchase of a vendor and one of the orders used, so no vendor gets two; every old line keeps its order, product and received quantity and only lines of used orders change; new lines are unreceived lines of used orders; every total raised by its vendor's demand |
| CustomerOrder.OpenOrders | customer_to_order/models/customer_order.py:97-135 | Each vendor's order gains that vendor's demand, other orders nothing, with the orders and lines framed as in FillOrders; the form opens exactly when there is one vendor |
| CustomerOrder.ActionCreatePo | customer_to_order/models/customer_order.py:77-135 | No unordered row, or a row without a vendor, raises and writes nothing; otherwise each vendor's order gains that vendor's demand, other orders' totals are unchanged, the only orders added are drafts among the orders opened (one per vendor at most), old lines keep order, product and received quantity, only lines of opened orders change, and the form opens exactly when one order was used |
| WebSearch.SearchDetail.AddBookFields | web_search/models/product_template.py:8-13 | Author and publisher are appended to both field lists, and `subtitle` maps to the subtitle text; other entries are kept |
| WebSearch.SubtitleParts | web_search/models/product_template.py:19-23 | At most two parts, all non-empty |
| WebSearch.Subtitle | web_search/models/product_template.py:19-25 | Author and publisher joined by the separator, or the one that is set, or none exactly when neither is set |
| WebSearch.SubtitleOrder | web_search/models/product_template.py:24-25 | A subtitle is non-empty, and with both set it starts with the author and ends with the publisher |
| WebSearch.RenderResults | web_search/models/product_template.py:15-26 | Each result paired with a product gains its subtitle; results past the shorter list are unchanged |
| WebSearch.WithSubtitleKeeps | web_search/models/product_template.py:24-25 | A result keeps every other entry, and has the subtitle entry exactly when its product has a subtitle |

## Left out

- HTTP, JSON and XML decoding: the model starts from the decoded replies. The same holds for the GraphQL query text, timeouts and redirects.
- Logging, the 15-second image download itself and its base64 encoding: the download is an input function, and a failure reads as `None`.
- The partner `ilike` search: it is an input function from the supplier name to a partner.
- SQL: the `customer.order` view and the two sales queries (their state, date and `^97[89]` filters) are functions of table contents or inputs, not SQL.
- The view's `_order` (newest sale order first): rows come in sale-line order.
- paramiko: the connection, key loading, temporary file and `put` are one transport function, which returns the exception text or nothing.
- BookscanExport.Line: cells are joined with commas and ended with `\r\n`, but cells holding a comma, quote or line break are not quoted as `csv.writer` would quote them.
- BookscanExport.FormatYmd: years below 1000 are written with four digits, where the platform's `%Y` may not pad them.
- BookscanExport.RoundedPrice: prices and quantities are exact reals. The binary floating-point value that Python rounds is not modelled.
- Text.ParseDecimal: reads only plain decimals (a sign, digits, an optional point). Exponents, `inf`/`nan`, surrounding whitespace and underscores that `float()` accepts are read as errors.
- Text.ParseInt: reads only an optional minus and digits. A `+`, surrounding whitespace or underscores that `int()` accepts are read as errors.
- BookscanExport.ErrorText: the port's text is quoted without `repr` escaping.
- The export log's creation time (`export_date`): it is left to the clock.
- Settings screens (`res_config_settings`), manifests, views and access rules: they are configuration, not behaviour.
- `action_view_on_hardcover`: it only builds a URL action from the barcode.
- CustomerOrder.LatestTarget: the purchase search's default order (priority first, then newest) is modelled as the newest order.
- CustomerOrder.ActionCreatePo: the "no vendor" error carries the product ids, not their display names. Message translation is not modelled.
- WebSearch.RenderResults: result dictionaries are modelled as text-to-text maps; their other entries are kept as they are.
- Titlepage.ProductVals: the sections are read first and gated afterwards, while the source gates each section before reading it. The two agree because the image download is an input function without effects.
- Titlepage.ReformatDate: only the ASCII digits '0'-'9' count as digits. `str.isdigit()` also accepts other Unicode digits (Arabic-Indic digits, superscripts), so an eight-character date written with them gets dashes in the source and is kept unchanged here.
- Titlepage.ProductVals: a `PriceAmount` that `float()` reads as infinite (`inf`, `1e400`) makes `math.ceil` raise `OverflowError`, which the price's `except ValueError` does not catch. The whole Titlepage parse then raises, so no vendor is linked and Titlepage contributes nothing. The model reads such a text as no number, so it proposes no price, keeps Titlepage's other values and links the vendor.
- CustomerOrder.FirstLine: the line incremented is the first matching line in the order the store holds them. The source takes the first of `po.order_line`, which is ordered by (sequence, id), so after a user re-sequences the lines a different duplicate line may be the one incremented. Each (order, product) total is the same either way.
- The ORM: recordsets, `ensure_one`, computed-field storage and transactions are not modelled. The refresh's rollback on "no data" is modelled by restoring the vendor lines.
