/**
 * The two orchestrations of the book-metadata reconciler: the barcode
 * onchange, which fills gaps (Hardcover first, then Titlepage against the
 * record Hardcover has already filled), and the refresh button, which
 * overwrites (Titlepage as the base, Hardcover winning every collision).
 */
module BookData {
  import opened Wrappers
  import opened Isbn
  import opened BookFields
  import opened ProductRecord
  import opened Onix
  import opened Hardcover
  import opened Titlepage

  /** The two credentials from the system parameters; "" stands for an unset parameter. */
  datatype Config = Config(hardcoverKey: string, titlepageToken: string)

  predicate Configured(config: Config)
  {
    config.hardcoverKey != "" || config.titlepageToken != ""
  }

  /** A catalog named in the refresh notification. */
  datatype Source = HardcoverSource | TitlepageSource

  /** What the onchange returns: nothing, or the "Book Data APIs Not Configured" warning. */
  datatype OnchangeResult = NoWarning | NotConfiguredWarning

  /** The `UserError`s the refresh raises. */
  datatype RefreshError = InvalidIsbn | NotConfigured | NoData

  /** The "Book Data Refreshed" notification: the sources that contributed and the fields written. */
  datatype Refreshed = Refreshed(sources: seq<Source>, fields: set<Field>)

  /**
   * What Hardcover contributes: the parsed first edition, or nothing when the
   * request fails, there is no edition, or the parse raises (the orchestrations
   * catch and log every exception).
   */
  function HardcoverVals(reply: HardcoverReply, force: bool, filled: set<Field>, download: string -> Option<string>)
    : FieldMap
  {
    match FetchEdition(reply)
    case Ok(Some(e)) =>
      (match EditionVals(e, force, filled, download)
       case Ok(vals) => vals
       case Err(_) => map[])
    case _ => map[]
  }

  /** Hardcover proposes only non-empty text fields the policy wants, never a weight or a price. */
  lemma HardcoverValsShape(reply: HardcoverReply, force: bool, filled: set<Field>, download: string -> Option<string>)
    ensures var r := HardcoverVals(reply, force, filled, download);
      WellTyped(r) && AllNonEmpty(r) && Weight !in r && ListPrice !in r
      && forall f :: f in r ==> Wanted(f, force, filled)
  {
  }

  /** What Titlepage contributes from a fetched product: its parse, or nothing when the parse raises. */
  function TitlepageVals(product: Element, force: bool, filled: set<Field>, download: string -> Option<string>)
    : FieldMap
  {
    match ProductVals(product, force, filled, download)
    case Ok(vals) => vals
    case Err(_) => map[]
  }

  /** Titlepage proposes only fields the policy wants (the price aside), with non-empty texts. */
  lemma TitlepageValsShape(product: Element, force: bool, filled: set<Field>, download: string -> Option<string>)
    ensures var r := TitlepageVals(product, force, filled, download);
      WellTyped(r) && (forall f :: f in r && f != ListPrice ==> Wanted(f, force, filled))
      && forall f :: f in r && !IsNumeric(f) ==> NonEmpty(r[f])
  {
  }

  /** The product Titlepage yields when it is configured. */
  function TitlepageProduct(config: Config, reply: TitlepageReply): Option<Element>
  {
    if config.titlepageToken != "" then FetchProduct(reply) else None
  }

  /** What the Hardcover block contributes: nothing without a key. */
  function HardcoverContribution(config: Config, reply: HardcoverReply, force: bool, filled: set<Field>,
                                 download: string -> Option<string>): FieldMap
  {
    if config.hardcoverKey != "" then HardcoverVals(reply, force, filled, download) else map[]
  }

  /** What the Titlepage block contributes: nothing without a token or a product. */
  function TitlepageContribution(config: Config, reply: TitlepageReply, force: bool, filled: set<Field>,
                                 download: string -> Option<string>): FieldMap
  {
    var product := TitlepageProduct(config, reply);
    if product.None? then map[] else TitlepageVals(product.value, force, filled, download)
  }

  /** The vendor lines after the Titlepage block: linked when a product came back, untouched otherwise. */
  function VendorLink(config: Config, reply: TitlepageReply, sellers: seq<SellerLine>,
                      lookup: string -> Option<PartnerId>): seq<SellerLine>
  {
    var product := TitlepageProduct(config, reply);
    if product.None? then sellers else VendorsAfter(sellers, product.value, lookup)
  }

  /** The Hardcover values of the onchange, gated against the record as it was. */
  function GapFillHardcover(fields: FieldMap, config: Config, hcReply: HardcoverReply, download: string -> Option<string>)
    : FieldMap
  {
    HardcoverContribution(config, hcReply, false, FilledIn(fields), download)
  }

  /** The Titlepage values of the onchange, gated against the record after Hardcover's values. */
  function GapFillTitlepage(fields: FieldMap, config: Config, hcReply: HardcoverReply, tpReply: TitlepageReply,
                            download: string -> Option<string>): FieldMap
  {
    TitlepageContribution(config, tpReply, false, FilledIn(fields + GapFillHardcover(fields, config, hcReply, download)), download)
  }

  /** The record's fields after the onchange: Hardcover's values, then Titlepage's, over the old ones. */
  function GapFill(fields: FieldMap, config: Config, hcReply: HardcoverReply, tpReply: TitlepageReply,
                   download: string -> Option<string>): FieldMap
  {
    fields + GapFillHardcover(fields, config, hcReply, download) + GapFillTitlepage(fields, config, hcReply, tpReply, download)
  }

  /** Gap filling never lets Titlepage replace a value Hardcover proposed. */
  lemma GapFillKeepsHardcover(fields: FieldMap, config: Config, hcReply: HardcoverReply, tpReply: TitlepageReply,
                              download: string -> Option<string>, f: Field)
    requires f in GapFillHardcover(fields, config, hcReply, download)
    ensures GapFill(fields, config, hcReply, tpReply, download)[f] == GapFillHardcover(fields, config, hcReply, download)[f]
  {
    var hc := GapFillHardcover(fields, config, hcReply, download);
    HardcoverValsShape(hcReply, false, FilledIn(fields), download);
    assert NonEmpty(hc[f]);
    assert f in FilledIn(fields + hc);
    var product := TitlepageProduct(config, tpReply);
    if product.Some? {
      TitlepageValsShape(product.value, false, FilledIn(fields + hc), download);
    }
    assert f !in GapFillTitlepage(fields, config, hcReply, tpReply, download);
  }

  /** Gap filling never changes a field that already held a value (the list price aside). */
  lemma GapFillKeepsFilled(fields: FieldMap, config: Config, hcReply: HardcoverReply, tpReply: TitlepageReply,
                           download: string -> Option<string>, f: Field)
    requires f in FilledIn(fields) && f != ListPrice
    ensures f in GapFill(fields, config, hcReply, tpReply, download)
    ensures GapFill(fields, config, hcReply, tpReply, download)[f] == fields[f]
  {
    var hc := GapFillHardcover(fields, config, hcReply, download);
    HardcoverValsShape(hcReply, false, FilledIn(fields), download);
    assert f !in hc;
    assert f in FilledIn(fields + hc);
    var product := TitlepageProduct(config, tpReply);
    if product.Some? {
      TitlepageValsShape(product.value, false, FilledIn(fields + hc), download);
    }
    assert f !in GapFillTitlepage(fields, config, hcReply, tpReply, download);
  }

  /** `{**titlepage_vals, **hardcover_vals}` */
  function PriorityMerge(tp: FieldMap, hc: FieldMap): (r: FieldMap)
    ensures r.Keys == tp.Keys + hc.Keys
  {
    tp + hc
  }

  /** The sources named in the notification: those that yielded a non-empty update, Hardcover first. */
  function RefreshSources(hc: FieldMap, tp: FieldMap): (r: seq<Source>)
    ensures r == [] <==> |hc| == 0 && |tp| == 0
  {
    (if |hc| != 0 then [HardcoverSource] else []) + (if |tp| != 0 then [TitlepageSource] else [])
  }

  /** In the merge Hardcover wins every collision, and Titlepage fills the rest. */
  lemma HardcoverWins(tp: FieldMap, hc: FieldMap, f: Field)
    ensures f in hc ==> PriorityMerge(tp, hc)[f] == hc[f]
    ensures f in tp && f !in hc ==> PriorityMerge(tp, hc)[f] == tp[f]
  {
  }

  /** The refresh overwrites: what it writes does not depend on the record's current values. */
  lemma RefreshIgnoresRecord(config: Config, hcReply: HardcoverReply, tpReply: TitlepageReply,
                             a: set<Field>, b: set<Field>, download: string -> Option<string>)
    ensures HardcoverContribution(config, hcReply, true, a, download) == HardcoverContribution(config, hcReply, true, b, download)
    ensures TitlepageContribution(config, tpReply, true, a, download) == TitlepageContribution(config, tpReply, true, b, download)
  {
    HardcoverIgnoresRecord(config, hcReply, a, b, download);
    TitlepageIgnoresRecord(config, tpReply, a, b, download);
  }

  /** Forced, the Hardcover block's values do not depend on which fields the record holds. */
  lemma HardcoverIgnoresRecord(config: Config, hcReply: HardcoverReply, a: set<Field>, b: set<Field>,
                               download: string -> Option<string>)
    ensures HardcoverContribution(config, hcReply, true, a, download) == HardcoverContribution(config, hcReply, true, b, download)
  {
    match FetchEdition(hcReply) {
      case Ok(Some(e)) => Hardcover.ForcedIgnoresRecord(e, a, b, download);
      case _ =>
    }
  }

  /** Forced, the Titlepage block's values do not depend on which fields the record holds. */
  lemma TitlepageIgnoresRecord(config: Config, tpReply: TitlepageReply, a: set<Field>, b: set<Field>,
                               download: string -> Option<string>)
    ensures TitlepageContribution(config, tpReply, true, a, download) == TitlepageContribution(config, tpReply, true, b, download)
  {
    var product := TitlepageProduct(config, tpReply);
    if product.Some? {
      Titlepage.ForcedIgnoresRecord(product.value, a, b, download);
    }
  }

  /**
   * The Hardcover block of both orchestrations: with a key, fetch the edition
   * and parse it against the record; a failure of either contributes nothing.
   */
  method HardcoverPart(rec: ProductTemplate, config: Config, hcReply: HardcoverReply, force: bool,
                       download: string -> Option<string>)
    returns (vals: FieldMap)
    ensures WellTyped(vals)
    ensures vals == HardcoverContribution(config, hcReply, force, FilledIn(rec.fields), download)
  {
    vals := map[];
    if config.hardcoverKey != "" {
      var edition := FetchEdition(hcReply);
      if edition.Ok? && edition.value.Some? {
        var parsed := ParseEdition(rec, edition.value.value, force, download);
        if parsed.Ok? {
          vals := parsed.value;
        }
      }
    }
  }

  /**
   * The Titlepage block of both orchestrations: with a token, fetch the
   * product; when there is one, first apply the values gathered so far
   * (`pending`, only in the onchange), then parse it against the record and
   * link its supplier; a failed parse contributes nothing.
   */
  method TitlepagePart(rec: ProductTemplate, config: Config, tpReply: TitlepageReply, force: bool, pending: FieldMap,
                       download: string -> Option<string>, lookup: string -> Option<PartnerId>)
    returns (vals: FieldMap)
    requires rec.Valid() && WellTyped(pending)
    modifies rec
    ensures rec.Valid() && rec.barcode == old(rec.barcode) && rec.isIsbn == old(rec.isIsbn)
    ensures rec.defaultCode == old(rec.defaultCode) && WellTyped(vals)
    ensures rec.fields == if TitlepageProduct(config, tpReply).None? then old(rec.fields) else old(rec.fields) + pending
    ensures vals == TitlepageContribution(config, tpReply, force, FilledIn(old(rec.fields) + pending), download)
    ensures rec.sellers == VendorLink(config, tpReply, old(rec.sellers), lookup)
  {
    vals := map[];
    if config.titlepageToken != "" {
      var product := FetchProduct(tpReply);
      if product.Some? {
        if |pending| != 0 {
          rec.Update(pending);
        } else {
          EmptyUpdate(rec.fields, pending);
        }
        var parsed := ParseProduct(rec, product.value, force, download, lookup);
        if parsed.Ok? {
          vals := parsed.value;
        }
      }
    }
  }

  /**
   * `_onchange_barcode_fetch_book_data`: for an ISBN barcode, copies it to the
   * internal reference when that is empty, then gathers and applies the
   * catalogs' values (`GapFillBookData`).
   */
  method OnchangeBarcode(rec: ProductTemplate, config: Config, hcReply: HardcoverReply, tpReply: TitlepageReply,
                         download: string -> Option<string>, lookup: string -> Option<PartnerId>)
    returns (res: OnchangeResult)
    requires rec.Valid()
    modifies rec
    ensures rec.Valid() && rec.barcode == old(rec.barcode) && rec.isIsbn == old(rec.isIsbn)
    ensures !IsIsbn(rec.barcode) ==>
      res == NoWarning && rec.fields == old(rec.fields) && rec.sellers == old(rec.sellers)
      && rec.defaultCode == old(rec.defaultCode)
    ensures IsIsbn(rec.barcode) ==>
      rec.defaultCode == (if old(rec.defaultCode) == "" then rec.barcode else old(rec.defaultCode))
      && rec.fields == GapFill(old(rec.fields), config, hcReply, tpReply, download)
      && rec.sellers == VendorLink(config, tpReply, old(rec.sellers), lookup)
      && (res == NotConfiguredWarning <==> !Configured(config))
  {
    if !IsIsbn(rec.barcode) {
      return NoWarning;
    }
    if rec.defaultCode == "" {
      rec.defaultCode := rec.barcode;
    }
    res := GapFillBookData(rec, config, hcReply, tpReply, download, lookup);
  }

  /**
   * The fetching half of the onchange: applies Hardcover's values before
   * Titlepage parses (so Titlepage only fills gaps), then applies everything.
   */
  method GapFillBookData(rec: ProductTemplate, config: Config, hcReply: HardcoverReply, tpReply: TitlepageReply,
                         download: string -> Option<string>, lookup: string -> Option<PartnerId>)
    returns (res: OnchangeResult)
    requires rec.Valid()
    modifies rec
    ensures rec.Valid() && rec.barcode == old(rec.barcode) && rec.isIsbn == old(rec.isIsbn)
    ensures rec.defaultCode == old(rec.defaultCode)
    ensures rec.fields == GapFill(old(rec.fields), config, hcReply, tpReply, download)
    ensures rec.sellers == VendorLink(config, tpReply, old(rec.sellers), lookup)
    ensures res == NotConfiguredWarning <==> !Configured(config)
  {
    ghost var fields0 := rec.fields;
    var allVals, hc, tp := GatherBookData(rec, config, hcReply, tpReply, download, lookup);
    OnchangeFields(fields0, rec.fields, config, hcReply, tpReply, download, hc, tp);
    if !Configured(config) {
      EmptyUpdate(fields0, hc);
      return NotConfiguredWarning;
    }
    if |allVals| != 0 {
      rec.Update(allVals);
    } else {
      EmptyUpdate(rec.fields, allVals);
    }
    res := NoWarning;
  }

  /**
   * The two catalog blocks of the onchange: Hardcover's values `hc` are
   * applied before Titlepage parses, and both are returned for the final write.
   */
  method GatherBookData(rec: ProductTemplate, config: Config, hcReply: HardcoverReply, tpReply: TitlepageReply,
                        download: string -> Option<string>, lookup: string -> Option<PartnerId>)
    returns (allVals: FieldMap, ghost hc: FieldMap, ghost tp: FieldMap)
    requires rec.Valid()
    modifies rec
    ensures rec.Valid() && rec.barcode == old(rec.barcode) && rec.isIsbn == old(rec.isIsbn)
    ensures rec.defaultCode == old(rec.defaultCode) && WellTyped(allVals)
    ensures hc == HardcoverContribution(config, hcReply, false, FilledIn(old(rec.fields)), download)
    ensures tp == TitlepageContribution(config, tpReply, false, FilledIn(old(rec.fields) + hc), download)
    ensures allVals == hc + tp
    ensures rec.fields == if TitlepageProduct(config, tpReply).None? then old(rec.fields) else old(rec.fields) + hc
    ensures rec.sellers == VendorLink(config, tpReply, old(rec.sellers), lookup)
  {
    var hardcoverVals := HardcoverPart(rec, config, hcReply, false, download);
    hc := hardcoverVals;
    allVals, tp := TitlepageGapFill(rec, config, tpReply, hardcoverVals, download, lookup);
  }

  /** The onchange's Titlepage block over Hardcover's values `hc`, and the values both blocks gathered. */
  method TitlepageGapFill(rec: ProductTemplate, config: Config, tpReply: TitlepageReply, hc: FieldMap,
                          download: string -> Option<string>, lookup: string -> Option<PartnerId>)
    returns (allVals: FieldMap, ghost tp: FieldMap)
    requires rec.Valid() && WellTyped(hc)
    modifies rec
    ensures rec.Valid() && rec.barcode == old(rec.barcode) && rec.isIsbn == old(rec.isIsbn)
    ensures rec.defaultCode == old(rec.defaultCode) && WellTyped(allVals)
    ensures tp == TitlepageContribution(config, tpReply, false, FilledIn(old(rec.fields) + hc), download)
    ensures allVals == hc + tp
    ensures rec.fields == if TitlepageProduct(config, tpReply).None? then old(rec.fields) else old(rec.fields) + hc
    ensures rec.sellers == VendorLink(config, tpReply, old(rec.sellers), lookup)
  {
    var vals := TitlepagePart(rec, config, tpReply, false, hc, download, lookup);
    tp := vals;
    allVals := Gathered(hc, vals);
  }

  /** `all_vals.update(vals)` behind `if vals:`; skipping an empty update loses nothing. */
  method Gathered(allVals: FieldMap, vals: FieldMap) returns (r: FieldMap)
    requires WellTyped(allVals) && WellTyped(vals)
    ensures r == allVals + vals && WellTyped(r)
  {
    r := allVals;
    if |vals| != 0 {
      r := r + vals;
    } else {
      EmptyUpdate(r, vals);
    }
  }

  /** The onchange's last write lands on `GapFill`, whatever the Titlepage block applied before it. */
  lemma OnchangeFields(fields0: FieldMap, fields1: FieldMap, config: Config, hcReply: HardcoverReply,
                       tpReply: TitlepageReply, download: string -> Option<string>, hc: FieldMap, tp: FieldMap)
    requires hc == HardcoverContribution(config, hcReply, false, FilledIn(fields0), download)
    requires tp == TitlepageContribution(config, tpReply, false, FilledIn(fields0 + hc), download)
    requires fields1 == fields0 || fields1 == fields0 + hc
    ensures fields1 + (hc + tp) == GapFill(fields0, config, hcReply, tpReply, download)
    ensures !Configured(config) ==> |hc| == 0 && |tp| == 0 && fields0 == GapFill(fields0, config, hcReply, tpReply, download)
  {
    ApplyTwice(fields0, hc, tp);
    if !Configured(config) {
      ApplyTwice(fields0, map[], map[]);
    }
  }

  /**
   * `action_refresh_book_data`: refuses a barcode that is not an ISBN, then
   * re-reads both catalogs (`ForcedRefresh`).
   */
  method RefreshBookData(rec: ProductTemplate, config: Config, hcReply: HardcoverReply, tpReply: TitlepageReply,
                         download: string -> Option<string>, lookup: string -> Option<PartnerId>)
    returns (r: Result<Refreshed, RefreshError>)
    requires rec.Valid()
    modifies rec
    ensures rec.Valid() && rec.barcode == old(rec.barcode) && rec.isIsbn == old(rec.isIsbn)
    ensures rec.defaultCode == old(rec.defaultCode)
    ensures r.Err? ==> rec.fields == old(rec.fields) && rec.sellers == old(rec.sellers)
    ensures !IsIsbn(rec.barcode) ==> r == Err(InvalidIsbn)
    ensures IsIsbn(rec.barcode) && !Configured(config) ==> r == Err(NotConfigured)
    ensures IsIsbn(rec.barcode) && Configured(config) ==>
      var hc := HardcoverContribution(config, hcReply, true, FilledIn(old(rec.fields)), download);
      var tp := TitlepageContribution(config, tpReply, true, FilledIn(old(rec.fields)), download);
      (r.Err? <==> |hc| == 0 && |tp| == 0)
      && (r.Err? ==> r.error == NoData)
      && (r.Ok? ==> r.value == Refreshed(RefreshSources(hc, tp), PriorityMerge(tp, hc).Keys)
                    && rec.fields == old(rec.fields) + PriorityMerge(tp, hc))
    ensures r.Ok? ==> rec.sellers == VendorLink(config, tpReply, old(rec.sellers), lookup)
  {
    if !IsIsbn(rec.barcode) {
      return Err(InvalidIsbn);
    }
    r := ForcedRefresh(rec, config, hcReply, tpReply, download, lookup);
  }

  /**
   * The fetching half of the refresh: re-reads both catalogs with `force`,
   * writes the Titlepage values overlaid by Hardcover's, and reports the
   * sources; a `UserError` rolls the whole transaction back, the vendor link
   * included.
   */
  method ForcedRefresh(rec: ProductTemplate, config: Config, hcReply: HardcoverReply, tpReply: TitlepageReply,
                       download: string -> Option<string>, lookup: string -> Option<PartnerId>)
    returns (r: Result<Refreshed, RefreshError>)
    requires rec.Valid()
    modifies rec
    ensures rec.Valid() && rec.barcode == old(rec.barcode) && rec.isIsbn == old(rec.isIsbn)
    ensures rec.defaultCode == old(rec.defaultCode)
    ensures r.Err? ==> rec.fields == old(rec.fields) && rec.sellers == old(rec.sellers)
    ensures !Configured(config) ==> r == Err(NotConfigured)
    ensures Configured(config) ==>
      var hc := HardcoverContribution(config, hcReply, true, FilledIn(old(rec.fields)), download);
      var tp := TitlepageContribution(config, tpReply, true, FilledIn(old(rec.fields)), download);
      (r.Err? <==> |hc| == 0 && |tp| == 0)
      && (r.Err? ==> r.error == NoData)
      && (r.Ok? ==> r.value == Refreshed(RefreshSources(hc, tp), PriorityMerge(tp, hc).Keys)
                    && rec.fields == old(rec.fields) + PriorityMerge(tp, hc))
    ensures r.Ok? ==> rec.sellers == VendorLink(config, tpReply, old(rec.sellers), lookup)
  {
    var savedSellers := rec.sellers;
    var hardcoverVals, titlepageVals := ForcedRead(rec, config, hcReply, tpReply, download, lookup);
    if !Configured(config) {
      return Err(NotConfigured);
    }
    r := WriteRefresh(rec, hardcoverVals, titlepageVals, savedSellers);
  }

  /**
   * The writing half of the refresh: names the sources that yielded values,
   * writes the Titlepage values overlaid by Hardcover's, and raises "no data"
   * (restoring the vendor lines, as the rollback does) when neither yielded any.
   */
  method WriteRefresh(rec: ProductTemplate, hardcoverVals: FieldMap, titlepageVals: FieldMap,
                      savedSellers: seq<SellerLine>)
    returns (r: Result<Refreshed, RefreshError>)
    requires rec.Valid() && WellTyped(hardcoverVals) && WellTyped(titlepageVals)
    modifies rec
    ensures rec.Valid() && rec.barcode == old(rec.barcode) && rec.isIsbn == old(rec.isIsbn)
    ensures rec.defaultCode == old(rec.defaultCode)
    ensures r.Err? <==> |hardcoverVals| == 0 && |titlepageVals| == 0
    ensures r.Err? ==> r.error == NoData && rec.fields == old(rec.fields) && rec.sellers == savedSellers
    ensures r.Ok? ==>
      r.value == Refreshed(RefreshSources(hardcoverVals, titlepageVals), PriorityMerge(titlepageVals, hardcoverVals).Keys)
      && rec.fields == old(rec.fields) + PriorityMerge(titlepageVals, hardcoverVals)
      && rec.sellers == old(rec.sellers)
  {
    var sources := NameSources(hardcoverVals, titlepageVals);
    var allVals := titlepageVals + hardcoverVals;
    if |allVals| != 0 {
      rec.Update(allVals);
    } else {
      EmptyUpdate(rec.fields, allVals);
    }
    if sources != [] {
      return Ok(Refreshed(sources, allVals.Keys));
    }
    rec.sellers := savedSellers;
    r := Err(NoData);
  }

  /** `sources.append(...)` for each catalog whose update is not empty, Hardcover first. */
  method NameSources(hardcoverVals: FieldMap, titlepageVals: FieldMap) returns (sources: seq<Source>)
    ensures sources == RefreshSources(hardcoverVals, titlepageVals)
  {
    sources := [];
    if |hardcoverVals| != 0 {
      sources := sources + [HardcoverSource];
    }
    assert sources == if |hardcoverVals| != 0 then [HardcoverSource] else [];
    if |titlepageVals| != 0 {
      sources := sources + [TitlepageSource];
    }
  }

  /** The two reads of the refresh, both forced and both against the record as it was. */
  method ForcedRead(rec: ProductTemplate, config: Config, hcReply: HardcoverReply, tpReply: TitlepageReply,
                    download: string -> Option<string>, lookup: string -> Option<PartnerId>)
    returns (hardcoverVals: FieldMap, titlepageVals: FieldMap)
    requires rec.Valid()
    modifies rec
    ensures rec.Valid() && rec.barcode == old(rec.barcode) && rec.isIsbn == old(rec.isIsbn)
    ensures rec.defaultCode == old(rec.defaultCode) && rec.fields == old(rec.fields)
    ensures WellTyped(hardcoverVals) && WellTyped(titlepageVals)
    ensures hardcoverVals == HardcoverContribution(config, hcReply, true, FilledIn(old(rec.fields)), download)
    ensures titlepageVals == TitlepageContribution(config, tpReply, true, FilledIn(old(rec.fields)), download)
    ensures rec.sellers == VendorLink(config, tpReply, old(rec.sellers), lookup)
  {
    hardcoverVals := HardcoverPart(rec, config, hcReply, true, download);
    ApplyTwice(rec.fields, map[], map[]);
    titlepageVals := TitlepagePart(rec, config, tpReply, true, map[], download, lookup);
  }
}
