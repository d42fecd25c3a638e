/**
 * The Titlepage catalog (ONIX 3.1 over REST): the pure part of the product
 * fetch, the ONIX Product parser, and the vendor link it makes from the New
 * Zealand supply.
 */
module Titlepage {
  import opened Wrappers
  import opened Text
  import opened Onix
  import opened BookFields
  import opened ProductRecord

  // ONIX for Books 3.1 code-list values the parser selects on.
  const TITLE_TYPE_DISTINCTIVE := "01"       // List 15, distinctive title
  const ROLE_AUTHOR := "A01"                 // List 17, "By (author)"
  const DATE_ROLE_PUBLICATION := "01"        // List 163, publication date
  const TEXT_TYPE_DESCRIPTION := "03"        // List 153, description
  const CONTENT_TYPE_FRONT_COVER := "01"     // List 158, front cover
  const MEASURE_TYPE_WEIGHT := "08"          // List 48, unit weight
  const PRICE_TYPE_RRP_INC_TAX := "02"       // List 58, RRP including tax

  /** The market whose supply the parser prices and links a vendor from. */
  const TARGET_COUNTRY := "NZ"

  const MARKET_PATH := ["Market", "Territory", "CountriesIncluded"]

  // ---- fetch ----

  /**
   * The HTTP exchange after the request: a transport failure, or a status with
   * the decoded document (`None` when the body is not well-formed XML).
   */
  datatype TitlepageReply = RequestFailed | Response(status: int, document: Option<Element>)

  /** `raise_for_status()` raises for client and server errors. */
  predicate IsHttpError(status: int)
  {
    400 <= status < 600
  }

  /**
   * `_titlepage_fetch_product` after the request: 404, any other HTTP error, a
   * failed request and malformed XML all give `None`; otherwise the root's
   * first `Product` child, if it has one.
   */
  function FetchProduct(reply: TitlepageReply): (r: Option<Element>)
    ensures r.Some? ==>
      reply.Response? && !IsHttpError(reply.status) && reply.document.Some? && r == Find(reply.document.value, "Product")
    ensures reply.Response? && !IsHttpError(reply.status) && reply.document.Some? ==>
      r == Find(reply.document.value, "Product")
    ensures reply.Response? && reply.status == 404 ==> r.None?
  {
    match reply
    case RequestFailed => None
    case Response(status, document) =>
      if status == 404 then None
      else if IsHttpError(status) then None
      else if document.None? then None
      else Find(document.value, "Product")
  }

  // ---- small conversions ----

  /** The text of an optional element when it is present and non-empty (`el is not None and el.text`). */
  function TextOf(el: Option<Element>): (r: Option<string>)
    ensures r.Some? <==> el.Some? && Truthy(el.value.text)
    ensures r.Some? ==> r == el.value.text && r.value != ""
  {
    if el.Some? && Truthy(el.value.text) then el.value.text else None
  }

  /** `math.ceil(x)`: the least integer not below `x`. */
  function Ceil(x: real): (r: int)
    ensures (r - 1) as real < x <= r as real
  {
    if x.Floor as real == x then x.Floor else x.Floor + 1
  }

  /** An ASCII-digit compact date `YYYYMMDD`. */
  predicate IsCompactDate(raw: string)
  {
    |raw| == 8 && forall i :: 0 <= i < 8 ==> IsDigit(raw[i])
  }

  /** A compact `YYYYMMDD` date becomes `YYYY-MM-DD`; any other text is kept as it is. */
  function ReformatDate(raw: string): (r: string)
    ensures IsCompactDate(raw) ==>
      |r| == 10 && r[4] == '-' && r[7] == '-' && r[..4] + r[5..7] + r[8..] == raw
    ensures !IsCompactDate(raw) ==> r == raw
  {
    if IsCompactDate(raw) then
      var r := raw[..4] + "-" + raw[4..6] + "-" + raw[6..];
      assert r[..4] == raw[..4] && r[5..7] == raw[4..6] && r[8..] == raw[6..];
      assert raw[..4] + raw[4..6] + raw[6..] == raw;
      r
    else raw
  }

  // ---- the product's sections ----

  /** The values the product's sections offer, before the inclusion policy. */
  datatype Sections = Sections(
    title: Option<string>,
    authors: seq<string>,
    publisher: Option<string>,
    date: Option<string>,
    description: Option<string>,
    cover: Option<string>,
    weight: Option<real>)

  /** Every text a section offers is non-empty. */
  predicate WellFormed(s: Sections)
  {
    (s.title.Some? ==> s.title.value != "")
    && (forall i :: 0 <= i < |s.authors| ==> s.authors[i] != "")
    && (s.publisher.Some? ==> s.publisher.value != "")
    && (s.date.Some? ==> s.date.value != "")
    && (s.description.Some? ==> s.description.value != "")
    && (s.cover.Some? ==> s.cover.value != "")
  }

  /** The title of a distinctive-title `TitleDetail`: "text: subtitle", or the text alone. */
  function DetailTitle(td: Element): (r: Option<string>)
    ensures r.Some? ==> r.value != ""
  {
    match Find(td, "TitleElement")
    case None => None
    case Some(te) =>
      match TextOf(Find(te, "TitleText"))
      case None => None
      case Some(text) =>
        match TextOf(Find(te, "Subtitle"))
        case None => Some(text)
        case Some(subtitle) => Some(text + ": " + subtitle)
  }

  /** The title offered by `DescriptiveDetail`: only the first distinctive `TitleDetail` is consulted. */
  function TitleIn(descriptive: Option<Element>): (r: Option<string>)
    ensures r.Some? ==> r.value != ""
  {
    if descriptive.None? then None
    else match FirstCoded(FindAll(descriptive.value, "TitleDetail"), "TitleType", TITLE_TYPE_DISTINCTIVE)
      case None => None
      case Some(td) => DetailTitle(td)
  }

  /** A contributor in the author role with a non-empty personal name `name`. */
  predicate AuthorNamed(contributor: Element, name: string)
  {
    HasCode(contributor, "ContributorRole", ROLE_AUTHOR) && TextOf(Find(contributor, "PersonName")) == Some(name)
  }

  /** The names of the author-role contributors, in document order. */
  function AuthorNames(contributors: seq<Element>): (r: seq<string>)
    ensures forall x :: x in r <==> exists i :: 0 <= i < |contributors| && AuthorNamed(contributors[i], x)
    ensures forall i :: 0 <= i < |r| ==> r[i] != ""
    ensures |r| <= |contributors|
  {
    if contributors == [] then []
    else
      var c := contributors[|contributors| - 1];
      var names := AuthorNames(contributors[..|contributors| - 1]);
      assert forall i :: 0 <= i < |contributors| - 1 ==> contributors[..|contributors| - 1][i] == contributors[i];
      var name := TextOf(Find(c, "PersonName"));
      if HasCode(c, "ContributorRole", ROLE_AUTHOR) && name.Some? then names + [name.value] else names
  }

  /** Author names keep document order: the names of `a + b` are those of `a` followed by those of `b`. */
  lemma {:induction false} AuthorNamesConcat(a: seq<Element>, b: seq<Element>)
    ensures AuthorNames(a + b) == AuthorNames(a) + AuthorNames(b)
    decreases |b|
  {
    if b == [] {
      assert a + b == a;
    } else {
      var b' := b[..|b| - 1];
      assert (a + b)[..|a + b| - 1] == a + b';
      assert (a + b)[|a + b| - 1] == b[|b| - 1];
      AuthorNamesConcat(a, b');
    }
  }

  /** The names of the author-role contributors of `DescriptiveDetail`. */
  function AuthorsIn(descriptive: Option<Element>): (r: seq<string>)
    ensures forall i :: 0 <= i < |r| ==> r[i] != ""
  {
    if descriptive.None? then [] else AuthorNames(FindAll(descriptive.value, "Contributor"))
  }

  /** `PublishingDetail/Publisher/PublisherName`, when it has text. */
  function PublisherIn(publishing: Option<Element>): (r: Option<string>)
    ensures r.Some? ==> r.value != ""
  {
    if publishing.None? then None else TextOf(FindPath(publishing.value, ["Publisher", "PublisherName"]))
  }

  /** The date of the first publication-date `PublishingDate`, reformatted. */
  function DateIn(publishing: Option<Element>): (r: Option<string>)
    ensures r.Some? ==> r.value != ""
  {
    if publishing.None? then None
    else match FirstCoded(FindAll(publishing.value, "PublishingDate"), "PublishingDateRole", DATE_ROLE_PUBLICATION)
      case None => None
      case Some(pd) =>
        match TextOf(Find(pd, "Date"))
        case None => None
        case Some(raw) => Some(ReformatDate(raw))
  }

  /** The text of the first description `TextContent`. */
  function DescriptionIn(collateral: Option<Element>): (r: Option<string>)
    ensures r.Some? ==> r.value != ""
  {
    if collateral.None? then None
    else match FirstCoded(FindAll(collateral.value, "TextContent"), "TextType", TEXT_TYPE_DESCRIPTION)
      case None => None
      case Some(tc) => TextOf(Find(tc, "Text"))
  }

  /** The downloaded link of the first front-cover `SupportingResource`. */
  function CoverIn(collateral: Option<Element>, download: string -> Option<string>): (r: Option<string>)
    ensures r.Some? ==> r.value != ""
  {
    if collateral.None? then None
    else match FirstCoded(FindAll(collateral.value, "SupportingResource"), "ResourceContentType", CONTENT_TYPE_FRONT_COVER)
      case None => None
      case Some(sr) =>
        match Find(sr, "ResourceVersion")
        case None => None
        case Some(rv) =>
          match TextOf(Find(rv, "ResourceLink"))
          case None => None
          case Some(link) => if Truthy(download(link)) then download(link) else None
  }

  /** The weight in kilograms of the first weight `Measure` (its measurement is in grams). */
  function WeightIn(descriptive: Option<Element>): Option<real>
  {
    if descriptive.None? then None
    else match FirstCoded(FindAll(descriptive.value, "Measure"), "MeasureType", MEASURE_TYPE_WEIGHT)
      case None => None
      case Some(m) =>
        match TextOf(Find(m, "Measurement"))
        case None => None
        case Some(text) =>
          match ParseDecimal(text)
          case None => None
          case Some(grams) => Some(grams / 1000.0)
  }

  /** Everything the product's descriptive, collateral and publishing details offer. */
  function ProductSections(product: Element, download: string -> Option<string>): (s: Sections)
    ensures WellFormed(s)
  {
    var descriptive := FindPath(product, ["DescriptiveDetail"]);
    var collateral := FindPath(product, ["CollateralDetail"]);
    var publishing := FindPath(product, ["PublishingDetail"]);
    Sections(TitleIn(descriptive), AuthorsIn(descriptive), PublisherIn(publishing), DateIn(publishing),
             DescriptionIn(collateral), CoverIn(collateral, download), WeightIn(descriptive))
  }

  /** The value the sections offer for one field; the price comes from the supply instead. */
  function SectionOffer(s: Sections, f: Field): Option<Value>
  {
    match f
    case Name => if s.title.Some? then Some(Text(s.title.value)) else None
    case Author => if s.authors != [] then Some(Text(Join(s.authors, ", "))) else None
    case Publisher => if s.publisher.Some? then Some(Text(s.publisher.value)) else None
    case PublicationDate => if s.date.Some? then Some(Text(s.date.value)) else None
    case Description => if s.description.Some? then Some(Text(s.description.value)) else None
    case Image => if s.cover.Some? then Some(Text(s.cover.value)) else None
    case Weight => if s.weight.Some? then Some(Number(s.weight.value)) else None
    case ListPrice => None
  }

  /** The sections as a field map. */
  function SectionOffers(s: Sections): (r: FieldMap)
    ensures forall f :: Lookup(r, f) == SectionOffer(s, f)
    ensures WellTyped(r) && ListPrice !in r
  {
    AllFields();
    map f | f in ALL_FIELDS && SectionOffer(s, f).Some? :: SectionOffer(s, f).value
  }

  /** Every text the sections offer is non-empty (a weight may be zero). */
  lemma SectionOffersNonEmpty(s: Sections)
    requires WellFormed(s)
    ensures forall f :: f in SectionOffers(s) && !IsNumeric(f) ==> NonEmpty(SectionOffers(s)[f])
  {
    var offers := SectionOffers(s);
    forall f | f in offers && !IsNumeric(f)
      ensures NonEmpty(offers[f])
    {
      assert Lookup(offers, f) == SectionOffer(s, f);
      if f == Author {
        assert forall i :: 0 <= i < |s.authors| ==> s.authors[i] in s.authors;
        JoinNonEmpty(s.authors, ", ");
      }
    }
  }

  // ---- the supply ----

  /** The list price and supplier name a supply detail states. */
  datatype SupplyTerms = SupplyTerms(price: Option<int>, supplier: Option<string>)

  const NO_TERMS := SupplyTerms(None, None)

  /** The first RRP-including-tax `Price`, rounded up to whole dollars. */
  function PriceIn(supply: Element): Option<int>
  {
    match FirstCoded(FindAll(supply, "Price"), "PriceType", PRICE_TYPE_RRP_INC_TAX)
    case None => None
    case Some(p) =>
      match TextOf(Find(p, "PriceAmount"))
      case None => None
      case Some(text) =>
        match ParseDecimal(text)
        case None => None
        case Some(amount) => Some(Ceil(amount))
  }

  /** The terms of a `ProductSupply`: none without a `SupplyDetail`. */
  function TermsOf(ps: Element): SupplyTerms
  {
    match Find(ps, "SupplyDetail")
    case None => NO_TERMS
    case Some(supply) => SupplyTerms(PriceIn(supply), TextOf(FindPath(supply, ["Supplier", "SupplierName"])))
  }

  /** A supply the scan passes over: no territory, or a territory list without the target country. */
  predicate PassedOver(ps: Element)
  {
    var mt := FindPath(ps, MARKET_PATH);
    mt.None? || (mt.value.text.Some? && !Contains(mt.value.text.value, TARGET_COUNTRY))
  }

  /** A supply for the target market. */
  predicate ForTarget(ps: Element)
  {
    var mt := FindPath(ps, MARKET_PATH);
    mt.Some? && mt.value.text.Some? && Contains(mt.value.text.value, TARGET_COUNTRY)
  }

  /**
   * The scan over the `ProductSupply` elements: the terms of the first supply
   * for the target market; a territory element without text makes
   * `'NZ' in None` raise.
   */
  function ScanSupplies(supplies: seq<Element>): Result<SupplyTerms, ParseError>
  {
    if supplies == [] then Ok(NO_TERMS)
    else
      var mt := FindPath(supplies[0], MARKET_PATH);
      if mt.None? then ScanSupplies(supplies[1..])
      else if mt.value.text.None? then Err(CountriesWithoutText)
      else if Contains(mt.value.text.value, TARGET_COUNTRY) then Ok(TermsOf(supplies[0]))
      else ScanSupplies(supplies[1..])
  }

  /** The first target-market supply decides the terms; the ones before it are passed over. */
  lemma {:induction false} ScanFindsFirstTarget(supplies: seq<Element>, i: nat)
    requires i < |supplies| && ForTarget(supplies[i])
    requires forall j :: 0 <= j < i ==> PassedOver(supplies[j])
    ensures ScanSupplies(supplies) == Ok(TermsOf(supplies[i]))
    decreases i
  {
    if i > 0 {
      assert PassedOver(supplies[0]);
      ScanFindsFirstTarget(supplies[1..], i - 1);
    }
  }

  /** Without any target-market supply (and no text-less territory) there are no terms. */
  lemma {:induction false} ScanFindsNothing(supplies: seq<Element>)
    requires forall j :: 0 <= j < |supplies| ==> PassedOver(supplies[j])
    ensures ScanSupplies(supplies) == Ok(NO_TERMS)
    decreases |supplies|
  {
    if supplies != [] {
      assert PassedOver(supplies[0]);
      ScanFindsNothing(supplies[1..]);
    }
  }

  /** A text-less territory raises unless a target-market supply comes before it. */
  lemma {:induction false} ScanRaises(supplies: seq<Element>, i: nat)
    requires i < |supplies| && FindPath(supplies[i], MARKET_PATH).Some?
    requires FindPath(supplies[i], MARKET_PATH).value.text.None?
    requires forall j :: 0 <= j < i ==> PassedOver(supplies[j])
    ensures ScanSupplies(supplies) == Err(CountriesWithoutText)
    decreases i
  {
    if i > 0 {
      assert PassedOver(supplies[0]);
      ScanRaises(supplies[1..], i - 1);
    }
  }

  // ---- the parser ----

  /** Sets the list price when the supply states one (`list_price` is not subject to the policy). */
  function WithPrice(vals: FieldMap, price: Option<int>): (r: FieldMap)
    ensures price.Some? ==> r == vals[ListPrice := Number(price.value as real)]
    ensures price.None? ==> r == vals
  {
    if price.Some? then vals[ListPrice := Number(price.value as real)] else vals
  }

  /**
   * `_titlepage_parse_product`: the sparse update proposed from one ONIX
   * Product, every section gated by the inclusion policy except the list price.
   */
  function ProductVals(product: Element, force: bool, filled: set<Field>, download: string -> Option<string>)
    : (r: Result<FieldMap, ParseError>)
    ensures r.Err? <==> ScanSupplies(FindAll(product, "ProductSupply")).Err?
    ensures r.Ok? ==> WellTyped(r.value)
    ensures r.Ok? ==> forall f :: f in r.value && f != ListPrice ==> Wanted(f, force, filled)
    ensures r.Ok? ==> forall f :: f in r.value && !IsNumeric(f) ==> NonEmpty(r.value[f])
    ensures r.Ok? ==> (ListPrice in r.value <==> ScanSupplies(FindAll(product, "ProductSupply")).value.price.Some?)
  {
    match ScanSupplies(FindAll(product, "ProductSupply"))
    case Err(e) => Err(e)
    case Ok(terms) =>
      var s := ProductSections(product, download);
      var offers := SectionOffers(s);
      SectionOffersNonEmpty(s);
      Ok(WithPrice(Gated(offers, force, filled), terms.price))
  }

  /** The seller lines' partners. */
  function Partners(sellers: seq<SellerLine>): (r: set<PartnerId>)
    ensures forall p :: p in r <==> exists i :: 0 <= i < |sellers| && sellers[i].partner == p
  {
    set i | 0 <= i < |sellers| :: sellers[i].partner
  }

  /**
   * The vendor link: the matched partner is added as a seller with minimum
   * quantity 1, unless no partner matched or it already is a seller.
   */
  function LinkVendor(sellers: seq<SellerLine>, partner: Option<PartnerId>): (r: seq<SellerLine>)
    ensures partner.None? || partner.value in Partners(sellers) ==> r == sellers
    ensures partner.Some? && partner.value !in Partners(sellers) ==> r == sellers + [SellerLine(partner.value, 1)]
  {
    if partner.None? || partner.value in Partners(sellers) then sellers
    else sellers + [SellerLine(partner.value, 1)]
  }

  /** No partner appears on two seller lines. */
  predicate DistinctPartners(sellers: seq<SellerLine>)
  {
    forall i, j :: 0 <= i < j < |sellers| ==> sellers[i].partner != sellers[j].partner
  }

  /** Linking keeps every existing seller and makes the partner a seller. */
  lemma LinkVendorPartners(sellers: seq<SellerLine>, partner: Option<PartnerId>)
    ensures Partners(LinkVendor(sellers, partner)) == Partners(sellers) + (if partner.Some? then {partner.value} else {})
    ensures sellers <= LinkVendor(sellers, partner)
  {
    var r := LinkVendor(sellers, partner);
    if partner.Some? && partner.value !in Partners(sellers) {
      assert r[|sellers|].partner == partner.value;
      forall p | p in Partners(r)
        ensures p in Partners(sellers) || p == partner.value
      {
        var i :| 0 <= i < |r| && r[i].partner == p;
        if i < |sellers| {
          assert sellers[i].partner == p;
        }
      }
      forall p | p in Partners(sellers)
        ensures p in Partners(r)
      {
        var i :| 0 <= i < |sellers| && sellers[i].partner == p;
        assert r[i].partner == p;
      }
    }
  }

  /** Linking again changes nothing: repeated parsing never duplicates a seller. */
  lemma LinkVendorIdempotent(sellers: seq<SellerLine>, partner: Option<PartnerId>)
    ensures LinkVendor(LinkVendor(sellers, partner), partner) == LinkVendor(sellers, partner)
  {
    LinkVendorPartners(sellers, partner);
  }

  /** Linking never puts a partner on two lines. */
  lemma LinkVendorDistinct(sellers: seq<SellerLine>, partner: Option<PartnerId>)
    requires DistinctPartners(sellers)
    ensures DistinctPartners(LinkVendor(sellers, partner))
  {
    var r := LinkVendor(sellers, partner);
    if partner.Some? && partner.value !in Partners(sellers) {
      forall i, j | 0 <= i < j < |r|
        ensures r[i].partner != r[j].partner
      {
        if j == |sellers| {
          assert r[i] == sellers[i];
        }
      }
    }
  }

  /**
   * `_titlepage_set_vendor`: looks the supplier name up among the partners
   * (`lookup` stands for the `ilike` search) and adds the match as a vendor.
   */
  method SetVendor(rec: ProductTemplate, supplierName: string, lookup: string -> Option<PartnerId>)
    modifies rec
    ensures rec.sellers == LinkVendor(old(rec.sellers), lookup(supplierName))
    ensures rec.fields == old(rec.fields) && rec.barcode == old(rec.barcode)
    ensures rec.defaultCode == old(rec.defaultCode) && rec.isIsbn == old(rec.isIsbn)
  {
    var partner := lookup(supplierName);
    if partner.None? {
      return;
    }
    if partner.value in Partners(rec.sellers) {
      return;
    }
    rec.sellers := rec.sellers + [SellerLine(partner.value, 1)];
  }

  /** The author loop: every author-role contributor's name, in order. */
  method CollectAuthors(contributors: seq<Element>) returns (authors: seq<string>)
    ensures authors == AuthorNames(contributors)
  {
    authors := [];
    var i := 0;
    while i < |contributors|
      invariant 0 <= i <= |contributors|
      invariant authors == AuthorNames(contributors[..i])
    {
      assert contributors[..i + 1][..i] == contributors[..i];
      var role := Find(contributors[i], "ContributorRole");
      var name := Find(contributors[i], "PersonName");
      if role.Some? && role.value.text == Some(ROLE_AUTHOR) && name.Some? && Truthy(name.value.text) {
        authors := authors + [name.value.text.value];
      }
      i := i + 1;
    }
    assert contributors[..i] == contributors;
  }

  /** The supply loop: stops at the first target-market supply, raising on a text-less territory. */
  method ScanSupply(supplies: seq<Element>) returns (r: Result<SupplyTerms, ParseError>)
    ensures r == ScanSupplies(supplies)
  {
    var i := 0;
    while i < |supplies|
      invariant 0 <= i <= |supplies|
      invariant ScanSupplies(supplies) == ScanSupplies(supplies[i..])
    {
      assert supplies[i..][0] == supplies[i] && supplies[i..][1..] == supplies[i + 1..];
      var territory := TitlepageFind(supplies[i], MARKET_PATH);
      if territory.Some? {
        if territory.value.text.None? {
          return Err(CountriesWithoutText);
        }
        if Contains(territory.value.text.value, TARGET_COUNTRY) {
          return Ok(TermsOf(supplies[i]));
        }
      }
      i := i + 1;
    }
    r := Ok(NO_TERMS);
  }

  /** The title walk: the first distinctive `TitleDetail` only. */
  method ReadTitle(descriptive: Option<Element>) returns (title: Option<string>)
    ensures title == TitleIn(descriptive)
  {
    title := None;
    if descriptive.Some? {
      var td := FirstOfType(FindAll(descriptive.value, "TitleDetail"), "TitleType", TITLE_TYPE_DISTINCTIVE);
      if td.Some? {
        title := DetailTitle(td.value);
      }
    }
  }

  /** The weight walk: the first weight `Measure` only; a non-numeric measurement gives no weight. */
  method ReadWeight(descriptive: Option<Element>) returns (weight: Option<real>)
    ensures weight == WeightIn(descriptive)
  {
    weight := None;
    if descriptive.Some? {
      var m := FirstOfType(FindAll(descriptive.value, "Measure"), "MeasureType", MEASURE_TYPE_WEIGHT);
      if m.Some? {
        var measurement := TextOf(Find(m.value, "Measurement"));
        if measurement.Some? {
          var grams := ParseDecimal(measurement.value);
          if grams.Some? {
            weight := Some(grams.value / 1000.0);
          }
        }
      }
    }
  }

  /** The walks of `PublishingDetail`: the publisher name and the first publication date. */
  method ReadPublishing(publishing: Option<Element>) returns (publisher: Option<string>, date: Option<string>)
    ensures publisher == PublisherIn(publishing) && date == DateIn(publishing)
  {
    publisher, date := None, None;
    if publishing.Some? {
      var name := TitlepageFind(publishing.value, ["Publisher", "PublisherName"]);
      publisher := TextOf(name);
      var pd := FirstOfType(FindAll(publishing.value, "PublishingDate"), "PublishingDateRole", DATE_ROLE_PUBLICATION);
      if pd.Some? {
        var raw := TextOf(Find(pd.value, "Date"));
        if raw.Some? {
          date := Some(ReformatDate(raw.value));
        }
      }
    }
  }

  /** The walks of `CollateralDetail`: the first description and the first front cover, downloaded. */
  method ReadCollateral(collateral: Option<Element>, download: string -> Option<string>)
    returns (description: Option<string>, cover: Option<string>)
    ensures description == DescriptionIn(collateral) && cover == CoverIn(collateral, download)
  {
    description, cover := None, None;
    if collateral.Some? {
      var tc := FirstOfType(FindAll(collateral.value, "TextContent"), "TextType", TEXT_TYPE_DESCRIPTION);
      if tc.Some? {
        description := TextOf(Find(tc.value, "Text"));
      }
      var sr := FirstOfType(FindAll(collateral.value, "SupportingResource"), "ResourceContentType", CONTENT_TYPE_FRONT_COVER);
      if sr.Some? {
        var rv := Find(sr.value, "ResourceVersion");
        if rv.Some? {
          var link := TextOf(Find(rv.value, "ResourceLink"));
          if link.Some? {
            var data := download(link.value);
            if Truthy(data) {
              cover := data;
            }
          }
        }
      }
    }
  }

  /** The section walks of the parser, each stopping at its first matching entry. */
  method ReadSections(product: Element, download: string -> Option<string>) returns (s: Sections)
    ensures s == ProductSections(product, download)
  {
    var descriptive := TitlepageFind(product, ["DescriptiveDetail"]);
    var collateral := TitlepageFind(product, ["CollateralDetail"]);
    var publishing := TitlepageFind(product, ["PublishingDetail"]);
    var title := ReadTitle(descriptive);
    var authors: seq<string> := [];
    if descriptive.Some? {
      authors := CollectAuthors(FindAll(descriptive.value, "Contributor"));
    }
    var weight := ReadWeight(descriptive);
    var publisher, date := ReadPublishing(publishing);
    var description, cover := ReadCollateral(collateral, download);
    s := Sections(title, authors, publisher, date, description, cover, weight);
  }

  /**
   * `_titlepage_parse_product` on the record: reads which fields are filled,
   * walks the sections, scans the supplies (linking the supplier as a vendor)
   * and returns the proposed update.
   */
  method ParseProduct(rec: ProductTemplate, product: Element, force: bool,
                      download: string -> Option<string>, lookup: string -> Option<PartnerId>)
    returns (r: Result<FieldMap, ParseError>)
    modifies rec
    ensures r == ProductVals(product, force, old(rec.Filled()), download)
    ensures rec.sellers == VendorsAfter(old(rec.sellers), product, lookup)
    ensures rec.fields == old(rec.fields) && rec.barcode == old(rec.barcode)
    ensures rec.defaultCode == old(rec.defaultCode) && rec.isIsbn == old(rec.isIsbn)
  {
    var filled := rec.Filled();
    var sections := ReadSections(product, download);
    var terms := ScanSupply(FindAll(product, "ProductSupply"));
    if terms.Err? {
      return Err(terms.error);
    }
    if terms.value.supplier.Some? {
      SetVendor(rec, terms.value.supplier.value, lookup);
    }
    r := Ok(WithPrice(Gated(SectionOffers(sections), force, filled), terms.value.price));
  }

  /** The seller lines after a parse: the supplier of the target-market supply linked, if any. */
  function VendorsAfter(sellers: seq<SellerLine>, product: Element, lookup: string -> Option<PartnerId>): seq<SellerLine>
  {
    match ScanSupplies(FindAll(product, "ProductSupply"))
    case Ok(SupplyTerms(_, Some(name))) => LinkVendor(sellers, lookup(name))
    case _ => sellers
  }

  // ---- properties of the parser ----

  /** Under `force` the proposal does not depend on what the record already holds. */
  lemma ForcedIgnoresRecord(product: Element, a: set<Field>, b: set<Field>, download: string -> Option<string>)
    ensures ProductVals(product, true, a, download) == ProductVals(product, true, b, download)
  {
    var offers := SectionOffers(ProductSections(product, download));
    GatedForced(offers, a);
    GatedForced(offers, b);
  }

  /** The list price is proposed whatever the record holds and whatever `force` says. */
  lemma PriceUngated(product: Element, force: bool, filled: set<Field>, download: string -> Option<string>)
    requires ScanSupplies(FindAll(product, "ProductSupply")).Ok?
    requires ScanSupplies(FindAll(product, "ProductSupply")).value.price.Some?
    ensures var r := ProductVals(product, force, filled, download);
      r.Ok? && r.value[ListPrice] == Number(ScanSupplies(FindAll(product, "ProductSupply")).value.price.value as real)
  {
  }

  /** Without `force`, a field the record already fills is never proposed (the price aside). */
  lemma GapFillSkipsFilled(product: Element, filled: set<Field>, download: string -> Option<string>, f: Field)
    requires f in filled && f != ListPrice
    ensures ProductVals(product, false, filled, download).Ok? ==> f !in ProductVals(product, false, filled, download).value
  {
  }

  /** A measurement of "450" grams is a weight of 0.45 kilograms. */
  lemma WeightExample(m: Element, descriptive: Element)
    requires HasCode(m, "MeasureType", MEASURE_TYPE_WEIGHT)
    requires Find(m, "Measurement").Some? && Find(m, "Measurement").value.text == Some("450")
    requires descriptive.children == [m] && m.tag == Qualified("Measure")
    ensures WeightIn(Some(descriptive)) == Some(0.45)
  {
    assert FindAll(descriptive, "Measure") == [m];
    assert FirstCoded([m], "MeasureType", MEASURE_TYPE_WEIGHT) == Some(m);
    assert "450"[..] == ['4', '5', '0'];
    assert IndexOf("450", '.') == None;
    assert DigitsValue("450") == 450 by {
      assert "450"[..2] == "45" && "45"[..1] == "4";
    }
  }

  /** A non-numeric measurement leaves the weight out, without an error. */
  lemma WeightNotNumeric(m: Element, descriptive: Element)
    requires HasCode(m, "MeasureType", MEASURE_TYPE_WEIGHT)
    requires Find(m, "Measurement").Some? && Find(m, "Measurement").value.text == Some("n/a")
    requires descriptive.children == [m] && m.tag == Qualified("Measure")
    ensures WeightIn(Some(descriptive)) == None
  {
    assert FindAll(descriptive, "Measure") == [m];
    assert FirstCoded([m], "MeasureType", MEASURE_TYPE_WEIGHT) == Some(m);
    NoDigitsNotNumber("n/a");
  }

  /** Prices round up to whole dollars: 24.01 becomes 25, 24.00 stays 24. */
  lemma CeilExamples()
    ensures Ceil(24.01) == 25 && Ceil(24.0) == 24 && Ceil(-0.5) == 0
  {
  }
}
