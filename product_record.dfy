/**
 * The book fields the metadata reconciler proposes, the field-inclusion
 * policy, and the `product.template` record those fields live on.
 */
module BookFields {
  import opened Wrappers

  /** The record fields a catalog can propose (`name`, `description_ecommerce`, `x_author`, ...). */
  datatype Field = Name | Description | Author | Publisher | PublicationDate | Image | Weight | ListPrice

  /** A proposed value: text for the character, HTML and image fields, a number for weight and price. */
  datatype Value = Text(s: string) | Number(x: real)

  /** A sparse field -> value update, the `vals` dict the parsers build. */
  type FieldMap = map<Field, Value>

  predicate IsNumeric(f: Field)
  {
    f == Weight || f == ListPrice
  }

  /** Every value has the kind its field stores. */
  predicate WellTyped(vals: FieldMap)
  {
    forall f :: f in vals ==> (IsNumeric(f) <==> vals[f].Number?)
  }

  /**
   * A Python exception raised while a parser walks a decoded response: an
   * `AttributeError` on a `null` contribution author (Hardcover), a `TypeError`
   * from `'NZ' in None` on a text-less CountriesIncluded element (Titlepage).
   */
  datatype ParseError = NullAuthor | CountriesWithoutText

  /** Python truthiness of a stored value: a non-empty text or a non-zero number. */
  predicate NonEmpty(v: Value)
  {
    match v
    case Text(s) => s != ""
    case Number(x) => x != 0.0
  }

  /** Every value in the map is truthy. */
  predicate AllNonEmpty(vals: FieldMap)
  {
    forall f :: f in vals ==> NonEmpty(vals[f])
  }

  const ALL_FIELDS := {Name, Description, Author, Publisher, PublicationDate, Image, Weight, ListPrice}

  lemma AllFields()
    ensures forall f: Field :: f in ALL_FIELDS
  {
    forall f: Field
      ensures f in ALL_FIELDS
    {
      match f
      case Name =>
      case Description =>
      case Author =>
      case Publisher =>
      case PublicationDate =>
      case Image =>
      case Weight =>
      case ListPrice =>
    }
  }

  /** The update a source proposes: every offered field the inclusion policy wants. */
  function Gated(offers: FieldMap, force: bool, filled: set<Field>): (r: FieldMap)
    ensures forall f :: f in r <==> f in offers && Wanted(f, force, filled)
    ensures forall f :: f in r ==> r[f] == offers[f]
  {
    map f | f in offers && Wanted(f, force, filled) :: offers[f]
  }

  /** The proposed value of a field, if any. */
  function Lookup(offers: FieldMap, f: Field): (v: Option<Value>)
    ensures v.Some? <==> f in offers
    ensures v.Some? ==> v.value == offers[f]
  {
    if f in offers then Some(offers[f]) else None
  }

  /** Applying `a` twice, or merging `a` and `b` before applying them, is applying `a` then `b`. */
  lemma ApplyTwice(m: FieldMap, a: FieldMap, b: FieldMap)
    ensures (m + a) + (a + b) == m + a + b
    ensures m + (a + b) == m + a + b
    ensures m + map[] == m && map[] + m == m
  {
  }

  /** An empty update, which Python's `if vals:` skips, changes nothing. */
  lemma EmptyUpdate(m: FieldMap, vals: FieldMap)
    requires |vals| == 0
    ensures m + vals == m
  {
    assert vals == map[];
  }

  /** Under `force` the gate lets every offer through, whatever the record holds. */
  lemma GatedForced(offers: FieldMap, filled: set<Field>)
    ensures Gated(offers, true, filled) == offers
  {
  }

  /** The text of a text value (a number has none). */
  function AsText(v: Value): string
  {
    if v.Text? then v.s else ""
  }

  /** The number of a numeric value (a text has none). */
  function AsNumber(v: Value): real
  {
    if v.Number? then v.x else 0.0
  }

  /** A field's value after an update: the proposed value if there is one, the old value otherwise. */
  function Overlay(current: Value, vals: FieldMap, f: Field): Value
  {
    if f in vals then vals[f] else current
  }

  /**
   * The field-inclusion policy: with `force` a field is always wanted; without
   * it only while the record's current value is empty.
   */
  predicate Wanted(f: Field, force: bool, filled: set<Field>)
  {
    force || f !in filled
  }

  /** Adds `v` under `f` when there is a value, as `vals[f] = v` guarded by `if v:` does. */
  function Put(vals: FieldMap, f: Field, v: Option<Value>): (r: FieldMap)
    ensures v.Some? ==> r == vals[f := v.value]
    ensures v.None? ==> r == vals
  {
    if v.Some? then vals[f := v.value] else vals
  }
}

/** The `product.template` record, with the fields the addons read and write. */
module ProductRecord {
  import opened BookFields

  type PartnerId = nat

  /** One `seller_ids` line: a vendor of the product and its minimum order quantity. */
  datatype SellerLine = SellerLine(partner: PartnerId, minQty: int)

  /** The value an unset field reads as: `False`/"" for text, 0.0 for numbers. */
  function Blank(f: Field): (v: Value)
    ensures !NonEmpty(v) && (IsNumeric(f) <==> v.Number?)
  {
    if IsNumeric(f) then Number(0.0) else Text("")
  }

  /** The fields of a stored field map whose value is not empty (an absent field reads as empty). */
  function FilledIn(fields: FieldMap): (s: set<Field>)
    ensures forall f :: f in s <==> f in fields && NonEmpty(fields[f])
  {
    set f | f in fields && NonEmpty(fields[f])
  }

  class ProductTemplate {
    var barcode: string              // "" stands for an unset barcode
    var defaultCode: string          // internal reference
    /**
     * The reconciled fields that hold a value: `name`, `description_ecommerce`,
     * `x_author`, `x_publisher`, `x_publication_date`, `image_1920`, `weight`
     * and `list_price`; a field missing from the map is unset.
     */
    var fields: FieldMap
    var sellers: seq<SellerLine>     // seller_ids
    var isIsbn: bool                 // x_is_isbn

    /** Every stored value has its field's kind. */
    predicate Valid()
      reads this
    {
      WellTyped(fields)
    }

    /** A new record with the given barcode and every other field empty. */
    constructor (barcode: string)
      ensures Valid()
      ensures this.barcode == barcode && defaultCode == "" && sellers == [] && !isIsbn
      ensures forall f :: !NonEmpty(Get(f))
    {
      this.barcode := barcode;
      defaultCode := "";
      fields := map[];
      sellers := [];
      isIsbn := false;
    }

    /** The current value of one reconciled field. */
    function Get(f: Field): (v: Value)
      reads this
      ensures f !in fields ==> v == Blank(f)
      ensures Valid() ==> (IsNumeric(f) <==> v.Number?)
    {
      if f in fields then fields[f] else Blank(f)
    }

    /** The fields whose current value is not empty. */
    function Filled(): (s: set<Field>)
      reads this
      ensures forall f :: f in s <==> NonEmpty(Get(f))
    {
      FilledIn(fields)
    }

    /** `self.update(vals)` / `self.write(vals)`: every proposed field takes its value, nothing else changes. */
    method Update(vals: FieldMap)
      requires Valid() && WellTyped(vals)
      modifies this
      ensures Valid()
      ensures fields == old(fields) + vals
      ensures forall f :: Get(f) == Overlay(old(Get(f)), vals, f)
      ensures barcode == old(barcode) && defaultCode == old(defaultCode)
      ensures sellers == old(sellers) && isIsbn == old(isIsbn)
    {
      fields := fields + vals;
    }
  }
}
