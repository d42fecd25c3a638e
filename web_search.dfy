/**
 * The shop's product search: author and publisher become searchable and
 * fetched fields, and each search result gets a subtitle. The subtitle is the
 * author and the publisher, whichever are set, joined by the separator.
 */
module WebSearch {
  import opened Wrappers
  import opened Text

  /**
   * The subtitle separator, character for character as the source file spells
   * it: a space, U+00E2, U+20AC, U+00A2 and a space. These three characters
   * are what the bullet U+2022 turns into when its UTF-8 bytes are read as
   * Windows-1252.
   */
  const SEPARATOR: string := " \U{00E2}\U{20AC}\U{00A2} "

  const AUTHOR_FIELD := "x_author"
  const PUBLISHER_FIELD := "x_publisher"
  const SUBTITLE_FIELD := "subtitle_text"

  /** A `mapping` entry of a search detail: the record field a result key shows, and its kind. */
  datatype FieldSpec = FieldSpec(name: string, kind: string)

  /** The entry the subtitle gets in the mapping. */
  const SUBTITLE_SPEC := FieldSpec(SUBTITLE_FIELD, "text")

  /** The search detail of the product model, whose lists and mapping the extension updates in place. */
  class SearchDetail {
    var searchFields: seq<string>
    var fetchFields: seq<string>
    var mapping: map<string, FieldSpec>

    constructor (searchFields: seq<string>, fetchFields: seq<string>, mapping: map<string, FieldSpec>)
      ensures this.searchFields == searchFields && this.fetchFields == fetchFields && this.mapping == mapping
    {
      this.searchFields := searchFields;
      this.fetchFields := fetchFields;
      this.mapping := mapping;
    }

    /**
     * `_search_get_detail`: appends author and publisher, in that order, to
     * both field lists, and maps the result key `subtitle` to the subtitle text.
     */
    method AddBookFields()
      modifies this
      ensures searchFields == old(searchFields) + [AUTHOR_FIELD, PUBLISHER_FIELD]
      ensures fetchFields == old(fetchFields) + [AUTHOR_FIELD, PUBLISHER_FIELD]
      ensures mapping == old(mapping)["subtitle" := SUBTITLE_SPEC]
      ensures |searchFields| == |old(searchFields)| + 2 && searchFields[..|old(searchFields)|] == old(searchFields)
      ensures |fetchFields| == |old(fetchFields)| + 2 && fetchFields[..|old(fetchFields)|] == old(fetchFields)
      ensures forall k :: k in old(mapping) && k != "subtitle" ==> k in mapping && mapping[k] == old(mapping)[k]
    {
      searchFields := searchFields + [AUTHOR_FIELD, PUBLISHER_FIELD];
      fetchFields := fetchFields + [AUTHOR_FIELD, PUBLISHER_FIELD];
      mapping := mapping["subtitle" := SUBTITLE_SPEC];
    }
  }

  /** The values the subtitle is made of; an unset field is `None`. */
  datatype Product = Product(author: Option<string>, publisher: Option<string>)

  /** The set values among author and publisher, author first (`subtitle_parts`). */
  function SubtitleParts(p: Product): (parts: seq<string>)
    ensures |parts| <= 2
    ensures forall i :: 0 <= i < |parts| ==> parts[i] != ""
  {
    (if Truthy(p.author) then [p.author.value] else [])
    + (if Truthy(p.publisher) then [p.publisher.value] else [])
  }

  /** The subtitle a product's result gets, or none when neither field is set. */
  function Subtitle(p: Product): (r: Option<string>)
    ensures Truthy(p.author) && Truthy(p.publisher) ==> r == Some(p.author.value + SEPARATOR + p.publisher.value)
    ensures Truthy(p.author) && !Truthy(p.publisher) ==> r == Some(p.author.value)
    ensures !Truthy(p.author) && Truthy(p.publisher) ==> r == Some(p.publisher.value)
    ensures r.None? <==> !Truthy(p.author) && !Truthy(p.publisher)
  {
    var parts := SubtitleParts(p);
    assert |parts| == 2 ==> Join(parts[1..], SEPARATOR) == parts[1];
    if parts != [] then Some(Join(parts, SEPARATOR)) else None
  }

  /** A written subtitle is never empty, and when both fields are set it starts with the author and ends with the publisher. */
  lemma SubtitleOrder(p: Product)
    ensures Subtitle(p).Some? ==> Subtitle(p).value != ""
    ensures Truthy(p.author) && Truthy(p.publisher) ==>
      StartsWith(Subtitle(p).value, p.author.value)
      && |Subtitle(p).value| > |p.publisher.value|
      && Subtitle(p).value[|Subtitle(p).value| - |p.publisher.value|..] == p.publisher.value
  {
    var parts := SubtitleParts(p);
    JoinNonEmpty(parts, SEPARATOR);
    if parts != [] {
      JoinEnds(parts, SEPARATOR);
    }
  }

  /** A search result, the dictionary the renderer returns; only text entries are modelled. */
  type ResultData = map<string, string>

  /** `data` after its product's subtitle is written, when it has one. */
  function WithSubtitle(data: ResultData, p: Product): ResultData
  {
    match Subtitle(p)
    case None => data
    case Some(s) => data[SUBTITLE_FIELD := s]
  }

  /**
   * `_search_render_results`: walks products and results side by side, as
   * `zip` does, writing each product's subtitle into its own result; results
   * past the shorter of the two are left as they were.
   */
  method RenderResults(products: seq<Product>, results: array<ResultData>)
    modifies results
    ensures forall i :: 0 <= i < results.Length && i < |products| ==> results[i] == WithSubtitle(old(results[i]), products[i])
    ensures forall i :: |products| <= i < results.Length ==> results[i] == old(results[i])
  {
    var n := if |products| < results.Length then |products| else results.Length;
    for i := 0 to n
      invariant forall j :: 0 <= j < i ==> results[j] == WithSubtitle(old(results[j]), products[j])
      invariant forall j :: i <= j < results.Length ==> results[j] == old(results[j])
    {
      var subtitle := Subtitle(products[i]);
      if subtitle.Some? {
        results[i] := results[i][SUBTITLE_FIELD := subtitle.value];
      }
    }
  }

  /** A result keeps every other entry, and gains the subtitle entry exactly when its product has a subtitle. */
  lemma WithSubtitleKeeps(data: ResultData, p: Product)
    ensures forall k :: k in data && k != SUBTITLE_FIELD ==> k in WithSubtitle(data, p) && WithSubtitle(data, p)[k] == data[k]
    ensures SUBTITLE_FIELD in WithSubtitle(data, p) <==> SUBTITLE_FIELD in data || Subtitle(p).Some?
    ensures Subtitle(p).Some? ==> WithSubtitle(data, p)[SUBTITLE_FIELD] == Subtitle(p).value
  {
  }
}
