/**
 * The Hardcover catalog (a GraphQL JSON API): the decoded edition record,
 * the pure part of the fetch, and the edition parser.
 */
module Hardcover {
  import opened Wrappers
  import opened Text
  import opened BookFields
  import opened ProductRecord

  /** A JSON member that must be an object to be used: missing/null/falsy, an object, or some other value. */
  datatype JsonObject<T> = Missing | Object(fields: T) | NotAnObject

  /** The `author` member of a contribution: absent (read as `{}`), `null`, or an object with an optional name. */
  datatype AuthorRef = AuthorAbsent | AuthorNull | AuthorPresent(name: Option<string>)

  datatype Contribution = Contribution(author: AuthorRef)

  datatype Book = Book(title: Option<string>, description: Option<string>, contributions: Option<seq<Contribution>>)

  datatype PublisherObject = PublisherObject(name: Option<string>)

  datatype CachedImage = CachedImage(url: Option<string>)

  /** One decoded `editions[i]` object of the GraphQL reply (only the members the parser reads). */
  datatype Edition = Edition(
    title: Option<string>,
    subtitle: Option<string>,
    book: Option<Book>,
    publisher: JsonObject<PublisherObject>,
    releaseDate: Option<string>,
    cachedImage: JsonObject<CachedImage>)

  /** The decoded HTTP reply: a transport failure, or a payload with or without a top-level `errors` member. */
  datatype HardcoverReply = RequestFailed | Payload(hasErrors: bool, editions: seq<Edition>)

  /** `raise UserError(...)` when the request fails. */
  datatype FetchError = ConnectionFailed

  /**
   * `_hardcover_fetch_edition` after the HTTP call: a reply with `errors` means
   * no edition, otherwise the first edition if there is one; a failed request raises.
   */
  function FetchEdition(reply: HardcoverReply): (r: Result<Option<Edition>, FetchError>)
    ensures r.Err? <==> reply.RequestFailed?
    ensures r.Ok? && r.value.Some? <==> reply.Payload? && !reply.hasErrors && reply.editions != []
    ensures r.Ok? && r.value.Some? ==> r.value.value == reply.editions[0]
  {
    match reply
    case RequestFailed => Err(ConnectionFailed)
    case Payload(hasErrors, editions) =>
      if hasErrors then Ok(None)
      else if editions == [] then Ok(None)
      else Ok(Some(editions[0]))
  }

  /** `edition.get('book') or {}` */
  function BookOf(e: Edition): Book
  {
    if e.book.Some? then e.book.value else Book(None, None, None)
  }

  /** `book.get('contributions') or []` */
  function ContributionsOf(e: Edition): seq<Contribution>
  {
    var cs := BookOf(e).contributions;
    if cs.Some? then cs.value else []
  }

  /** The title before the subtitle is added: the edition title, else the book title. */
  function BaseTitle(e: Edition): Option<string>
  {
    if Truthy(e.title) then e.title else BookOf(e).title
  }

  /** The proposed title: "title: subtitle" when both are present, the title alone otherwise. */
  function EditionTitle(e: Edition): (r: Option<string>)
    ensures Truthy(r) <==> Truthy(BaseTitle(e))
    ensures Truthy(BaseTitle(e)) && Truthy(e.subtitle) ==>
      r == Some(BaseTitle(e).value + ": " + e.subtitle.value)
    ensures !Truthy(e.subtitle) ==> r == BaseTitle(e)
  {
    var title := BaseTitle(e);
    if Truthy(e.subtitle) && Truthy(title) then Some(title.value + ": " + e.subtitle.value) else title
  }

  /**
   * The author names of the contributions, in contribution order, skipping
   * contributions without a name; a `null` author raises.
   */
  function ContributionAuthors(cs: seq<Contribution>): (r: Result<seq<string>, ParseError>)
    ensures r.Err? <==> exists i :: 0 <= i < |cs| && cs[i].author.AuthorNull?
    ensures r.Ok? ==> forall x :: x in r.value <==>
      x != "" && exists i :: 0 <= i < |cs| && cs[i].author == AuthorPresent(Some(x))
    ensures r.Ok? ==> |r.value| <= |cs|
    ensures r.Err? ==> r.error == NullAuthor
  {
    if cs == [] then Ok([])
    else
      var last := cs[|cs| - 1];
      assert forall i :: 0 <= i < |cs| - 1 ==> cs[..|cs| - 1][i] == cs[i];
      match ContributionAuthors(cs[..|cs| - 1])
      case Err(e) => Err(e)
      case Ok(names) =>
        match last.author
        case AuthorAbsent => Ok(names)
        case AuthorNull => Err(NullAuthor)
        case AuthorPresent(name) => if Truthy(name) then Ok(names + [name.value]) else Ok(names)
  }

  /** The downloaded cover, kept only when the download produced something. */
  function Downloaded(download: string -> Option<string>, url: string): Option<Value>
  {
    var data := download(url);
    if Truthy(data) then Some(Text(data.value)) else None
  }

  /**
   * The value one edition offers for a field, before the inclusion policy:
   * the composed title, the description wrapped in a paragraph, the authors
   * joined with ", ", the publisher name, the release date and the downloaded
   * cover; never a weight or a price. Empty values are never offered.
   */
  function Offered(e: Edition, authors: seq<string>, f: Field, download: string -> Option<string>): (v: Option<Value>)
    requires forall i :: 0 <= i < |authors| ==> authors[i] != ""
    ensures v.Some? ==> NonEmpty(v.value) && v.value.Text?
    ensures IsNumeric(f) ==> v.None?
  {
    match f
    case Name =>
      var title := EditionTitle(e);
      if Truthy(title) then Some(Text(title.value)) else None
    case Description =>
      var description := BookOf(e).description;
      if Truthy(description) then Some(Text("<p>" + description.value + "</p>")) else None
    case Author =>
      if authors == [] then None
      else
        JoinNonEmpty(authors, ", ");
        Some(Text(Join(authors, ", ")))
    case Publisher =>
      if e.publisher.Object? && Truthy(e.publisher.fields.name) then Some(Text(e.publisher.fields.name.value)) else None
    case PublicationDate =>
      if Truthy(e.releaseDate) then Some(Text(e.releaseDate.value)) else None
    case Image =>
      if e.cachedImage.Object? && Truthy(e.cachedImage.fields.url) then Downloaded(download, e.cachedImage.fields.url.value) else None
    case Weight => None
    case ListPrice => None
  }

  /** Everything one edition offers, field by field. */
  function Offers(e: Edition, authors: seq<string>, download: string -> Option<string>): (r: FieldMap)
    requires forall i :: 0 <= i < |authors| ==> authors[i] != ""
    ensures forall f :: f in r <==> Offered(e, authors, f, download).Some?
    ensures forall f :: f in r ==> r[f] == Offered(e, authors, f, download).value
  {
    AllFields();
    map f | f in ALL_FIELDS && Offered(e, authors, f, download).Some? :: Offered(e, authors, f, download).value
  }

  /**
   * `_hardcover_parse_edition`: the sparse update proposed from one edition,
   * each field gated by the inclusion policy against the fields already filled.
   */
  function EditionVals(e: Edition, force: bool, filled: set<Field>, download: string -> Option<string>)
    : (r: Result<FieldMap, ParseError>)
    ensures r.Err? <==> exists i :: 0 <= i < |ContributionsOf(e)| && ContributionsOf(e)[i].author.AuthorNull?
    ensures r.Ok? ==> WellTyped(r.value) && AllNonEmpty(r.value)
    ensures r.Ok? ==> Weight !in r.value && ListPrice !in r.value
    ensures r.Ok? ==> forall f :: f in r.value ==> Wanted(f, force, filled)
  {
    match ContributionAuthors(ContributionsOf(e))
    case Err(err) => Err(err)
    case Ok(authors) =>
      assert forall i :: 0 <= i < |authors| ==> authors[i] in authors;
      Ok(Gated(Offers(e, authors, download), force, filled))
  }

  /**
   * `_hardcover_parse_edition` on the record: reads which fields are filled,
   * collects the authors in contribution order, then proposes every offered
   * field the policy wants.
   */
  method ParseEdition(rec: ProductTemplate, e: Edition, force: bool, download: string -> Option<string>)
    returns (r: Result<FieldMap, ParseError>)
    ensures r == EditionVals(e, force, rec.Filled(), download)
  {
    var filled := rec.Filled();
    var authors := CollectAuthors(ContributionsOf(e));
    if authors.Err? {
      return Err(authors.error);
    }
    assert forall i :: 0 <= i < |authors.value| ==> authors.value[i] in authors.value;
    r := Ok(Gated(Offers(e, authors.value, download), force, filled));
  }

  /** The list comprehension over the contributions, written as the loop it runs. */
  method CollectAuthors(contributions: seq<Contribution>) returns (r: Result<seq<string>, ParseError>)
    ensures r == ContributionAuthors(contributions)
  {
    var authors: seq<string> := [];
    var i := 0;
    while i < |contributions|
      invariant 0 <= i <= |contributions|
      invariant ContributionAuthors(contributions[..i]) == Ok(authors)
    {
      assert contributions[..i + 1][..i] == contributions[..i];
      match contributions[i].author {
        case AuthorAbsent =>
        case AuthorNull =>
          assert contributions[..i + 1][i].author.AuthorNull?;
          ContributionAuthorsNull(contributions, i);
          return Err(NullAuthor);
        case AuthorPresent(name) =>
          if Truthy(name) {
            authors := authors + [name.value];
          }
      }
      i := i + 1;
    }
    assert contributions[..i] == contributions;
    r := Ok(authors);
  }

  /** A `null` author anywhere makes the whole list comprehension raise. */
  lemma ContributionAuthorsNull(cs: seq<Contribution>, i: nat)
    requires i < |cs| && cs[i].author.AuthorNull?
    ensures ContributionAuthors(cs).Err?
  {
  }

  /**
   * The names keep contribution order and repetitions: the names of `a + b`
   * are those of `a` followed by those of `b`, and `a + b` raises only when
   * one of the halves does.
   */
  lemma {:induction false} ContributionAuthorsConcat(a: seq<Contribution>, b: seq<Contribution>)
    ensures ContributionAuthors(a + b).Ok? <==> ContributionAuthors(a).Ok? && ContributionAuthors(b).Ok?
    ensures ContributionAuthors(a + b).Ok? ==>
      ContributionAuthors(a + b).value == ContributionAuthors(a).value + ContributionAuthors(b).value
    decreases |b|
  {
    if b == [] {
      assert a + b == a;
    } else {
      var b' := b[..|b| - 1];
      assert (a + b)[..|a + b| - 1] == a + b';
      assert (a + b)[|a + b| - 1] == b[|b| - 1];
      ContributionAuthorsConcat(a, b');
      ContributionAuthorsConcat([], b');
      assert [] + b' == b';
    }
  }

  /** One contribution gives its name when it has a non-empty one, nothing when it has none, and raises on `null`. */
  lemma ContributionAuthorsOne(c: Contribution)
    ensures ContributionAuthors([c]) == match c.author
      case AuthorAbsent => Ok([])
      case AuthorNull => Err(NullAuthor)
      case AuthorPresent(name) => if Truthy(name) then Ok([name.value]) else Ok([])
  {
    assert [c][..0] == [];
    if c.author.AuthorPresent? && Truthy(c.author.name) {
      assert [] + [c.author.name.value] == [c.author.name.value];
    }
  }

  /** The proposed author text lists the contribution authors in order, separated by ", ". */
  lemma AuthorsInOrder(e: Edition, force: bool, filled: set<Field>, download: string -> Option<string>)
    requires ContributionAuthors(ContributionsOf(e)).Ok?
    requires ContributionAuthors(ContributionsOf(e)).value != []
    requires Wanted(Author, force, filled)
    ensures EditionVals(e, force, filled, download).Ok?
    ensures var authors := ContributionAuthors(ContributionsOf(e)).value;
      EditionVals(e, force, filled, download).value[Author] == Text(Join(authors, ", "))
      && StartsWith(Join(authors, ", "), authors[0])
  {
    JoinEnds(ContributionAuthors(ContributionsOf(e)).value, ", ");
  }

  /** Under `force` the proposal does not depend on what the record already holds. */
  lemma ForcedIgnoresRecord(e: Edition, a: set<Field>, b: set<Field>, download: string -> Option<string>)
    ensures EditionVals(e, true, a, download) == EditionVals(e, true, b, download)
  {
    match ContributionAuthors(ContributionsOf(e))
    case Err(_) =>
    case Ok(authors) =>
      assert forall i :: 0 <= i < |authors| ==> authors[i] in authors;
      GatedForced(Offers(e, authors, download), a);
      GatedForced(Offers(e, authors, download), b);
  }

  /** Without `force`, a field the record already fills is never proposed. */
  lemma GapFillSkipsFilled(e: Edition, filled: set<Field>, download: string -> Option<string>, f: Field)
    requires f in filled
    ensures EditionVals(e, false, filled, download).Ok? ==> f !in EditionVals(e, false, filled, download).value
  {
  }

  /** With `force`, the title is proposed exactly when the edition (or its book) has one. */
  lemma ForcedTitle(e: Edition, filled: set<Field>, download: string -> Option<string>)
    requires ContributionAuthors(ContributionsOf(e)).Ok?
    ensures var r := EditionVals(e, true, filled, download);
      r.Ok? && (Name in r.value <==> Truthy(BaseTitle(e)))
      && (Name in r.value ==> r.value[Name] == Text(EditionTitle(e).value))
  {
  }

  /** With `force`, the description is proposed exactly when the book has one, wrapped in a paragraph. */
  lemma ForcedDescription(e: Edition, filled: set<Field>, download: string -> Option<string>)
    requires ContributionAuthors(ContributionsOf(e)).Ok?
    ensures var r := EditionVals(e, true, filled, download);
      r.Ok? && (Description in r.value <==> Truthy(BookOf(e).description))
      && (Description in r.value ==> r.value[Description] == Text("<p>" + BookOf(e).description.value + "</p>"))
  {
  }
}
