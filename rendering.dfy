/** The text `renderLibrary` puts on the card of one book, and a reader
    that takes that text apart again. Only the card contents are modelled,
    not the DOM elements that hold them. */
module Rendering {
  import opened Js
  import opened Books
  import Decimal

  /** One `article.book-card`: its `data-id` attribute, the `h3` heading,
      the author and pages paragraphs and the `div.book-meta` line. */
  datatype Card = Card(dataId: string, heading: string, authorLine: string,
                       pagesLine: string, metaLine: string)

  const AuthorPrefix := "Author: "
  const PagesPrefix := "Pages: "
  const ReadYesPrefix := "Read: Yes \U{2014} id: "
  const ReadNoPrefix := "Read: No \U{2014} id: "

  /** `text || fallback` for the heading and the author line. */
  function Shown(text: string, fallback: string): string
  {
    StringOr(Some(text), fallback)
  }

  /** The card built for one book inside the `forEach` of `renderLibrary`:
      it is tagged with the book's id and its heading is never empty. What
      its three text lines say is stated by CardRoundTrip below. */
  function CardOf(b: Book): (c: Card)
    ensures c.dataId == b.id
    ensures c.heading != ""
    ensures b.title != "" ==> c.heading == b.title
    ensures b.title == "" ==> c.heading == "Untitled"
  {
    Card(b.id,
         Shown(b.title, "Untitled"),
         AuthorPrefix + Shown(b.author, "Unknown"),
         PagesPrefix + Decimal.IntString(b.pages),
         (if b.read then ReadYesPrefix else ReadNoPrefix) + b.id)
  }

  /** The cards of a library, one per book, in library order. */
  function Cards(bs: seq<Book>): (cs: seq<Card>)
    ensures |cs| == |bs|
    ensures forall i | 0 <= i < |bs| :: cs[i] == CardOf(bs[i]) && cs[i].dataId == bs[i].id
  {
    if bs == [] then [] else [CardOf(bs[0])] + Cards(bs[1..])
  }

  /** A card list that agrees with the books card by card is their rendering. */
  lemma CardsPointwise(bs: seq<Book>, cs: seq<Card>)
    requires |cs| == |bs|
    requires forall k | 0 <= k < |bs| :: cs[k] == CardOf(bs[k])
    ensures cs == Cards(bs)
  {
  }

  /** Rendering a library that grew by one book gives the old cards and one
      more, so rebuilding everything agrees with appending one card. */
  lemma CardsAppend(bs: seq<Book>, b: Book)
    ensures Cards(bs + [b]) == Cards(bs) + [CardOf(b)]
  {
  }

  /** `s` with the prefix `p` taken off, if `s` starts with it. */
  function StripPrefix(p: string, s: string): (r: Option<string>)
    ensures r.Some? <==> p <= s
    ensures r.Some? ==> s == p + r.value
  {
    if p <= s then Some(s[|p|..]) else None
  }

  lemma StripPrefixOf(p: string, t: string)
    ensures StripPrefix(p, p + t) == Some(t)
  {
    assert (p + t)[..|p|] == p;
    assert (p + t)[|p|..] == t;
  }

  /** Reads the read flag and the identifier back from a meta line. */
  function ParseMeta(line: string): Option<(bool, string)>
  {
    match StripPrefix(ReadYesPrefix, line)
    case Some(id) => Some((true, id))
    case None =>
      match StripPrefix(ReadNoPrefix, line)
      case Some(id) => Some((false, id))
      case None => None
  }

  /** Reads the page count back from a pages line. */
  function ParsePages(line: string): Option<int>
  {
    match StripPrefix(PagesPrefix, line)
    case Some(text) => Decimal.ParseInt(text)
    case None => None
  }

  /** The card shows everything about the book: its identifier twice, its
      page count and read flag exactly, its title and author unless they are
      empty, in which case the fallback labels. In particular the meta line
      says "Yes" exactly when the book is read. */
  lemma CardRoundTrip(b: Book)
    ensures CardOf(b).dataId == b.id
    ensures ParseMeta(CardOf(b).metaLine) == Some((b.read, b.id))
    ensures ParsePages(CardOf(b).pagesLine) == Some(b.pages)
    ensures StripPrefix(AuthorPrefix, CardOf(b).authorLine) == Some(Shown(b.author, "Unknown"))
    ensures b.title != "" ==> CardOf(b).heading == b.title
    ensures b.title == "" ==> CardOf(b).heading == "Untitled"
    ensures b.author == "" ==> CardOf(b).authorLine == "Author: Unknown"
  {
    var c := CardOf(b);
    StripPrefixOf(AuthorPrefix, Shown(b.author, "Unknown"));
    StripPrefixOf(PagesPrefix, Decimal.IntString(b.pages));
    Decimal.IntStringRoundTrip(b.pages);
    if b.read {
      StripPrefixOf(ReadYesPrefix, b.id);
    } else {
      StripPrefixOf(ReadNoPrefix, b.id);
      assert ReadYesPrefix[6] != c.metaLine[6];
    }
  }

  /** Two books with the same card differ at most where a fallback label
      hides an empty title or author. */
  lemma SameCardSameBook(a: Book, b: Book)
    requires CardOf(a) == CardOf(b)
    requires a.title != "Untitled" && b.title != "Untitled"
    requires a.author != "Unknown" && b.author != "Unknown"
    ensures a == b
  {
    CardRoundTrip(a);
    CardRoundTrip(b);
    StripPrefixOf(AuthorPrefix, Shown(a.author, "Unknown"));
    StripPrefixOf(AuthorPrefix, Shown(b.author, "Unknown"));
  }
}
