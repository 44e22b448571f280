/** The module-global `myLibrary` array and the operations that change it or
    draw it: `addBookToLibrary`, `renderLibrary` and the demo seeding that
    runs when the script loads. The global becomes a `Library` object; the
    `#library` element becomes a `Surface`, and `null` stands for a page
    without that element or a run without a document, where rendering does
    nothing. */
module Store {
  import opened Js
  import opened Books
  import opened Rendering

  /** The `#library` container: each child is one `div.book-grid`, given by
      the cards it holds. */
  class Surface {
    var grids: seq<seq<Card>>

    constructor (initial: seq<seq<Card>>)
      ensures grids == initial
    {
      grids := initial;
    }
  }

  class Library {
    var books: seq<Book>

    /** `const myLibrary = []` */
    constructor ()
      ensures books == []
    {
      books := [];
    }

    /** The `forEach` of `renderLibrary`: one card per book, in order. */
    method Grid() returns (grid: seq<Card>)
      ensures grid == Cards(books)
    {
      var bs := books;
      grid := [];
      var i := 0;
      while i < |bs|
        invariant i <= |bs|
        invariant |grid| == i
        invariant forall k | 0 <= k < i :: grid[k] == CardOf(bs[k])
      {
        grid := grid + [CardOf(bs[i])];
        i := i + 1;
      }
      CardsPointwise(bs, grid);
    }

    /** `renderLibrary`: without a surface nothing happens; otherwise the
        container is cleared and then holds exactly one grid of the current
        cards, whatever it held before. */
    method Render(surface: Surface?)
      modifies surface
      ensures surface != null ==> surface.grids == [Cards(books)]
    {
      if surface == null {
        return;
      }
      surface.grids := [];
      var grid := Grid();
      surface.grids := surface.grids + [grid];
    }

    /** `addBookToLibrary`: builds the book, pushes it, re-renders and
        returns the book it pushed. */
    method AddBook(id: string, title: Option<string>, author: Option<string>,
                   pages: Option<int>, read: Value, surface: Surface?) returns (b: Book)
      modifies this, surface
      ensures b == NewBook(id, title, author, pages, read)
      ensures books == old(books) + [b]
      ensures |books| == |old(books)| + 1 && books[|books| - 1] == b
      ensures books[..|old(books)|] == old(books)
      ensures surface != null ==> surface.grids == [Cards(books)]
    {
      b := NewBook(id, title, author, pages, read);
      books := books + [b];
      Render(surface);
    }

    /** A run of `addBookToLibrary` calls: the library only ever grows at
        its end, by the normalised books in call order. */
    method AddAll(reqs: seq<AddRequest>, surface: Surface?)
      modifies this, surface
      ensures books == old(books) + BooksOf(reqs)
      ensures surface != null && reqs != [] ==> surface.grids == [Cards(books)]
      ensures surface != null && reqs == [] ==> surface.grids == old(surface.grids)
    {
      var i := 0;
      while i < |reqs|
        invariant i <= |reqs|
        invariant books == old(books) + BooksOf(reqs[..i])
        invariant surface != null && i > 0 ==> surface.grids == [Cards(books)]
        invariant surface != null && i == 0 ==> surface.grids == old(surface.grids)
      {
        var r := reqs[i];
        var _ := AddBook(r.id, r.title, r.author, r.pages, r.read, surface);
        assert reqs[..i + 1][..i] == reqs[..i];
        i := i + 1;
      }
      assert reqs[..i] == reqs;
    }

    /** The seeding guard: the two sample books are added only to an empty
        library; a library that holds books is left as it is. */
    method SeedIfEmpty(duneId: string, orwellId: string, surface: Surface?)
      modifies this, surface
      ensures old(books) == [] ==> books == DemoBooks(duneId, orwellId)
      ensures old(books) == [] && surface != null ==> surface.grids == [Cards(books)]
      ensures old(books) != [] ==> books == old(books) && (surface != null ==> surface.grids == old(surface.grids))
    {
      if |books| == 0 {
        var _ := AddBook(duneId, Some("Dune"), Some("Frank Herbert"), Some(412), Bool(true), surface);
        var _ := AddBook(orwellId, Some("1984"), Some("George Orwell"), Some(328), Bool(false), surface);
      }
    }

    /** The `DOMContentLoaded` handler: seed an empty library, then render. */
    method OnDomReady(duneId: string, orwellId: string, surface: Surface?)
      modifies this, surface
      ensures old(books) == [] ==> books == DemoBooks(duneId, orwellId)
      ensures old(books) != [] ==> books == old(books)
      ensures surface != null ==> surface.grids == [Cards(books)]
    {
      SeedIfEmpty(duneId, orwellId, surface);
      Render(surface);
    }
  }

  /** A page load in the browser followed by a second render: the cards of
      the two sample books, in order, the first read and the second not,
      and the same cards from both renders. */
  method DemoPage(duneId: string, orwellId: string) returns (first: seq<Card>, second: seq<Card>)
    ensures first == second
    ensures |first| == 2
    ensures first[0].heading == "Dune" && first[1].heading == "1984"
    ensures ParseMeta(first[0].metaLine) == Some((true, duneId))
    ensures ParseMeta(first[1].metaLine) == Some((false, orwellId))
  {
    var library := new Library();
    var surface := new Surface([]);
    library.OnDomReady(duneId, orwellId, surface);
    first := surface.grids[0];
    library.Render(surface);
    second := surface.grids[0];
    CardRoundTrip(library.books[0]);
    CardRoundTrip(library.books[1]);
  }
}
