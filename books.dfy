/** The `Book` constructor: a record built from untrusted, possibly omitted
    arguments by JavaScript's falsy defaulting. The identifier that the
    constructor draws from `getUUID` is passed in. */
module Books {
  import opened Js

  datatype Book = Book(id: string, title: string, author: string, pages: int, read: bool)

  /** `p || 0` for a page-count argument. */
  function OrZero(p: Option<int>): int
  {
    if Truthy(OfInt(p)) then p.value else 0
  }

  /** `Boolean(read)` with the parameter default `read = false`. */
  function ReadFlag(read: Value): bool
  {
    Truthy(if read == Undefined then Bool(false) else read)
  }

  /** `new Book(title, author, pages, read)` with the identifier `id`. */
  function NewBook(id: string, title: Option<string>, author: Option<string>,
                   pages: Option<int>, read: Value): (b: Book)
    ensures b.id == id
    ensures b.title == "" <==> !Truthy(OfString(title))
    ensures b.title != "" ==> title == Some(b.title)
    ensures b.author == "" <==> !Truthy(OfString(author))
    ensures b.author != "" ==> author == Some(b.author)
    ensures b.pages == 0 <==> !Truthy(OfInt(pages))
    ensures b.pages != 0 ==> pages == Some(b.pages)
    ensures b.read <==> Truthy(read)
  {
    Book(id, StringOr(title, ""), StringOr(author, ""), OrZero(pages), ReadFlag(read))
  }

  /** Building a book from a stored book's own fields gives the same book:
      the normalisation is a projection. */
  lemma NewBookIdempotent(b: Book)
    ensures NewBook(b.id, Some(b.title), Some(b.author), Some(b.pages), Bool(b.read)) == b
  {
  }

  /** The arguments of one `addBookToLibrary` call, with the id it draws. */
  datatype AddRequest = AddRequest(id: string, title: Option<string>, author: Option<string>,
                                   pages: Option<int>, read: Value)
  {
    function ToBook(): Book
    {
      NewBook(id, title, author, pages, read)
    }
  }

  /** The books a run of requests creates, in call order. */
  function BooksOf(reqs: seq<AddRequest>): (bs: seq<Book>)
    ensures |bs| == |reqs|
    ensures forall i | 0 <= i < |reqs| :: bs[i] == reqs[i].ToBook()
  {
    if reqs == [] then [] else BooksOf(reqs[..|reqs| - 1]) + [reqs[|reqs| - 1].ToBook()]
  }

  /** The two sample books, with the identifiers they are given. */
  function DemoBooks(duneId: string, orwellId: string): (bs: seq<Book>)
    ensures |bs| == 2
    ensures bs[0] == Book(duneId, "Dune", "Frank Herbert", 412, true)
    ensures bs[1] == Book(orwellId, "1984", "George Orwell", 328, false)
  {
    BooksOf([AddRequest(duneId, Some("Dune"), Some("Frank Herbert"), Some(412), Bool(true)),
             AddRequest(orwellId, Some("1984"), Some("George Orwell"), Some(328), Bool(false))])
  }
}
