# Library: a verified model of the book store in `scripts.js`

The system is a small client-side book list. It keeps an in-memory,
append-only list of books (`myLibrary`). `addBookToLibrary` builds a book
with the `Book` constructor and pushes it onto the list. `renderLibrary`
clears the `#library` element and rebuilds one card per book. The script
seeds two sample books, but only if the list is empty. In Node this
happens when the script loads (scripts.js:112-114). In a browser it happens
in the `DOMContentLoaded` handler (scripts.js:100-106), so a copy of the
script that runs after that event never seeds. Each book gets an
identifier from `getUUID`. `getUUID` falls back to filling the template
`xxxxxxxx-xxxx-4xxx-yxxx-xxxxxxxxxxxx` with random hexadecimal digits in
two cases: when no platform UUID facility exists, and when that facility
throws (the catches at scripts.js:16 and 20).

The Dafny project models these parts:

- `js.dfy` (module `Js`): omitted arguments and JavaScript truthiness, the
  only coercions the constructor uses.
- `hex.dfy` (module `Hex`): the digit `v.toString(16)` writes for a nibble,
  and its inverse.
- `decimal.dfy` (module `Decimal`): the text `${n}` gives an integer page
  count, and a reader for it. The two are proved to be inverses.
- `uuid.dfy` (module `Uuid`): the fallback generator. It is a pure
  placeholder-by-placeholder fill of the template. The random draws are an
  input sequence of nibbles. The model proves the output has the
  version-4 layout of section 4.4 of RFC 4122. It also proves that every
  such layout can be produced, and that the identifier determines exactly
  the bits of the draws it shows.
- `books.dfy` (module `Books`): the `Book` record and its normalisation.
  `title || ''`, `author || ''`, `pages || 0` and `Boolean(read)` with the
  default `read = false`.
- `rendering.dfy` (module `Rendering`): the card text of one book, the card
  list of a library, and readers that recover the book's fields from a
  card.
- `store.dfy` (module `Store`): the global array becomes a `Library` object
  whose `books` field the methods reassign. The `#library` element becomes
  a `Surface` object whose `grids` field `Render` replaces. A `null`
  surface stands for "no document" or "no `#library` element". In both
  cases the source skips rendering.

Two facts about `scripts.js` that the model follows:

- `pages || 0` (scripts.js:37) keeps any truthy `pages` exactly as passed,
  with no conversion to a number. The model keeps a non-zero page count
  unchanged.
- `scripts.js` has no form and no dialog. Nothing in it rejects a blank
  title or author, so nothing in the model rejects input.

## Model

| member | source | states |
|---|---|---|
| Js.Truthy | scripts.js:35-38 | a value is truthy exactly when it is none of `undefined`, `null`, `false`, `0` and `""` |
| Js.StringOr | scripts.js:35-36 | the JavaScript or-operator on a string `a` and a fallback: an omitted or empty `a` gives the fallback, any other string is kept, and a non-empty fallback never gives an empty result |
| Js.StringOrIdempotent | scripts.js:35-36 | defaulting a result again with the same fallback leaves it unchanged |
| Hex.HexDigit | scripts.js:28 | `v.toString(16)` for a nibble is one lower-case hexadecimal digit, a decimal digit exactly when `v < 10` |
| Hex.HexValue | scripts.js:28 | reading a lower-case hex digit gives a nibble whose digit is that character |
| Hex.HexValueOfDigit | scripts.js:28 | writing a nibble and reading it back gives the nibble |
| Uuid.VariantNibble | scripts.js:27 | `r & 0x3` or-ed with `0x8`, for `r` in [0,16), is `8 + r % 4`, so one of 8, 9, 10, 11 |
| Uuid.Fill | scripts.js:25-29 | replacing each `x`/`y` of a template with its draw's digit gives a string of the template's length: `x` becomes a hex digit, `y` one of `8 9 a b`, all other characters are kept |
| Uuid.Decode | scripts.js:25-29 | from a string of the template's shape one reads back one nibble per placeholder |
| Uuid.Visible | scripts.js:27 | the draws as the output shows them: one per placeholder, still nibbles |
| Uuid.FillDecode | scripts.js:25-29 | every string of the template's shape is the fill of the draws read from it |
| Uuid.DecodeFill | scripts.js:25-29 | reading a filled template gives every `x` draw and the two low bits of every `y` draw |
| Uuid.FillInjective | scripts.js:25-29 | two draw sequences give the same string if and only if their visible parts are equal |
| Uuid.TemplateSlots | scripts.js:25 | the template has 31 placeholders, so the generator draws 31 times |
| Uuid.TemplateShapeIsV4 | scripts.js:25 | a string has the template's shape if and only if it has the version-4 layout |
| Uuid.FallbackUuid | scripts.js:25-29 | the fallback id has length 36, `-` at 8, 13, 18 and 23, `4` at 14, one of `8 9 a b` at 19, and a lower-case hex digit everywhere else |
| Uuid.FallbackCoversV4 | scripts.js:25-29 | every version-4 layout is the fallback id of some 31 nibble draws |
| Uuid.FallbackDeterminesDraws | scripts.js:25-29 | two fallback ids are equal if and only if the draws agree on the 30 `x` draws and on the low two bits of the `y` draw |
| Decimal.NatString | scripts.js:76 | the decimal text of a natural number is non-empty, all digits, with no leading zero, and one digit exactly below 10 |
| Decimal.NatStringValue | scripts.js:76 | the digits written for a natural number have that number as their value |
| Decimal.IntString | scripts.js:76 | the text of an integer starts with `-` exactly when it is negative, followed by canonical digits |
| Decimal.IntStringRoundTrip | scripts.js:76 | reading the text of an integer gives the integer back |
| Decimal.ParseIntString | scripts.js:76 | the reader accepts a string as `n` if and only if it is exactly the text of `n` |
| Books.NewBook | scripts.js:33-39 | the id is the one given; title and author are `""` exactly when the argument is falsy and otherwise the argument; pages is 0 exactly when falsy and otherwise the argument; read is the truthiness of the argument, false when omitted |
| Books.NewBookIdempotent | scripts.js:35-38 | building a book from a stored book's own fields gives the same book |
| Books.BooksOf | scripts.js:42-44 | a run of add requests yields one book per request, the i-th being the normalised i-th request |
| Books.DemoBooks | scripts.js:103-106 | the two sample books are Dune (Frank Herbert, 412 pages, read) and 1984 (George Orwell, 328 pages, not read), in that order |
| Rendering.CardOf | scripts.js:63-82 | a book's card carries the book's id as data-id; its heading is the title, or `Untitled` when the title is empty, so never empty |
| Rendering.Cards | scripts.js:62-85 | one card per book, in library order, card i built from book i and carrying its id as data-id |
| Rendering.CardsAppend | scripts.js:57-87 | the cards after one more book are the old cards plus that book's card |
| Rendering.CardRoundTrip | scripts.js:63-82 | a card's data-id is the book id; its meta line reads back as `(read, id)`, so "Yes" exactly when read; the pages line reads back as the page count; the author line is `Author: ` plus author or `Unknown`; the heading is the title or `Untitled` |
| Rendering.SameCardSameBook | scripts.js:65-81 | two books with equal cards are equal, unless a title or author equals its fallback label |
| Store.Surface.constructor | scripts.js:53 | a container holding the given children |
| Store.Library.constructor | scripts.js:2 | the library starts empty |
| Store.Library.Grid | scripts.js:62-85 | the `forEach` loop builds exactly the card list of the current books |
| Store.Library.Render | scripts.js:51-88 | with no surface nothing changes; otherwise the surface holds exactly one grid, the current cards, whatever it held before, so two renders with no add in between give the same result |
| Store.Library.AddBook | scripts.js:42-48 | the returned book is the normalised arguments; the library grows by exactly that book at its end, earlier books unchanged; the surface, if any, shows the new library |
| Store.Library.AddAll | scripts.js:42-47 | after a run of adds the library is the old library followed by the normalised books in call order; the surface then shows the new library, and it is untouched when there were no adds |
| Store.Library.SeedIfEmpty | scripts.js:112-114 | an empty library becomes the two sample books; a non-empty one, and its surface, are left unchanged |
| Store.Library.OnDomReady | scripts.js:100-107 | seeds only an empty library, then the surface shows the library's cards |
| Store.DemoPage | scripts.js:100-107 | on a fresh page the surface shows two cards, Dune then 1984, reading "Yes" then "No", and a second render gives the same cards |

## Left out

- `crypto.randomUUID` and `require('crypto')` (scripts.js:7-19) are foreign library calls. The model
  covers only the fallback template.
- Books are immutable values, not objects. `addBookToLibrary` returns the very object it pushes
  (scripts.js:43-47), and `window.myLibrary` exposes the array (scripts.js:92). In the model, "the
  returned book is the last element" is value equality, not identity. No behaviour is lost this
  way, because nothing in `scripts.js` changes a book after it is created.
- Identifiers are parameters of `Books.NewBook` and `Store.Library.AddBook`. Fresh ids come from
  randomness, and their uniqueness is only probable, so no member states it.
- `Math.random()` and the truncation `| 0` (scripts.js:26) are floating point. The draws are given as
  nibbles in [0, 16).
- The DOM calls (`getElementById`, `createElement`, `className`, `appendChild`, `innerHTML`) are not
  modelled. A card is the record of its five texts. The container is the list of grids it holds.
- The `typeof document` and `typeof window` checks, the `window.*` debug exposure (scripts.js:91-95),
  `console.log` and the `DOMContentLoaded` wiring are left out. A `null` surface stands for "no
  document or no `#library` element". `OnDomReady` is the handler's body.
- Books.NewBook: covers only the falsy/non-falsy split. Title and author are optional strings, and
  pages is an optional integer. Non-string titles, non-numeric or NaN pages, and `null` versus
  `undefined` for them are not modelled.
- Js.Value: the `read` flag can be `undefined`, `null`, a boolean, an integer number, a string or an
  object (arrays and functions included, all truthy). Fractional numbers, NaN, BigInt and symbols are
  not modelled.
- Decimal.IntString: writes every integer in plain decimal. JavaScript switches to exponent notation
  at 1e21, and beyond 2^53 not every integer can be stored exactly. The model's page counts are
  unbounded integers.
- The creation form and dialog flow, including its check for a blank title or author, do not exist
  in `scripts.js`. They are not part of this model.
