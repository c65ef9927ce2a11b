# Library management: a Dafny model

This project models the small library-management domain of the repository:
authors, books, ebooks, a library that collects books, readers that read books,
a reading club that collects readers, and the demonstration program that wires
them together and prints a catalogue and a roster.

Every output the program produces is a `System.out.println`, so the model
treats the standard output stream as text:

- `Stdout` — the stream is a `string`. `println(s)` appends `s` and a newline.
  `Render` turns a sequence of printed lines into stream text. `SplitLines`
  recovers the lines a terminal shows, and it undoes `Render` for lines that hold
  no newline. A `println` whose argument starts with `"\n"` therefore shows an
  empty line and then the rest.
- `Books` — `Author` (a name), and `Book` as a datatype with two variants:
  `Plain` for a `Book` object and `E` for an `Ebook` object. `Read` is the
  `Readable.read()` operation. It returns the printed lines, one per `println`.
  Java's dynamic dispatch is a `match` on the variant, so a `Book`-typed value
  holding an `E` still prints the ebook's two lines. The ebook branch calls
  `Read` on its `Book` part (`SuperPart`), the way `Ebook.read` calls
  `super.read()`. The parsers for the two line formats are inverses of the printing
  functions, so the printed lines identify the book once its author is known. Without
  the author they do not: `AuthorMatters` shows two different books that print
  the same line.
- `Libraries`, `ReadingClubs` — immutable values holding a name and a sequence.
  `AddBook` and `AddMember` return the container with one element appended. They
  accept duplicates and leave the name unchanged.
- `Readers` — a reader holds a name. `ReadBook` prints exactly what the book
  prints.
- `App` — the `main` method. `PrintCatalogue` and `PrintRoster` model its two
  `for` loops. `RunDemo` is the body of `main` for any two books and two readers.
  `RunProgram` is `main` on its fixture, and its contract states the exact
  stream; `ProgramScreen` states the twelve lines the terminal shows.

`main` also prints the two `readBook` calls
(06-class-relationships/LMS/app/Main.java:29-30) before the catalogue, so the
terminal shows 12 lines.

## Model

| member | source | states |
|---|---|---|
| Books.NewBook | 02-class-relationships/LMS/book/Book.java:9-15 | `getTitle` and `getAuthor` return exactly the title and author given to the constructor; a plain book prints one line |
| Books.NewEbook | 02-class-relationships/LMS/ebook/Ebook.java:8-21 | an ebook's title and author are those passed on through `super`; `getFileFormat` returns the format argument; its `Book` part is the book `new Book(title, author)` would build |
| Books.BookLineLayout | 02-class-relationships/LMS/book/Book.java:19 | the book line is `Book name is `, then the title, then ` written by `, then the author's name at the very end, each part at its stated position and nothing else in the line |
| Books.FormatLineLayout | 02-class-relationships/LMS/ebook/Ebook.java:16 | the format line is `File format : ` followed by the file format and nothing else |
| Books.Read | 02-class-relationships/LMS/ebook/Ebook.java:14-17 | `read()` prints one line for a plain book and two for an ebook, dispatching on the runtime variant; in both cases the first line is the book line of its title and author (the `Book.read` of 02-class-relationships/LMS/book/Book.java:18-20, reached through `super.read()` for an ebook), and an ebook's second line is its format line |
| Books.ReadMentionsTitleAndAuthor | 02-class-relationships/LMS/book/Book.java:18-20 | the first line any book prints contains its title and its author's name as substrings |
| Books.EbookReadExtendsBookRead | 02-class-relationships/LMS/ebook/Ebook.java:14-17 | an ebook prints the plain-book output for the same title and author with exactly one line appended, and that line contains the format |
| Books.BookLineRoundTrip | 02-class-relationships/LMS/book/Book.java:19 | given the author's name, the book line determines the title; a line parses to a title exactly when it is that title's book line |
| Books.FormatLineRoundTrip | 02-class-relationships/LMS/ebook/Ebook.java:16 | the format line determines the format; a line parses to a format exactly when it is that format's line |
| Books.ReadRoundTrip | 02-class-relationships/LMS/book/Book.java:18-20 | for a known author, the printed lines give back the book, including whether it is an ebook |
| Books.ParseReadSound | 02-class-relationships/LMS/ebook/Ebook.java:14-17 | any lines the parser accepts are exactly what the recovered book prints |
| Books.AuthorMatters | 02-class-relationships/LMS/book/Book.java:19 | the printed line alone does not identify the book: "A written by B" by C and "A" by "B written by C" are different books that print the same line, so recovering a book needs its author |
| Books.ReadNoNewline | 02-class-relationships/LMS/book/Book.java:19 | when title, author name and format hold no newline, each `println` of `read()` shows as exactly one terminal line |
| Libraries.NewLibrary | 02-class-relationships/LMS/library/Library.java:10-16 | a new library has the given name and no books |
| Libraries.AddBook | 02-class-relationships/LMS/library/Library.java:18-20 | `addBook` appends the book at the end, grows the sequence by one, leaves earlier books in place and keeps the name |
| Libraries.AddBookCounts | 02-class-relationships/LMS/library/Library.java:18-20 | the added book's occurrence count grows by one, and every other book's count is unchanged |
| Libraries.AddBooks | 02-class-relationships/LMS/library/Library.java:18-24 | a series of `addBook` calls appends the books in call order and keeps the name |
| Libraries.BooksInInsertionOrder | 02-class-relationships/LMS/library/Library.java:22-24 | after adding a sequence of books to a new library, `getBooks` returns exactly that sequence, duplicates included |
| Libraries.AddBookTwiceKeepsBoth | 02-class-relationships/LMS/library/Library.java:18-20 | adding one book twice keeps two copies at the end, and its count grows by two |
| ReadingClubs.NewReadingClub | 02-class-relationships/LMS/readingClub/ReadingClub.java:11-21 | a new club has the given club name, which `getName` returns, and no members |
| ReadingClubs.AddMember | 02-class-relationships/LMS/readingClub/ReadingClub.java:15-17 | `addMember` appends the reader at the end, grows the member sequence by one, leaves earlier members in place and keeps the club name |
| ReadingClubs.AddMemberCounts | 02-class-relationships/LMS/readingClub/ReadingClub.java:15-17 | the added reader's occurrence count grows by one, and every other reader's count is unchanged |
| ReadingClubs.AddMembers | 02-class-relationships/LMS/readingClub/ReadingClub.java:15-25 | a series of `addMember` calls appends the readers in call order and keeps the club name |
| ReadingClubs.MembersInInsertionOrder | 02-class-relationships/LMS/readingClub/ReadingClub.java:23-25 | after adding a sequence of readers to a new club, `getMembers` returns exactly that sequence, duplicates included |
| ReadingClubs.AddMemberTwiceKeepsBoth | 02-class-relationships/LMS/readingClub/ReadingClub.java:15-17 | adding one reader twice makes it a member twice |
| Readers.NewReader | 06-class-relationships/LMS/reader/Reader.java:7-12 | `getName` returns the name given to the constructor |
| Readers.ReadBook | 06-class-relationships/LMS/reader/Reader.java:13-15 | `readBook` prints exactly what the book's `read()` prints: the book line, plus the format line when the book is an ebook |
| Readers.ReadBookDispatchesOnVariant | 06-class-relationships/LMS/reader/Reader.java:13-15 | an ebook passed as a `Book` prints the plain-book output plus its format line, not the plain-book output alone; which reader reads makes no difference |
| Stdout.Println | 02-class-relationships/LMS/book/Book.java:19 | `System.out.println(s)` appends to the stream exactly the rendering of the one line `s`: its text followed by one newline |
| Stdout.PrintlnLeadingNewline | 06-class-relationships/LMS/app/Main.java:38 | a `println` of `"\n" + header` shows an empty line and then the header |
| Stdout.SplitRender | 06-class-relationships/LMS/app/Main.java:38-46 | the terminal shows exactly the printed lines, in order, when none of them holds a newline |
| App.CatalogueLines | 06-class-relationships/LMS/app/Main.java:39-41 | the catalogue body has one line per plain book and two per ebook |
| App.RosterLines | 06-class-relationships/LMS/app/Main.java:44-46 | the roster has one line per member, namely that member's name, in member order |
| App.PrintCatalogue | 06-class-relationships/LMS/app/Main.java:38-41 | the catalogue section is an empty line, the catalogue header, then every book's `read()` output in insertion order |
| App.PrintRoster | 06-class-relationships/LMS/app/Main.java:43-46 | the roster section is an empty line, the roster header, then each member's name in joining order |
| App.RunDemo | 06-class-relationships/LMS/app/Main.java:17-46 | for any two books and readers, the library holds exactly the two books in order and the club exactly the two readers; the output is the two readings, then the catalogue section, then the roster section |
| App.DemoLinesNoNewline | 06-class-relationships/LMS/app/Main.java:29-46 | when no title, author name, format or reader name holds a newline, none of the lines `main` prints holds one, so each shows as one terminal line |
| App.FixtureOutput | 06-class-relationships/LMS/app/Main.java:29-46 | on the fixture, the readings, catalogue and roster give the twelve expected lines, with "Clean Code" read as an ebook although it is held as a `Book` |
| App.RunProgram | 06-class-relationships/LMS/app/Main.java:11-47 | `main` leaves "City Library" holding 1984 and then Clean Code, and "Evening Readers" holding Ayush and then John; the stream is exactly the rendering of the twelve expected terminal lines, final newline included (ten `println` calls; each header call shows an empty line first) |
| App.ProgramScreen | 06-class-relationships/LMS/app/Main.java:29-46 | the terminal shows exactly the twelve expected lines: three from reading, two header lines, three catalogue lines, two header lines and two names |

## Left out

- The standard output stream is a returned `string`, not a side effect. Interleaving with other writers is not modelled, and nor is the platform line separator; `println` appends `'\n'`. The stream is characters, not bytes: the charset encoding `System.out` applies is not modelled, and strings are sequences of Unicode characters rather than UTF-16 code units.
- `Author` and `Readable` are modelled from their uses only: `Author` is a datatype holding only the name that `getName` returns. `Readable.read` is the function `Books.Read`.
- `getBooks` and `getMembers` return the live `ArrayList`, and `readers` is a package-visible, non-final field. Changes made to a container from outside through these paths are not modelled; the accessors return a snapshot.
- Null arguments are not modelled. A null author would throw in `Book.read`, and a null string would print as `null`. All inputs are values.
- Object identity is not modelled. Books and readers compare as values, so two distinct but equal `Book` objects count as the same book in the occurrence counts. A `Library` or `ReadingClub` shared between two handles, where an add through one is seen through the other, is not modelled either; `addBook` and `addMember` change the object in place, and here they return the updated value instead. `main` never shares a container.
- Books, authors and readers are immutable values. Titles, authors, formats and names are `final` in the source, so `read` and `readBook` cannot change the book or the reader. No separate contract states this.
- The three Strategy pattern demonstrations (navigation, payment, sorting) are a separate part of the repository and are not part of this model.
