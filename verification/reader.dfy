/** A reader: a name, and the ability to read whatever book it is handed. */
module Readers {

  import Books

  datatype Reader = Reader(name: string)

  /** `new Reader(name)`. */
  function NewReader(name: string): (r: Reader)
    ensures GetName(r) == name
  {
    Reader(name)
  }

  function GetName(r: Reader): string {
    r.name
  }

  /** `readBook(book)` hands the work to the book: the reader prints nothing
      of its own, and an ebook passed as a `Book` still prints its format. */
  function ReadBook(r: Reader, b: Books.Book): (lines: seq<string>)
    ensures lines == Books.Read(b)
    ensures lines[0] == Books.BookLine(b.title, b.author.name)
    ensures b.Plain? ==> |lines| == 1
    ensures b.E? ==> |lines| == 2 && lines[1] == Books.FormatLine(b.fileFormat)
  {
    Books.Read(b)
  }

  /** Handed an ebook, a reader prints one line more than for the plain book
      with the same title and author; which reader reads makes no difference. */
  lemma ReadBookDispatchesOnVariant(r: Reader, r': Reader, b: Books.Book)
    requires b.E?
    ensures ReadBook(r, b) == ReadBook(r', Books.SuperPart(b)) + [Books.FormatLine(b.fileFormat)]
    ensures ReadBook(r, b) != Books.Read(Books.SuperPart(b))
  {
  }
}
