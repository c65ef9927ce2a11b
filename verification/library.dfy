/** A library: a name and the books added to it, in the order they were
    added. Books are values here, so the same book may sit in several
    libraries, and in one library several times.
 */
module Libraries {

  import Books

  datatype Library = Library(name: string, books: seq<Books.Book>)

  /** `new Library(name)`. */
  function NewLibrary(name: string): (l: Library)
    ensures GetName(l) == name
    ensures GetBooks(l) == []
  {
    Library(name, [])
  }

  function GetName(l: Library): string {
    l.name
  }

  /** A snapshot of the books, in insertion order. */
  function GetBooks(l: Library): seq<Books.Book> {
    l.books
  }

  /** `addBook(book)`: one more book at the end; nothing else moves, no
      duplicate check, and the name stays. */
  function AddBook(l: Library, b: Books.Book): (r: Library)
    ensures GetName(r) == GetName(l)
    ensures GetBooks(r) == GetBooks(l) + [b]
    ensures |GetBooks(r)| == |GetBooks(l)| + 1
    ensures GetBooks(r)[..|GetBooks(l)|] == GetBooks(l)
    ensures GetBooks(r)[|GetBooks(l)|] == b
  {
    l.(books := l.books + [b])
  }

  /** `AddBook` counts one more occurrence of the added book, duplicates
      included, and leaves every other count alone. */
  lemma AddBookCounts(l: Library, b: Books.Book, y: Books.Book)
    ensures multiset(GetBooks(AddBook(l, b)))[b] == multiset(GetBooks(l))[b] + 1
    ensures y != b ==> multiset(GetBooks(AddBook(l, b)))[y] == multiset(GetBooks(l))[y]
  {
  }

  /** A series of `addBook` calls, first to last. */
  function AddBooks(l: Library, bs: seq<Books.Book>): (r: Library)
    ensures GetName(r) == GetName(l)
    ensures GetBooks(r) == GetBooks(l) + bs
    decreases |bs|
  {
    if bs == [] then l
    else
      assert GetBooks(l) + bs == (GetBooks(l) + [bs[0]]) + bs[1..];
      AddBooks(AddBook(l, bs[0]), bs[1..])
  }

  /** Adding the books of `bs` one by one to a new library leaves exactly
      `bs` in it, in order, duplicates included. */
  lemma BooksInInsertionOrder(name: string, bs: seq<Books.Book>)
    ensures GetName(AddBooks(NewLibrary(name), bs)) == name
    ensures GetBooks(AddBooks(NewLibrary(name), bs)) == bs
  {
    assert [] + bs == bs;
  }

  /** Adding the same book twice keeps both copies, one after the other. */
  lemma AddBookTwiceKeepsBoth(l: Library, b: Books.Book)
    ensures GetBooks(AddBook(AddBook(l, b), b)) == GetBooks(l) + [b, b]
    ensures multiset(GetBooks(AddBook(AddBook(l, b), b)))[b] == multiset(GetBooks(l))[b] + 2
  {
    assert GetBooks(l) + [b] + [b] == GetBooks(l) + [b, b];
  }
}
