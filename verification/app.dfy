/** The demonstration program: it builds two books, a library, two readers
    and a reading club, lets each reader read one book, and then prints the
    library catalogue and the club roster. Its whole effect is the text it
    leaves on the standard output stream.
 */
module App {

  import Stdout
  import Books
  import Libraries
  import Readers
  import ReadingClubs

  const CatalogueHeader: string := "--- Library Catalogue ---"
  const RosterHeader: string := "--- Reading Club Members ---"

  /** What the program shows on the terminal, line by line. */
  const ExpectedLines: seq<string> := [
    "Book name is 1984 written by George Orwell",
    "Book name is Clean Code written by Robert C. Martin",
    "File format : PDF",
    "",
    "--- Library Catalogue ---",
    "Book name is 1984 written by George Orwell",
    "Book name is Clean Code written by Robert C. Martin",
    "File format : PDF",
    "",
    "--- Reading Club Members ---",
    "Ayush",
    "John"
  ]

  /** The number of ebooks among `books`. */
  function EbookCount(books: seq<Books.Book>): nat {
    if books == [] then 0
    else (if books[0].E? then 1 else 0) + EbookCount(books[1..])
  }

  /** Reading every book of `books` in turn: each book's lines, in order. */
  function CatalogueLines(books: seq<Books.Book>): (lines: seq<string>)
    ensures |lines| == |books| + EbookCount(books)
    decreases |books|
  {
    if books == [] then [] else Books.Read(books[0]) + CatalogueLines(books[1..])
  }

  /** Reading one more book adds its lines at the end of the catalogue. */
  lemma {:induction false} CatalogueLinesSnoc(books: seq<Books.Book>, b: Books.Book)
    ensures CatalogueLines(books + [b]) == CatalogueLines(books) + Books.Read(b)
    decreases |books|
  {
    if books == [] {
      assert [] + [b] == [b];
      assert CatalogueLines([b]) == Books.Read(b) + CatalogueLines([]);
    } else {
      assert (books + [b])[1..] == books[1..] + [b];
      CatalogueLinesSnoc(books[1..], b);
    }
  }

  /** One name per member, in member order. */
  function RosterLines(members: seq<Readers.Reader>): (lines: seq<string>)
    ensures |lines| == |members|
    ensures forall i :: 0 <= i < |members| ==> lines[i] == Readers.GetName(members[i])
  {
    seq(|members|, i requires 0 <= i < |members| => Readers.GetName(members[i]))
  }

  /** The catalogue section: a blank line and the header, from a single
      `println` whose argument starts with a newline, then every book's
      `read()` in insertion order. */
  method PrintCatalogue(out: string, lib: Libraries.Library) returns (out': string)
    ensures out' == out + Stdout.Render(["", CatalogueHeader] + CatalogueLines(Libraries.GetBooks(lib)))
  {
    Stdout.PrintlnLeadingNewline(out, CatalogueHeader);
    out' := Stdout.Println(out, "\n" + CatalogueHeader);
    var books := Libraries.GetBooks(lib);
    ghost var shown: seq<string> := ["", CatalogueHeader];
    assert books[..0] == [];
    for i := 0 to |books|
      invariant shown == ["", CatalogueHeader] + CatalogueLines(books[..i])
      invariant out' == out + Stdout.Render(shown)
    {
      var bk := books[i];
      var lines := Books.Read(bk);
      out' := Stdout.PrintLines(out', lines);
      Stdout.RenderExtend(out, shown, lines);
      shown := shown + lines;
      CatalogueLinesSnoc(books[..i], bk);
      assert books[..i + 1] == books[..i] + [bk];
      assert CatalogueLines(books[..i + 1]) == CatalogueLines(books[..i]) + lines;
    }
    assert books[..|books|] == books;
  }

  /** The roster section: a blank line and the header, then one member name
      per line in the order the members joined. */
  method PrintRoster(out: string, club: ReadingClubs.ReadingClub) returns (out': string)
    ensures out' == out + Stdout.Render(["", RosterHeader] + RosterLines(ReadingClubs.GetMembers(club)))
  {
    Stdout.PrintlnLeadingNewline(out, RosterHeader);
    out' := Stdout.Println(out, "\n" + RosterHeader);
    var members := ReadingClubs.GetMembers(club);
    ghost var shown: seq<string> := ["", RosterHeader];
    for i := 0 to |members|
      invariant shown == ["", RosterHeader] + RosterLines(members[..i])
      invariant out' == out + Stdout.Render(shown)
    {
      var r := members[i];
      out' := Stdout.Println(out', Readers.GetName(r));
      Stdout.RenderExtend(out, shown, [Readers.GetName(r)]);
      shown := shown + [Readers.GetName(r)];
      assert RosterLines(members[..i + 1]) == RosterLines(members[..i]) + [Readers.GetName(r)];
    }
    assert members[..|members|] == members;
  }

  /** The lines `main` prints for two books and two readers, in order: the
      two readings, the catalogue section and the roster section. */
  function DemoLines(b1: Books.Book, b2: Books.Book, r1: Readers.Reader, r2: Readers.Reader): seq<string> {
    Readers.ReadBook(r1, b1) + Readers.ReadBook(r2, b2)
    + (["", CatalogueHeader] + CatalogueLines([b1, b2]))
    + (["", RosterHeader] + RosterLines([r1, r2]))
  }

  /** When no title, author name, format or reader name holds a newline, every
      line `main` prints shows as one terminal line. */
  lemma DemoLinesNoNewline(b1: Books.Book, b2: Books.Book, r1: Readers.Reader, r2: Readers.Reader)
    requires Stdout.NoNewline(b1.title) && Stdout.NoNewline(b1.author.name)
    requires b1.E? ==> Stdout.NoNewline(b1.fileFormat)
    requires Stdout.NoNewline(b2.title) && Stdout.NoNewline(b2.author.name)
    requires b2.E? ==> Stdout.NoNewline(b2.fileFormat)
    requires Stdout.NoNewline(r1.name) && Stdout.NoNewline(r2.name)
    ensures Stdout.AllNoNewline(DemoLines(b1, b2, r1, r2))
  {
    Books.ReadNoNewline(b1);
    Books.ReadNoNewline(b2);
    CatalogueOfTwo(b1, b2);
    assert Stdout.NoNewline(CatalogueHeader) && Stdout.NoNewline(RosterHeader);
    var reading := Books.Read(b1) + Books.Read(b2);
    Stdout.AllNoNewlineAppend(Books.Read(b1), Books.Read(b2));
    Stdout.AllNoNewlineAppend(["", CatalogueHeader], reading);
    Stdout.AllNoNewlineAppend(reading, ["", CatalogueHeader] + reading);
    var roster := ["", RosterHeader] + RosterLines([r1, r2]);
    assert Stdout.AllNoNewline(roster) by {
      assert roster == ["", RosterHeader, r1.name, r2.name];
    }
    Stdout.AllNoNewlineAppend(reading + (["", CatalogueHeader] + reading), roster);
  }

  lemma CatalogueOfTwo(b1: Books.Book, b2: Books.Book)
    ensures CatalogueLines([b1, b2]) == Books.Read(b1) + Books.Read(b2)
  {
    assert [b1, b2][1..] == [b2];
    assert CatalogueLines([b2]) == Books.Read(b2) + CatalogueLines([]);
  }

  /** The body of `main` for any two books and any two readers: the first
      reader reads the first book, the second reader the second book, both
      books go into the library and both readers into the club. */
  method RunDemo(libName: string, b1: Books.Book, b2: Books.Book,
                 clubName: string, r1: Readers.Reader, r2: Readers.Reader)
    returns (cityLib: Libraries.Library, club: ReadingClubs.ReadingClub, out: string)
    ensures Libraries.GetName(cityLib) == libName
    ensures Libraries.GetBooks(cityLib) == [b1, b2]
    ensures ReadingClubs.GetName(club) == clubName
    ensures ReadingClubs.GetMembers(club) == [r1, r2]
    ensures out == Stdout.Render(DemoLines(b1, b2, r1, r2))
  {
    cityLib := Libraries.NewLibrary(libName);
    cityLib := Libraries.AddBook(cityLib, b1);
    cityLib := Libraries.AddBook(cityLib, b2);
    assert Libraries.GetBooks(cityLib) == [b1, b2];

    var first := Readers.ReadBook(r1, b1);
    var second := Readers.ReadBook(r2, b2);
    out := "";
    out := Stdout.PrintLines(out, first);
    out := Stdout.PrintLines(out, second);
    Stdout.RenderAppend(first, second);
    assert out == Stdout.Render(first + second);

    club := ReadingClubs.NewReadingClub(clubName);
    club := ReadingClubs.AddMember(club, r1);
    club := ReadingClubs.AddMember(club, r2);
    assert ReadingClubs.GetMembers(club) == [r1, r2];

    out := PrintCatalogue(out, cityLib);
    var catalogue := ["", CatalogueHeader] + CatalogueLines([b1, b2]);
    Stdout.RenderAppend(first + second, catalogue);
    assert out == Stdout.Render(first + second + catalogue);
    out := PrintRoster(out, club);
    var roster := ["", RosterHeader] + RosterLines([r1, r2]);
    Stdout.RenderAppend(first + second + catalogue, roster);
    assert out == Stdout.Render(first + second + catalogue + roster);
  }

  /** `main` on its fixture: two authors, the book "1984", the ebook
      "Clean Code" in PDF, the library "City Library", the readers Ayush and
      John and the club "Evening Readers". The terminal shows twelve lines. */
  method RunProgram() returns (cityLib: Libraries.Library, club: ReadingClubs.ReadingClub, out: string)
    ensures Libraries.GetName(cityLib) == "City Library"
    ensures Libraries.GetBooks(cityLib) == [
      Books.Plain("1984", Books.Author("George Orwell")),
      Books.E("Clean Code", Books.Author("Robert C. Martin"), "PDF")]
    ensures ReadingClubs.GetName(club) == "Evening Readers"
    ensures ReadingClubs.GetMembers(club) == [Readers.Reader("Ayush"), Readers.Reader("John")]
    ensures out == Stdout.Render(ExpectedLines)
  {
    var orwell := Books.Author("George Orwell");
    var uncleBob := Books.Author("Robert C. Martin");
    var b1 := Books.NewBook("1984", orwell);
    var b2 := Books.NewEbook("Clean Code", uncleBob, "PDF");
    var ayush := Readers.NewReader("Ayush");
    var john := Readers.NewReader("John");
    cityLib, club, out := RunDemo("City Library", b1, b2, "Evening Readers", ayush, john);
    FixtureOutput(b1, b2, ayush, john);
  }

  /** The terminal shows the twelve expected lines of `main`, one per
      terminal line: three from reading, two header lines, three catalogue
      lines, two header lines and two names. The ten `println` calls make
      twelve lines because each header call shows an empty line first. */
  lemma ProgramScreen()
    ensures Stdout.SplitLines(Stdout.Render(ExpectedLines)) == ExpectedLines
    ensures |Stdout.SplitLines(Stdout.Render(ExpectedLines))| == 12
  {
    var b1 := Books.Plain("1984", Books.Author("George Orwell"));
    var b2 := Books.E("Clean Code", Books.Author("Robert C. Martin"), "PDF");
    var ayush := Readers.Reader("Ayush");
    var john := Readers.Reader("John");
    FixtureOutput(b1, b2, ayush, john);
    FixtureNamesHaveNoNewline();
    DemoLinesNoNewline(b1, b2, ayush, john);
    Stdout.SplitRender(DemoLines(b1, b2, ayush, john));
  }

  /** The lines the fixture's reading, catalogue and roster produce are the
      expected ones. */
  lemma FixtureOutput(b1: Books.Book, b2: Books.Book, ayush: Readers.Reader, john: Readers.Reader)
    requires b1 == Books.Plain("1984", Books.Author("George Orwell"))
    requires b2 == Books.E("Clean Code", Books.Author("Robert C. Martin"), "PDF")
    requires ayush == Readers.Reader("Ayush") && john == Readers.Reader("John")
    ensures DemoLines(b1, b2, ayush, john) == ExpectedLines
  {
    CatalogueOfTwo(b1, b2);
    OrwellLine();
    MartinLine();
    PdfLine();
    assert Books.Read(b1) == ["Book name is 1984 written by George Orwell"];
    assert Books.Read(b2) == ["Book name is Clean Code written by Robert C. Martin", "File format : PDF"];
    assert RosterLines([ayush, john]) == ["Ayush", "John"];
  }

  /** The concrete text of the lines the fixture's books print. */
  lemma OrwellLine()
    ensures Books.BookLine("1984", "George Orwell") == "Book name is 1984 written by George Orwell"
  {
  }

  lemma MartinLine()
    ensures Books.BookLine("Clean Code", "Robert C. Martin")
         == "Book name is Clean Code written by Robert C. Martin"
  {
  }

  lemma PdfLine()
    ensures Books.FormatLine("PDF") == "File format : PDF"
  {
  }

  /** None of the fixture's titles, names and formats holds a newline. */
  lemma FixtureNamesHaveNoNewline()
    ensures Stdout.NoNewline("1984") && Stdout.NoNewline("George Orwell")
    ensures Stdout.NoNewline("Clean Code") && Stdout.NoNewline("Robert C. Martin")
    ensures Stdout.NoNewline("PDF")
    ensures Stdout.NoNewline("Ayush") && Stdout.NoNewline("John")
  {
  }
}
