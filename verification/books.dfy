/** Authors, books and electronic books, and what reading one prints.

    Java's `Book` class and its `Ebook` subclass become the two variants of
    one datatype; the `Readable` interface becomes the function `Read`, and
    dynamic dispatch on the receiver's runtime class becomes a `match` on the
    variant. A value of type `Book` built with `E` is an ebook "seen through a
    Book handle": `Read` still takes the ebook branch.
 */
module Books {

  import Stdout

  datatype Option<T> = None | Some(value: T)

  /** An author is known only by the name it was created with. */
  datatype Author = Author(name: string)

  /** `Plain` is a `Book` object, `E` an `Ebook` object. Both carry the title
      and author that the `Book` constructor binds; `E` adds the file format. */
  datatype Book =
    | Plain(title: string, author: Author)
    | E(title: string, author: Author, fileFormat: string)

  const TitlePrefix: string := "Book name is "
  const AuthorInfix: string := " written by "
  const FormatPrefix: string := "File format : "

  /** `sub` occurs in `s` starting at position `i`. */
  predicate OccursAt(s: string, sub: string, i: int) {
    0 <= i && i + |sub| <= |s| && s[i..i + |sub|] == sub
  }

  ghost predicate Contains(s: string, sub: string) {
    exists i :: OccursAt(s, sub, i)
  }

  /** `new Book(title, author)`. */
  function NewBook(title: string, author: Author): (b: Book)
    ensures GetTitle(b) == title && GetAuthor(b) == author
    ensures |Read(b)| == 1
  {
    Plain(title, author)
  }

  /** `new Ebook(title, author, fileFormat)`: the title and author pass
      through the `Book` constructor. */
  function NewEbook(title: string, author: Author, fileFormat: string): (b: Book)
    ensures GetTitle(b) == title && GetAuthor(b) == author
    ensures b.E? && GetFileFormat(b) == fileFormat
    ensures SuperPart(b) == NewBook(title, author)
  {
    E(title, author, fileFormat)
  }

  function GetTitle(b: Book): string {
    b.title
  }

  function GetAuthor(b: Book): Author {
    b.author
  }

  /** Only an ebook has a file format. */
  function GetFileFormat(b: Book): string
    requires b.E?
  {
    b.fileFormat
  }

  /** The `Book` part of any book: what `super` refers to inside an `Ebook`. */
  function SuperPart(b: Book): (p: Book)
    ensures p.Plain? && p.title == b.title && p.author == b.author
    ensures b.Plain? ==> p == b
  {
    Plain(b.title, b.author)
  }

  /** The single line a plain book prints. */
  function BookLine(title: string, authorName: string): string {
    TitlePrefix + title + AuthorInfix + authorName
  }

  /** The second line an ebook prints. */
  function FormatLine(fileFormat: string): string {
    FormatPrefix + fileFormat
  }

  /** Where each part sits in a book line: the fixed prefix, the title, the
      fixed infix, and the author's name at the very end. */
  lemma BookLineLayout(title: string, authorName: string)
    ensures |BookLine(title, authorName)| == |TitlePrefix| + |title| + |AuthorInfix| + |authorName|
    ensures OccursAt(BookLine(title, authorName), TitlePrefix, 0)
    ensures OccursAt(BookLine(title, authorName), title, |TitlePrefix|)
    ensures OccursAt(BookLine(title, authorName), AuthorInfix, |TitlePrefix| + |title|)
    ensures OccursAt(BookLine(title, authorName), authorName, |TitlePrefix| + |title| + |AuthorInfix|)
  {
    var l := BookLine(title, authorName);
    var k := |TitlePrefix| + |title| + |AuthorInfix|;
    assert l[..|TitlePrefix|] == TitlePrefix;
    assert l[|TitlePrefix|..|TitlePrefix| + |title|] == title;
    assert l[|TitlePrefix| + |title|..k] == AuthorInfix;
    assert l[k..k + |authorName|] == authorName;
  }

  /** Where each part sits in a format line. */
  lemma FormatLineLayout(fileFormat: string)
    ensures |FormatLine(fileFormat)| == |FormatPrefix| + |fileFormat|
    ensures OccursAt(FormatLine(fileFormat), FormatPrefix, 0)
    ensures OccursAt(FormatLine(fileFormat), fileFormat, |FormatPrefix|)
  {
    var l := FormatLine(fileFormat);
    assert l[..|FormatPrefix|] == FormatPrefix;
    assert l[|FormatPrefix|..|FormatPrefix| + |fileFormat|] == fileFormat;
  }

  /** `read()`, one element per `println`. An ebook first does what its
      `Book` part does and then prints its format. */
  function Read(b: Book): (lines: seq<string>)
    ensures |lines| == if b.E? then 2 else 1
    ensures lines[0] == BookLine(b.title, b.author.name)
    ensures b.E? ==> lines[1] == FormatLine(b.fileFormat)
    decreases if b.E? then 1 else 0
  {
    match b
    case Plain(title, author) => [BookLine(title, author.name)]
    case E(title, author, fileFormat) => Read(SuperPart(b)) + [FormatLine(fileFormat)]
  }

  /** Reading any book prints a first line that names its title and its
      author. */
  lemma ReadMentionsTitleAndAuthor(b: Book)
    ensures Contains(Read(b)[0], b.title)
    ensures Contains(Read(b)[0], b.author.name)
  {
    BookLineLayout(b.title, b.author.name);
    assert OccursAt(Read(b)[0], b.title, |TitlePrefix|);
    assert OccursAt(Read(b)[0], b.author.name, |TitlePrefix| + |b.title| + |AuthorInfix|);
  }

  /** An ebook prints exactly what the plain book with the same title and
      author prints, followed by one line naming its format. */
  lemma EbookReadExtendsBookRead(title: string, author: Author, fileFormat: string)
    ensures Read(NewEbook(title, author, fileFormat))
         == Read(NewBook(title, author)) + [FormatLine(fileFormat)]
    ensures Read(NewEbook(title, author, fileFormat))[0] == Read(NewBook(title, author))[0]
    ensures Contains(Read(NewEbook(title, author, fileFormat))[1], fileFormat)
  {
    FormatLineLayout(fileFormat);
    assert OccursAt(FormatLine(fileFormat), fileFormat, |FormatPrefix|);
  }

  /** Recovers the title from a book line, given the author's name. */
  function ParseBookLine(line: string, authorName: string): Option<string> {
    var tail := AuthorInfix + authorName;
    if |TitlePrefix| + |tail| <= |line|
       && line[..|TitlePrefix|] == TitlePrefix
       && line[|line| - |tail|..] == tail
    then Some(line[|TitlePrefix|..|line| - |tail|])
    else None
  }

  /** Recovers the file format from a format line. */
  function ParseFormatLine(line: string): Option<string> {
    if |FormatPrefix| <= |line| && line[..|FormatPrefix|] == FormatPrefix
    then Some(line[|FormatPrefix|..])
    else None
  }

  /** Recovers the book whose reading printed `lines`, given its author. */
  function ParseRead(lines: seq<string>, author: Author): Option<Book> {
    if |lines| == 1 then
      match ParseBookLine(lines[0], author.name)
      case Some(title) => Some(Plain(title, author))
      case None => None
    else if |lines| == 2 then
      match (ParseBookLine(lines[0], author.name), ParseFormatLine(lines[1]))
      case (Some(title), Some(fileFormat)) => Some(E(title, author, fileFormat))
      case _ => None
    else None
  }

  /** A book line determines its title once the author is known, and every
      line the parser accepts is a book line. */
  lemma BookLineRoundTrip(title: string, authorName: string, line: string)
    ensures ParseBookLine(BookLine(title, authorName), authorName) == Some(title)
    ensures ParseBookLine(line, authorName) == Some(title) <==> line == BookLine(title, authorName)
  {
    var l := BookLine(title, authorName);
    var tail := AuthorInfix + authorName;
    assert l == TitlePrefix + title + tail;
    assert l[..|TitlePrefix|] == TitlePrefix;
    assert l[|l| - |tail|..] == tail;
    assert l[|TitlePrefix|..|l| - |tail|] == title;
    if ParseBookLine(line, authorName) == Some(title) {
      assert line == line[..|TitlePrefix|] + line[|TitlePrefix|..|line| - |tail|] + line[|line| - |tail|..];
    }
  }

  /** A format line determines its format, and every line the parser accepts
      is a format line. */
  lemma FormatLineRoundTrip(fileFormat: string, line: string)
    ensures ParseFormatLine(FormatLine(fileFormat)) == Some(fileFormat)
    ensures ParseFormatLine(line) == Some(fileFormat) <==> line == FormatLine(fileFormat)
  {
    var l := FormatLine(fileFormat);
    assert l[..|FormatPrefix|] == FormatPrefix;
    assert l[|FormatPrefix|..] == fileFormat;
    if ParseFormatLine(line) == Some(fileFormat) {
      assert line == line[..|FormatPrefix|] + line[|FormatPrefix|..];
    }
  }

  /** The printed lines identify the book once its author is known, including
      whether it is a plain book or an ebook. */
  lemma ReadRoundTrip(b: Book)
    ensures ParseRead(Read(b), b.author) == Some(b)
  {
    BookLineRoundTrip(b.title, b.author.name, BookLine(b.title, b.author.name));
    if b.E? {
      FormatLineRoundTrip(b.fileFormat, FormatLine(b.fileFormat));
    }
  }

  /** Whatever `ParseRead` accepts is exactly what the book it returns prints. */
  lemma ParseReadSound(lines: seq<string>, author: Author, b: Book)
    requires ParseRead(lines, author) == Some(b)
    ensures b.author == author
    ensures Read(b) == lines
  {
    BookLineRoundTrip(b.title, author.name, lines[0]);
    if b.E? {
      FormatLineRoundTrip(b.fileFormat, lines[1]);
    }
  }

  /** Without its author, a book line does not identify the book: the infix
      may sit inside the title or inside the author's name. */
  lemma AuthorMatters()
    ensures Read(Plain("A written by B", Author("C")))
         == Read(Plain("A", Author("B written by C")))
    ensures Plain("A written by B", Author("C")) != Plain("A", Author("B written by C"))
  {
    assert BookLine("A written by B", "C") == BookLine("A", "B written by C");
  }

  /** None of the lines a book prints breaks into two terminal lines, as long
      as its title, author name and format hold no newline. */
  lemma ReadNoNewline(b: Book)
    requires Stdout.NoNewline(b.title) && Stdout.NoNewline(b.author.name)
    requires b.E? ==> Stdout.NoNewline(b.fileFormat)
    ensures Stdout.AllNoNewline(Read(b))
  {
    var l := BookLine(b.title, b.author.name);
    assert l == TitlePrefix + b.title + AuthorInfix + b.author.name;
    assert '\n' !in l by {
      forall j | 0 <= j < |l| ensures l[j] != '\n' {
        if j < |TitlePrefix| {
        } else if j < |TitlePrefix| + |b.title| {
          assert l[j] == b.title[j - |TitlePrefix|];
        } else if j < |TitlePrefix| + |b.title| + |AuthorInfix| {
        } else {
          assert l[j] == b.author.name[j - |TitlePrefix| - |b.title| - |AuthorInfix|];
        }
      }
    }
    if b.E? {
      var f := FormatLine(b.fileFormat);
      assert '\n' !in f by {
        forall j | 0 <= j < |f| ensures f[j] != '\n' {
          if j >= |FormatPrefix| {
            assert f[j] == b.fileFormat[j - |FormatPrefix|];
          }
        }
      }
    }
  }
}
