/** A reading club: a club name and its members, in the order they joined. */
module ReadingClubs {

  import Readers

  datatype ReadingClub = ReadingClub(clubName: string, readers: seq<Readers.Reader>)

  /** `new ReadingClub(clubName)`. */
  function NewReadingClub(clubName: string): (c: ReadingClub)
    ensures GetName(c) == clubName
    ensures GetMembers(c) == []
  {
    ReadingClub(clubName, [])
  }

  function GetName(c: ReadingClub): string {
    c.clubName
  }

  /** A snapshot of the members, in the order they were added. */
  function GetMembers(c: ReadingClub): seq<Readers.Reader> {
    c.readers
  }

  /** `addMember(reader)`: one more member at the end; nothing else moves, no
      duplicate check, and the club name stays. */
  function AddMember(c: ReadingClub, reader: Readers.Reader): (r: ReadingClub)
    ensures GetName(r) == GetName(c)
    ensures GetMembers(r) == GetMembers(c) + [reader]
    ensures |GetMembers(r)| == |GetMembers(c)| + 1
    ensures GetMembers(r)[..|GetMembers(c)|] == GetMembers(c)
    ensures GetMembers(r)[|GetMembers(c)|] == reader
  {
    c.(readers := c.readers + [reader])
  }

  /** `AddMember` counts one more occurrence of the added reader, duplicates
      included, and leaves every other count alone. */
  lemma AddMemberCounts(c: ReadingClub, reader: Readers.Reader, y: Readers.Reader)
    ensures multiset(GetMembers(AddMember(c, reader)))[reader] == multiset(GetMembers(c))[reader] + 1
    ensures y != reader ==> multiset(GetMembers(AddMember(c, reader)))[y] == multiset(GetMembers(c))[y]
  {
  }

  /** A series of `addMember` calls, first to last. */
  function AddMembers(c: ReadingClub, rs: seq<Readers.Reader>): (r: ReadingClub)
    ensures GetName(r) == GetName(c)
    ensures GetMembers(r) == GetMembers(c) + rs
    decreases |rs|
  {
    if rs == [] then c
    else
      assert GetMembers(c) + rs == (GetMembers(c) + [rs[0]]) + rs[1..];
      AddMembers(AddMember(c, rs[0]), rs[1..])
  }

  /** Adding the readers of `rs` one by one to a new club leaves exactly `rs`
      as its members, in order, duplicates included. */
  lemma MembersInInsertionOrder(clubName: string, rs: seq<Readers.Reader>)
    ensures GetName(AddMembers(NewReadingClub(clubName), rs)) == clubName
    ensures GetMembers(AddMembers(NewReadingClub(clubName), rs)) == rs
  {
    assert [] + rs == rs;
  }

  /** Adding the same reader twice makes it a member twice. */
  lemma AddMemberTwiceKeepsBoth(c: ReadingClub, reader: Readers.Reader)
    ensures GetMembers(AddMember(AddMember(c, reader), reader)) == GetMembers(c) + [reader, reader]
    ensures multiset(GetMembers(AddMember(AddMember(c, reader), reader)))[reader]
         == multiset(GetMembers(c))[reader] + 2
  {
    assert GetMembers(c) + [reader] + [reader] == GetMembers(c) + [reader, reader];
  }
}
