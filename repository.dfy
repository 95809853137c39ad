/** The repository demo: books kept in memory in a map from book id to book. */
module Repository {
  import opened Wrappers
  import GoMaps

  datatype Book = Book(id: string, title: string, author: string)

  const BookNotFound := "Book not found"

  /** FindById on the stored books: the book under the id, or an error. */
  function Find(books: map<string, Book>, id: string): Result<Book> {
    if id in books then Ok(books[id]) else Err(BookNotFound)
  }

  /** A book just added is found under its id. */
  lemma FindAfterAdd(books: map<string, Book>, b: Book)
    ensures Find(books[b.id := b], b.id) == Ok(b)
  {
  }

  /** A removed id is not found, whether or not it was there. */
  lemma FindAfterRemove(books: map<string, Book>, id: string)
    ensures Find(books - {id}, id) == Err(BookNotFound)
  {
  }

  /** Adding or removing under one id leaves every other id as it was, and
      removing twice is removing once. */
  lemma OtherIdsUnchanged(books: map<string, Book>, b: Book, id: string, other: string)
    requires other != b.id && other != id
    ensures Find(books[b.id := b], other) == Find(books, other)
    ensures Find(books - {id}, other) == Find(books, other)
    ensures books - {id} - {id} == books - {id}
  {
  }

  class InMemoryBookRepository {
    var books: map<string, Book>

    /** Every book is stored under its own id. */
    ghost predicate Valid()
      reads this
    {
      forall id :: id in books ==> books[id].id == id
    }

    /** NewInMemoryBookRepository: an empty repository. */
    constructor ()
      ensures Valid() && books == map[]
    {
      books := map[];
    }

    /** Stores b under b.id, replacing any book with that id; never fails. */
    method Add(b: Book) returns (err: Status)
      requires Valid()
      modifies this
      ensures Valid() && books == old(books)[b.id := b] && err == Success
    {
      books := books[b.id := b];
      err := Success;
    }

    /** Deletes the id if present; an absent id is not an error. */
    method Remove(id: string) returns (err: Status)
      requires Valid()
      modifies this
      ensures Valid() && books == old(books) - {id} && err == Success
    {
      books := books - {id};
      err := Success;
    }

    method FindById(id: string) returns (r: Result<Book>)
      ensures r == Find(books, id)
      ensures r.Ok? <==> id in books
    {
      r := Find(books, id);
    }

    /** Every stored book exactly once, in Go's unspecified map order. */
    method FindAll() returns (all: seq<Book>, err: Status)
      requires Valid()
      ensures err == Success && |all| == |books|
      ensures forall i :: 0 <= i < |all| ==> all[i].id in books && books[all[i].id] == all[i]
      ensures forall i, j :: 0 <= i < j < |all| ==> all[i].id != all[j].id
      ensures forall id :: id in books ==> books[id] in all
    {
      ghost var ks;
      all, ks := GoMaps.Values(books);
      assert forall i :: 0 <= i < |all| ==> all[i].id == ks[i];
      forall id | id in books ensures books[id] in all {
        var i :| 0 <= i < |ks| && ks[i] == id;
      }
      err := Success;
    }
  }

  /** The demo: two books added, book "1" found, then removed and not found. */
  method Demo() returns (found: Result<Book>, all: seq<Book>, afterRemove: Result<Book>)
    ensures found == Ok(Book("1", "1984", "George Orwell"))
    ensures |all| == 2
    ensures afterRemove == Err(BookNotFound)
  {
    var repo := new InMemoryBookRepository();
    var err := repo.Add(Book("1", "1984", "George Orwell"));
    err := repo.Add(Book("2", "Brave New World", "Aldous Huxley"));
    found := repo.FindById("1");
    all, err := repo.FindAll();
    err := repo.Remove("1");
    afterRemove := repo.FindById("1");
  }
}
