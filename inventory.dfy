// The catalog store: a list of books changed by push, assignment at an index and
// filter-reassignment, with the two copy counters adjusted one at a time.

module Inventory {
  import opened Wrappers
  import opened Models
  import Store

  function BookKey(b: Book): string { b.id }

  /** The update callback `(b) => ({ ...b, ...patch })`. */
  function PatchBook(patch: BookPatch): Book -> Book {
    b => MergeBook(b, patch)
  }

  /** The partial record `{ availableCopies: n }`. */
  function CopiesPatch(n: int): (p: BookPatch)
    ensures p.id.None? && p.totalCopies.None? && p.availableCopies == Some(n)
  {
    NoBookChange.(availableCopies := Some(n))
  }

  /** The books after `decreaseAvailableCopies(id)`. */
  function AfterDecrease(books: seq<Book>, id: string): seq<Book> {
    match Store.Lookup(books, BookKey, id)
    case Some(b) =>
      if b.availableCopies > 0 then Store.Replace(books, BookKey, id, PatchBook(CopiesPatch(b.availableCopies - 1)))
      else books
    case None => books
  }

  /** The books after `increaseAvailableCopies(id)`. */
  function AfterIncrease(books: seq<Book>, id: string): seq<Book> {
    match Store.Lookup(books, BookKey, id)
    case Some(b) =>
      if b.availableCopies < b.totalCopies then Store.Replace(books, BookKey, id, PatchBook(CopiesPatch(b.availableCopies + 1)))
      else books
    case None => books
  }

  /** Every book has between none and all of its copies on the shelf. */
  predicate CopiesInBounds(books: seq<Book>) {
    forall i :: 0 <= i < |books| ==> 0 <= books[i].availableCopies <= books[i].totalCopies
  }

  class InventoryService {
    var books: seq<Book>

    constructor(initial: seq<Book>)
      ensures books == initial
    {
      books := initial;
    }

    method GetBookById(id: string) returns (book: Option<Book>)
      ensures book == Store.Lookup(books, BookKey, id)
    {
      book := Store.Lookup(books, BookKey, id);
    }

    /** `addBook`: the fields supplied, under a fresh id. */
    method AddBook(book: Book, freshId: string)
      modifies this
      ensures books == old(books) + [book.(id := freshId)]
    {
      books := books + [book.(id := freshId)];
    }

    method UpdateBook(id: string, patch: BookPatch)
      modifies this
      ensures books == Store.Replace(old(books), BookKey, id, PatchBook(patch))
    {
      books := Store.Replace(books, BookKey, id, PatchBook(patch));
    }

    method DeleteBook(id: string)
      modifies this
      ensures books == Store.Remove(old(books), BookKey, id)
    {
      books := Store.Remove(books, BookKey, id);
    }

    method DecreaseAvailableCopies(id: string)
      modifies this
      ensures books == AfterDecrease(old(books), id)
    {
      var book := GetBookById(id);
      if book.Some? && book.value.availableCopies > 0 {
        UpdateBook(id, CopiesPatch(book.value.availableCopies - 1));
      }
    }

    method IncreaseAvailableCopies(id: string)
      modifies this
      ensures books == AfterIncrease(old(books), id)
    {
      var book := GetBookById(id);
      if book.Some? && book.value.availableCopies < book.value.totalCopies {
        UpdateBook(id, CopiesPatch(book.value.availableCopies + 1));
      }
    }
  }

  // ---------------------------------------------------------------- properties

  /**
   * Decreasing takes exactly one copy off the first book with the id when it has one on the
   * shelf, and changes nothing else; otherwise it changes nothing at all.
   */
  lemma DecreaseEffect(books: seq<Book>, id: string)
    ensures var r := AfterDecrease(books, id);
      && |r| == |books|
      && (match Store.Lookup(books, BookKey, id)
          case Some(b) =>
            if b.availableCopies > 0 then
              && r[Store.Position(books, BookKey, id)] == b.(availableCopies := b.availableCopies - 1)
              && forall j :: 0 <= j < |books| && j != Store.Position(books, BookKey, id) ==> r[j] == books[j]
            else r == books
          case None => r == books)
  {
  }

  /** Increasing puts exactly one copy back on the first book with the id while some are out, and changes nothing else. */
  lemma IncreaseEffect(books: seq<Book>, id: string)
    ensures var r := AfterIncrease(books, id);
      && |r| == |books|
      && (match Store.Lookup(books, BookKey, id)
          case Some(b) =>
            if b.availableCopies < b.totalCopies then
              && r[Store.Position(books, BookKey, id)] == b.(availableCopies := b.availableCopies + 1)
              && forall j :: 0 <= j < |books| && j != Store.Position(books, BookKey, id) ==> r[j] == books[j]
            else r == books
          case None => r == books)
  {
  }

  /** Putting back the copy just taken restores the shelf, provided the counter was within its bounds. */
  lemma DecreaseThenIncrease(books: seq<Book>, id: string)
    requires var b := Store.Lookup(books, BookKey, id); b.Some? && 0 < b.value.availableCopies <= b.value.totalCopies
    ensures AfterIncrease(AfterDecrease(books, id), id) == books
  {
    var b := Store.Lookup(books, BookKey, id).value;
    var k := Store.Position(books, BookKey, id);
    var r := AfterDecrease(books, id);
    DecreaseEffect(books, id);
    assert forall j :: 0 <= j < |books| ==> BookKey(r[j]) == BookKey(books[j]);
    assert Store.Position(r, BookKey, id) == k;
    IncreaseEffect(r, id);
    assert AfterIncrease(r, id)[k] == books[k];
  }

  /** Decreasing never takes a counter below zero or above its total. */
  lemma DecreaseKeepsRange(books: seq<Book>, id: string)
    ensures var r := AfterDecrease(books, id);
      && |r| == |books|
      && (forall j :: 0 <= j < |books| && books[j].availableCopies >= 0 ==> r[j].availableCopies >= 0)
      && (forall j :: 0 <= j < |books| && books[j].availableCopies <= books[j].totalCopies ==> r[j].availableCopies <= r[j].totalCopies)
  {
    DecreaseEffect(books, id);
  }

  /** Increasing never takes a counter above its total or below zero. */
  lemma IncreaseKeepsRange(books: seq<Book>, id: string)
    ensures var r := AfterIncrease(books, id);
      && |r| == |books|
      && (forall j :: 0 <= j < |books| && books[j].availableCopies <= books[j].totalCopies ==> r[j].availableCopies <= r[j].totalCopies)
      && (forall j :: 0 <= j < |books| && books[j].availableCopies >= 0 ==> r[j].availableCopies >= 0)
  {
    IncreaseEffect(books, id);
  }

  /** Both copy operations keep every book within its bounds. */
  lemma CopyOperationsKeepBounds(books: seq<Book>, id: string)
    requires CopiesInBounds(books)
    ensures CopiesInBounds(AfterDecrease(books, id))
    ensures CopiesInBounds(AfterIncrease(books, id))
  {
    DecreaseKeepsRange(books, id);
    IncreaseKeepsRange(books, id);
  }

  /** Deleting keeps the bounds; adding keeps them only for a book that is itself in bounds. */
  lemma AddDeleteBounds(books: seq<Book>, book: Book, freshId: string, id: string)
    requires CopiesInBounds(books)
    ensures CopiesInBounds(Store.Remove(books, BookKey, id))
    ensures CopiesInBounds(books + [book.(id := freshId)]) <==> 0 <= book.availableCopies <= book.totalCopies
  {
    var r := Store.Remove(books, BookKey, id);
    Store.RemoveKeepsOthers(books, BookKey, id);
    forall j | 0 <= j < |r| ensures 0 <= r[j].availableCopies <= r[j].totalCopies {
      assert r[j] in books;
    }
    var a := books + [book.(id := freshId)];
    assert a[|books|] == book.(id := freshId);
  }

  /** An update may set any counter: the store itself does not keep the bounds. */
  lemma UpdateMayBreakBounds(b: Book)
    requires 0 <= b.availableCopies <= b.totalCopies
    ensures CopiesInBounds([b])
    ensures !CopiesInBounds(Store.Replace([b], BookKey, b.id, PatchBook(CopiesPatch(b.totalCopies + 1))))
  {
    assert Store.Position([b], BookKey, b.id) == 0;
  }
}
