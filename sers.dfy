/**
 * The database side of an order (src/sers.py): the `books` table read as a
 * map from book id to stock, and the `orders` table as a sequence of rows
 * that an insert appends to.
 */
module Sers {
  import opened Wrappers
  import opened Exceptions
  import opened OrderModel

  /** `SELECT stock FROM books WHERE book_id = ...`, as a map. */
  type Inventory = map<int, int>

  /** The five columns of the `orders` table; the confirmation flag is not one of them. */
  datatype OrderRow = OrderRow(
    customerName: Option<string>,
    phone: Option<string>,
    address: Option<string>,
    bookId: Option<int>,
    quantity: Option<int>)

  /** `check_order_validity`: the book must exist, and the quantity must not exceed its stock. */
  function CheckOrderValidity(books: Inventory, bookId: int, quantity: int): (r: Outcome)
    ensures bookId !in books ==> r == Fail(BookNotFound(bookId))
    ensures bookId in books && quantity > books[bookId] ==>
              r == Fail(QuantityExceedsStock(quantity, books[bookId], bookId))
    ensures r.Pass? <==> bookId in books && quantity <= books[bookId]
  {
    if bookId !in books then Fail(BookNotFound(bookId))
    else
      var stock := books[bookId];
      if quantity > stock then Fail(QuantityExceedsStock(quantity, stock, bookId))
      else Pass
  }

  /** The existence test comes first: a missing book fails the same way whatever the quantity. */
  lemma UnknownBookIgnoresQuantity(books: Inventory, bookId: int, q1: int, q2: int)
    requires bookId !in books
    ensures CheckOrderValidity(books, bookId, q1) == CheckOrderValidity(books, bookId, q2)
  {
  }

  /** An order that passes still passes with more stock or fewer copies. */
  lemma CheckMonotone(books: Inventory, bookId: int, quantity: int, fewer: int, more: int)
    requires CheckOrderValidity(books, bookId, quantity).Pass?
    requires fewer <= quantity && more >= books[bookId]
    ensures CheckOrderValidity(books, bookId, fewer).Pass?
    ensures CheckOrderValidity(books[bookId := more], bookId, quantity).Pass?
  {
  }

  /** The row `insert_order_to_db` writes for a snapshot. */
  function RowOf(d: Order): OrderRow {
    OrderRow(d.customerName, d.phone, d.address, d.bookId, d.quantity)
  }

  /** The row keeps all five data fields and drops only the flag: two snapshots give the same row exactly when they differ at most in it. */
  lemma RowOmitsConfirmed(d: Order, e: Order)
    ensures RowOf(d) == RowOf(e) <==> d.(confirmed := e.confirmed) == e
  {
  }

  /** A complete snapshot gives a row with no NULL column. */
  lemma CompleteRowHasNoNulls(d: Order)
    requires IsComplete(d)
    ensures var row := RowOf(d);
      row.customerName.Some? && row.phone.Some? && row.address.Some? && row.bookId.Some? && row.quantity.Some?
  {
  }

  /** The connection behind src/sers.py, reduced to the two tables the core touches. */
  class Database {
    var books: Inventory
    var orders: seq<OrderRow>

    /** A connection to tables that already exist, with whatever rows they hold. */
    constructor (books: Inventory, orders: seq<OrderRow>)
      ensures this.books == books && this.orders == orders
    {
      this.books := books;
      this.orders := orders;
    }

    /**
     * `insert_order_to_db`: one INSERT of five columns, then commit. `fault`
     * is what the database engine raises, if anything; then nothing is
     * written. Stock is never decremented.
     */
    method InsertOrderToDb(d: Order, fault: Option<Exception>) returns (r: Outcome)
      modifies this`orders
      ensures books == old(books)
      ensures fault.None? ==> r == Pass && orders == old(orders) + [RowOf(d)]
      ensures fault.Some? ==> r == Fail(fault.value) && orders == old(orders)
    {
      if fault.Some? {
        return Fail(fault.value);
      }
      orders := orders + [RowOf(d)];
      r := Pass;
    }
  }
}
