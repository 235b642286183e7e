/** The database session the services share: one mutable object holding the tables. */
module Database {
  import opened Tables

  class Db {
    var now: int
    var rows: map<VariantId, Stock>
    var ledger: seq<Movement>
    var items: map<VariantId, Item>
    var products: map<ProductId, ProductStatus>
    var sessions: seq<Session>
    var orders: seq<Order>
    var payments: seq<Payment>

    ghost function Stocks(): Book
      reads this
    {
      Book(rows, ledger)
    }

    /** The whole state as a value. */
    ghost function Contents(): Shop
      reads this
    {
      Shop(now, Stocks(), items, products, sessions, orders, payments)
    }

    constructor (rows: map<VariantId, Stock>, items: map<VariantId, Item>, products: map<ProductId, ProductStatus>)
      ensures Contents() == Shop(0, Book(rows, []), items, products, [], [], [])
    {
      now, ledger, sessions, orders, payments := 0, [], [], [], [];
      this.rows, this.items, this.products := rows, items, products;
    }
  }
}
