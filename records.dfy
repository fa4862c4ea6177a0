/**
 * The records the list pages display, with the fields their logic reads.
 * Every field a page lower-cases is a string here; a record missing one
 * would make the page throw, which is not modelled.
 */
module Records {
  import opened Wrappers

  datatype Product = Product(id: string, name: string, category: string, sku: string, quantity: int)

  datatype Order = Order(id: string, customerName: string, status: string)

  /** A calendar month: what `getFullYear()` and `getMonth()` read from a date. */
  datatype YearMonth = YearMonth(year: int, month: int)

  datatype Customer = Customer(name: string, email: string, isActive: bool, createdAt: Option<YearMonth>)

  /** A category; its `name` may be missing. */
  datatype Category = Category(name: Option<string>, isActive: bool)
}
