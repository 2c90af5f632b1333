// The two records both views consume (Payment.kt): a payment as loaded from
// the bundled data, and a category total as the chart keeps it.

module Payments {

  /** One payment; `time` is the instant in milliseconds since the epoch. */
  datatype Payment = Payment(id: int, name: string, amount: int, category: string, time: int)

  /** A category total shown by the chart. */
  datatype Category = Category(name: string, amount: int)

  function Amount(p: Payment): int
  {
    p.amount
  }

  function Time(p: Payment): int
  {
    p.time
  }

  function CategoryAmount(c: Category): int
  {
    c.amount
  }
}
