/**
 * Line items of a quotation and the arithmetic applied to them.
 *
 * A row of the quotation form is a record `{name, qty, rate}`. Its quantity
 * and rate are normally numbers, but the table builder defends against an
 * operand that is not one: multiplying it raises, and the row's amount
 * falls back to 0. That case is the `NonNumeric` operand here.
 */
module Items {

  /** A quantity or a rate as a row holds it. `NonNumeric` stands for any value
      on which `*` and `>` raise a type error. */
  datatype Operand = Num(value: real) | NonNumeric

  /** One line item: description, quantity (or square feet) and rate. */
  datatype Item = Item(name: string, qty: Operand, rate: Operand)

  /** The blank row the form starts with and appends on "add item". */
  const EmptyItem := Item("", Num(0.0), Num(0.0))

  /** What evaluating `qty * rate` yields: a number, or a raised error. */
  datatype Product = Value(v: real) | Raised

  function Multiply(qty: Operand, rate: Operand): Product
  {
    if qty.Num? && rate.Num? then Value(qty.value * rate.value) else Raised
  }

  /** Both operands are numbers no smaller than zero, as the number inputs
      of the form guarantee. */
  predicate NonNegative(it: Item)
  {
    it.qty.Num? && it.qty.value >= 0.0 && it.rate.Num? && it.rate.value >= 0.0
  }

  /** The amount of a row: the product when it can be computed, else 0. */
  function AmountOrZero(it: Item): (r: real)
    ensures NonNegative(it) ==> r >= 0.0
    ensures it.qty.NonNumeric? || it.rate.NonNumeric? ==> r == 0.0
  {
    match Multiply(it.qty, it.rate)
    case Value(v) => v
    case Raised => 0.0
  }

  /** Sum of the amounts of the rows, accumulated front to back. */
  function Total(items: seq<Item>): (r: real)
    ensures (forall k :: 0 <= k < |items| ==> NonNegative(items[k])) ==> r >= 0.0
  {
    if items == [] then 0.0
    else Total(items[..|items| - 1]) + AmountOrZero(items[|items| - 1])
  }

  lemma TotalAppend(items: seq<Item>, it: Item)
    ensures Total(items + [it]) == Total(items) + AmountOrZero(it)
  {
  }

  /** One step of a front-to-back accumulation over `items`. */
  lemma TotalOfPrefixStep(items: seq<Item>, i: nat)
    requires i < |items|
    ensures Total(items[..i + 1]) == Total(items[..i]) + AmountOrZero(items[i])
  {
    assert items[..i + 1] == items[..i] + [items[i]];
    TotalAppend(items[..i], items[i]);
  }
}
