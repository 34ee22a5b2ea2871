/**
 * The rows of the quotation's item table: a header, one numbered row per
 * line item, and a total row. Fonts, colours, spans and grid lines are
 * presentation and are not modelled; a row keeps only its content.
 */
module ItemTable {
  import opened Items

  datatype Row =
    | Header
    | ItemRow(no: nat, name: string, qty: Operand, rate: Operand, amount: real)
    | TotalRow(sum: real)

  /** `table` is the item table of `items`: a header, then for the k-th item
      (counting from 1) a row numbered k with its name, quantity, rate and
      amount (0 when the product raised), then a total row carrying the
      total of those amounts. */
  ghost predicate IsItemTable(items: seq<Item>, table: seq<Row>)
  {
    && |table| == |items| + 2
    && table[0] == Header
    && (forall k :: 0 <= k < |items| ==>
          table[k + 1] == ItemRow(k + 1, items[k].name, items[k].qty, items[k].rate, AmountOrZero(items[k])))
    && table[|items| + 1] == TotalRow(Total(items))
  }

  /** Sum of the `amount` cells of the item rows among `rows`. */
  function RowAmounts(rows: seq<Row>): real
  {
    if rows == [] then 0.0
    else
      var last := rows[|rows| - 1];
      RowAmounts(rows[..|rows| - 1]) + (if last.ItemRow? then last.amount else 0.0)
  }

  /** Builds the table row by row, keeping a running total to which only the
      products that did not raise are added. */
  method BuildItemTable(items: seq<Item>) returns (table: seq<Row>)
    ensures IsItemTable(items, table)
  {
    table := [Header];
    var totalAmount := 0.0;
    for i := 0 to |items|
      invariant |table| == i + 1
      invariant table[0] == Header
      invariant forall k :: 0 <= k < i ==>
        table[k + 1] == ItemRow(k + 1, items[k].name, items[k].qty, items[k].rate, AmountOrZero(items[k]))
      invariant totalAmount == Total(items[..i])
    {
      var item := items[i];
      var amount: real;
      match Multiply(item.qty, item.rate) {
        case Value(v) =>
          amount := v;
          totalAmount := totalAmount + amount;
        case Raised =>
          amount := 0.0;
      }
      TotalOfPrefixStep(items, i);
      table := table + [ItemRow(i + 1, item.name, item.qty, item.rate, amount)];
    }
    assert items[..|items|] == items;
    table := table + [TotalRow(totalAmount)];
  }

  lemma {:induction false} RowAmountsOfPrefix(items: seq<Item>, table: seq<Row>, i: nat)
    requires IsItemTable(items, table)
    requires i <= |items|
    ensures RowAmounts(table[1..i + 1]) == Total(items[..i])
  {
    if i > 0 {
      RowAmountsOfPrefix(items, table, i - 1);
      assert table[1..i + 1][..i - 1] == table[1..i];
      assert items[..i][..i - 1] == items[..i - 1];
    }
  }

  /** The total row carries exactly the sum of the amounts printed in the item
      rows above it; a row whose product raised shows 0 and adds 0. */
  lemma TotalRowSumsItemRows(items: seq<Item>, table: seq<Row>)
    requires IsItemTable(items, table)
    ensures table[|table| - 1] == TotalRow(RowAmounts(table[1..|table| - 1]))
  {
    RowAmountsOfPrefix(items, table, |items|);
    assert items[..|items|] == items;
  }

  /** Building the table twice from the same items yields the same table. */
  lemma ItemTableIsUnique(items: seq<Item>, t1: seq<Row>, t2: seq<Row>)
    requires IsItemTable(items, t1) && IsItemTable(items, t2)
    ensures t1 == t2
  {
    forall j | 0 <= j < |t1|
      ensures t1[j] == t2[j]
    {
      if 0 < j <= |items| {
        var k := j - 1;
        assert t1[k + 1] == ItemRow(k + 1, items[k].name, items[k].qty, items[k].rate, AmountOrZero(items[k]));
      }
    }
  }
}
