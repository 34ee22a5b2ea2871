/**
 * The editable list of line items kept in the form's session state, with
 * the "add row" and "remove row" callbacks and the pass that redraws every
 * row and adds up the live grand total.
 */
module Session {
  import opened Items

  /** The values the three inputs of one form row hold on this pass. */
  datatype RowInput = RowInput(name: string, qty: real, rate: real)

  function FromInput(input: RowInput): Item
  {
    Item(input.name, Num(input.qty), Num(input.rate))
  }

  class Ledger {
    var items: seq<Item>

    /** The ledger is never empty. */
    ghost predicate Valid()
      reads this
    {
      |items| >= 1
    }

    /** First load of the session: one blank row. */
    constructor ()
      ensures Valid()
      ensures items == [EmptyItem]
    {
      items := [EmptyItem];
    }

    /** Appends a blank row; earlier rows are untouched. */
    method AddItem()
      requires Valid()
      modifies this
      ensures Valid()
      ensures |items| == |old(items)| + 1
      ensures items[..|old(items)|] == old(items)
      ensures items[|items| - 1] == EmptyItem
    {
      items := items + [EmptyItem];
    }

    /** Removes the row at `index`, unless it is the only row left. */
    method RemoveItem(index: nat)
      requires Valid()
      requires |items| > 1 ==> index < |items|
      modifies this
      ensures Valid()
      ensures |old(items)| == 1 ==> items == old(items)
      ensures |old(items)| > 1 ==> |items| == |old(items)| - 1
      ensures |old(items)| > 1 ==>
        forall k :: 0 <= k < |items| ==>
          items[k] == old(items)[if k < index then k else k + 1]
    {
      if |items| > 1 {
        items := items[..index] + items[index + 1..];
      }
    }

    /** One pass over the rows: each row takes the values of its inputs, and
        the product of its quantity and rate is added to the grand total. */
    method RefreshRows(inputs: seq<RowInput>) returns (totalCost: real)
      requires Valid()
      requires |inputs| == |items|
      modifies this
      ensures Valid()
      ensures |items| == |inputs|
      ensures forall k :: 0 <= k < |items| ==> items[k] == FromInput(inputs[k])
      ensures totalCost == Total(items)
      ensures (forall k :: 0 <= k < |inputs| ==> inputs[k].qty >= 0.0 && inputs[k].rate >= 0.0)
                ==> totalCost >= 0.0
    {
      var rows := items;
      totalCost := 0.0;
      for i := 0 to |rows|
        invariant |rows| == |inputs|
        invariant forall k :: 0 <= k < i ==> rows[k] == FromInput(inputs[k])
        invariant totalCost == Total(rows[..i])
      {
        var item := FromInput(inputs[i]);
        assert rows[i := item][..i] == rows[..i];
        rows := rows[i := item];
        var amount := inputs[i].qty * inputs[i].rate;
        assert amount == AmountOrZero(item);
        TotalOfPrefixStep(rows, i);
        totalCost := totalCost + amount;
      }
      assert rows[..|rows|] == rows;
      assert (forall k :: 0 <= k < |inputs| ==> inputs[k].qty >= 0.0 && inputs[k].rate >= 0.0)
               ==> forall k :: 0 <= k < |rows| ==> NonNegative(rows[k]);
      items := rows;
    }
  }
}
