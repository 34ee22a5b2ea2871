/**
 * "Generate quotation": keep the rows that have a description, a positive
 * quantity and a positive rate, in their order; refuse when none is left;
 * otherwise lay out the document around the item table of those rows.
 */
module Generation {
  import opened Items
  import opened ItemTable

  /** A row that goes into the document. */
  predicate Eligible(it: Item)
  {
    it.name != "" && it.qty.Num? && it.qty.value > 0.0 && it.rate.Num? && it.rate.value > 0.0
  }

  /** Testing the row raises: its name is non-empty, so `qty > 0` is evaluated,
      and that comparison, or the `rate > 0` that follows a true one, meets an
      operand that is not a number. */
  predicate ComparisonRaises(it: Item)
  {
    it.name != "" && (it.qty.NonNumeric? || (it.qty.value > 0.0 && it.rate.NonNumeric?))
  }

  predicate FilterRaises(items: seq<Item>)
  {
    exists k :: 0 <= k < |items| && ComparisonRaises(items[k])
  }

  /** The eligible rows, in ledger order. */
  function ValidItems(items: seq<Item>): (r: seq<Item>)
    ensures |r| <= |items|
    ensures forall j :: 0 <= j < |r| ==> Eligible(r[j])
  {
    if items == [] then []
    else
      var last := items[|items| - 1];
      ValidItems(items[..|items| - 1]) + (if Eligible(last) then [last] else [])
  }

  /** The positions of the eligible rows, in increasing order. */
  function EligibleIndices(items: seq<Item>): (idx: seq<nat>)
    ensures forall j :: 0 <= j < |idx| ==> idx[j] < |items|
  {
    if items == [] then []
    else
      var n := |items| - 1;
      EligibleIndices(items[..n]) + (if Eligible(items[n]) then [n] else [])
  }

  /** The filter picks out exactly the eligible rows and keeps their order:
      its j-th result is the row at the j-th eligible position, those
      positions increase, and a position is among them iff its row is
      eligible. */
  lemma {:induction false} ValidItemsIsEligibleSubsequence(items: seq<Item>)
    ensures var idx := EligibleIndices(items);
      && |ValidItems(items)| == |idx|
      && (forall j :: 0 <= j < |idx| ==> idx[j] < |items| && ValidItems(items)[j] == items[idx[j]])
      && (forall j, j' :: 0 <= j < j' < |idx| ==> idx[j] < idx[j'])
      && (forall k :: 0 <= k < |items| ==> (k in idx <==> Eligible(items[k])))
  {
    if items != [] {
      var n := |items| - 1;
      var front := items[..n];
      ValidItemsIsEligibleSubsequence(front);
      var idx0 := EligibleIndices(front);
      var idx := EligibleIndices(items);
      assert idx == idx0 + (if Eligible(items[n]) then [n] else []);
      assert forall k :: 0 <= k < n ==> front[k] == items[k];
      forall k | 0 <= k < |items|
        ensures k in idx <==> Eligible(items[k])
      {
        if k < n {
          assert k in idx <==> k in idx0;
        } else {
          assert n !in idx0;
        }
      }
    }
  }

  /** The filter is empty iff no row is eligible. */
  lemma ValidItemsEmptyIff(items: seq<Item>)
    ensures ValidItems(items) == [] <==> forall k :: 0 <= k < |items| ==> !Eligible(items[k])
  {
    ValidItemsIsEligibleSubsequence(items);
    var idx := EligibleIndices(items);
    if idx != [] {
      assert idx[0] in idx;
    }
  }

  lemma {:induction false} TotalOfValidItemsStep(items: seq<Item>)
    requires items != []
    ensures var n := |items| - 1;
      Total(ValidItems(items)) ==
        Total(ValidItems(items[..n])) + (if Eligible(items[n]) then AmountOrZero(items[n]) else 0.0)
  {
    var n := |items| - 1;
    if Eligible(items[n]) {
      TotalAppend(ValidItems(items[..n]), items[n]);
    } else {
      assert ValidItems(items) == ValidItems(items[..n]);
    }
  }

  /** With every quantity and rate at least 0, the grand total shown live over
      all rows is at least the total printed on the document. */
  lemma {:induction false} DocumentTotalAtMostGrandTotal(items: seq<Item>)
    requires forall k :: 0 <= k < |items| ==> NonNegative(items[k])
    ensures Total(ValidItems(items)) <= Total(items)
  {
    if items != [] {
      var n := |items| - 1;
      DocumentTotalAtMostGrandTotal(items[..n]);
      TotalOfValidItemsStep(items);
      assert NonNegative(items[n]);
    }
  }

  /** With every quantity and rate at least 0, the two totals agree iff every
      row left out of the document has amount 0. */
  lemma {:induction false} DocumentTotalEqualsGrandTotalIff(items: seq<Item>)
    requires forall k :: 0 <= k < |items| ==> NonNegative(items[k])
    ensures Total(ValidItems(items)) == Total(items) <==>
      forall k :: 0 <= k < |items| && !Eligible(items[k]) ==> AmountOrZero(items[k]) == 0.0
  {
    if items != [] {
      var n := |items| - 1;
      var front := items[..n];
      assert forall k :: 0 <= k < n ==> front[k] == items[k];
      DocumentTotalEqualsGrandTotalIff(front);
      DocumentTotalAtMostGrandTotal(front);
      TotalOfValidItemsStep(items);
      assert NonNegative(items[n]);
      assert AmountOrZero(items[n]) >= 0.0;
    }
  }

  /** The generated document: the date line, the customer name line and the
      item table. The letterhead and the payment and material terms are fixed
      text and are not modelled. */
  datatype Quotation = Quotation(dateLine: string, nameLine: string, table: seq<Row>)

  datatype Outcome =
    | Generated(doc: Quotation)
    /** No eligible row: the form shows an error and builds nothing. */
    | NoValidItems
    /** The filter's comparison raised a type error. */
    | FilterTypeError

  /** The "Generate Quotation PDF" action on a snapshot of the ledger.
      `today` is the current date, already written as DD-MM-YYYY. */
  method GenerateQuotation(userName: string, items: seq<Item>, today: string) returns (r: Outcome)
    ensures r == FilterTypeError <==> FilterRaises(items)
    ensures r == NoValidItems <==>
      !FilterRaises(items) && forall k :: 0 <= k < |items| ==> !Eligible(items[k])
    ensures r.Generated? ==>
      && r.doc.dateLine == "Date: " + today
      && r.doc.nameLine == "Name " + userName
      && IsItemTable(ValidItems(items), r.doc.table)
  {
    if FilterRaises(items) {
      return FilterTypeError;
    }
    var validItems := ValidItems(items);
    ValidItemsEmptyIff(items);
    if validItems == [] {
      return NoValidItems;
    }
    var table := BuildItemTable(validItems);
    r := Generated(Quotation("Date: " + today, "Name " + userName, table));
  }

  /** The j-th eligible row of the ledger, counting from 0, is printed in the
      row numbered j + 1, whatever ineligible rows come before it. */
  lemma RenumberingIsStable(items: seq<Item>, table: seq<Row>)
    requires IsItemTable(ValidItems(items), table)
    ensures var idx := EligibleIndices(items);
      && |table| == |idx| + 2
      && forall j :: 0 <= j < |idx| ==>
           table[j + 1] == ItemRow(j + 1, items[idx[j]].name, items[idx[j]].qty, items[idx[j]].rate,
                                   AmountOrZero(items[idx[j]]))
  {
    ValidItemsIsEligibleSubsequence(items);
    var idx := EligibleIndices(items);
    var valid := ValidItems(items);
    forall j | 0 <= j < |idx|
      ensures table[j + 1] == ItemRow(j + 1, items[idx[j]].name, items[idx[j]].qty, items[idx[j]].rate,
                                      AmountOrZero(items[idx[j]]))
    {
      assert valid[j] == items[idx[j]];
    }
  }

  /** The blank row the session starts with is not eligible and raises
      nothing, so generating from the initial ledger is refused. */
  lemma InitialLedgerIsRefused()
    ensures !FilterRaises([EmptyItem])
    ensures ValidItems([EmptyItem]) == []
  {
  }

  /** Cabinet (2 x 5000), a blank row and Handle (10 x 50) give a table with
      rows 1 and 2 for Cabinet and Handle, amounts 10000 and 500, and a total
      of 10500. */
  lemma CabinetAndHandleExample(table: seq<Row>)
    requires IsItemTable(ValidItems([Item("Cabinet", Num(2.0), Num(5000.0)), EmptyItem,
                                     Item("Handle", Num(10.0), Num(50.0))]), table)
    ensures table == [Header,
                      ItemRow(1, "Cabinet", Num(2.0), Num(5000.0), 10000.0),
                      ItemRow(2, "Handle", Num(10.0), Num(50.0), 500.0),
                      TotalRow(10500.0)]
  {
    var cabinet := Item("Cabinet", Num(2.0), Num(5000.0));
    var handle := Item("Handle", Num(10.0), Num(50.0));
    var items := [cabinet, EmptyItem, handle];
    assert items[..2] == [cabinet, EmptyItem];
    assert items[..2][..1] == [cabinet];
    assert [cabinet][..0] == [];
    assert ValidItems([cabinet]) == [cabinet];
    assert ValidItems(items[..2]) == [cabinet];
    assert Eligible(handle);
    assert ValidItems(items) == [cabinet, handle];
    assert [cabinet, handle][..1] == [cabinet];
    assert Total([cabinet]) == 10000.0;
    assert Total([cabinet, handle]) == 10500.0;
    assert table[1] == ItemRow(1, "Cabinet", Num(2.0), Num(5000.0), 10000.0);
    assert table[2] == ItemRow(2, "Handle", Num(10.0), Num(50.0), 500.0);
  }
}
