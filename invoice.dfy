/** The calculation part of the `Invoice` class: per-item amounts with their
    serial numbers, the subtotal, the tax and the total, the invoice number
    and the invoice and due dates. The random id and the clock reading are
    parameters. */
module Invoicing {
  import opened Wrappers
  import Decimal

  /** Fixed part of every invoice number; the generated id follows it. */
  const InvoicePrefix: string := "YOUR/INV/24-25/001-"

  /** Tax rate used when the caller supplies none (exactly one tenth). */
  const DefaultTaxRate: real := 0.1

  /** Quantity assumed for an item whose dictionary has no 'quantity' key. */
  const DefaultQuantity: int := 1

  /** Rate assumed for an item whose dictionary has no 'rate' key. */
  const DefaultRate: int := 0

  /** Shop or customer details: a dictionary the invoice stores unchanged. */
  type Details = map<string, string>

  /** One item dictionary as supplied by the caller. Every key may be absent. */
  datatype RawItem = RawItem(
    particulars: Option<string>,
    hsn: Option<string>,
    quantity: Option<int>,
    rate: Option<int>)

  /** One entry of `calculated_items`. `slNo` and `quantity` are stored as strings. */
  datatype CalculatedItem = CalculatedItem(
    slNo: string,
    particulars: string,
    hsn: string,
    quantity: string,
    rate: int,
    amount: int)

  /** The KeyError raised when an item dictionary lacks a required key. */
  datatype KeyError = KeyError(key: string)

  /** The fields of a constructed invoice. None of them changes after construction. */
  datatype Invoice = Invoice(
    shopDetails: Details,
    customerDetails: Details,
    items: seq<RawItem>,
    taxRate: real,
    invoiceNumber: string,
    invoiceDate: string,
    dueDate: string,
    calculatedItems: seq<CalculatedItem>,
    subtotal: int,
    tax: real,
    total: real)

  // ---------------------------------------------------------------------------
  // One item

  /** Both keys that `calculate_items` reads with `item[...]` are present. */
  predicate HasRequiredKeys(item: RawItem) {
    item.particulars.Some? && item.hsn.Some?
  }

  /** The error for an item that lacks a required key: 'particulars' is read first. */
  function MissingKey(item: RawItem): KeyError {
    if item.particulars.None? then KeyError("particulars") else KeyError("hsn")
  }

  /** The quantity used for an item: its own, or the default when absent. */
  function QuantityOf(item: RawItem): int {
    item.quantity.GetOr(DefaultQuantity)
  }

  /** The rate used for an item: its own, or the default when absent. */
  function RateOf(item: RawItem): int {
    item.rate.GetOr(DefaultRate)
  }

  /** A calculated entry whose amount is its stored quantity times its stored rate. */
  predicate Consistent(c: CalculatedItem) {
    Decimal.IsCanonical(c.quantity) && c.amount == Decimal.ParseInt(c.quantity) * c.rate
  }

  /** The entry with serial number `slNo` that the loop body builds from `item`,
      or the KeyError for the first required key it lacks. */
  function CalculateItem(item: RawItem, slNo: nat): (r: Result<CalculatedItem, KeyError>)
    ensures r.Err? <==> !HasRequiredKeys(item)
    ensures r.Err? ==> r.error.key == (if item.particulars.None? then "particulars" else "hsn")
  {
    var quantity := QuantityOf(item);
    var rate := RateOf(item);
    var amount := quantity * rate;
    if !HasRequiredKeys(item) then Err(MissingKey(item))
    else
      Ok(CalculatedItem(Decimal.NatToString(slNo), item.particulars.value, item.hsn.value,
                        Decimal.IntToString(quantity), rate, amount))
  }

  /** What a successfully built entry holds: its serial number reads back as
      `slNo`, description and code are copied, the quantity and rate are the
      given or default ones, and the amount is stored quantity times stored rate. */
  lemma CalculateItemEntry(item: RawItem, slNo: nat)
    requires HasRequiredKeys(item)
    ensures CalculateItem(item, slNo).Ok?
    ensures var c := CalculateItem(item, slNo).value;
      && c.slNo == Decimal.IntToString(slNo) && Decimal.ParseNat(c.slNo) == slNo
      && c.particulars == item.particulars.value && c.hsn == item.hsn.value
      && c.quantity == Decimal.IntToString(QuantityOf(item))
      && Decimal.ParseInt(c.quantity) == QuantityOf(item)
      && c.rate == RateOf(item)
      && Consistent(c)
  {
    Decimal.ParseNatOfNatToString(slNo);
    Decimal.ParseIntOfIntToString(QuantityOf(item));
    Decimal.IntToStringCanonical(QuantityOf(item));
  }

  // ---------------------------------------------------------------------------
  // The whole list

  /** What `calculate_items` returns for `items`: the entries built one after
      the other with serial numbers 1, 2, ..., or the KeyError of the first
      item that lacks a required key. */
  function CalculatedList(items: seq<RawItem>): Result<seq<CalculatedItem>, KeyError>
    decreases |items|
  {
    if items == [] then Ok([])
    else Append(CalculatedList(items[..|items| - 1]), items[|items| - 1], |items|)
  }

  /** One pass of the loop: extend the entries built so far, or keep the error raised. */
  function Append(sofar: Result<seq<CalculatedItem>, KeyError>, item: RawItem, slNo: nat)
    : Result<seq<CalculatedItem>, KeyError>
  {
    if sofar.Err? then sofar
    else
      var next := CalculateItem(item, slNo);
      if next.Err? then Err(next.error) else Ok(sofar.value + [next.value])
  }

  /** The calculation succeeds exactly when every item has both required keys. */
  lemma {:induction false} CalculatedListOkIff(items: seq<RawItem>)
    ensures CalculatedList(items).Ok? <==> forall k :: 0 <= k < |items| ==> HasRequiredKeys(items[k])
    decreases |items|
  {
    if items != [] {
      var init, last := items[..|items| - 1], items[|items| - 1];
      CalculatedListOkIff(init);
      assert CalculatedList(items) == Append(CalculatedList(init), last, |items|);
      if CalculatedList(items).Ok? {
        forall k | 0 <= k < |items| ensures HasRequiredKeys(items[k]) {
          if k < |init| {
            assert items[k] == init[k];
          }
        }
      } else if CalculatedList(init).Err? {
        var k :| 0 <= k < |init| && !HasRequiredKeys(init[k]);
        assert items[k] == init[k];
      } else {
        assert !HasRequiredKeys(items[|items| - 1]);
      }
    }
  }

  /** On success there is one entry per item, in order, the k-th built from the
      k-th item with serial number k + 1. */
  lemma {:induction false} CalculatedListEntries(items: seq<RawItem>)
    requires CalculatedList(items).Ok?
    ensures |CalculatedList(items).value| == |items|
    ensures forall k :: 0 <= k < |items| ==>
              CalculateItem(items[k], k + 1) == Ok(CalculatedList(items).value[k])
    decreases |items|
  {
    if items != [] {
      var init, last := items[..|items| - 1], items[|items| - 1];
      assert CalculatedList(items) == Append(CalculatedList(init), last, |items|);
      CalculatedListEntries(init);
      var prev, c := CalculatedList(init).value, CalculateItem(last, |items|).value;
      assert CalculatedList(items).value == prev + [c];
      forall k | 0 <= k < |items| ensures CalculateItem(items[k], k + 1) == Ok(CalculatedList(items).value[k]) {
        if k < |init| {
          assert items[k] == init[k] && (prev + [c])[k] == prev[k];
        }
      }
    }
  }

  /** When the k-th item is the first one lacking a required key, the calculation
      raises that item's KeyError. */
  lemma {:induction false} CalculatedListError(items: seq<RawItem>, k: nat)
    requires k < |items| && !HasRequiredKeys(items[k])
    requires forall j :: 0 <= j < k ==> HasRequiredKeys(items[j])
    ensures CalculatedList(items) == Err(MissingKey(items[k]))
    decreases |items|
  {
    var init := items[..|items| - 1];
    assert forall j :: 0 <= j < |init| ==> init[j] == items[j];
    if k == |items| - 1 {
      CalculatedListOkIff(init);
    } else {
      CalculatedListError(init, k);
    }
  }

  /** Everything `calculate_items` guarantees about entry k. */
  lemma CalculatedEntry(items: seq<RawItem>, k: nat)
    requires CalculatedList(items).Ok? && k < |items|
    ensures k < |CalculatedList(items).value| && HasRequiredKeys(items[k])
    ensures var c := CalculatedList(items).value[k];
      && c.slNo == Decimal.IntToString(k + 1)
      && c.particulars == items[k].particulars.value
      && c.hsn == items[k].hsn.value
      && c.quantity == Decimal.IntToString(QuantityOf(items[k]))
      && (items[k].quantity.None? ==> c.quantity == "1")
      && c.rate == RateOf(items[k])
      && (items[k].rate.None? ==> c.rate == 0)
      && c.amount == QuantityOf(items[k]) * RateOf(items[k])
  {
    CalculatedListEntries(items);
    CalculateItemEntry(items[k], k + 1);
    assert Decimal.IntToString(1) == "1";
  }

  /** Serial numbers are 1, 2, ..., n: each is the numeral of its position plus
      one, so no two entries share one. */
  lemma SerialNumbersDistinct(items: seq<RawItem>, i: nat, j: nat)
    requires CalculatedList(items).Ok? && i < |items| && j < |items| && i != j
    ensures i < |CalculatedList(items).value| && j < |CalculatedList(items).value|
    ensures CalculatedList(items).value[i].slNo != CalculatedList(items).value[j].slNo
  {
    CalculatedEntry(items, i);
    CalculatedEntry(items, j);
    Decimal.IntToStringInjective(i + 1, j + 1);
  }

  // ---------------------------------------------------------------------------
  // `calculate_items`

  /** The loop of `calculate_items`: enumerate the items from 1, append one
      entry per item, and raise on the first item lacking a required key. */
  method CalculateItems(items: seq<RawItem>) returns (r: Result<seq<CalculatedItem>, KeyError>)
    ensures r == CalculatedList(items)
  {
    var calculated: seq<CalculatedItem> := [];
    var i := 0;
    while i < |items|
      invariant 0 <= i <= |items|
      invariant CalculatedList(items[..i]) == Ok(calculated)
    {
      var item := items[i];
      var quantity := item.quantity.GetOr(DefaultQuantity);
      var rate := item.rate.GetOr(DefaultRate);
      var amount := quantity * rate;
      if item.particulars.None? {
        r := Err(KeyError("particulars"));
        ErrorAtFirstIncomplete(items, i);
        return;
      }
      if item.hsn.None? {
        r := Err(KeyError("hsn"));
        ErrorAtFirstIncomplete(items, i);
        return;
      }
      calculated := calculated + [CalculatedItem(Decimal.NatToString(i + 1), item.particulars.value,
                                                 item.hsn.value, Decimal.IntToString(quantity), rate, amount)];
      assert items[..i + 1][..i] == items[..i];
      i := i + 1;
    }
    assert items[..i] == items;
    r := Ok(calculated);
  }

  /** The step the loop needs when it stops early at item `i`. */
  lemma ErrorAtFirstIncomplete(items: seq<RawItem>, i: nat)
    requires i < |items| && !HasRequiredKeys(items[i])
    requires CalculatedList(items[..i]).Ok?
    ensures CalculatedList(items) == Err(MissingKey(items[i]))
  {
    CalculatedListOkIff(items[..i]);
    assert forall j :: 0 <= j < i ==> items[..i][j] == items[j];
    CalculatedListError(items, i);
  }

  // ---------------------------------------------------------------------------
  // Totals

  /** `sum(item['amount'] for item in calculated)`: 0 for no entries. */
  function Subtotal(calculated: seq<CalculatedItem>): int
    decreases |calculated|
  {
    if calculated == [] then 0 else calculated[0].amount + Subtotal(calculated[1..])
  }

  /** Reference total computed straight from the raw items, with the defaults applied. */
  function LineTotal(items: seq<RawItem>): int
    decreases |items|
  {
    if items == [] then 0 else LineTotal(items[..|items| - 1]) + QuantityOf(items[|items| - 1]) * RateOf(items[|items| - 1])
  }

  lemma {:induction false} SubtotalAppend(calculated: seq<CalculatedItem>, c: CalculatedItem)
    ensures Subtotal(calculated + [c]) == Subtotal(calculated) + c.amount
    decreases |calculated|
  {
    if calculated != [] {
      assert (calculated + [c])[1..] == calculated[1..] + [c];
      SubtotalAppend(calculated[1..], c);
    }
  }

  /** The subtotal of the calculated entries is the sum of quantity times rate
      over the raw items, defaults applied. */
  lemma {:induction false} SubtotalOfCalculated(items: seq<RawItem>)
    requires CalculatedList(items).Ok?
    ensures Subtotal(CalculatedList(items).value) == LineTotal(items)
    decreases |items|
  {
    if items != [] {
      var init, last := items[..|items| - 1], items[|items| - 1];
      assert CalculatedList(items) == Append(CalculatedList(init), last, |items|);
      SubtotalOfCalculated(init);
      SubtotalAppend(CalculatedList(init).value, CalculateItem(last, |items|).value);
    }
  }

  /** `self.subtotal * self.tax_rate`, in exact arithmetic. */
  function TaxOn(subtotal: int, taxRate: real): real {
    subtotal as real * taxRate
  }

  /** `generate_invoice_number` with the random id passed in: the fixed prefix, then the id. */
  function InvoiceNumber(uniqueId: string): (n: string)
    ensures |n| == |InvoicePrefix| + |uniqueId|
    ensures n[..|InvoicePrefix|] == InvoicePrefix && n[|InvoicePrefix|..] == uniqueId
  {
    InvoicePrefix + uniqueId
  }

  /** Reads the generated id back out of an invoice number, if it has the prefix. */
  function IdOf(number: string): Option<string> {
    if |number| >= |InvoicePrefix| && number[..|InvoicePrefix|] == InvoicePrefix
    then Some(number[|InvoicePrefix|..]) else None
  }

  /** Every invoice number carries its id, which `IdOf` reads back. */
  lemma InvoiceNumberRoundTrip(uniqueId: string)
    ensures IdOf(InvoiceNumber(uniqueId)) == Some(uniqueId)
  {
  }

  /** Whatever `IdOf` accepts is an invoice number: the one built from the id it reads. */
  lemma IdOfInvoiceNumber(number: string, uniqueId: string)
    requires IdOf(number) == Some(uniqueId)
    ensures InvoiceNumber(uniqueId) == number
  {
    assert number == number[..|InvoicePrefix|] + number[|InvoicePrefix|..];
  }

  /** Distinct ids give distinct invoice numbers, and equal ids equal ones. */
  lemma InvoiceNumberInjective(a: string, b: string)
    ensures InvoiceNumber(a) == InvoiceNumber(b) <==> a == b
  {
    InvoiceNumberRoundTrip(a);
    InvoiceNumberRoundTrip(b);
  }

  /** The relations between the fields that construction establishes. */
  predicate WellFormed(inv: Invoice) {
    && CalculatedList(inv.items) == Ok(inv.calculatedItems)
    && (forall c :: c in inv.calculatedItems ==> Consistent(c))
    && IdOf(inv.invoiceNumber).Some?
    && inv.dueDate == inv.invoiceDate
    && inv.subtotal == Subtotal(inv.calculatedItems)
    && inv.tax == TaxOn(inv.subtotal, inv.taxRate)
    && inv.total == inv.subtotal as real + inv.tax
  }

  // ---------------------------------------------------------------------------
  // `Invoice.__init__`

  /** The invoice `__init__` constructs: `uniqueId` stands for the uuid and
      `timestamp` for the formatted clock reading. Construction raises the
      KeyError of `calculate_items`; the OverflowError a float tax rate causes
      for a huge subtotal is not modelled. */
  function InvoiceOf(shopDetails: Details, customerDetails: Details, items: seq<RawItem>,
                     uniqueId: string, timestamp: string, taxRate: real): Result<Invoice, KeyError>
  {
    var calculated := CalculatedList(items);
    if calculated.Err? then Err(calculated.error)
    else
      var subtotal := Subtotal(calculated.value);
      var tax := TaxOn(subtotal, taxRate);
      Ok(Invoice(shopDetails, customerDetails, items, taxRate, InvoiceNumber(uniqueId), timestamp, timestamp,
                 calculated.value, subtotal, tax, subtotal as real + tax))
  }

  /** Construction succeeds exactly when every item has both required keys, and
      otherwise raises the KeyError of the first item that lacks one. */
  lemma InvoiceOfFails(shopDetails: Details, customerDetails: Details, items: seq<RawItem>,
                       uniqueId: string, timestamp: string, taxRate: real)
    ensures var r := InvoiceOf(shopDetails, customerDetails, items, uniqueId, timestamp, taxRate);
      && (r.Ok? <==> forall k :: 0 <= k < |items| ==> HasRequiredKeys(items[k]))
      && (r.Err? ==> CalculatedList(items) == Err(r.error))
  {
    CalculatedListOkIff(items);
  }

  /** A constructed invoice stores its inputs unchanged, fixes the due date to the
      invoice date, numbers itself from the id, has one entry per item, and
      derives subtotal, tax and total from the entries. */
  lemma InvoiceOfFields(shopDetails: Details, customerDetails: Details, items: seq<RawItem>,
                        uniqueId: string, timestamp: string, taxRate: real)
    requires forall k :: 0 <= k < |items| ==> HasRequiredKeys(items[k])
    ensures InvoiceOf(shopDetails, customerDetails, items, uniqueId, timestamp, taxRate).Ok?
    ensures var inv := InvoiceOf(shopDetails, customerDetails, items, uniqueId, timestamp, taxRate).value;
      && WellFormed(inv)
      && inv.shopDetails == shopDetails && inv.customerDetails == customerDetails
      && inv.items == items && inv.taxRate == taxRate
      && inv.invoiceNumber[..|InvoicePrefix|] == InvoicePrefix
      && IdOf(inv.invoiceNumber) == Some(uniqueId)
      && inv.invoiceDate == timestamp && inv.dueDate == timestamp
      && |inv.calculatedItems| == |items|
      && inv.subtotal == LineTotal(items)
      && inv.tax == TaxOn(inv.subtotal, taxRate)
      && inv.total == inv.subtotal as real + inv.tax
  {
    CalculatedListOkIff(items);
    var inv := InvoiceOf(shopDetails, customerDetails, items, uniqueId, timestamp, taxRate).value;
    assert inv.calculatedItems == CalculatedList(items).value;
    assert |inv.calculatedItems| == |items| && forall c :: c in inv.calculatedItems ==> Consistent(c) by {
      CalculatedListEntries(items);
      forall k | 0 <= k < |items| ensures Consistent(inv.calculatedItems[k]) {
        CalculateItemEntry(items[k], k + 1);
      }
    }
    assert inv.subtotal == LineTotal(items) by { SubtotalOfCalculated(items); }
    assert IdOf(inv.invoiceNumber) == Some(uniqueId) by { InvoiceNumberRoundTrip(uniqueId); }
  }

  /** With no items the invoice is all zeros: subtotal, tax and total. */
  lemma EmptyInvoice(shopDetails: Details, customerDetails: Details, uniqueId: string, timestamp: string,
                     taxRate: real)
    ensures var r := InvoiceOf(shopDetails, customerDetails, [], uniqueId, timestamp, taxRate);
      r.Ok? && r.value.calculatedItems == [] && r.value.subtotal == 0 && r.value.tax == 0.0 && r.value.total == 0.0
  {
  }

  /** `Invoice(shop_details, customer_details, items, tax_rate=0.1)`: the steps
      of `__init__` in order, with the generated id and clock reading passed in. */
  method NewInvoice(shopDetails: Details, customerDetails: Details, items: seq<RawItem>,
                    uniqueId: string, timestamp: string, taxRate: real := DefaultTaxRate)
    returns (r: Result<Invoice, KeyError>)
    ensures r == InvoiceOf(shopDetails, customerDetails, items, uniqueId, timestamp, taxRate)
  {
    var invoiceNumber := InvoiceNumber(uniqueId);
    var invoiceDate := timestamp;
    var dueDate := invoiceDate;
    var calculated := CalculateItems(items);
    if calculated.Err? {
      return Err(calculated.error);
    }
    var subtotal := Subtotal(calculated.value);
    var tax := TaxOn(subtotal, taxRate);
    var total := subtotal as real + tax;
    r := Ok(Invoice(shopDetails, customerDetails, items, taxRate, invoiceNumber, invoiceDate, dueDate,
                    calculated.value, subtotal, tax, total));
  }

  // ---------------------------------------------------------------------------
  // Worked cases

  /** The two sample items of the script: 2 x 100 and 1 x 200 at the default tax
      rate give subtotal 400, tax 40 and total 440. */
  lemma SampleInvoiceTotals(shopDetails: Details, customerDetails: Details, uniqueId: string, timestamp: string)
    ensures var items := [RawItem(Some("Item 1"), Some("HSN1"), Some(2), Some(100)),
                          RawItem(Some("Item 2"), Some("HSN2"), Some(1), Some(200))];
      var r := InvoiceOf(shopDetails, customerDetails, items, uniqueId, timestamp, DefaultTaxRate);
      && r.Ok?
      && |r.value.calculatedItems| == 2
      && r.value.calculatedItems[0].amount == 200 && r.value.calculatedItems[1].amount == 200
      && r.value.subtotal == 400 && r.value.tax == 40.0 && r.value.total == 440.0
  {
    var items := [RawItem(Some("Item 1"), Some("HSN1"), Some(2), Some(100)),
                  RawItem(Some("Item 2"), Some("HSN2"), Some(1), Some(200))];
    assert forall k :: 0 <= k < |items| ==> HasRequiredKeys(items[k]);
    InvoiceOfFields(shopDetails, customerDetails, items, uniqueId, timestamp, DefaultTaxRate);
    CalculatedEntry(items, 0);
    CalculatedEntry(items, 1);
    assert items[..1][..0] == [];
    assert LineTotal(items[..1]) == 200;
  }

  /** Quantity and rate are used as given: a zero quantity is not raised to 1
      and a negative rate is not raised to 0. */
  lemma NoClamping(p: string, h: string)
    ensures var zeroQuantity := [RawItem(Some(p), Some(h), Some(0), Some(50))];
      && CalculatedList(zeroQuantity).Ok?
      && CalculatedList(zeroQuantity).value[0].quantity == "0"
      && CalculatedList(zeroQuantity).value[0].amount == 0
    ensures var negativeRate := [RawItem(Some(p), Some(h), Some(3), Some(-10))];
      && CalculatedList(negativeRate).Ok?
      && CalculatedList(negativeRate).value[0].rate == -10
      && CalculatedList(negativeRate).value[0].amount == -30
  {
    var zeroQuantity := [RawItem(Some(p), Some(h), Some(0), Some(50))];
    var negativeRate := [RawItem(Some(p), Some(h), Some(3), Some(-10))];
    assert zeroQuantity[..0] == [] && negativeRate[..0] == [];
  }
}
