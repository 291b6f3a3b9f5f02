/**
  The bill form: the customer name and the list of line items it owns, the three list
  updaters, the validation done when "Generate Bill" is pressed, and the running total.
*/
module App {
  import opened Wrappers
  import opened Sequences
  import opened Text
  import opened JsNumbers
  import opened Items
  import opened PdfGenerator

  predicate IdFree(items: seq<Item>, id: int) {
    forall i :: 0 <= i < |items| ==> items[i].id != id
  }

  predicate DistinctIds(items: seq<Item>) {
    forall i, j :: 0 <= i < j < |items| ==> items[i].id != items[j].id
  }

  // updateItem

  /** `items.map(item => item.id === id ? { ...item, [field]: value } : item)`. */
  function Updated(items: seq<Item>, id: int, field: Field, value: string): (r: seq<Item>)
    ensures |r| == |items|
    ensures forall i :: 0 <= i < |items| ==>
      r[i] == if items[i].id == id then items[i].With(field, value) else items[i]
  {
    if items == [] then []
    else [if items[0].id == id then items[0].With(field, value) else items[0]] + Updated(items[1..], id, field, value)
  }

  /**
    Updating keeps every id in place, sets `field` to `value` on the items carrying `id`
    and leaves every other field of every item as it was.
  */
  lemma {:induction false} UpdateFieldwise(items: seq<Item>, id: int, field: Field, value: string, i: nat, f: Field)
    requires i < |items|
    ensures Updated(items, id, field, value)[i].id == items[i].id
    ensures Updated(items, id, field, value)[i].Get(f) ==
      if items[i].id == id && f == field then value else items[i].Get(f)
  {
  }

  /** Updating an id no item carries changes nothing. */
  lemma {:induction false} UpdateAbsent(items: seq<Item>, id: int, field: Field, value: string)
    requires IdFree(items, id)
    ensures Updated(items, id, field, value) == items
  {
  }

  // removeItem

  /** `items.filter(item => item.id !== id)`, which runs only when more than one item is listed. */
  function Removed(items: seq<Item>, id: int): seq<Item> {
    if |items| > 1 then Filter(items, (it: Item) => it.id != id) else items
  }

  /** With more than one item, removal keeps exactly the items whose id differs, in their order. */
  lemma {:induction false} RemoveKeepsOthers(items: seq<Item>, id: int)
    requires |items| > 1
    ensures forall i :: 0 <= i < |Removed(items, id)| ==> Removed(items, id)[i].id != id
    ensures forall i :: 0 <= i < |items| && items[i].id != id ==> items[i] in Removed(items, id)
    ensures forall a, b :: a + b == items ==>
      Removed(items, id) == Filter(a, (it: Item) => it.id != id) + Filter(b, (it: Item) => it.id != id)
  {
    var p := (it: Item) => it.id != id;
    forall i | 0 <= i < |items| && items[i].id != id ensures items[i] in Removed(items, id) {
      FilterKeeps(items, i, p);
    }
    forall a, b | a + b == items ensures Removed(items, id) == Filter(a, p) + Filter(b, p) {
      FilterConcat(a, b, p);
    }
  }

  /** With distinct ids, removing the id found at position `k` deletes exactly that item. */
  lemma {:induction false} RemoveDeletesOne(items: seq<Item>, id: int, k: nat)
    requires DistinctIds(items) && |items| > 1
    requires k < |items| && items[k].id == id
    ensures Removed(items, id) == items[..k] + items[k + 1..]
  {
    FilterDropsOne(items, k, (it: Item) => it.id != id);
  }

  /** Removing an id no item carries changes nothing. */
  lemma {:induction false} RemoveAbsent(items: seq<Item>, id: int)
    requires IdFree(items, id)
    ensures Removed(items, id) == items
  {
    if |items| > 1 {
      FilterKeepsAll(items, (it: Item) => it.id != id);
    }
  }

  /** Removal never empties a non-empty list whose ids are distinct, and keeps the ids distinct. */
  lemma {:induction false} RemoveKeepsList(items: seq<Item>, id: int)
    requires |items| >= 1 && DistinctIds(items)
    ensures |Removed(items, id)| >= 1 && DistinctIds(Removed(items, id))
  {
    if |items| > 1 {
      if k :| 0 <= k < |items| && items[k].id == id {
        RemoveDeletesOne(items, id, k);
        var r := items[..k] + items[k + 1..];
        forall i, j | 0 <= i < j < |r| ensures r[i].id != r[j].id {
          var i' := if i < k then i else i + 1;
          var j' := if j < k then j else j + 1;
          assert r[i] == items[i'] && r[j] == items[j'];
        }
      } else {
        RemoveAbsent(items, id);
      }
    }
  }

  /** Without distinct ids the guard is not enough: two rows that share an id are removed together. */
  lemma SharedIdEmptiesList()
    ensures Removed([EmptyItem(7), EmptyItem(7)], 7) == []
  {
    var items := [EmptyItem(7), EmptyItem(7)];
    FilterEmptyIff(items, (it: Item) => it.id != 7);
  }

  // handlePrint: validation

  /**
    An item worth printing: name, quantity and price all non-blank after `trim()`, so a field
    holding only whitespace counts as missing.
  */
  predicate IsValidItem(item: Item)
    ensures IsValidItem(item) <==>
      !AllWhitespace(item.name) && !AllWhitespace(item.quantity) && !AllWhitespace(item.price)
  {
    BlankIffAllWhitespace(item.name);
    BlankIffAllWhitespace(item.quantity);
    BlankIffAllWhitespace(item.price);
    !IsBlank(item.name) && !IsBlank(item.quantity) && !IsBlank(item.price)
  }

  /** An item whose three fields each start with a non-whitespace character is valid. */
  lemma {:induction false} ValidWhenFieldsStartNonBlank(item: Item)
    requires item.name != [] && !IsWhitespace(item.name[0])
    requires item.quantity != [] && !IsWhitespace(item.quantity[0])
    requires item.price != [] && !IsWhitespace(item.price[0])
    ensures IsValidItem(item)
  {
    NotBlank(item.name);
    NotBlank(item.quantity);
    NotBlank(item.price);
  }

  /** `items.filter(item => item.name.trim() && item.quantity.trim() && item.price.trim())`. */
  function ValidItems(items: seq<Item>): seq<Item> {
    Filter(items, IsValidItem)
  }

  datatype SubmitError = MissingCustomerName | NoValidItems

  /**
    The checks `handlePrint` makes before exporting: the customer name first, then that at
    least one item is valid. On success, the valid items in their original order.
  */
  function Validate(customerName: string, items: seq<Item>): (r: Result<seq<Item>, SubmitError>)
    ensures r == Failure(MissingCustomerName) <==> IsBlank(customerName)
    ensures r.Success? <==> !IsBlank(customerName) && ValidItems(items) != []
    ensures !IsBlank(customerName) ==>
      (r == Failure(NoValidItems) <==> forall i :: 0 <= i < |items| ==> !IsValidItem(items[i]))
    ensures r.Success? ==> r.value == ValidItems(items) && r.value != []
    ensures r.Success? ==> forall i :: 0 <= i < |r.value| ==> IsValidItem(r.value[i])
  {
    FilterEmptyIff(items, IsValidItem);
    if IsBlank(customerName) then Failure(MissingCustomerName)
    else
      var valid := ValidItems(items);
      if valid == [] then Failure(NoValidItems) else Success(valid)
  }

  /**
    Pressing "Generate Bill": validation, then the invoice document of the valid items. The
    `date` is what the device reports and `random` what `Math.random()` returned.
  */
  function Submit(customerName: string, items: seq<Item>, date: string, random: real): (r: Result<Invoice, SubmitError>)
    requires 0.0 <= random < 1.0
    ensures r.Failure? <==> Validate(customerName, items).Failure?
    ensures r.Failure? ==> r.error == Validate(customerName, items).error
    ensures r.Success? ==> r.value == BuildInvoice(customerName, ValidItems(items), date, random)
    ensures r.Success? ==> |r.value.rows| == |ValidItems(items)| >= 1
  {
    match Validate(customerName, items)
    case Failure(e) => Failure(e)
    case Success(valid) => Success(BuildInvoice(customerName, valid, date, random))
  }

  // totalAmount

  /** One item's share of the running total: `parseFloat(price) * parseInt(quantity) || 0`. */
  function Contribution(item: Item): (r: real)
    ensures LineTotal(item).None? ==> r == 0.0
    ensures LineTotal(item).Some? ==> r == LineTotal(item).value
  {
    OrZero(LineTotal(item))
  }

  /** `items.reduce((sum, item) => sum + (price * quantity || 0), 0)`, summed from the left. */
  function LiveTotal(items: seq<Item>): real {
    if items == [] then 0.0 else LiveTotal(items[..|items| - 1]) + Contribution(items[|items| - 1])
  }

  /** The running total of a concatenation is the sum of the running totals. */
  lemma {:induction false} LiveTotalAppend(a: seq<Item>, b: seq<Item>)
    ensures LiveTotal(a + b) == LiveTotal(a) + LiveTotal(b)
  {
    if b == [] {
      assert a + b == a;
    } else {
      var b' := b[..|b| - 1];
      assert (a + b)[..|a + b| - 1] == a + b';
      LiveTotalAppend(a, b');
    }
  }

  /** An item whose price times quantity is NaN adds nothing to the running total. */
  lemma {:induction false} LiveTotalSkipsNaN(a: seq<Item>, item: Item, b: seq<Item>)
    requires LineTotal(item).None?
    ensures LiveTotal(a + [item] + b) == LiveTotal(a + b)
  {
    LiveTotalAppend(a + [item], b);
    LiveTotalAppend(a, b);
    assert (a + [item])[..|a + [item]| - 1] == a;
  }

  /** A newly added, empty item leaves the running total as it was. */
  lemma {:induction false} LiveTotalAddEmpty(items: seq<Item>, id: int)
    ensures LiveTotal(items + [EmptyItem(id)]) == LiveTotal(items)
  {
    BlankIsNaN("");
    assert (items + [EmptyItem(id)])[..|items|] == items;
  }

  /** Whenever the printed grand total is a number, it equals the running total of the same items. */
  lemma {:induction false} PrintedTotalMatchesLive(items: seq<Item>)
    requires GrandTotal(items).Some?
    ensures GrandTotal(items).value == LiveTotal(items)
  {
    if items != [] {
      PrintedTotalMatchesLive(items[..|items| - 1]);
    }
  }

  /** The rows of the divergence example: a complete row and a priced row without a name. */
  function Bulb(): Item { Item(1, "Bulb", "3", "20") }
  function Nameless(): Item { Item(2, "", "2", "5") }

  lemma {:induction false} ExampleLineTotals()
    ensures LineTotal(Bulb()) == Some(60.0) && LineTotal(Nameless()) == Some(10.0)
  {
    ParseDigits("3");
    ParseDigits("20");
    ParseDigits("2");
    ParseDigits("5");
  }

  lemma {:induction false} ExampleValidity()
    ensures ValidItems([Bulb(), Nameless()]) == [Bulb()]
  {
    ValidWhenFieldsStartNonBlank(Bulb());
    assert !IsValidItem(Nameless());
    assert [Bulb(), Nameless()] == [Bulb()] + [Nameless()];
    FilterConcat([Bulb()], [Nameless()], IsValidItem);
  }

  lemma {:induction false} ExampleLiveTotal()
    ensures LiveTotal([Bulb(), Nameless()]) == 70.0
  {
    ExampleLineTotals();
    LiveTotalOfTwo(Bulb(), Nameless());
  }

  lemma {:induction false} ExampleGrandTotal()
    ensures GrandTotal([Bulb()]) == Some(60.0)
  {
    ExampleLineTotals();
    assert [Bulb()][..0] == [];
  }

  /**
    The running total covers every row and the printed total only the valid rows: a priced row
    without a name counts on screen and is missing from the bill.
  */
  lemma {:induction false} LiveAndPrintedDiverge()
    ensures LiveTotal([Bulb(), Nameless()]) == 70.0
    ensures ValidItems([Bulb(), Nameless()]) == [Bulb()]
    ensures GrandTotal(ValidItems([Bulb(), Nameless()])) == Some(60.0)
  {
    ExampleLiveTotal();
    ExampleValidity();
    ExampleGrandTotal();
  }

  lemma {:induction false} LiveTotalOfTwo(a: Item, b: Item)
    ensures LiveTotal([a, b]) == Contribution(a) + Contribution(b)
  {
    assert [a, b][..1] == [a];
    assert [a][..0] == [];
    assert LiveTotal([a]) == 0.0 + Contribution(a);
    assert LiveTotal([a, b]) == LiveTotal([a]) + Contribution(b);
  }

  lemma {:induction false} WireLineTotal()
    ensures LineTotal(Item(2, "Wire", "2", "5.5")) == Some(11.0)
  {
    ParseDigits("2");
    assert ParseFloat("5.5") == Some(5.5);
  }

  /** A decimal price: 3 bulbs at 20 and 2 wires at 5.5 make a running total of 71. */
  lemma {:induction false} DecimalPriceTotal()
    ensures LiveTotal([Bulb(), Item(2, "Wire", "2", "5.5")]) == 71.0
  {
    ExampleLineTotals();
    WireLineTotal();
    LiveTotalOfTwo(Bulb(), Item(2, "Wire", "2", "5.5"));
  }

  /** A blank customer name is refused whatever the items are. */
  lemma {:induction false} BlankCustomerRefused(customerName: string, items: seq<Item>, date: string, random: real)
    requires 0.0 <= random < 1.0 && AllWhitespace(customerName)
    ensures Submit(customerName, items, date, random) == Failure(MissingCustomerName)
  {
    BlankIffAllWhitespace(customerName);
  }

  /** A single item without a name leaves nothing to print. */
  lemma {:induction false} NamelessItemRefused(date: string, random: real)
    requires 0.0 <= random < 1.0
    ensures Submit("Ali", [Item(1, "", "1", "5")], date, random) == Failure(NoValidItems)
  {
    NotBlank("Ali");
    assert !IsValidItem(Item(1, "", "1", "5"));
  }

  function Fan(): Item { Item(1, "Fan", "2", "100") }

  lemma {:induction false} FanIsValid()
    ensures ValidItems([Fan()]) == [Fan()]
  {
    ValidWhenFieldsStartNonBlank(Fan());
    assert Filter([Fan()], IsValidItem) == [Fan()] + Filter([], IsValidItem);
  }

  lemma {:induction false} FanLineTotal()
    ensures ParseFloat("100") == Some(100.0) && LineTotal(Fan()) == Some(200.0)
  {
    ParseDigits("2");
    ParseDigits("100");
  }

  /** One valid item, two fans at 100, gives one row with line total 200 and a grand total of 200. */
  lemma {:induction false} SingleItemInvoice(date: string, random: real)
    requires 0.0 <= random < 1.0
    ensures var r := Submit("Ali", [Fan()], date, random);
      && r.Success?
      && r.value.customer == "Ali"
      && |r.value.rows| == 1
      && r.value.rows[0] == Row(1, "Fan", "2", Some(100.0), Some(200.0))
      && r.value.grandTotal == Some(200.0)
  {
    NotBlank("Ali");
    FanIsValid();
    FanLineTotal();
    var doc := BuildInvoice("Ali", [Fan()], date, random);
    assert doc.rows == [doc.rows[0]];
    assert doc.rows[..0] == [];
  }

  // The form

  /** The state the bill screen owns: the customer name and the item list, never empty. */
  class BillForm {
    var customerName: string
    var items: seq<Item>

    ghost predicate Valid()
      reads this
    {
      |items| >= 1 && DistinctIds(items)
    }

    /** The screen opens with no customer and one empty item with id 1. */
    constructor ()
      ensures Valid()
      ensures customerName == "" && items == [EmptyItem(1)]
    {
      customerName := "";
      items := [EmptyItem(1)];
    }

    method SetCustomerName(name: string)
      requires Valid()
      modifies this
      ensures Valid()
      ensures customerName == name && items == old(items)
    {
      customerName := name;
    }

    /** Appends an empty item; `now` is the id `Date.now()` gave it, which must be new to the list. */
    method AddItem(now: int)
      requires Valid() && IdFree(items, now)
      modifies this
      ensures Valid()
      ensures items == old(items) + [EmptyItem(now)] && customerName == old(customerName)
    {
      items := items + [EmptyItem(now)];
    }

    method UpdateItem(id: int, field: Field, value: string)
      requires Valid()
      modifies this
      ensures Valid()
      ensures items == Updated(old(items), id, field, value) && customerName == old(customerName)
    {
      items := Updated(items, id, field, value);
    }

    /** Removes the item with `id`, or refuses (`refused`) when it is the only one left. */
    method RemoveItem(id: int) returns (refused: bool)
      requires Valid()
      modifies this
      ensures Valid()
      ensures refused <==> |old(items)| <= 1
      ensures items == Removed(old(items), id) && customerName == old(customerName)
      ensures refused ==> items == old(items)
    {
      refused := |items| <= 1;
      RemoveKeepsList(items, id);
      items := Removed(items, id);
    }

    /**
      The total shown under the rows. Whenever the bill's grand total for the same list is a
      number, the two agree.
    */
    function TotalAmount(): (total: real)
      reads this
      ensures total == LiveTotal(items)
      ensures GrandTotal(items).Some? ==> total == GrandTotal(items).value
    {
      if GrandTotal(items).Some? then
        PrintedTotalMatchesLive(items);
        LiveTotal(items)
      else
        LiveTotal(items)
    }

    /** "Generate Bill": the validation outcome, or the invoice to be exported. */
    method HandlePrint(date: string, random: real) returns (r: Result<Invoice, SubmitError>)
      requires 0.0 <= random < 1.0
      ensures r == Submit(customerName, items, date, random)
    {
      r := Submit(customerName, items, date, random);
    }
  }
}
