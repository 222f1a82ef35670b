/**
 * The billing session: the list of line items kept across page runs, the
 * "Add Product" and "Remove Item" actions on it, and the net total.
 */
module Billing {
  import opened Wrappers
  import opened Numerals
  import opened Catalog

  /** One entry of the item list: the raw code text, the product's fields, the quantity and the line total. */
  datatype LineItem = LineItem(code: string, description: string, quantity: int, price: int, total: int)

  /** What pressing "Add Product" leads to; only `Added` changes the item list. */
  datatype AddOutcome =
    | Added(item: LineItem)
    | MissingInput                     // "Please enter product code and quantity"
    | InvalidProduct                   // "Invalid Product Code."
    | CodeUnreadable(error: CodeError) // `int` raised; the page's catch-all reports it

  /** An item the add guards let through: every field is truthy and the total is price times quantity. */
  predicate Admitted(item: LineItem)
  {
    item.code != [] && item.quantity != 0 && item.description != [] && item.price != 0 &&
    item.total == item.price * item.quantity
  }

  /** Row `k` is the one the lookup finds for `code` and both its fields are truthy. */
  predicate Billable(catalog: seq<Row>, code: string, k: int)
  {
    ParseInt(code).Success? && IsFirstMatch(catalog, ParseInt(code).value, k) &&
    catalog[k].description != [] && catalog[k].price != 0
  }

  /**
   * The decision taken when "Add Product" is pressed: the guard on the inputs,
   * the lookup, the guard on its answer, and the item that is appended.
   */
  function Admit(catalog: seq<Row>, code: string, quantity: int): (r: AddOutcome)
    ensures r.MissingInput? <==> code == [] || quantity == 0
    ensures r.CodeUnreadable? <==> code != [] && quantity != 0 && ParseInt(code).Failure?
    ensures r.Added? ==> Admitted(r.item) && r.item.code == code && r.item.quantity == quantity
    ensures r.Added? ==> exists k ::
      Billable(catalog, code, k) && r.item == LineItem(code, catalog[k].description, quantity, catalog[k].price, catalog[k].price * quantity)
  {
    if code == [] || quantity == 0 then MissingInput
    else
      match ProductLookup(catalog, code)
      case Failure(e) => CodeUnreadable(e)
      case Success(None) => InvalidProduct
      case Success(Some(p)) =>
        LookupFoundIsFirstRow(catalog, code, p);
        if p.description != [] && p.price != 0 then
          Added(LineItem(code, p.description, quantity, p.price, p.price * quantity))
        else InvalidProduct
  }

  /** A billable row is added, with its description and price and total = price * quantity. */
  lemma AdmitBillable(catalog: seq<Row>, code: string, quantity: int, k: int)
    requires code != [] && quantity != 0 && Billable(catalog, code, k)
    ensures Admit(catalog, code, quantity) ==
      Added(LineItem(code, catalog[k].description, quantity, catalog[k].price, catalog[k].price * quantity))
  {
  }

  /**
   * A readable code whose lookup yields no row, or a row with an empty
   * description or a zero price, is refused as an invalid product code.
   */
  lemma AdmitRefusesUnbillable(catalog: seq<Row>, code: string, quantity: int)
    requires code != [] && quantity != 0 && ParseInt(code).Success?
    requires forall k :: !Billable(catalog, code, k)
    ensures Admit(catalog, code, quantity) == InvalidProduct
  {
  }

  /** An existing product priced 0 is refused like an unknown code. */
  lemma FreeProductRefused(catalog: seq<Row>, k: int, quantity: int)
    requires 0 <= k < |catalog| && IsFirstMatch(catalog, catalog[k].code, k)
    requires catalog[k].price == 0 && quantity != 0
    ensures Admit(catalog, IntToString(catalog[k].code), quantity) == InvalidProduct
  {
    ParseIntOfIntToString(catalog[k].code);
    assert IntToString(catalog[k].code) != [];
  }

  /** The sum of the line totals, added up from the first item on, 0 for no items. */
  function NetTotal(items: seq<LineItem>): (t: int)
    ensures items == [] ==> t == 0
    ensures |items| == 1 ==> t == items[0].total
  {
    if items == [] then 0 else NetTotal(items[..|items| - 1]) + items[|items| - 1].total
  }

  /** The net total of two lists put together is the sum of their net totals. */
  lemma {:induction false} NetTotalConcat(a: seq<LineItem>, b: seq<LineItem>)
    ensures NetTotal(a + b) == NetTotal(a) + NetTotal(b)
  {
    if b == [] {
      assert a + b == a;
    } else {
      var b' := b[..|b| - 1];
      NetTotalConcat(a, b');
      assert (a + b)[..|a + b| - 1] == a + b';
    }
  }

  /** Taking out item `i` lowers the net total by exactly that item's total. */
  lemma NetTotalRemove(items: seq<LineItem>, i: int)
    requires 0 <= i < |items|
    ensures NetTotal(items[..i] + items[i + 1..]) == NetTotal(items) - items[i].total
  {
    var front, back := items[..i], items[i + 1..];
    var upTo := items[..i + 1];
    calc {
      NetTotal(items);
      { assert items == upTo + back; NetTotalConcat(upTo, back); }
      NetTotal(upTo) + NetTotal(back);
      { assert upTo[..|upTo| - 1] == front; }
      NetTotal(front) + items[i].total + NetTotal(back);
      { NetTotalConcat(front, back); }
      NetTotal(front + back) + items[i].total;
    }
  }

  /** Appending an admitted item keeps every item admitted and adds its total to the net total. */
  lemma AppendAdmitted(items: seq<LineItem>, item: LineItem)
    requires forall i :: 0 <= i < |items| ==> Admitted(items[i])
    requires Admitted(item)
    ensures forall i :: 0 <= i < |items| + 1 ==> Admitted((items + [item])[i])
    ensures NetTotal(items + [item]) == NetTotal(items) + item.price * item.quantity
  {
  }

  /** The session's item list, which only "Add Product" and "Remove Item" change. */
  class BillingSession {
    var items: seq<LineItem>

    /** Every item in the list came through the add guards. */
    ghost predicate Valid()
      reads this
    {
      forall i :: 0 <= i < |items| ==> Admitted(items[i])
    }

    /** The list created the first time the page runs in a session. */
    constructor ()
      ensures Valid() && items == [] && NetTotal(items) == 0
    {
      items := [];
    }

    /** "Add Product": appends the admitted item at the end, or leaves the list as it was. */
    method Add(catalog: seq<Row>, code: string, quantity: int) returns (outcome: AddOutcome)
      requires Valid()
      modifies this
      ensures Valid()
      ensures outcome == Admit(catalog, code, quantity)
      ensures items == if outcome.Added? then old(items) + [outcome.item] else old(items)
      ensures NetTotal(items) == old(NetTotal(items)) + if outcome.Added? then outcome.item.price * quantity else 0
    {
      outcome := Admit(catalog, code, quantity);
      if outcome.Added? {
        AppendAdmitted(items, outcome.item);
        items := items + [outcome.item];
      }
    }

    /** "Remove Item": pops the item at `index`; the others keep their order. */
    method Remove(index: int)
      requires Valid() && 0 <= index < |items|
      modifies this
      ensures Valid()
      ensures items == old(items)[..index] + old(items)[index + 1..]
      ensures |items| == |old(items)| - 1
      ensures NetTotal(items) == old(NetTotal(items)) - old(items)[index].total
    {
      NetTotalRemove(items, index);
      items := items[..index] + items[index + 1..];
    }
  }
}
