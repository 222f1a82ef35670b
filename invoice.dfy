/**
 * The invoice: the texts of the PDF cells in the order they are drawn
 * (letterhead, customer block, item table, net total), and the check made
 * before an invoice is generated.
 */
module Invoice {
  import opened Wrappers
  import opened Numerals
  import opened Billing

  /** The four customer fields typed in just before generating the invoice. */
  datatype Customer = Customer(name: string, address: string, email: string, phone: string)

  /**
   * The document is kept as its lines, each line the texts of the cells drawn
   * on it (a cell drawn with `ln=True` ends its line). Blank spacing lines,
   * widths, borders and alignment are not kept.
   */
  type Line = seq<string>

  /** The centred letterhead: company, address, title and a rule of 64 underscores. */
  const Letterhead: seq<Line> := [
    ["OSAKA AUTO PARTS LLC"],
    ["29 AL Musalla Road, Deira, Dubai "],
    ["Invoice"],
    ["________________________________________________________________"]
  ]

  /** The bordered header row of the item table. */
  const TableHeader: Line := ["Code", "Description", "Qty", "Price", "Total"]

  /** Index of the line holding the first item row. */
  const TableStart := 10

  /** The customer block: a title and one labelled line per field. */
  function CustomerLines(customer: Customer): (lines: seq<Line>)
    ensures |lines| == 5
  {
    [ ["Customer Information"],
      ["Name: " + customer.name],
      ["Address: " + customer.address],
      ["Email: " + customer.email],
      ["Phone: " + customer.phone] ]
  }

  /** The five bordered cells of one item: code, description, quantity, price, total. */
  function ItemRow(item: LineItem): (row: Line)
    ensures |row| == 5
  {
    [item.code, item.description, IntToString(item.quantity), IntToString(item.price), IntToString(item.total)]
  }

  /** The item rows, one per item, in list order. */
  function ItemRows(items: seq<LineItem>): (rows: seq<Line>)
    ensures |rows| == |items|
    ensures forall i :: 0 <= i < |items| ==> rows[i] == ItemRow(items[i])
  {
    if items == [] then [] else ItemRows(items[..|items| - 1]) + [ItemRow(items[|items| - 1])]
  }

  /**
   * The lines `generate_pdf` draws, in drawing order. The net total is the
   * value handed in by the caller, printed as it is.
   */
  function InvoiceLines(customer: Customer, items: seq<LineItem>, netTotal: int): (lines: seq<Line>)
    ensures |lines| == TableStart + |items| + 1
    ensures lines[..TableStart] == Letterhead + CustomerLines(customer) + [TableHeader]
    ensures forall i :: 0 <= i < |items| ==> lines[TableStart + i] == ItemRow(items[i])
    ensures lines[|lines| - 1] == ["Net Total:", IntToString(netTotal)]
  {
    Letterhead + CustomerLines(customer) + [TableHeader] + ItemRows(items) + [["Net Total:", IntToString(netTotal)]]
  }

  /**
   * Every item can be read back from its row: code and description verbatim,
   * and quantity, price and total with `int`; the last cell reads back as the net total.
   */
  lemma InvoiceReadBack(customer: Customer, items: seq<LineItem>, netTotal: int, i: int)
    requires 0 <= i < |items|
    ensures var lines := InvoiceLines(customer, items, netTotal);
      var row := lines[TableStart + i];
      row[0] == items[i].code && row[1] == items[i].description &&
      ParseInt(row[2]) == Success(items[i].quantity) &&
      ParseInt(row[3]) == Success(items[i].price) &&
      ParseInt(row[4]) == Success(items[i].total) &&
      ParseInt(lines[|lines| - 1][1]) == Success(netTotal)
  {
    RowReadBack(items[i]);
    ParseIntOfIntToString(netTotal);
  }

  /** The numeric cells of an item row read back with `int` as the item's numbers. */
  lemma RowReadBack(item: LineItem)
    ensures var row := ItemRow(item);
      ParseInt(row[2]) == Success(item.quantity) &&
      ParseInt(row[3]) == Success(item.price) &&
      ParseInt(row[4]) == Success(item.total)
  {
    ParseIntOfIntToString(item.quantity);
    ParseIntOfIntToString(item.price);
    ParseIntOfIntToString(item.total);
  }

  /** The four customer fields are all filled in. */
  predicate Complete(customer: Customer)
  {
    customer.name != [] && customer.address != [] && customer.email != [] && customer.phone != []
  }

  /**
   * "Generate Invoice": an invoice only for a non-empty item list and a complete
   * customer, and then with the session's net total in its last cell.
   */
  function GenerateInvoice(customer: Customer, items: seq<LineItem>): (r: Option<seq<Line>>)
    ensures r.Some? <==> items != [] && Complete(customer)
    ensures r.Some? ==> r.value == InvoiceLines(customer, items, NetTotal(items))
    ensures r.Some? ==>
      |r.value| == TableStart + |items| + 1 &&
      |r.value[|r.value| - 1]| == 2 && r.value[|r.value| - 1][0] == "Net Total:" &&
      ParseInt(r.value[|r.value| - 1][1]) == Success(NetTotal(items))
  {
    if items != [] && Complete(customer) then
      ParseIntOfIntToString(NetTotal(items));
      Some(InvoiceLines(customer, items, NetTotal(items)))
    else None
  }
}
