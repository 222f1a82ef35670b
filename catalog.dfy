/**
 * The product catalog read from the uploaded spreadsheet and `product_lookup`,
 * which finds a product by the code the user typed.
 */
module Catalog {
  import opened Wrappers
  import opened Numerals

  /**
   * One spreadsheet row: its `Product Code`, `Description` and `Price` columns.
   * Prices are whole numbers in the spreadsheet's own unit.
   */
  datatype Row = Row(code: int, description: string, price: int)

  /** What `product_lookup` returns for a match: the pair (Description, Price). */
  datatype Product = Product(description: string, price: int)

  /** Row `k` has code `code` and no earlier row has it. */
  predicate IsFirstMatch(catalog: seq<Row>, code: int, k: int)
  {
    0 <= k < |catalog| && catalog[k].code == code &&
    forall j :: 0 <= j < k ==> catalog[j].code != code
  }

  /** The rows whose code equals `code`, kept in catalog order (the DataFrame filter). */
  function Matching(catalog: seq<Row>, code: int): (m: seq<Row>)
    ensures forall r :: r in m ==> r in catalog && r.code == code
    ensures forall k :: 0 <= k < |catalog| && catalog[k].code == code ==> catalog[k] in m
  {
    if catalog == [] then []
    else
      var rest := Matching(catalog[1..], code);
      assert forall k :: 0 < k < |catalog| ==> catalog[k] == catalog[1..][k - 1];
      if catalog[0].code == code then [catalog[0]] + rest else rest
  }

  /** The first row of the filtered table is the first row of the catalog with that code. */
  lemma {:induction false} MatchingHead(catalog: seq<Row>, code: int, k: int)
    requires IsFirstMatch(catalog, code, k)
    ensures Matching(catalog, code) != [] && Matching(catalog, code)[0] == catalog[k]
  {
    if k > 0 {
      assert catalog[0].code != code;
      MatchingHead(catalog[1..], code, k - 1);
    }
  }

  /**
   * `product_lookup(df, product_code)`: the code text is read with `int`, whose
   * `ValueError` is the `Failure`; `Success(None)` is the `(None, None)` answer.
   */
  function ProductLookup(catalog: seq<Row>, code: string): (r: Result<Option<Product>, CodeError>)
    ensures r.Failure? <==> ParseInt(code).Failure?
    ensures ParseInt(code).Success? ==>
      (r == Success(None) <==> forall k :: 0 <= k < |catalog| ==> catalog[k].code != ParseInt(code).value)
    ensures ParseInt(code).Success? ==>
      forall k :: IsFirstMatch(catalog, ParseInt(code).value, k) ==>
        r == Success(Some(Product(catalog[k].description, catalog[k].price)))
  {
    match ParseInt(code)
    case Failure(e) => Failure(e)
    case Success(n) =>
      var m := Matching(catalog, n);
      assert forall k :: IsFirstMatch(catalog, n, k) ==> m != [] && m[0] == catalog[k] by {
        forall k | IsFirstMatch(catalog, n, k) ensures m != [] && m[0] == catalog[k] {
          MatchingHead(catalog, n, k);
        }
      }
      if m != [] then Success(Some(Product(m[0].description, m[0].price))) else Success(None)
  }

  /** A row with code `code` at `k` means some row is the first with that code. */
  lemma {:induction false} FirstMatchExists(catalog: seq<Row>, code: int, k: int)
    requires 0 <= k < |catalog| && catalog[k].code == code
    ensures exists f :: IsFirstMatch(catalog, code, f)
  {
    if !IsFirstMatch(catalog, code, k) {
      var j :| 0 <= j < k && catalog[j].code == code;
      FirstMatchExists(catalog, code, j);
    }
  }

  /** A found product is always the description and price of the first row with the code. */
  lemma LookupFoundIsFirstRow(catalog: seq<Row>, code: string, p: Product)
    requires ProductLookup(catalog, code) == Success(Some(p))
    ensures ParseInt(code).Success?
    ensures exists k ::
      IsFirstMatch(catalog, ParseInt(code).value, k) && p == Product(catalog[k].description, catalog[k].price)
  {
    var n := ParseInt(code).value;
    var k :| 0 <= k < |catalog| && catalog[k].code == n;
    FirstMatchExists(catalog, n, k);
  }

  /** Typing the printed code of a row finds that row, when no earlier row shares the code. */
  lemma LookupPrintedCode(catalog: seq<Row>, k: int)
    requires 0 <= k < |catalog| && IsFirstMatch(catalog, catalog[k].code, k)
    ensures ProductLookup(catalog, IntToString(catalog[k].code)) ==
      Success(Some(Product(catalog[k].description, catalog[k].price)))
  {
    ParseIntOfIntToString(catalog[k].code);
  }

  /** A code with no decimal digit in it is a format error, never a not-found answer. */
  lemma LookupNonNumeric(catalog: seq<Row>, code: string)
    requires forall i :: 0 <= i < |code| ==> !IsDigit(code[i])
    ensures ProductLookup(catalog, code) == Failure(InvalidCodeFormat)
  {
    NoDigitNoParse(code);
  }
}
