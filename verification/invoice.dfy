/** The page layout of `generate_invoice` in main.py, as the ordered list of
    text placements it makes on the canvas. Fonts, the logo image and writing
    the file are not part of this model; each placement records what is shown,
    not how the numbers are rendered to text. */
module Invoice {
  import opened Ledger

  /** What one `drawString` call shows. `TwoDecimals(r)` is `f"{r:.2f}"` and
      `Money(prefix, r)` is `prefix + f"${r:.2f}"`. */
  datatype Text =
    | Str(s: string)
    | Integer(i: int)
    | TwoDecimals(r: real)
    | Money(prefix: string, r: real)

  /** One `drawString(x, y, text)` call. */
  datatype Draw = Draw(x: int, y: int, text: Text)

  /** The customer fields read from the form when the invoice is generated. */
  datatype Customer = Customer(name: string, address: string, contact: string, email: string)

  const Title: string := "HVAC Ducting Invoice"
  const Footer: string := "Thank you for your business!"
  const TotalPrefix: string := "Total Amount: "

  /** Horizontal offsets of the seven table columns, and their header labels. */
  const Columns: seq<int> := [50, 100, 180, 280, 340, 400, 470]
  const HeaderLabels: seq<string> := ["S.No", "Size", "Description", "Sq.Ft", "Rate", "Quantity", "Amount"]

  const HeaderY: int := 680
  const RowStep: int := 20
  const TotalX: int := 400
  const FooterX: int := 100
  const FooterY: int := 50

  /** Placements made before the table: the title and the four customer lines. */
  const PreambleLength: int := 5
  /** Index of the first table cell: the preamble and the seven header cells come first. */
  const TableStart: int := PreambleLength + 7

  /** The title and customer block, top to bottom. */
  function Preamble(c: Customer): (r: seq<Draw>)
    ensures |r| == PreambleLength
  {
    [ Draw(100, 800, Str(Title)),
      Draw(100, 760, Str("Customer Name: " + c.name)),
      Draw(100, 740, Str("Address: " + c.address)),
      Draw(100, 720, Str("Contact: " + c.contact)),
      Draw(100, 700, Str("Email: " + c.email)) ]
  }

  /** What each of the seven columns shows for one ledger item. */
  function Cells(item: LineItem): (r: seq<Text>)
    ensures |r| == |Columns|
  {
    [ Integer(item.serial), Str(item.size), Str(item.description),
      TwoDecimals(item.squareFt), TwoDecimals(item.rate),
      Integer(item.quantity), Money("", item.amount) ]
  }

  /** The seven placements of one table row at height `y`. */
  function Row(y: int, item: LineItem): (r: seq<Draw>)
    ensures |r| == 7
    ensures forall col :: 0 <= col < 7 ==> r[col] == Draw(Columns[col], y, Cells(item)[col])
  {
    [ Draw(50, y, Integer(item.serial)), Draw(100, y, Str(item.size)),
      Draw(180, y, Str(item.description)), Draw(280, y, TwoDecimals(item.squareFt)),
      Draw(340, y, TwoDecimals(item.rate)), Draw(400, y, Integer(item.quantity)),
      Draw(470, y, Money("", item.amount)) ]
  }

  /** The header row: the seven column labels at the header height. */
  function HeaderRow(): (r: seq<Draw>)
    ensures |r| == 7
    ensures forall col :: 0 <= col < 7 ==> r[col] == Draw(Columns[col], 680, Str(HeaderLabels[col]))
  {
    [ Draw(50, HeaderY, Str("S.No")), Draw(100, HeaderY, Str("Size")),
      Draw(180, HeaderY, Str("Description")), Draw(280, HeaderY, Str("Sq.Ft")),
      Draw(340, HeaderY, Str("Rate")), Draw(400, HeaderY, Str("Quantity")),
      Draw(470, HeaderY, Str("Amount")) ]
  }

  /** The item rows in ledger order, row `k` (1-based) `k` steps below the header. */
  function ItemRows(items: seq<LineItem>): (r: seq<Draw>)
    ensures |r| == 7 * |items|
  {
    if |items| == 0 then []
    else ItemRows(items[..|items| - 1]) + Row(HeaderY - RowStep * |items|, items[|items| - 1])
  }

  /** The whole page in drawing order: preamble, header row, item rows, the
      total line one extra step below the last row, and the footer. */
  function Layout(c: Customer, items: seq<LineItem>): (r: seq<Draw>)
    ensures |r| == TableStart + 7 * |items| + 2
    ensures r[..PreambleLength] == Preamble(c)
    ensures r[PreambleLength..TableStart] == HeaderRow()
    ensures r[|r| - 2] == Draw(400, 640 - 20 * |items|, Money(TotalPrefix, Total(items)))
    ensures r[|r| - 1] == Draw(100, 50, Str(Footer))
  {
    Preamble(c) + HeaderRow() + ItemRows(items)
      + [ Draw(TotalX, HeaderY - RowStep * (|items| + 2), Money(TotalPrefix, Total(items))),
          Draw(FooterX, FooterY, Str(Footer)) ]
  }

  /** Row cell `col` of item `k` (0-based) is drawn in column `col` at height
      660 - 20 * k, showing that item's field. */
  lemma {:induction false} ItemRowsCell(items: seq<LineItem>, k: int, col: int)
    requires 0 <= k < |items| && 0 <= col < 7
    ensures ItemRows(items)[7 * k + col] == Draw(Columns[col], 660 - 20 * k, Cells(items[k])[col])
    decreases |items|
  {
    var prefix := items[..|items| - 1];
    if k < |items| - 1 {
      ItemRowsCell(prefix, k, col);
      assert ItemRows(items)[7 * k + col] == ItemRows(prefix)[7 * k + col];
    } else {
      assert ItemRows(items)[7 * k + col] == Row(HeaderY - RowStep * |items|, items[k])[col];
    }
  }

  /** Header label `col` is drawn at (Columns[col], 680), whatever the ledger holds. */
  lemma LayoutHeaderCell(c: Customer, items: seq<LineItem>, col: int)
    requires 0 <= col < 7
    ensures Layout(c, items)[PreambleLength + col] == Draw(Columns[col], 680, Str(HeaderLabels[col]))
  {
  }

  /** Field `col` of item `k` (0-based) is drawn on the page at
      (Columns[col], 660 - 20 * k). */
  lemma LayoutItemCell(c: Customer, items: seq<LineItem>, k: int, col: int)
    requires 0 <= k < |items| && 0 <= col < 7
    ensures Layout(c, items)[TableStart + 7 * k + col] == Draw(Columns[col], 660 - 20 * k, Cells(items[k])[col])
  {
    ItemRowsCell(items, k, col);
    assert Layout(c, items)[TableStart + 7 * k + col] == ItemRows(items)[7 * k + col];
  }

  /** A successful add leaves every placement before the total line where it
      was, draws the new item's row one step below the previous last row, and
      moves the total line down one step. */
  lemma AddKeepsEarlierRows(c: Customer, items: seq<LineItem>, e: Entry)
    requires AddItem(items, e).status == Added
    ensures var after := AddItem(items, e).items;
      var n := TableStart + 7 * |items|;
      && Layout(c, after)[..n] == Layout(c, items)[..n]
      && Layout(c, after)[n..n + 7] == Row(660 - 20 * |items|, after[|items|])
      && Layout(c, after)[|Layout(c, after)| - 2].y == Layout(c, items)[|Layout(c, items)| - 2].y - 20
  {
  }

  /** With an empty ledger the page holds the preamble, the header row, a
      total line of 0 at height 640 and the footer, and no item row. */
  lemma EmptyInvoice(c: Customer)
    ensures Layout(c, []) == Preamble(c) + HeaderRow()
      + [ Draw(400, 640, Money(TotalPrefix, 0.0)), Draw(100, 50, Str(Footer)) ]
  {
  }

  /** The page has no pagination: from 30 items on, the total line is drawn at
      or below the footer's height. */
  lemma TotalReachesFooter(c: Customer, items: seq<LineItem>)
    requires |items| >= 30
    ensures var r := Layout(c, items); r[|r| - 2].y <= r[|r| - 1].y
  {
  }

  /** `generate_invoice`: the placements in the order the source makes them,
      with the vertical cursor `y_position` moving down one step per item and
      one extra step before the total line. */
  method GenerateInvoice(c: Customer, items: seq<LineItem>) returns (page: seq<Draw>)
    ensures page == Layout(c, items)
  {
    var total := CalculateTotal(items);
    page := Preamble(c);
    var y := HeaderY;
    page := page + [ Draw(50, y, Str("S.No")), Draw(100, y, Str("Size")),
                     Draw(180, y, Str("Description")), Draw(280, y, Str("Sq.Ft")),
                     Draw(340, y, Str("Rate")), Draw(400, y, Str("Quantity")),
                     Draw(470, y, Str("Amount")) ];
    y := y - RowStep;
    for i := 0 to |items|
      invariant y == HeaderY - RowStep * (i + 1)
      invariant page == Preamble(c) + HeaderRow() + ItemRows(items[..i])
    {
      var item := items[i];
      assert items[..i + 1][..i] == items[..i];
      page := page + [ Draw(50, y, Integer(item.serial)), Draw(100, y, Str(item.size)),
                       Draw(180, y, Str(item.description)), Draw(280, y, TwoDecimals(item.squareFt)),
                       Draw(340, y, TwoDecimals(item.rate)), Draw(400, y, Integer(item.quantity)),
                       Draw(470, y, Money("", item.amount)) ];
      y := y - RowStep;
    }
    assert items[..|items|] == items;
    y := y - RowStep;
    page := page + [ Draw(TotalX, y, Money(TotalPrefix, total)) ];
    page := page + [ Draw(FooterX, FooterY, Str(Footer)) ];
  }
}
