# HVAC ducting invoice: ledger and invoice layout

A Dafny model of the logic inside the HVAC Ducting Bill Calculator (`main.py`), a
form application that collects line items for ducting work, keeps them in an
in-memory list, totals them and draws a one-page PDF invoice. The model covers
the three pieces of that program that are not widget or file plumbing:

- **Units** — `convert_to_meters`: a value entered in inches is multiplied by
  0.0254, one in centimetres is divided by 100, and every other unit tag
  (including "meters" and any text typed into the editable unit selector)
  leaves the value unchanged.
- **Ledger** — the list `invoice_items` and the two operations on it.
  `add_item` parses the entered quantity, converts it to metres, parses the
  rate and the integer count, and only then appends one 7-field item
  (serial number = current length + 1, converted quantity, rate, count,
  amount = converted quantity × rate × count). A failed parse shows an error
  and leaves the list untouched. So does a count too large to convert to a
  double: the amount computation then raises `OverflowError`, which the
  `except ValueError` handler does not catch, and the append is never
  reached. `calculate_total` sums the amount column.
  The list is a sequence passed in and returned; each parse result is an
  `Option` input (`None` is a parse that raised `ValueError`).
- **Invoice** — the placements `generate_invoice` makes on the page, as an
  ordered list of `Draw(x, y, text)` commands: title and customer block, the
  header row at height 680, item k (1-based) at 660 − 20·(k − 1), the total
  line at 640 − 20·n at x = 400, and the footer at (100, 50). The seven
  columns sit at x = 50, 100, 180, 280, 340, 400, 470.

Numbers are Dafny `real`s. `GenerateInvoice` follows the source's loop with
its moving vertical cursor and is proved to produce exactly the declarative
`Layout`. `Run` replays any sequence of add attempts from the empty ledger and
is proved to hold exactly the accepted attempts, numbered 1..n in order.

Files: `wrappers.dfy` (Option), `units.dfy`, `ledger.dfy`, `invoice.dfy`.

The unit selector offers "meters", "inches" and "centimeters" (main.py:140),
but it is editable, so any text can reach the converter. The model therefore
takes the unit as a `string`, and any tag other than "inches" or
"centimeters" is treated as metres. The column labelled "Sq.Ft", and the variable
`square_ft`, hold the value after conversion to metres. The model keeps the
source's names and does not reinterpret them.

## Model

| member | source | states |
|---|---|---|
| Units.ConvertToMeters | main.py:106-112 | inches scale by 0.0254 and centimetres by 0.01 (the scale table); every other tag, "meters" and unknown text included, returns the value unchanged; the sign and zero-ness of the value are kept; a non-negative length never grows |
| Units.InchesAgreeWithCentimeters | main.py:107-110 | x inches and 2.54·x centimetres convert to the same number of metres |
| Units.ConvertIsLinear | main.py:106-112 | conversion is linear in the value for every tag |
| Units.ConvertIsMonotonic | main.py:106-112 | conversion keeps the order of two values entered in the same unit |
| Ledger.AddItem | main.py:11-36 | the add succeeds iff all three numeric fields parse and the count converts to a double (magnitude below 2^1024 − 2^970); it reports invalid input iff some field failed to parse, and otherwise an overflow; on failure of either kind the ledger is unchanged; on success exactly one item is appended at the end, earlier items are untouched, its serial is the old length + 1, it stores the converted quantity, the rate and the count, and its amount is converted quantity × rate × count; the ledger invariant is preserved |
| Ledger.AddItemTotal | main.py:19-23 | an add raises the total by exactly the new item's amount, and a refused add leaves it unchanged |
| Ledger.CalculateTotal | main.py:39-42 | the left-to-right loop sum of the amount column, started at 0, equals the recursively defined ledger total |
| Ledger.TotalConcat | main.py:40 | the total of two ledgers laid end to end is the sum of their totals |
| Ledger.Run | main.py:20-23 | after any sequence of add attempts from an empty list, the k-th item has serial k and every amount is the product of its item's fields; the ledger is never longer than the number of attempts |
| Ledger.Accepted | main.py:15-23 | an attempt is kept iff it was made and it goes through (all three fields parse and the count converts to a double); never more kept than made |
| Ledger.RunIsNumberedAccepted | main.py:11-36 | the ledger after any sequence of attempts is the accepted entries, in order, the k-th numbered k with converted quantity and product amount; refused attempts leave no trace |
| Ledger.HugeCountIsNotAppended | main.py:17-23 | a count of 10^309 parses but overflows in the amount computation; the add ends in an overflow and the ledger is unchanged |
| Ledger.RunLength | main.py:20-23 | the ledger length equals the number of accepted attempts |
| Ledger.TwoItemExample | main.py:19-40 | 2 m at rate 5 taken 3 times plus 1 m at rate 10 once totals 40 |
| Invoice.Preamble | main.py:51-65 | defines the five placements before the table: the title at (100, 800) and the four customer lines at x = 100, heights 760 to 700; the contract fixes their number, which positions every later placement |
| Invoice.Cells | main.py:81-88 | defines what each column shows for an item (serial, size, description, quantity, rate, count, amount); the contract fixes one text per column |
| Invoice.Row | main.py:81-88 | an item row is seven placements at one height, column c at x = Columns[c], showing field c of the item |
| Invoice.HeaderRow | main.py:67-76 | the header row is the seven column labels at x = 50, 100, 180, 280, 340, 400 and 470, at height 680 |
| Invoice.ItemRows | main.py:78-89 | seven placements per ledger item |
| Invoice.ItemRowsCell | main.py:78-89 | field c of item k (0-based) is drawn at (Columns[c], 660 − 20·k), at position 7·k + c: rows appear in ledger order |
| Invoice.Layout | main.py:67-97 | the page has 12 + 7·n + 2 placements: the preamble first, the header row next, then the total at (400, 640 − 20·n) showing the ledger total, then the footer at (100, 50), whatever n is |
| Invoice.LayoutHeaderCell | main.py:67-76 | for any ledger, empty included, header label c is drawn at (Columns[c], 680) |
| Invoice.LayoutItemCell | main.py:78-89 | on the page, field c of item k (0-based) is drawn at (Columns[c], 660 − 20·k) |
| Invoice.AddKeepsEarlierRows | main.py:23 | after a successful add, every placement before the table's end stays the same, the new row appears 660 − 20·n high, and the total line moves down 20 |
| Invoice.EmptyInvoice | main.py:67-97 | with no items the page is the preamble, the header, a total of 0 at (400, 640) and the footer, with no item row |
| Invoice.TotalReachesFooter | main.py:89-97 | there is no pagination: from 30 items on, the total line is drawn at or below the footer's height |
| Invoice.GenerateInvoice | main.py:45-97 | the source's cursor loop (start at 680, down 20 per row, one extra step before the total) produces exactly the declared page layout |

## Left out

- The tkinter window, widgets, Treeview insertion, clearing of entry fields, message boxes and the `label_total` update (main.py:1-2, 26-33, 36, 41, 114-180). These are user-interface side effects.
- The reportlab canvas, fonts, the logo image with its `try/except` and warning print, and `c.save()` (main.py:48-58, 100). These are library I/O. The page is modelled only as the ordered list of text placements.
- A failure while writing the PDF. The source does not handle one, and file writing is outside the model.
- `os.startfile(..., "print")` (main.py:102-103). This is a platform side effect.
- Python's `float()`/`int()` parsing grammar (main.py:15-17). Each parse result is an input.
- The parsing order (quantity, then rate, then count) affects only which `ValueError` is raised. All of them end the same way, so the model does not record which parse failed.
- IEEE floating-point rounding, a product that overflows to infinity (which raises nothing), infinities and NaN accepted by `float()`, and the `str()` / `:.2f` rendering of numbers (main.py:82-93). The model uses exact reals and records which value each cell shows, not its text.
