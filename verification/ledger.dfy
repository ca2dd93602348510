/** The in-memory invoice ledger of main.py: the append performed by `add_item`
    and the sum computed by `calculate_total`. The module-level list
    `invoice_items` becomes a sequence passed in and returned. */
module Ledger {
  import opened Wrappers
  import opened Units

  /** One row of the ledger, the 7-tuple (s_no, size, description, square_ft,
      rate, quantity, amount) that `add_item` appends. `squareFt` holds the
      value after unit conversion, not the raw entry. */
  datatype LineItem = LineItem(
    serial: int,
    size: string,
    description: string,
    squareFt: real,
    rate: real,
    quantity: int,
    amount: real)

  /** The item fields as read from the form. The three numeric fields are the
      results of `float(...)`, `float(...)` and `int(...)` on the entered text:
      `None` is a parse that raised `ValueError`. `unit` is the selector's text. */
  datatype Entry = Entry(
    size: string,
    description: string,
    squareFt: Option<real>,
    unit: string,
    rate: Option<real>,
    quantity: Option<int>)

  /** How an add ended: it went through, it was refused with the "Please enter
      valid numbers." notice after a `ValueError`, or the amount computation
      raised `OverflowError`, which that handler does not catch, so the
      callback ends before the append. */
  datatype Status = Added | InvalidInput | Overflow

  /** The ledger after an add, and how the add ended. */
  datatype AddResult = AddResult(items: seq<LineItem>, status: Status)

  /** All three numeric fields of `e` parsed. */
  predicate Parses(e: Entry) {
    e.squareFt.Some? && e.rate.Some? && e.quantity.Some?
  }

  /** 2^1024 - 2^970: the least magnitude of a Python int that rounds past the
      largest double. Multiplying a float by such an int raises `OverflowError`
      ("int too large to convert to float"). */
  const FloatOverflowBound: int := 179769313486231580793728971405303415079934132710037826936173778980444968292764750946649017977587207096330286416692887910946555547851940402630657488671505820681908902000708383676273854845817711531764475730270069855571366959622842914819860834936475292719074168444365510704342711559699508093042880177904174497792

  /** The count converts to a double when the amount is computed. */
  predicate CountFits(quantity: int) {
    -FloatOverflowBound < quantity < FloatOverflowBound
  }

  /** The add of `e` goes through: every field parsed and the amount could be computed. */
  predicate Accepts(e: Entry) {
    Parses(e) && CountFits(e.quantity.value)
  }

  /** The ledger invariant: serial numbers run 1, 2, ..., n in list order and
      every amount is the product of the item's own three numeric fields. */
  predicate WellFormed(items: seq<LineItem>) {
    forall k :: 0 <= k < |items| ==>
      && items[k].serial == k + 1
      && items[k].amount == items[k].squareFt * items[k].rate * items[k].quantity as real
  }

  /** `add_item`: parses the quantity, converts it to metres, parses the rate
      and then the count; only when all of these succeeded does it append one
      item whose serial number is the current length plus one. A failed parse,
      or a count too large to convert to a double, leaves the ledger exactly
      as it was. */
  function AddItem(items: seq<LineItem>, e: Entry): (r: AddResult)
    ensures r.status == Added <==> Accepts(e)
    ensures r.status == InvalidInput <==> !Parses(e)
    ensures r.status != Added ==> r.items == items
    ensures r.status == Added ==>
      && |r.items| == |items| + 1
      && r.items[..|items|] == items
      && var item := r.items[|items|];
      && item.serial == |items| + 1
      && item.size == e.size
      && item.description == e.description
      && item.squareFt == ConvertToMeters(e.squareFt.value, e.unit)
      && item.rate == e.rate.value
      && item.quantity == e.quantity.value
      && item.amount == ConvertToMeters(e.squareFt.value, e.unit) * e.rate.value * e.quantity.value as real
    ensures WellFormed(items) ==> WellFormed(r.items)
  {
    match e.squareFt
    case None => AddResult(items, InvalidInput)
    case Some(raw) =>
      var squareFt := ConvertToMeters(raw, e.unit);
      match e.rate
      case None => AddResult(items, InvalidInput)
      case Some(rate) =>
        match e.quantity
        case None => AddResult(items, InvalidInput)
        case Some(quantity) =>
          if !CountFits(quantity) then AddResult(items, Overflow)
          else
          var amount := squareFt * rate * quantity as real;
          var serial := |items| + 1;
          AddResult(items + [LineItem(serial, e.size, e.description, squareFt, rate, quantity, amount)], Added)
  }

  /** The sum of the amount column, taken left to right from 0 as Python's
      `sum` does. */
  function Total(items: seq<LineItem>): (total: real)
  {
    if |items| == 0 then 0.0 else Total(items[..|items| - 1]) + items[|items| - 1].amount
  }

  /** `calculate_total`: the loop form of `sum(item[-1] for item in invoice_items)`. */
  method CalculateTotal(items: seq<LineItem>) returns (total: real)
    ensures total == Total(items)
  {
    total := 0.0;
    for i := 0 to |items|
      invariant total == Total(items[..i])
    {
      assert items[..i + 1][..i] == items[..i];
      total := total + items[i].amount;
    }
    assert items[..|items|] == items;
  }

  /** The total of two ledgers laid end to end is the sum of their totals. */
  lemma {:induction false} TotalConcat(a: seq<LineItem>, b: seq<LineItem>)
    ensures Total(a + b) == Total(a) + Total(b)
    decreases |b|
  {
    if |b| == 0 {
      assert a + b == a;
    } else {
      var b' := b[..|b| - 1];
      assert (a + b)[..|a + b| - 1] == a + b';
      assert b[..|b| - 1] == b';
      TotalConcat(a, b');
    }
  }

  /** An add moves the total by exactly the new item's amount, and a refused
      add leaves it where it was. */
  lemma AddItemTotal(items: seq<LineItem>, e: Entry)
    ensures var r := AddItem(items, e);
      Total(r.items) == Total(items) + (if r.status == Added then r.items[|items|].amount else 0.0)
  {
  }

  /** The session: the ledger after the given attempts to add items, starting
      from the empty list. */
  function Run(entries: seq<Entry>): (items: seq<LineItem>)
    ensures WellFormed(items)
    ensures |items| <= |entries|
  {
    if |entries| == 0 then [] else AddItem(Run(entries[..|entries| - 1]), entries[|entries| - 1]).items
  }

  /** The attempts that went through, in the order made. */
  function Accepted(entries: seq<Entry>): (r: seq<Entry>)
    ensures forall e :: e in r <==> e in entries && Accepts(e)
    ensures |r| <= |entries|
  {
    if |entries| == 0 then []
    else
      var last := entries[|entries| - 1];
      Accepted(entries[..|entries| - 1]) + (if Accepts(last) then [last] else [])
  }

  /** The item built from an accepted entry when it is numbered `serial`. */
  function ItemOf(serial: int, e: Entry): (item: LineItem)
    requires Parses(e)
  {
    var squareFt := ConvertToMeters(e.squareFt.value, e.unit);
    LineItem(serial, e.size, e.description, squareFt, e.rate.value, e.quantity.value,
             squareFt * e.rate.value * e.quantity.value as real)
  }

  /** The ledger described directly: the k-th accepted entry, numbered k + 1. */
  function Numbered(accepted: seq<Entry>): (items: seq<LineItem>)
    requires forall e | e in accepted :: Parses(e)
    ensures |items| == |accepted|
  {
    seq(|accepted|, k requires 0 <= k < |accepted| => ItemOf(k + 1, accepted[k]))
  }

  /** After any sequence of attempts, the ledger holds exactly the accepted
      entries in order, the k-th of them with serial number k: refused
      attempts leave no trace and no item is ever rewritten or reordered. */
  lemma {:induction false} RunIsNumberedAccepted(entries: seq<Entry>)
    ensures Run(entries) == Numbered(Accepted(entries))
    decreases |entries|
  {
    if |entries| > 0 {
      var prefix := entries[..|entries| - 1];
      var last := entries[|entries| - 1];
      RunIsNumberedAccepted(prefix);
      var before := Run(prefix);
      if Accepts(last) {
        var acc := Accepted(prefix);
        assert Accepted(entries) == acc + [last];
        var added := AddItem(before, last).items;
        assert added == before + [ItemOf(|before| + 1, last)] by {
          assert added[..|before|] == before;
        }
        NumberedSnoc(acc, last);
      } else {
        assert Accepted(entries) == Accepted(prefix) + [];
      }
    }
  }

  /** Numbering one more accepted entry appends its item, numbered last. */
  lemma NumberedSnoc(accepted: seq<Entry>, e: Entry)
    requires forall a | a in accepted :: Parses(a)
    requires Parses(e)
    ensures Numbered(accepted + [e]) == Numbered(accepted) + [ItemOf(|accepted| + 1, e)]
  {
  }

  /** The ledger's length counts the attempts that went through. */
  lemma RunLength(entries: seq<Entry>)
    ensures |Run(entries)| == |Accepted(entries)|
  {
  }

  /** A count of 10^309 parses as an int, but the amount computation cannot
      convert it to a double: the add ends in `Overflow` and nothing is appended. */
  lemma HugeCountIsNotAppended(items: seq<LineItem>)
    ensures var e := Entry("12in", "duct", Some(1.0), "meters", Some(1.0), Some(1000000000000000000000000000000000000000000000000000000000000000000000000000000000000000000000000000000000000000000000000000000000000000000000000000000000000000000000000000000000000000000000000000000000000000000000000000000000000000000000000000000000000000000000000000000000000000000000000000000000000000000000));
      AddItem(items, e) == AddResult(items, Overflow)
  {
  }

  /** Two items: 2 m at 5 a piece three times, and 1 m at 10 once, total 40. */
  lemma TwoItemExample()
    ensures Total(Run([
      Entry("12in", "duct", Some(2.0), "meters", Some(5.0), Some(3)),
      Entry("8in", "elbow", Some(1.0), "meters", Some(10.0), Some(1))])) == 40.0
  {
  }
}
