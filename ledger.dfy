/** The two tables of the sales-control application and the arithmetic over
    them: the receivable amount of one sale and the three report totals. */
module Ledger {

  /** A calendar date, taken as given by the date picker. */
  datatype Date = Date(year: int, month: int, day: int)

  /** One row of the catalog: columns "Produto" and "Descrição". */
  datatype Product = Product(name: string, description: string)

  /** One row of the sales ledger, in column order: "Produto", "Quantidade",
      "Preço de venda", "Percentual (%)", "Valor a receber", "Data". */
  datatype Sale = Sale(
    product: string,
    quantity: int,
    price: real,
    percent: real,
    receivable: real,
    date: Date)

  /** The value of a sale before the percentage is applied: quantity times price. */
  function Gross(quantity: int, price: real): real {
    quantity as real * price
  }

  /** `quantidade * preco * (percentual / 100)`, the amount the sale form
      previews and stores: the share `percent` of the gross value. */
  function Receivable(quantity: int, price: real, percent: real): (r: real)
    ensures r * 100.0 == Gross(quantity, price) * percent
  {
    quantity as real * price * (percent / 100.0)
  }

  /** With the form's minimums the receivable is never negative, and with a
      percentage of at most 100 it never exceeds the gross value. */
  lemma ReceivableShare(quantity: int, price: real, percent: real)
    ensures quantity >= 1 && price >= 0.0 && percent >= 0.0 ==> Receivable(quantity, price, percent) >= 0.0
    ensures quantity >= 1 && price >= 0.0 && 0.0 <= percent <= 100.0 ==>
      Receivable(quantity, price, percent) <= Gross(quantity, price)
  {
    var gross, share := Gross(quantity, price), percent / 100.0;
    assert Receivable(quantity, price, percent) == gross * share;
    if quantity >= 1 && price >= 0.0 && percent >= 0.0 {
      assert gross >= 0.0 && share >= 0.0;
      assert gross * share >= 0.0;
      if percent <= 100.0 {
        assert share <= 1.0;
        assert gross * share <= gross * 1.0;
      }
    }
  }

  /** A row as the sale form produces it: the widget minimums hold and the
      stored receivable is the one computed from the row's own inputs. */
  predicate WellFormedSale(s: Sale) {
    && s.quantity >= 1
    && s.price >= 0.0
    && s.percent >= 0.0
    && s.receivable == Receivable(s.quantity, s.price, s.percent)
  }

  predicate WellFormed(sales: seq<Sale>) {
    forall i :: 0 <= i < |sales| ==> WellFormedSale(sales[i])
  }

  /** Appending a row the form produced keeps the ledger well formed. */
  lemma WellFormedAppend(sales: seq<Sale>, s: Sale)
    requires WellFormed(sales) && WellFormedSale(s)
    ensures WellFormed(sales + [s])
  {
    forall i | 0 <= i < |sales| + 1 ensures WellFormedSale((sales + [s])[i]) {
      if i < |sales| {
        assert (sales + [s])[i] == sales[i];
      }
    }
  }

  /** Sum of the "Quantidade" column: over rows the form produced, at least
      the number of rows. */
  function TotalQuantity(sales: seq<Sale>): (r: int)
    ensures WellFormed(sales) ==> r >= |sales|
  {
    if sales == [] then 0 else sales[0].quantity + TotalQuantity(sales[1..])
  }

  /** Sum of "Quantidade" times "Preço de venda", row by row: never negative
      over rows the form produced. */
  function TotalSold(sales: seq<Sale>): (r: real)
    ensures WellFormed(sales) ==> r >= 0.0
  {
    if sales == [] then 0.0 else Gross(sales[0].quantity, sales[0].price) + TotalSold(sales[1..])
  }

  /** Sum of the stored "Valor a receber" column (not recomputed): never
      negative over rows the form produced. */
  function TotalReceivable(sales: seq<Sale>): (r: real)
    ensures WellFormed(sales) ==> r >= 0.0
  {
    if sales == [] then 0.0
    else
      var head := sales[0];
      ReceivableShare(head.quantity, head.price, head.percent);
      head.receivable + TotalReceivable(sales[1..])
  }

  /** Each total of a concatenation is the sum of the totals of its parts. */
  lemma {:induction false} TotalsConcat(a: seq<Sale>, b: seq<Sale>)
    ensures TotalQuantity(a + b) == TotalQuantity(a) + TotalQuantity(b)
    ensures TotalSold(a + b) == TotalSold(a) + TotalSold(b)
    ensures TotalReceivable(a + b) == TotalReceivable(a) + TotalReceivable(b)
  {
    if a == [] {
      assert a + b == b;
    } else {
      assert (a + b)[1..] == a[1..] + b;
      TotalsConcat(a[1..], b);
    }
  }

  /** Appending one row adds exactly that row's term to each total. */
  lemma {:induction false} TotalsAppend(sales: seq<Sale>, s: Sale)
    ensures TotalQuantity(sales + [s]) == TotalQuantity(sales) + s.quantity
    ensures TotalSold(sales + [s]) == TotalSold(sales) + Gross(s.quantity, s.price)
    ensures TotalReceivable(sales + [s]) == TotalReceivable(sales) + s.receivable
  {
    TotalsConcat(sales, [s]);
    assert [s][1..] == [];
  }
}
