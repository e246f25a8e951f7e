/** The per-session state of the sales-control application: the product
    catalog and the sales ledger, the registration and sale handlers that
    append to them, and what each of the three pages shows of them. */
module App {
  import opened Strings
  import opened Ledger

  /** The names offered by the sale form's product selector, in catalog
      order, duplicates included. */
  function Names(products: seq<Product>): (r: seq<string>)
    ensures |r| == |products|
    ensures forall i :: 0 <= i < |products| ==> r[i] == products[i].name
  {
    if products == [] then [] else [products[0].name] + Names(products[1..])
  }

  /** `name` is one of the names the catalog offers. */
  predicate Listed(products: seq<Product>, name: string) {
    exists i :: 0 <= i < |products| && products[i].name == name
  }

  /** Every ledger row names a product of the catalog. */
  predicate SalesReferCatalog(products: seq<Product>, sales: seq<Sale>) {
    forall i :: 0 <= i < |sales| ==> Listed(products, sales[i].product)
  }

  /** With no product registered there can be no sale. */
  lemma SalesNeedProducts(products: seq<Product>, sales: seq<Sale>)
    requires SalesReferCatalog(products, sales)
    ensures products == [] ==> sales == []
  {
    if sales != [] {
      assert Listed(products, sales[0].product);
    }
  }

  /** The session invariant on the two tables: registered names are never
      blank, every ledger row is one the sale form can produce, and every
      row's product was in the catalog. */
  predicate Consistent(products: seq<Product>, sales: seq<Sale>) {
    && (forall i :: 0 <= i < |products| ==> !IsBlank(products[i].name))
    && WellFormed(sales)
    && SalesReferCatalog(products, sales)
  }

  /** Registering a product with a non-blank name keeps the invariant: the
      catalog only grows, so every ledger row's product stays listed. */
  lemma RegisterKeepsConsistent(products: seq<Product>, sales: seq<Sale>, p: Product)
    requires Consistent(products, sales)
    requires !IsBlank(p.name)
    ensures Consistent(products + [p], sales)
  {
    forall i | 0 <= i < |sales| ensures Listed(products + [p], sales[i].product) {
      assert Listed(products, sales[i].product);
      var k :| 0 <= k < |products| && products[k].name == sales[i].product;
      assert (products + [p])[k] == products[k];
    }
    forall i | 0 <= i < |products| + 1 ensures !IsBlank((products + [p])[i].name) {
      if i < |products| {
        assert (products + [p])[i] == products[i];
      }
    }
  }

  /** Recording a form-produced sale of a listed product keeps the invariant. */
  lemma SaleKeepsConsistent(products: seq<Product>, sales: seq<Sale>, s: Sale)
    requires Consistent(products, sales)
    requires Listed(products, s.product)
    requires WellFormedSale(s)
    ensures Consistent(products, sales + [s])
  {
    WellFormedAppend(sales, s);
    forall i | 0 <= i < |sales| + 1 ensures Listed(products, (sales + [s])[i].product) {
      if i < |sales| {
        assert (sales + [s])[i] == sales[i];
      }
    }
  }

  /** The three metrics of the report page. */
  datatype Totals = Totals(quantity: int, sold: real, receivable: real)

  /** The three options of the sidebar menu. */
  datatype Page = ProductRegistration | SaleEntry | Reports

  /** What a page shows of the two tables. */
  datatype View =
    | CatalogTable(products: seq<Product>)
    | NeedProductWarning
    | SaleForm(choices: seq<string>)
    | NoSalesWarning
    | SalesReport(rows: seq<Sale>, totals: Totals)

  /** The page guards: the sale form only once the catalog has a product,
      offering the catalog's names in catalog order (the first one
      preselected); the report only once the ledger has a row, showing the
      whole ledger and the three column totals over it. */
  function Render(page: Page, products: seq<Product>, sales: seq<Sale>): (v: View)
    ensures v.CatalogTable? <==> page == ProductRegistration
    ensures v.CatalogTable? ==> v.products == products
    ensures v.SaleForm? <==> page == SaleEntry && products != []
    ensures v.NeedProductWarning? <==> page == SaleEntry && products == []
    ensures v.SaleForm? ==> v.choices == Names(products)
    ensures v.SaleForm? ==> forall c :: c in v.choices <==> Listed(products, c)
    ensures v.SalesReport? <==> page == Reports && sales != []
    ensures v.NoSalesWarning? <==> page == Reports && sales == []
    ensures v.SalesReport? ==> v.rows == sales
    ensures v.SalesReport? ==> v.totals == Totals(TotalQuantity(sales), TotalSold(sales), TotalReceivable(sales))
    ensures v.SalesReport? && WellFormed(sales) ==>
      v.totals.quantity >= |sales| >= 1 && v.totals.sold >= 0.0 && v.totals.receivable >= 0.0
  {
    match page
    case ProductRegistration => CatalogTable(products)
    case SaleEntry =>
      if products == [] then NeedProductWarning
      else
        var names := Names(products);
        assert forall c :: c in names ==> Listed(products, c) by {
          forall c | c in names ensures Listed(products, c) {
            var i :| 0 <= i < |names| && names[i] == c;
          }
        }
        SaleForm(names)
    case Reports =>
      if sales == [] then NoSalesWarning
      else
        SalesReport(sales, Totals(TotalQuantity(sales), TotalSold(sales), TotalReceivable(sales)))
  }

  /** The application state of one browser session. */
  class Session {
    var products: seq<Product>
    var sales: seq<Sale>

    ghost predicate Valid()
      reads this
    {
      Consistent(products, sales)
    }

    /** Session start: both tables are empty. */
    constructor ()
      ensures Valid()
      ensures products == [] && sales == []
    {
      products := [];
      sales := [];
    }

    /** The "Cadastrar produto" handler. A blank name is refused and nothing
        changes; any other name is appended verbatim, untrimmed, with its
        description, after all earlier rows. */
    method Register(name: string, description: string) returns (ok: bool)
      requires Valid()
      modifies this
      ensures Valid()
      ensures ok <==> !AllSpace(name)
      ensures products == if ok then old(products) + [Product(name, description)] else old(products)
      ensures sales == old(sales)
    {
      if Strip(name) == "" {
        ok := false;
      } else {
        RegisterKeepsConsistent(products, sales, Product(name, description));
        products := products + [Product(name, description)];
        ok := true;
      }
    }

    /** The "Registrar venda" handler, reachable only through the sale form,
        whose selector offers the catalog names and whose number inputs keep
        their minimums. It always appends exactly one row holding the inputs
        and the receivable the form previews for them; the catalog is left
        alone and each total grows by the new row's term. */
    method RecordSale(product: string, quantity: int, price: real, percent: real, date: Date)
      returns (row: Sale)
      requires Valid()
      requires Listed(products, product)
      requires quantity >= 1 && price >= 0.0 && percent >= 0.0
      modifies this
      ensures Valid()
      ensures row == Sale(product, quantity, price, percent, Receivable(quantity, price, percent), date)
      ensures sales == old(sales) + [row]
      ensures products == old(products)
      ensures TotalQuantity(sales) == TotalQuantity(old(sales)) + quantity
      ensures TotalSold(sales) == TotalSold(old(sales)) + Gross(quantity, price)
      ensures TotalReceivable(sales) == TotalReceivable(old(sales)) + row.receivable
    {
      var preview := Receivable(quantity, price, percent);
      row := Sale(product, quantity, price, percent, preview, date);
      TotalsAppend(sales, row);
      SaleKeepsConsistent(products, sales, row);
      sales := sales + [row];
    }
  }

  /** A session through the three pages with the values of a small worked
      example: one product, then one sale of 3 units at 10.00 with 20 percent. */
  method ExampleSession() {
    var s := new Session();
    assert Render(SaleEntry, s.products, s.sales) == NeedProductWarning;
    var ok := s.Register("Widget", "A test widget");
    assert "Widget"[0] == 'W' && !IsSpace('W');
    assert ok && s.products == [Product("Widget", "A test widget")];
    var row := s.RecordSale("Widget", 3, 10.0, 20.0, Date(2024, 1, 1));
    assert row.receivable == 6.0 && s.sales == [row];
    ExampleReport(row);
  }

  /** The report over the example's single sale. */
  lemma ExampleReport(row: Sale)
    requires row == Sale("Widget", 3, 10.0, 20.0, 6.0, Date(2024, 1, 1))
    ensures Render(Reports, [Product("Widget", "A test widget")], [row])
      == SalesReport([row], Totals(3, 30.0, 6.0))
  {
    assert [row][1..] == [];
    assert TotalQuantity([row]) == 3;
    assert TotalSold([row]) == Gross(3, 10.0) == 30.0;
    assert TotalReceivable([row]) == 6.0;
  }
}
