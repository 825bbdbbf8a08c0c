// The PAR importer (wholesaler `hurtownia3`): products from the PAR API or
// its local copy, stock levels from the stocks endpoint, categories looked up
// through the term meta the category import writes, images downloaded.

module Par {
  import opened Php
  import opened Records
  import opened Shop
  import opened Cache
  import opened Media

  const ProductsFailed := "Nie udało się pobrać danych produktów z API."
  const IdMeta := "_hurtownia3_product_id"
  const CategoryMeta := "_hurtownia3_category_id"

  /** `$stocks`: source product id to quantity; None is a null quantity, which `isset` rejects. */
  type Stocks = map<string, Option<string>>

  function QuantityOf(row: Record): Option<string>
  {
    if Isset(row, "quantity") then Some(row.fields["quantity"]) else None
  }

  /** `$stocks[$stock['product_id']] = $stock['quantity']` for every entry in order. */
  function StocksOf(rows: seq<Record>): Stocks
  {
    if rows == [] then map[]
    else StocksOf(rows[..|rows| - 1])[Field(rows[|rows| - 1], "product_id") := QuantityOf(rows[|rows| - 1])]
  }

  /** The map has a key for exactly the product ids that occur among the entries. */
  lemma {:induction false} StocksKeys(rows: seq<Record>, k: string)
    ensures k in StocksOf(rows) <==> exists i :: 0 <= i < |rows| && Field(rows[i], "product_id") == k
  {
    if rows != [] {
      var prefix := rows[..|rows| - 1];
      StocksKeys(prefix, k);
      if k in StocksOf(prefix) {
        var i :| 0 <= i < |prefix| && Field(prefix[i], "product_id") == k;
        assert rows[i] == prefix[i];
      }
      if exists i :: 0 <= i < |rows| && Field(rows[i], "product_id") == k {
        var i :| 0 <= i < |rows| && Field(rows[i], "product_id") == k;
        if i < |prefix| {
          assert prefix[i] == rows[i];
        }
      }
    }
  }

  /** For a product id that occurs several times, the last entry wins. */
  lemma {:induction false} StocksLastWins(rows: seq<Record>, i: nat)
    requires i < |rows|
    requires forall j :: i < j < |rows| ==> Field(rows[j], "product_id") != Field(rows[i], "product_id")
    ensures Field(rows[i], "product_id") in StocksOf(rows)
    ensures StocksOf(rows)[Field(rows[i], "product_id")] == QuantityOf(rows[i])
  {
    if i < |rows| - 1 {
      var prefix := rows[..|rows| - 1];
      assert prefix[i] == rows[i];
      forall j | i < j < |prefix|
        ensures Field(prefix[j], "product_id") != Field(prefix[i], "product_id")
      {
        assert prefix[j] == rows[j];
      }
      StocksLastWins(prefix, i);
    }
  }

  /** The collection loop of `get_stocks_data`. */
  method CollectStocks(rows: seq<Record>) returns (stocks: Stocks)
    ensures stocks == StocksOf(rows)
  {
    stocks := map[];
    var i := 0;
    while i < |rows|
      invariant 0 <= i <= |rows|
      invariant stocks == StocksOf(rows[..i])
    {
      assert rows[..i + 1][..i] == rows[..i];
      stocks := stocks[Field(rows[i], "product_id") := QuantityOf(rows[i])];
      i := i + 1;
    }
    assert rows[..|rows|] == rows;
  }

  /** `get_stocks_data()`: false (no entries) unless the reply is accepted and decodes. */
  function StocksFrom(reply: HttpReply): Stocks
  {
    match ParStockRows(reply)
    case None => map[]
    case Some(rows) => StocksOf(rows)
  }

  /** `isset($stocks[$id])` and the quantity it guards. */
  function StockFor(stocks: Stocks, id: string): Option<string>
  {
    if id in stocks then stocks[id] else None
  }

  /** The stock setters, applied only when the source id has a stock entry. */
  function Stocked(p: Product, stocks: Stocks, id: string): (q: Product)
    ensures StockFor(stocks, id).None? ==> q == p
    ensures StockFor(stocks, id).Some? ==>
      q.manageStock && q.quantity == Some(IntVal(StockFor(stocks, id).value))
      && (q.stockStatus == InStock <==> IntVal(StockFor(stocks, id).value) > 0)
  {
    match StockFor(stocks, id)
    case None => p
    case Some(q) => WithStock(p, q)
  }

  /** A record with the three fields `import_product` demands. */
  predicate Complete(r: Record)
  {
    Isset(r, "id") && Isset(r, "name") && Isset(r, "sku")
  }

  /** The product `create_product` saves. */
  function NewProduct(r: Record, stocks: Stocks): Product
    requires Complete(r)
  {
    var id := r.fields["id"];
    Stocked(Blank.(name := r.fields["name"], description := FieldOr(r, "description", ""),
                   regularPrice := FieldOr(r, "price", "0"), meta := map[IdMeta := id]), stocks, id)
  }

  /** The product `update_product` saves. */
  function RevisedProduct(p: Product, r: Record, stocks: Stocks): Product
    requires Complete(r)
  {
    var id := r.fields["id"];
    Stocked(p.(name := r.fields["name"], description := FieldOr(r, "description", ""),
               regularPrice := FieldOr(r, "price", "0"), meta := p.meta[IdMeta := id]), stocks, id)
  }

  /**
   * `import_product`: an incomplete record is an error; an existing SKU is
   * updated and counted as updated whatever the options say (also when the
   * product then fails to load); a new SKU is created, or counted as an error
   * when its save fails.
   */
  function ParStep(products: map<string, Product>, faulty: set<string>, broken: set<string>,
                   r: Record, stocks: Stocks): (s: Step)
    ensures s.outcome == Failed <==> !Complete(r) || (r.fields["sku"] !in products && r.fields["sku"] in faulty)
    ensures s.outcome == Updated <==> Complete(r) && r.fields["sku"] in products
    ensures s.outcome == Imported || s.outcome == Updated || s.outcome == Failed
    ensures s.outcome == Failed ==> s.products == products
    ensures s.products.Keys == products.Keys + (if s.outcome == Imported then {r.fields["sku"]} else {})
  {
    if !Complete(r) then Step(products, Failed)
    else
      var sku := r.fields["sku"];
      if sku in products then
        if sku in broken then Step(products, Updated)
        else Step(products[sku := RevisedProduct(products[sku], r, stocks)], Updated)
      else if sku in faulty then Step(products, Failed)
      else Step(products[sku := NewProduct(r, stocks)], Imported)
  }

  /** The catalog and the outcomes after the records in order. */
  function ParRun(products: map<string, Product>, faulty: set<string>, broken: set<string>,
                  rs: seq<Record>, stocks: Stocks): (run: Run)
    ensures |run.outcomes| == |rs|
  {
    if rs == [] then Run(products, [])
    else
      var prev := ParRun(products, faulty, broken, rs[..|rs| - 1], stocks);
      var s := ParStep(prev.products, faulty, broken, rs[|rs| - 1], stocks);
      Run(s.products, prev.outcomes + [s.outcome])
  }

  /** A run over one more record is the run over the earlier ones followed by that record's step. */
  lemma ParRunSnoc(products: map<string, Product>, faulty: set<string>, broken: set<string>,
                   rs: seq<Record>, i: nat, stocks: Stocks)
    requires i < |rs|
    ensures var prev := ParRun(products, faulty, broken, rs[..i], stocks);
      var s := ParStep(prev.products, faulty, broken, rs[i], stocks);
      ParRun(products, faulty, broken, rs[..i + 1], stocks) == Run(s.products, prev.outcomes + [s.outcome])
  {
    assert rs[..i + 1][..i] == rs[..i];
  }

  /** Every record is imported, updated or an error, never skipped or counted twice. */
  lemma {:induction false} ParRunOutcomes(products: map<string, Product>, faulty: set<string>, broken: set<string>,
                                          rs: seq<Record>, stocks: Stocks)
    ensures forall i :: 0 <= i < |rs| ==> Single(ParRun(products, faulty, broken, rs, stocks).outcomes[i])
  {
    if rs != [] {
      var prev := ParRun(products, faulty, broken, rs[..|rs| - 1], stocks);
      ParRunOutcomes(products, faulty, broken, rs[..|rs| - 1], stocks);
      var step := ParStep(prev.products, faulty, broken, rs[|rs| - 1], stocks);
      var os := ParRun(products, faulty, broken, rs, stocks).outcomes;
      assert os == prev.outcomes + [step.outcome];
      assert Single(step.outcome);
      forall i | 0 <= i < |os|
        ensures Single(os[i])
      {
        if i < |prev.outcomes| {
          assert os[i] == prev.outcomes[i];
        }
      }
    }
  }

  /** An outcome that moves exactly one of imported, updated and errors. */
  predicate Single(o: Outcome)
  {
    o == Imported || o == Updated || o == Failed
  }

  /** total = imported + updated + errors, and skipped stays 0. */
  lemma ParRunCounts(products: map<string, Product>, faulty: set<string>, broken: set<string>,
                     rs: seq<Record>, stocks: Stocks)
    ensures var c := Tally(ParRun(products, faulty, broken, rs, stocks).outcomes);
      c.imported + c.updated + c.errors == |rs| && c.skipped == 0
  {
    var os := ParRun(products, faulty, broken, rs, stocks).outcomes;
    ParRunOutcomes(products, faulty, broken, rs, stocks);
    assert forall i :: 0 <= i < |os| ==> Single(os[i]);
    TallySumSingle(os);
    TallyNoSkips(os);
  }

  /** After a run every complete record's SKU is in the catalog, unless its save failed. */
  lemma {:induction false} ParRunCovers(products: map<string, Product>, faulty: set<string>, broken: set<string>,
                                        rs: seq<Record>, stocks: Stocks, k: nat)
    requires k < |rs| && Complete(rs[k])
    ensures var p := ParRun(products, faulty, broken, rs, stocks).products;
      rs[k].fields["sku"] in p || (rs[k].fields["sku"] in faulty && rs[k].fields["sku"] !in products)
  {
    var prefix := rs[..|rs| - 1];
    var prev := ParRun(products, faulty, broken, prefix, stocks);
    ParRunGrows(products, faulty, broken, prefix, stocks);
    if k < |rs| - 1 {
      assert prefix[k] == rs[k];
      ParRunCovers(products, faulty, broken, prefix, stocks, k);
    }
  }

  /** A run never removes a product. */
  lemma {:induction false} ParRunGrows(products: map<string, Product>, faulty: set<string>, broken: set<string>,
                                       rs: seq<Record>, stocks: Stocks)
    ensures products.Keys <= ParRun(products, faulty, broken, rs, stocks).products.Keys
  {
    if rs != [] {
      ParRunGrows(products, faulty, broken, rs[..|rs| - 1], stocks);
    }
  }

  /** Running the same records a second time imports nothing: every complete record is an update or a failed save. */
  lemma ParRunAgain(products: map<string, Product>, faulty: set<string>, broken: set<string>,
                    rs: seq<Record>, stocks: Stocks)
    ensures var once := ParRun(products, faulty, broken, rs, stocks).products;
      Tally(ParRun(once, faulty, broken, rs, stocks).outcomes).imported == 0
  {
    var once := ParRun(products, faulty, broken, rs, stocks).products;
    forall k | 0 <= k < |rs| && Complete(rs[k])
      ensures rs[k].fields["sku"] in once || rs[k].fields["sku"] in faulty
    {
      ParRunCovers(products, faulty, broken, rs, stocks, k);
    }
    ParRunNoImports(once, faulty, broken, rs, rs, stocks);
  }

  lemma {:induction false} ParRunNoImports(products: map<string, Product>, faulty: set<string>, broken: set<string>,
                                           rs: seq<Record>, all: seq<Record>, stocks: Stocks)
    requires forall k :: 0 <= k < |rs| ==> rs[k] in all
    requires forall r :: r in all && Complete(r) ==> r.fields["sku"] in products || r.fields["sku"] in faulty
    ensures Tally(ParRun(products, faulty, broken, rs, stocks).outcomes).imported == 0
  {
    if rs != [] {
      var prefix := rs[..|rs| - 1];
      forall k | 0 <= k < |prefix|
        ensures prefix[k] in all
      {
        assert prefix[k] == rs[k];
      }
      ParRunNoImports(products, faulty, broken, prefix, all, stocks);
      ParRunGrows(products, faulty, broken, prefix, stocks);
      var prev := ParRun(products, faulty, broken, prefix, stocks);
      assert rs[|rs| - 1] in all;
      TallySnoc(prev.outcomes, ParStep(prev.products, faulty, broken, rs[|rs| - 1], stocks).outcome);
    }
  }

  /**
   * Incomplete records change nothing: the catalog after a run is the catalog
   * after the same run with the incomplete records removed.
   */
  lemma {:induction false} ParRunIgnoresIncomplete(products: map<string, Product>, faulty: set<string>,
                                                   broken: set<string>, rs: seq<Record>, stocks: Stocks)
    ensures ParRun(products, faulty, broken, rs, stocks).products
         == ParRun(products, faulty, broken, Completes(rs), stocks).products
  {
    if rs != [] {
      var prefix := rs[..|rs| - 1];
      ParRunIgnoresIncomplete(products, faulty, broken, prefix, stocks);
      if Complete(rs[|rs| - 1]) {
        var c := Completes(rs);
        assert c == Completes(prefix) + [rs[|rs| - 1]];
        assert c[..|c| - 1] == Completes(prefix);
        assert c[|c| - 1] == rs[|rs| - 1];
      } else {
        assert Completes(rs) == Completes(prefix);
      }
    }
  }

  function Completes(rs: seq<Record>): (c: seq<Record>)
    ensures forall r :: r in c ==> Complete(r)
  {
    if rs == [] then []
    else Completes(rs[..|rs| - 1]) + (if Complete(rs[|rs| - 1]) then [rs[|rs| - 1]] else [])
  }

  /** `if ($category_id) { $term_id = get_category_term_id(..); if ($term_id) wp_set_object_terms(..) }`. */
  function CategoryPlaced(m: map<(string, string), seq<nat>>, meta: seq<TermMeta>, sku: string, r: Record)
    : map<(string, string), seq<nat>>
  {
    if Filled(r, "category_id") && TermByMeta(meta, CategoryMeta, r.fields["category_id"]) > 0
    then m[(sku, ProductCat) := [TermByMeta(meta, CategoryMeta, r.fields["category_id"])]]
    else m
  }

  /** The PAR import. */
  class ParImporter {
    const stats: Stats
    /** The local copy `products.<format>` in the wholesaler's uploads directory. */
    var file: Option<LocalFile>
    /** `hurtownia3_api_format === 'xml'`. */
    const xml: bool
    const options: Options
    const catalog: Catalog
    const site: Site

    constructor (settings: map<string, string>, file: Option<LocalFile>, catalog: Catalog, site: Site)
      ensures fresh(stats) && stats.Valid() && stats.outcomes == [] && stats.total == 0
      ensures this.file == file && this.catalog == catalog && this.site == site
      ensures xml <==> "hurtownia3_api_format" in settings && settings["hurtownia3_api_format"] == "xml"
      ensures options == OptionsOf(settings)
    {
      stats := new Stats();
      this.file := file;
      xml := "hurtownia3_api_format" in settings && settings["hurtownia3_api_format"] == "xml";
      options := OptionsOf(settings);
      this.catalog := catalog;
      this.site := site;
    }

    /** What placing a product does to the site: its category, and its images when enabled. */
    ghost predicate PlacedOn(m0: map<(string, string), seq<nat>>, a0: seq<string>, t0: map<string, nat>,
                             g0: map<string, seq<nat>>, sku: string, r: Record)
      reads this, site
    {
      && site.objectTerms == CategoryPlaced(m0, site.termMeta, sku, r)
      && (if List(r, "images") != [] && options.importImages
          then Downloaded(site, a0, t0, g0, sku, List(r, "images"))
          else site.attachments == a0 && site.thumbnails == t0 && site.galleries == g0)
    }

    /** The category and image part shared by `create_product` and `update_product`. */
    method Place(sku: string, r: Record)
      modifies site`objectTerms, site`attachments, site`thumbnails, site`galleries
      ensures PlacedOn(old(site.objectTerms), old(site.attachments), old(site.thumbnails),
                       old(site.galleries), sku, r)
    {
      if Filled(r, "category_id") {
        var t := TermByMeta(site.termMeta, CategoryMeta, r.fields["category_id"]);
        if t > 0 {
          site.SetObjectTerms(sku, ProductCat, [t], false);
        }
      }
      var urls := List(r, "images");
      if urls != [] && options.importImages {
        DownloadImages(site, sku, urls);
      }
    }

    /** The site fields a record that is not placed leaves as they were. */
    ghost predicate SiteKept(m0: map<(string, string), seq<nat>>, a0: seq<string>, t0: map<string, nat>,
                             g0: map<string, seq<nat>>)
      reads site
    {
      site.objectTerms == m0 && site.attachments == a0 && site.thumbnails == t0 && site.galleries == g0
    }

    /** Whether `import_product` gets as far as the category and image code for this record. */
    ghost predicate Placed(products: map<string, Product>, r: Record)
      reads catalog
    {
      Complete(r) &&
      (if r.fields["sku"] in products then r.fields["sku"] !in catalog.broken
       else r.fields["sku"] !in catalog.faulty)
    }

    /** `import_product`: the catalog and site part, and the outcome it counts. */
    method ImportProduct(r: Record, stocks: Stocks) returns (o: Outcome)
      modifies catalog`products, site`objectTerms, site`attachments, site`thumbnails, site`galleries
      ensures Step(catalog.products, o) == ParStep(old(catalog.products), catalog.faulty, catalog.broken, r, stocks)
      ensures Placed(old(catalog.products), r) ==>
        PlacedOn(old(site.objectTerms), old(site.attachments), old(site.thumbnails),
                 old(site.galleries), r.fields["sku"], r)
      ensures !Placed(old(catalog.products), r) ==>
        SiteKept(old(site.objectTerms), old(site.attachments), old(site.thumbnails), old(site.galleries))
    {
      if !Complete(r) {
        return Failed;
      }
      var sku := r.fields["sku"];
      if sku in catalog.products {
        if catalog.Loadable(sku) {
          catalog.products := catalog.products[sku := RevisedProduct(catalog.products[sku], r, stocks)];
          Place(sku, r);
        }
        o := Updated;
      } else if sku in catalog.faulty {
        o := Failed;
      } else {
        catalog.products := catalog.products[sku := NewProduct(r, stocks)];
        Place(sku, r);
        o := Imported;
      }
    }

    /**
     * `import()`: reset the counters, fetch the products (failing when that
     * yields nothing), fetch the stocks (carrying on without them), then
     * import every record.
     */
    method Import(now: int, productsReply: HttpReply, stocksReply: HttpReply) returns (result: RunResult)
      modifies this`file, stats, catalog`products, site`objectTerms, site`attachments, site`thumbnails, site`galleries
      ensures stats.Valid()
      ensures file == ParProducts(xml, old(file), now, productsReply).file
      ensures (ParProducts(xml, old(file), now, productsReply).data.None?
               || ParProducts(xml, old(file), now, productsReply).data == Some([])) ==>
        && result == Failure(ProductsFailed) && stats.outcomes == [] && stats.total == 0
        && catalog.products == old(catalog.products)
        && SiteKept(old(site.objectTerms), old(site.attachments), old(site.thumbnails), old(site.galleries))
      ensures var data := ParProducts(xml, old(file), now, productsReply).data;
        data.Some? && data.value != [] ==>
          var run := ParRun(old(catalog.products), catalog.faulty, catalog.broken, data.value, StocksFrom(stocksReply));
          && catalog.products == run.products && stats.outcomes == run.outcomes
          && stats.total == |data.value| && result == Success(stats.total, stats.Value())
    {
      stats.Reset();
      var f := ParProducts(xml, file, now, productsReply);
      file := f.file;
      if f.data.None? || f.data.value == [] {
        return Failure(ProductsFailed);
      }
      var rs := f.data.value;
      var stocks: Stocks := map[];
      var rows := ParStockRows(stocksReply);
      if rows.Some? {
        stocks := CollectStocks(rows.value);
      }
      stats.total := |rs|;
      ImportEach(rs, stocks);
      result := Success(stats.total, stats.Value());
    }

    /** One turn of the `foreach`: the run over the first i records becomes the run over the first i + 1. */
    method ImportNext(rs: seq<Record>, i: nat, stocks: Stocks, ghost p0: map<string, Product>)
      requires i < |rs| && stats.Valid()
      requires Run(catalog.products, stats.outcomes) == ParRun(p0, catalog.faulty, catalog.broken, rs[..i], stocks)
      modifies stats`imported, stats`updated, stats`skipped, stats`errors, stats`outcomes, catalog`products,
               site`objectTerms, site`attachments, site`thumbnails, site`galleries
      ensures stats.Valid()
      ensures Run(catalog.products, stats.outcomes) == ParRun(p0, catalog.faulty, catalog.broken, rs[..i + 1], stocks)
    {
      ParRunSnoc(p0, catalog.faulty, catalog.broken, rs, i, stocks);
      var o := ImportProduct(rs[i], stocks);
      stats.Count(o);
    }

    /** The `foreach ($products_data as $product)` loop. */
    method ImportEach(rs: seq<Record>, stocks: Stocks)
      requires stats.Valid() && stats.outcomes == []
      modifies stats`imported, stats`updated, stats`skipped, stats`errors, stats`outcomes, catalog`products,
               site`objectTerms, site`attachments, site`thumbnails, site`galleries
      ensures stats.Valid()
      ensures Run(catalog.products, stats.outcomes) == ParRun(old(catalog.products), catalog.faulty, catalog.broken, rs, stocks)
    {
      ghost var p0 := catalog.products;
      var i := 0;
      while i < |rs|
        invariant 0 <= i <= |rs|
        invariant stats.Valid()
        invariant Run(catalog.products, stats.outcomes) == ParRun(p0, catalog.faulty, catalog.broken, rs[..i], stocks)
      {
        ImportNext(rs, i, stocks, p0);
        i := i + 1;
      }
      assert rs[..|rs|] == rs;
    }
  }
}
