// The AXPOL importer (its settings keys are `hurtownia1_*`, its images
// server's `hurtownia2_ftp_images_*`): products.xml from the local copy or by
// FTP, one product per `Row`, local attributes, main / sub categories and
// images fetched from the images FTP server.

module Axpol {
  import opened Php
  import opened Records
  import opened Shop
  import opened Cache
  import opened Media

  const FetchFailed := "Nie udało się pobrać danych produktów z serwera FTP."
  const ParseFailed := "Nie udało się przetworzyć danych XML."
  const DefaultImagesPath := "/file/d/00_VOYAGER_HR/"
  /** The stock quantity every new AXPOL product gets. */
  const DefaultQuantity := 10

  /** The attribute keys of a product record and the `Row` fields they are read from, in order. */
  const AttributeFields: seq<(string, string)> := [
    ("material", "MaterialPL"), ("dimensions", "Dimensions"), ("color", "ColorPL"),
    ("weight", "ItemWeightG"), ("country_of_origin", "CountryOfOrigin"),
    ("custom_code", "CustomCode"), ("ean", "EAN")]

  /** The product record `parse_xml_data` builds from one `Row`. */
  datatype AxpolProduct = AxpolProduct(
    sku: string, name: string, description: string, regularPrice: string, catalogPrice: string,
    main: string, sub: string, attributes: seq<(string, string)>, images: seq<string>)

  /** `'Foto' . str_pad($i, 2, '0', STR_PAD_LEFT)`. */
  function FotoField(i: nat): string
    requires i < 100
  {
    "Foto" + Pad2(i)
  }

  /** The non-empty `Foto01`..`FotoNN` values of a row, in index order. */
  function Photos(row: Record, n: nat): (images: seq<string>)
    requires n < 100
    ensures |images| <= n
    ensures forall k :: 0 <= k < |images| ==> images[k] != ""
  {
    if n == 0 then []
    else Photos(row, n - 1) + (if Field(row, FotoField(n)) != "" then [Field(row, FotoField(n))] else [])
  }

  /** Every non-empty photo slot up to n is collected, and nothing else is. */
  lemma {:induction false} PhotosExact(row: Record, n: nat, x: string)
    requires n < 100
    ensures x in Photos(row, n) <==> exists i :: 1 <= i <= n && Field(row, FotoField(i)) == x && x != ""
  {
    if n > 0 {
      PhotosExact(row, n - 1, x);
      if exists i :: 1 <= i <= n && Field(row, FotoField(i)) == x && x != "" {
        var i :| 1 <= i <= n && Field(row, FotoField(i)) == x && x != "";
        if i < n {
          assert exists j :: 1 <= j <= n - 1 && Field(row, FotoField(j)) == x && x != "";
        }
      }
    }
  }

  /** The `for ($i = 1; $i <= 20; $i++)` loop of `parse_xml_data`. */
  method CollectPhotos(row: Record) returns (images: seq<string>)
    ensures images == Photos(row, 20)
  {
    images := [];
    var i := 1;
    while i <= 20
      invariant 1 <= i <= 21
      invariant images == Photos(row, i - 1)
    {
      var foto := FotoField(i);
      if Field(row, foto) != "" {
        images := images + [Field(row, foto)];
      }
      i := i + 1;
    }
  }

  /** `(string) $row->X` for the attribute fields, keyed by attribute name. */
  function RowAttributes(row: Record, fields: seq<(string, string)>): (r: seq<(string, string)>)
    ensures |r| == |fields|
    ensures forall k :: 0 <= k < |fields| ==> r[k] == (fields[k].0, Field(row, fields[k].1))
  {
    if fields == [] then []
    else [(fields[0].0, Field(row, fields[0].1))] + RowAttributes(row, fields[1..])
  }

  /** The record `parse_xml_data` builds from one `Row`. */
  function RowProduct(row: Record): AxpolProduct
  {
    AxpolProduct(Field(row, "CodeERP"), Field(row, "TitlePL"), Field(row, "DescriptionPL"),
                 Field(row, "NetPricePLN"), Field(row, "CatalogPricePLN"),
                 Field(row, "MainCategoryPL"), Field(row, "SubCategoryPL"),
                 RowAttributes(row, AttributeFields), Photos(row, 20))
  }

  /** The `foreach ($xml->Row as $row)` loop of `parse_xml_data`: one record per row, in order. */
  method ParseRows(rows: seq<Record>) returns (products: seq<AxpolProduct>)
    ensures |products| == |rows|
    ensures forall k :: 0 <= k < |rows| ==> products[k] == RowProduct(rows[k])
  {
    products := [];
    var i := 0;
    while i < |rows|
      invariant 0 <= i <= |rows| && |products| == i
      invariant forall k :: 0 <= k < i ==> products[k] == RowProduct(rows[k])
    {
      var images := CollectPhotos(rows[i]);
      var row := rows[i];
      var p := AxpolProduct(Field(row, "CodeERP"), Field(row, "TitlePL"), Field(row, "DescriptionPL"),
                            Field(row, "NetPricePLN"), Field(row, "CatalogPricePLN"),
                            Field(row, "MainCategoryPL"), Field(row, "SubCategoryPL"),
                            RowAttributes(row, AttributeFields), images);
      products := products + [p];
      i := i + 1;
    }
  }

  /** A row's record carries the row's code, prices, categories and at most 20 images. */
  lemma RowProductFields(row: Record)
    ensures var p := RowProduct(row);
      && p.sku == Field(row, "CodeERP") && p.regularPrice == Field(row, "NetPricePLN")
      && p.main == Field(row, "MainCategoryPL") && p.sub == Field(row, "SubCategoryPL")
      && |p.images| <= 20 && |p.attributes| == 7
  {
  }

  /**
   * What `parse_xml_data` is given.  The method expects XML text for
   * `simplexml_load_string`; `import` hands it the array that
   * `get_products_data` built with `xml_to_array`.
   */
  datatype XmlInput = XmlText(content: Blob) | PhpArray(rows: seq<Record>)

  /**
   * `parse_xml_data`: an XML text that loads yields one record per row;
   * anything else (a text that does not load, or a value that is not a
   * string) yields no document.
   */
  function ParseXmlData(input: XmlInput): (r: Option<seq<AxpolProduct>>)
    ensures input.PhpArray? ==> r.None?
    ensures input.XmlText? ==> (r.Some? <==> input.content.decoded.Some?)
    ensures input.XmlText? && r.Some? ==> |r.value| == |input.content.decoded.value|
    ensures input.XmlText? && r.Some? ==>
      forall k :: 0 <= k < |r.value| ==> r.value[k] == RowProduct(input.content.decoded.value[k])
  {
    match input
    case PhpArray(_) => None
    case XmlText(b) =>
      if b.decoded.None? then None
      else Some(seq(|b.decoded.value|, k requires 0 <= k < |b.decoded.value| => RowProduct(b.decoded.value[k])))
  }

  /**
   * `import()` as written, after a fetch: nothing fetched fails with the
   * fetch message; anything fetched is handed to `parse_xml_data` as the
   * array.  On PHP 7 `simplexml_load_string` warns and returns null for an
   * array, so the run counts an error and ends with the parse message, which
   * is what this function gives.  On PHP 8 it throws a `TypeError`, which
   * `catch (Exception $e)` does not catch, so the run dies without a result
   * and counts nothing.  Either way no product is imported.
   */
  function AsWrittenImport(data: Option<seq<Record>>, c: Counters): (r: (RunResult, Counters))
  {
    if data.None? || data.value == [] then (Failure(FetchFailed), c)
    else match ParseXmlData(PhpArray(data.value))
      case None => (Failure(ParseFailed), c.(errors := c.errors + 1))
      case Some(ps) => (Success(|ps|, c), c)
  }

  /** As written no run ever imports anything: a non-empty product file always ends in the parse failure. */
  lemma AsWrittenNeverImports(data: Option<seq<Record>>, c: Counters)
    ensures AsWrittenImport(data, c).0.Failure?
    ensures data.Some? && data.value != [] ==>
      AsWrittenImport(data, c) == (Failure(ParseFailed), c.(errors := c.errors + 1))
  {
  }

  /**
   * The intended records: those of the loaded document, one per row.  An
   * empty row set never gets here (the fetch counts it as a failure), so the
   * "could not process" branch is not taken.
   */
  function CorrectedProducts(data: Option<seq<Record>>): (r: Option<seq<AxpolProduct>>)
    ensures r.Some? <==> data.Some? && data.value != []
    ensures r.Some? ==> |r.value| == |data.value|
    ensures r.Some? ==> forall k :: 0 <= k < |data.value| ==> r.value[k] == RowProduct(data.value[k])
  {
    if data.None? || data.value == [] then None
    else Some(seq(|data.value|, k requires 0 <= k < |data.value| => RowProduct(data.value[k])))
  }

  /** The corrected records are what `parse_xml_data` yields on the XML text the rows were loaded from. */
  lemma CorrectedIsParse(b: Blob)
    requires b.decoded.Some? && b.decoded.value != []
    ensures CorrectedProducts(b.decoded) == ParseXmlData(XmlText(b))
  {
    var c := CorrectedProducts(b.decoded).value;
    var q := ParseXmlData(XmlText(b)).value;
    assert |c| == |q|;
    assert forall k :: 0 <= k < |c| ==> c[k] == q[k];
    assert c == q;
  }

  /**
   * The local attributes of a product: `ucfirst(name)`, the value as its only
   * option, visible; pairs with an empty value (in PHP's sense) are left out.
   */
  function LocalAttributes(pairs: seq<(string, string)>): (r: seq<LocalAttribute>)
    ensures |r| <= |pairs|
  {
    if pairs == [] then []
    else
      var last := pairs[|pairs| - 1];
      LocalAttributes(pairs[..|pairs| - 1])
        + (if Truthy(last.1) then [LocalAttribute(Ucfirst(last.0), [last.1], true)] else [])
  }

  /** Every attribute built comes from a pair with a non-empty value, named after its key. */
  lemma {:induction false} LocalAttributesFrom(pairs: seq<(string, string)>, a: LocalAttribute)
    requires a in LocalAttributes(pairs)
    ensures exists k :: (0 <= k < |pairs| && Truthy(pairs[k].1)
                         && a == LocalAttribute(Ucfirst(pairs[k].0), [pairs[k].1], true))
  {
    var prefix := pairs[..|pairs| - 1];
    if a in LocalAttributes(prefix) {
      LocalAttributesFrom(prefix, a);
      var k :| 0 <= k < |prefix| && Truthy(prefix[k].1) && a == LocalAttribute(Ucfirst(prefix[k].0), [prefix[k].1], true);
      assert pairs[k] == prefix[k];
    }
  }

  /** Every pair with a non-empty value yields its attribute. */
  lemma {:induction false} LocalAttributesCover(pairs: seq<(string, string)>, k: nat)
    requires k < |pairs| && Truthy(pairs[k].1)
    ensures LocalAttribute(Ucfirst(pairs[k].0), [pairs[k].1], true) in LocalAttributes(pairs)
  {
    var prefix := pairs[..|pairs| - 1];
    if k < |pairs| - 1 {
      assert prefix[k] == pairs[k];
      LocalAttributesCover(prefix, k);
    }
  }

  /** The attribute loop of `create_product` and `update_product`. */
  method BuildAttributes(pairs: seq<(string, string)>) returns (attrs: seq<LocalAttribute>)
    ensures attrs == LocalAttributes(pairs)
  {
    attrs := [];
    var i := 0;
    while i < |pairs|
      invariant 0 <= i <= |pairs|
      invariant attrs == LocalAttributes(pairs[..i])
    {
      assert pairs[..i + 1][..i] == pairs[..i];
      if Truthy(pairs[i].1) {
        attrs := attrs + [LocalAttribute(Ucfirst(pairs[i].0), [pairs[i].1], true)];
      }
      i := i + 1;
    }
    assert pairs[..|pairs|] == pairs;
  }

  /** The product `create_product` saves: stock-managed, quantity 10, in stock. */
  function NewProduct(p: AxpolProduct): Product
  {
    Blank.(name := p.name, description := p.description, regularPrice := p.regularPrice,
           manageStock := true, quantity := Some(DefaultQuantity), stockStatus := InStock,
           attributes := LocalAttributes(p.attributes))
  }

  /** The product `update_product` saves: the attribute list is replaced, not merged. */
  function RevisedProduct(old_: Product, p: AxpolProduct): Product
  {
    old_.(name := p.name, description := p.description, regularPrice := p.regularPrice,
          attributes := LocalAttributes(p.attributes))
  }

  /**
   * `import_product`: an existing SKU is updated when `update_existing` is on
   * (an error when the product cannot be loaded or its save throws) and
   * skipped otherwise; a new SKU is created (an error when its save throws).
   */
  function AxpolStep(products: map<string, Product>, faulty: set<string>, broken: set<string>,
                     update: bool, p: AxpolProduct): (s: Step)
    ensures s.outcome == Skipped <==> p.sku in products && !update
    ensures s.outcome == Imported <==> p.sku !in products && p.sku !in faulty
    ensures s.outcome == Updated <==> p.sku in products && update && p.sku !in broken && p.sku !in faulty
    ensures s.outcome != FailedAndUpdated
    ensures s.outcome != Imported && s.outcome != Updated ==> s.products == products
  {
    if p.sku in products then
      if !update then Step(products, Skipped)
      else if p.sku in broken || p.sku in faulty then Step(products, Failed)
      else Step(products[p.sku := RevisedProduct(products[p.sku], p)], Updated)
    else if p.sku in faulty then Step(products, Failed)
    else Step(products[p.sku := NewProduct(p)], Imported)
  }

  function AxpolRun(products: map<string, Product>, faulty: set<string>, broken: set<string>,
                    update: bool, ps: seq<AxpolProduct>): (run: Run)
    ensures |run.outcomes| == |ps|
  {
    if ps == [] then Run(products, [])
    else
      var prev := AxpolRun(products, faulty, broken, update, ps[..|ps| - 1]);
      var s := AxpolStep(prev.products, faulty, broken, update, ps[|ps| - 1]);
      Run(s.products, prev.outcomes + [s.outcome])
  }

  /** A run over one more product is the run over the earlier ones followed by that product's step. */
  lemma AxpolRunSnoc(products: map<string, Product>, faulty: set<string>, broken: set<string>,
                     update: bool, ps: seq<AxpolProduct>, i: nat)
    requires i < |ps|
    ensures var prev := AxpolRun(products, faulty, broken, update, ps[..i]);
      var s := AxpolStep(prev.products, faulty, broken, update, ps[i]);
      AxpolRun(products, faulty, broken, update, ps[..i + 1]) == Run(s.products, prev.outcomes + [s.outcome])
  {
    assert ps[..i + 1][..i] == ps[..i];
  }

  /** No record is counted twice, so the four counters of a run add up to its records. */
  lemma {:induction false} AxpolRunCounts(products: map<string, Product>, faulty: set<string>, broken: set<string>,
                                          update: bool, ps: seq<AxpolProduct>)
    ensures Sum(Tally(AxpolRun(products, faulty, broken, update, ps).outcomes)) == |ps|
  {
    AxpolRunSingle(products, faulty, broken, update, ps);
    TallySumSingle(AxpolRun(products, faulty, broken, update, ps).outcomes);
  }

  lemma {:induction false} AxpolRunSingle(products: map<string, Product>, faulty: set<string>, broken: set<string>,
                                          update: bool, ps: seq<AxpolProduct>)
    ensures forall i :: 0 <= i < |ps| ==> AxpolRun(products, faulty, broken, update, ps).outcomes[i] != FailedAndUpdated
  {
    if ps != [] {
      var prev := AxpolRun(products, faulty, broken, update, ps[..|ps| - 1]);
      AxpolRunSingle(products, faulty, broken, update, ps[..|ps| - 1]);
      var os := AxpolRun(products, faulty, broken, update, ps).outcomes;
      assert os == prev.outcomes + [AxpolStep(prev.products, faulty, broken, update, ps[|ps| - 1]).outcome];
      forall i | 0 <= i < |ps|
        ensures os[i] != FailedAndUpdated
      {
        if i < |ps| - 1 {
          assert os[i] == prev.outcomes[i];
        }
      }
    }
  }

  /** With `update_existing` off a run never touches a product that was already there. */
  lemma {:induction false} AxpolRunKeepsExisting(products: map<string, Product>, faulty: set<string>,
                                                 broken: set<string>, ps: seq<AxpolProduct>, sku: string)
    requires sku in products
    ensures var after := AxpolRun(products, faulty, broken, false, ps).products;
      sku in after && after[sku] == products[sku]
  {
    if ps != [] {
      AxpolRunKeepsExisting(products, faulty, broken, ps[..|ps| - 1], sku);
    }
  }

  /** Every product a run creates is stock-managed with quantity 10 and in stock. */
  lemma {:induction false} AxpolRunNewStock(products: map<string, Product>, faulty: set<string>, broken: set<string>,
                                            update: bool, ps: seq<AxpolProduct>, sku: string)
    requires sku !in products
    requires sku in AxpolRun(products, faulty, broken, update, ps).products
    ensures var q := AxpolRun(products, faulty, broken, update, ps).products[sku];
      q.manageStock && q.quantity == Some(DefaultQuantity) && q.stockStatus == InStock
  {
    var prev := AxpolRun(products, faulty, broken, update, ps[..|ps| - 1]);
    if sku in prev.products {
      AxpolRunNewStock(products, faulty, broken, update, ps[..|ps| - 1], sku);
    }
  }

  lemma {:induction false} AxpolRunGrows(products: map<string, Product>, faulty: set<string>, broken: set<string>,
                                         update: bool, ps: seq<AxpolProduct>)
    ensures products.Keys <= AxpolRun(products, faulty, broken, update, ps).products.Keys
  {
    if ps != [] {
      AxpolRunGrows(products, faulty, broken, update, ps[..|ps| - 1]);
    }
  }

  /** After a run every record's SKU is in the catalog, unless it was new and its save failed. */
  lemma {:induction false} AxpolRunCovers(products: map<string, Product>, faulty: set<string>, broken: set<string>,
                                          update: bool, ps: seq<AxpolProduct>, k: nat)
    requires k < |ps|
    ensures ps[k].sku in AxpolRun(products, faulty, broken, update, ps).products
      || (ps[k].sku in faulty && ps[k].sku !in products)
  {
    var prefix := ps[..|ps| - 1];
    AxpolRunGrows(products, faulty, broken, update, prefix);
    if k < |ps| - 1 {
      assert prefix[k] == ps[k];
      AxpolRunCovers(products, faulty, broken, update, prefix, k);
    }
  }

  /** Running the same records a second time imports nothing. */
  lemma AxpolRunAgain(products: map<string, Product>, faulty: set<string>, broken: set<string>,
                      update: bool, ps: seq<AxpolProduct>)
    ensures var once := AxpolRun(products, faulty, broken, update, ps).products;
      Tally(AxpolRun(once, faulty, broken, update, ps).outcomes).imported == 0
  {
    var once := AxpolRun(products, faulty, broken, update, ps).products;
    forall k | 0 <= k < |ps|
      ensures ps[k].sku in once || ps[k].sku in faulty
    {
      AxpolRunCovers(products, faulty, broken, update, ps, k);
    }
    AxpolRunNoImports(once, faulty, broken, update, ps, ps);
  }

  lemma {:induction false} AxpolRunNoImports(products: map<string, Product>, faulty: set<string>, broken: set<string>,
                                             update: bool, ps: seq<AxpolProduct>, all: seq<AxpolProduct>)
    requires forall k :: 0 <= k < |ps| ==> ps[k] in all
    requires forall p :: p in all ==> p.sku in products || p.sku in faulty
    ensures Tally(AxpolRun(products, faulty, broken, update, ps).outcomes).imported == 0
  {
    if ps != [] {
      var prefix := ps[..|ps| - 1];
      forall k | 0 <= k < |prefix|
        ensures prefix[k] in all
      {
        assert prefix[k] == ps[k];
      }
      AxpolRunNoImports(products, faulty, broken, update, prefix, all);
      AxpolRunGrows(products, faulty, broken, update, prefix);
      var run := AxpolRun(products, faulty, broken, update, ps);
      assert run.outcomes == AxpolRun(products, faulty, broken, update, prefix).outcomes
        + [AxpolStep(AxpolRun(products, faulty, broken, update, prefix).products, faulty, broken, update, ps[|ps| - 1]).outcome];
      TallySnoc(AxpolRun(products, faulty, broken, update, prefix).outcomes,
                AxpolStep(AxpolRun(products, faulty, broken, update, prefix).products, faulty, broken, update, ps[|ps| - 1]).outcome);
    }
  }

  /**
   * `add_product_categories`: nothing for an empty main category; otherwise
   * main is found (under any parent) or created; a non-empty sub is then
   * found or created under main, and the product gets sub, or main when sub
   * could not be created; nothing when main could not be created. The id
   * is read as a term id (as with an `(int)` cast; `CategoriesRef` hands it
   * on as written).
   */
  datatype Placement = Placement(terms: seq<Term>, assign: Option<nat>)

  function Categories(terms: seq<Term>, refused: set<string>, main: string, sub: string): (r: Placement)
    ensures r.assign.Some? ==> 0 < r.assign.value <= |r.terms|
    ensures Empty(main) ==> r == Placement(terms, None)
    ensures |terms| <= |r.terms| && r.terms[..|terms|] == terms
  {
    if Empty(main) then Placement(terms, None)
    else
      var m := GetOrCreate(terms, refused, main, ProductCat, None, 0);
      if m.id == 0 then Placement(m.terms, None)
      else if Empty(sub) then Placement(m.terms, Some(m.id))
      else
        var s := GetOrCreate(m.terms, refused, sub, ProductCat, Some(m.id), m.id);
        assert s.terms[..|terms|] == m.terms[..|terms|];
        if s.id == 0 then Placement(s.terms, Some(m.id)) else Placement(s.terms, Some(s.id))
  }

  /** A product gets a term exactly when main is not empty and main could be found or created. */
  lemma CategoriesGiven(terms: seq<Term>, refused: set<string>, main: string, sub: string)
    ensures Categories(terms, refused, main, sub).assign.None?
        <==> Empty(main) || GetOrCreate(terms, refused, main, ProductCat, None, 0).id == 0
  {
    if !Empty(main) {
      var m := GetOrCreate(terms, refused, main, ProductCat, None, 0);
      if m.id > 0 && !Empty(sub) {
        var s := GetOrCreate(m.terms, refused, sub, ProductCat, Some(m.id), m.id);
        assert Categories(terms, refused, main, sub).assign == Some(if s.id == 0 then m.id else s.id);
      }
    }
  }

  /**
   * The term a product gets is a product category named main, or named sub
   * and sitting under a term named main.
   */
  lemma {:induction false} CategoriesChoice(terms: seq<Term>, refused: set<string>, main: string, sub: string)
    ensures var r := Categories(terms, refused, main, sub);
      r.assign.Some? ==>
        var t := r.terms[r.assign.value - 1];
        t.taxonomy == ProductCat
        && (t.name == main
            || (Truthy(sub) && t.name == sub && 0 < t.parent <= |r.terms| && r.terms[t.parent - 1].name == main))
  {
    if !Empty(main) {
      var m := GetOrCreate(terms, refused, main, ProductCat, None, 0);
      if m.id > 0 && !Empty(sub) {
        SubChoice(m, refused, main, sub);
      } else {
        assert Categories(terms, refused, main, sub) == Placement(m.terms, if m.id == 0 then None else Some(m.id));
      }
    }
  }

  /** The sub category step of `CategoriesChoice`, after main was found or created as `m`. */
  lemma {:induction false} SubChoice(m: TermResult, refused: set<string>, main: string, sub: string)
    requires 0 < m.id <= |m.terms| && m.terms[m.id - 1].name == main && m.terms[m.id - 1].taxonomy == ProductCat
    ensures var s := GetOrCreate(m.terms, refused, sub, ProductCat, Some(m.id), m.id);
      var id := if s.id == 0 then m.id else s.id;
      var t := s.terms[id - 1];
      t.taxonomy == ProductCat
      && (t.name == main || (t.name == sub && 0 < t.parent <= |s.terms| && s.terms[t.parent - 1].name == main))
  {
    var s := GetOrCreate(m.terms, refused, sub, ProductCat, Some(m.id), m.id);
    assert s.terms[m.id - 1] == m.terms[m.id - 1];
    if s.id > 0 {
      assert s.terms[s.id - 1].parent == m.id;
    }
  }

  /** Placing a product's categories a second time creates no term and assigns the same one. */
  lemma CategoriesAgain(terms: seq<Term>, refused: set<string>, main: string, sub: string)
    ensures var r := Categories(terms, refused, main, sub);
      Categories(r.terms, refused, main, sub) == r
  {
    if Truthy(main) {
      var m := GetOrCreate(terms, refused, main, ProductCat, None, 0);
      if m.id > 0 {
        GetOrCreateAgain(terms, refused, main, ProductCat, None, 0);
        if Truthy(sub) {
          var s := GetOrCreate(m.terms, refused, sub, ProductCat, Some(m.id), m.id);
          GetOrCreateAgain(m.terms, refused, sub, ProductCat, Some(m.id), m.id);
          FindTermExtend(m.terms, s.terms[|m.terms|..], main, ProductCat, None);
          assert m.terms + s.terms[|m.terms|..] == s.terms;
          assert GetOrCreate(s.terms, refused, main, ProductCat, None, 0) == TermResult(s.terms, m.id);
        }
      }
    }
  }

  /** The terms after `add_product_categories`' lookups and the `term_id` it hands on, if any. */
  datatype PlacedRef = PlacedRef(terms: seq<Term>, assign: Option<TermRef>)

  /**
   * `add_product_categories`' lookups as written: the `term_id` handed on is
   * the one `term_exists` or `wp_insert_term` returned, a string of digits for
   * a term that was found and an int for one that was created.
   */
  function CategoriesRef(terms: seq<Term>, refused: set<string>, main: string, sub: string): (r: PlacedRef)
    ensures r.terms == Categories(terms, refused, main, sub).terms
    ensures r.assign.Some? <==> Categories(terms, refused, main, sub).assign.Some?
  {
    if Empty(main) then PlacedRef(terms, None)
    else
      var m := GetOrCreate(terms, refused, main, ProductCat, None, 0);
      if m.id == 0 then PlacedRef(m.terms, None)
      else if Empty(sub) then PlacedRef(m.terms, Some(PassedId(m, terms)))
      else
        var s := GetOrCreate(m.terms, refused, sub, ProductCat, Some(m.id), m.id);
        if s.id == 0 then PlacedRef(s.terms, Some(PassedId(m, terms)))
        else PlacedRef(s.terms, Some(PassedId(s, m.terms)))
  }

  /** `add_product_categories` as written: the terms and the product categories afterwards. */
  function PlaceAsWritten(terms: seq<Term>, refused: set<string>, ot: map<(string, string), seq<nat>>,
                          sku: string, main: string, sub: string): (seq<Term>, map<(string, string), seq<nat>>)
  {
    var c := CategoriesRef(terms, refused, main, sub);
    if c.assign.None? then (c.terms, ot)
    else SetObjectTermsWith(c.terms, refused, ot, sku, ProductCat, [c.assign.value], true)
  }

  /**
   * As written, placing a new product under a main category it creates, and
   * then placing it again, leaves it in that category and in a second one
   * named by the first one's id: the second time the category is found, and
   * its id is handed on as a string.
   */
  lemma {:induction false} AsWrittenPlaceRerun(terms: seq<Term>, refused: set<string>,
                                               ot: map<(string, string), seq<nat>>, sku: string, main: string)
    requires Truthy(main) && FindTerm(terms, main, ProductCat, None) == 0 && !Refused(terms, refused, main, ProductCat, 0)
    requires Decimal(|terms| + 1) != main && Decimal(|terms| + 1) !in refused
    requires FindTerm(terms, Decimal(|terms| + 1), ProductCat, None) == 0
    requires (sku, ProductCat) !in ot
    ensures PlaceAsWritten(terms, refused, ot, sku, main, "")
         == (terms + [Term(main, ProductCat, 0)], ot[(sku, ProductCat) := [|terms| + 1]])
    ensures PlaceAsWritten(terms + [Term(main, ProductCat, 0)], refused, ot[(sku, ProductCat) := [|terms| + 1]],
                           sku, main, "")
         == (terms + [Term(main, ProductCat, 0), Term(Decimal(|terms| + 1), ProductCat, 0)],
             ot[(sku, ProductCat) := [|terms| + 1, |terms| + 2]])
  {
    AsWrittenPlaceNew(terms, refused, ot, sku, main);
    AsWrittenPlaceAgain(terms, refused, ot, sku, main);
  }

  /** As written, a main category no term has yet is created and the product gets it. */
  lemma {:induction false} AsWrittenPlaceNew(terms: seq<Term>, refused: set<string>,
                                             ot: map<(string, string), seq<nat>>, sku: string, main: string)
    requires Truthy(main) && FindTerm(terms, main, ProductCat, None) == 0 && !Refused(terms, refused, main, ProductCat, 0)
    requires (sku, ProductCat) !in ot
    ensures PlaceAsWritten(terms, refused, ot, sku, main, "")
         == (terms + [Term(main, ProductCat, 0)], ot[(sku, ProductCat) := [|terms| + 1]])
  {
    var t1 := terms + [Term(main, ProductCat, 0)];
    assert CategoriesRef(terms, refused, main, "") == PlacedRef(t1, Some(ById(|terms| + 1)));
    assert ResolveTerms(t1, refused, ProductCat, [ById(|terms| + 1)]) == Resolved(t1, [|terms| + 1], false);
    assert AppendTerms([], [|terms| + 1]) == [|terms| + 1];
  }

  /** As written, the placement after the one that created main adds a term named by main's id. */
  lemma {:induction false} AsWrittenPlaceAgain(terms: seq<Term>, refused: set<string>,
                                               ot: map<(string, string), seq<nat>>, sku: string, main: string)
    requires Truthy(main) && FindTerm(terms, main, ProductCat, None) == 0
    requires Decimal(|terms| + 1) != main && Decimal(|terms| + 1) !in refused
    requires FindTerm(terms, Decimal(|terms| + 1), ProductCat, None) == 0
    ensures PlaceAsWritten(terms + [Term(main, ProductCat, 0)], refused, ot[(sku, ProductCat) := [|terms| + 1]],
                           sku, main, "")
         == (terms + [Term(main, ProductCat, 0), Term(Decimal(|terms| + 1), ProductCat, 0)],
             ot[(sku, ProductCat) := [|terms| + 1, |terms| + 2]])
  {
    var k := |terms| + 1;
    var t1 := terms + [Term(main, ProductCat, 0)];
    assert FindTerm(t1, main, ProductCat, None) == k by {
      FindTermSnoc(terms, Term(main, ProductCat, 0), main, ProductCat, None);
    }
    assert FindTerm(t1, Decimal(k), ProductCat, None) == 0 by {
      FindTermSnoc(terms, Term(main, ProductCat, 0), Decimal(k), ProductCat, None);
    }
    assert CategoriesRef(t1, refused, main, "") == PlacedRef(t1, Some(ByName(Decimal(k)))) by {
      assert GetOrCreate(t1, refused, main, ProductCat, None, 0) == TermResult(t1, k);
    }
    ResolveNewName(t1, refused, ProductCat, Decimal(k));
    var ot1 := ot[(sku, ProductCat) := [k]];
    assert Assigned(ot1, sku, ProductCat) == [k];
    assert AppendTerms([k], [k + 1]) == [k, k + 1];
    UpdateTwice(ot, (sku, ProductCat), [k], [k, k + 1]);
    SnocTwice(terms, Term(main, ProductCat, 0), Term(Decimal(k), ProductCat, 0));
  }

  /** What `add_product_categories` leaves behind, from terms t0 and assignments ot0. */
  ghost predicate CategoriesPlaced(site: Site, t0: seq<Term>, ot0: map<(string, string), seq<nat>>,
                                   sku: string, main: string, sub: string)
    reads site
  {
    var r := Categories(t0, site.refusedTerms, main, sub);
    && site.terms == r.terms
    && site.objectTerms == (if r.assign.Some?
         then ot0[(sku, ProductCat) := AppendTerms(Assigned(ot0, sku, ProductCat), [r.assign.value])]
         else ot0)
  }

  /** The images AXPOL fetches: names that are not empty and whose remote path downloads. */
  function FtpImages(names: seq<string>, path: string, reachable: set<string>): (r: seq<string>)
    ensures |r| <= |names|
  {
    if names == [] then []
    else
      var last := names[|names| - 1];
      FtpImages(names[..|names| - 1], path, reachable)
        + (if Truthy(last) && path + last in reachable then [last] else [])
  }

  /**
   * What `import_product_images` leaves behind: with a non-empty list and
   * the session open, every fetched image became a new attachment, the first
   * the featured image and the others the gallery.
   */
  ghost predicate ImagesFetched(site: Site, a0: seq<string>, t0: map<string, nat>, g0: map<string, seq<nat>>,
                                sku: string, names: seq<string>, path: string, session: bool)
    reads site
  {
    var got := if names != [] && session then FtpImages(names, path, site.reachable) else [];
    var ids := Ids(|a0| + 1, |got|);
    && site.attachments == a0 + got
    && site.thumbnails == (if got != [] then t0[sku := ids[0]] else t0)
    && site.galleries == (if |got| > 1 then g0[sku := ids[1..]] else g0)
  }

  /** The AXPOL import. */
  class AxpolImporter {
    const stats: Stats
    /** The local copy `products.xml`. */
    var file: Option<LocalFile>
    /** The option `kc_hurtownie_last_import_hurtownia2`. */
    var lastImport: Option<int>
    const options: Options
    /** `hurtownia2_ftp_images_path`, or its default. */
    const imagesPath: string
    /** Whether the images FTP session opens (connect, login, pwd and chdir all succeed). */
    const imagesSession: bool
    const catalog: Catalog
    const site: Site

    constructor (settings: map<string, string>, file: Option<LocalFile>, lastImport: Option<int>,
                 imagesSession: bool, catalog: Catalog, site: Site)
      ensures fresh(stats) && stats.Valid() && stats.outcomes == [] && stats.total == 0
      ensures this.file == file && this.lastImport == lastImport && this.imagesSession == imagesSession
      ensures this.catalog == catalog && this.site == site && options == OptionsOf(settings)
      ensures imagesPath == FieldOr(Record(settings, map[], map[]), "hurtownia2_ftp_images_path", DefaultImagesPath)
    {
      stats := new Stats();
      this.file := file;
      this.lastImport := lastImport;
      options := OptionsOf(settings);
      imagesPath := if "hurtownia2_ftp_images_path" in settings then settings["hurtownia2_ftp_images_path"]
                    else DefaultImagesPath;
      this.imagesSession := imagesSession;
      this.catalog := catalog;
      this.site := site;
    }

    /** `add_product_categories`, with the id handed on as an int. */
    method AddCategories(sku: string, main: string, sub: string)
      modifies site`terms, site`objectTerms
      ensures CategoriesPlaced(site, old(site.terms), old(site.objectTerms), sku, main, sub)
    {
      if Empty(main) {
        return;
      }
      var mainId := site.EnsureTerm(main, ProductCat, None, 0);
      if mainId == 0 {
        return;
      }
      if Empty(sub) {
        site.SetObjectTerms(sku, ProductCat, [mainId], true);
        return;
      }
      var subId := site.EnsureTerm(sub, ProductCat, Some(mainId), mainId);
      if subId != 0 {
        site.SetObjectTerms(sku, ProductCat, [subId], true);
      } else {
        site.SetObjectTerms(sku, ProductCat, [mainId], true);
      }
    }

    /**
     * `import_product_images`: with the images session open, each non-empty
     * name is fetched from `imagesPath + name`; the ones fetched become new
     * attachments, the first the featured image and the others the gallery.
     */
    method ImportImages(sku: string, names: seq<string>)
      modifies site`attachments, site`thumbnails, site`galleries
      ensures ImagesFetched(site, old(site.attachments), old(site.thumbnails), old(site.galleries),
                            sku, names, imagesPath, imagesSession)
    {
      if names == [] || !imagesSession {
        return;
      }
      var ids := FetchAll(names);
      if ids != [] {
        site.SetImages(sku, ids);
      }
    }

    /** The `foreach ($images as $index => $image_name)` loop. */
    method FetchAll(names: seq<string>) returns (ids: seq<nat>)
      modifies site`attachments
      ensures site.attachments == old(site.attachments) + FtpImages(names, imagesPath, site.reachable)
      ensures ids == Ids(|old(site.attachments)| + 1, |FtpImages(names, imagesPath, site.reachable)|)
    {
      ids := [];
      var i := 0;
      ghost var a0 := site.attachments;
      while i < |names|
        invariant i <= |names|
        invariant site.attachments == a0 + FtpImages(names[..i], imagesPath, site.reachable)
        invariant ids == Ids(|a0| + 1, |FtpImages(names[..i], imagesPath, site.reachable)|)
      {
        assert names[..i + 1][..i] == names[..i];
        ghost var got := FtpImages(names[..i], imagesPath, site.reachable);
        if Truthy(names[i]) && imagesPath + names[i] in site.reachable {
          var id := site.AddAttachment(names[i]);
          assert id == |a0| + 1 + |got|;
          ids := ids + [id];
        }
        i := i + 1;
      }
      assert names[..|names|] == names;
    }

    /** The site after the category and image part of one product, each done only when enabled. */
    ghost predicate PlacedFrom(t0: seq<Term>, ot0: map<(string, string), seq<nat>>, a0: seq<string>,
                               th0: map<string, nat>, g0: map<string, seq<nat>>, p: AxpolProduct)
      reads this, site
    {
      && (if options.importCategories then CategoriesPlaced(site, t0, ot0, p.sku, p.main, p.sub)
          else site.terms == t0 && site.objectTerms == ot0)
      && (if options.importImages then ImagesFetched(site, a0, th0, g0, p.sku, p.images, imagesPath, imagesSession)
          else site.attachments == a0 && site.thumbnails == th0 && site.galleries == g0)
    }

    /** The category and image part of `create_product` and `update_product`. */
    method Place(p: AxpolProduct)
      modifies site`terms, site`objectTerms, site`attachments, site`thumbnails, site`galleries
      ensures PlacedFrom(old(site.terms), old(site.objectTerms), old(site.attachments),
                         old(site.thumbnails), old(site.galleries), p)
    {
      if options.importCategories {
        AddCategories(p.sku, p.main, p.sub);
      }
      if options.importImages {
        ImportImages(p.sku, p.images);
      }
    }

    /** `import_product` with `create_product` and `update_product`; the outcome it counts. */
    method ImportProduct(p: AxpolProduct) returns (o: Outcome)
      modifies catalog`products, site`terms, site`objectTerms, site`attachments, site`thumbnails, site`galleries
      ensures Step(catalog.products, o)
           == AxpolStep(old(catalog.products), catalog.faulty, catalog.broken, options.updateExisting, p)
      ensures o == Imported || o == Updated ==>
        PlacedFrom(old(site.terms), old(site.objectTerms), old(site.attachments), old(site.thumbnails), old(site.galleries), p)
      ensures o != Imported && o != Updated ==>
        (site.terms == old(site.terms) && site.objectTerms == old(site.objectTerms)
         && site.attachments == old(site.attachments) && site.thumbnails == old(site.thumbnails)
         && site.galleries == old(site.galleries))
    {
      if p.sku in catalog.products {
        if !options.updateExisting {
          return Skipped;
        }
        if !catalog.Loadable(p.sku) || p.sku in catalog.faulty {
          return Failed;
        }
        var attrs := BuildAttributes(p.attributes);
        var q := catalog.products[p.sku].(name := p.name, description := p.description,
                                          regularPrice := p.regularPrice, attributes := attrs);
        catalog.products := catalog.products[p.sku := q];
        Place(p);
        o := Updated;
      } else {
        if p.sku in catalog.faulty {
          return Failed;
        }
        var attrs := BuildAttributes(p.attributes);
        var q := Blank.(name := p.name, description := p.description, regularPrice := p.regularPrice,
                        manageStock := true, quantity := Some(DefaultQuantity), stockStatus := InStock,
                        attributes := attrs);
        catalog.products := catalog.products[p.sku := q];
        Place(p);
        o := Imported;
      }
    }

    /**
     * `import()` with the intended parse: the counters are not reset; a fetch
     * that yields nothing fails; otherwise every record is imported in order
     * and the import time stored.
     */
    method Import(now: int, reply: FtpReply) returns (result: RunResult)
      requires stats.Valid()
      modifies this`file, this`lastImport, stats, catalog`products,
               site`terms, site`objectTerms, site`attachments, site`thumbnails, site`galleries
      ensures stats.Valid()
      ensures file == FtpProducts(old(file), now, reply).file
      ensures CorrectedProducts(FtpProducts(old(file), now, reply).data).None? ==>
        && result == Failure(FetchFailed) && lastImport == old(lastImport)
        && stats.outcomes == old(stats.outcomes) && catalog.products == old(catalog.products)
      ensures var ps := CorrectedProducts(FtpProducts(old(file), now, reply).data);
        ps.Some? ==>
          var run := AxpolRun(old(catalog.products), catalog.faulty, catalog.broken, options.updateExisting, ps.value);
          && catalog.products == run.products && stats.outcomes == old(stats.outcomes) + run.outcomes
          && stats.total == |ps.value| && lastImport == Some(now)
          && result == Success(stats.total, stats.Value())
    {
      var f := FtpProducts(file, now, reply);
      file := f.file;
      if f.data.None? || f.data.value == [] {
        return Failure(FetchFailed);
      }
      var ps := ParseRows(f.data.value);
      assert ps == CorrectedProducts(f.data).value;
      stats.total := |ps|;
      ImportEach(ps);
      lastImport := Some(now);
      result := Success(stats.total, stats.Value());
    }

    /**
     * One product imported and its outcome counted, as the next step of a
     * run that has so far logged prev after o0.
     */
    method ImportCounted(p: AxpolProduct, ghost o0: seq<Outcome>, ghost prev: Run) returns (o: Outcome)
      requires stats.Valid() && stats.outcomes == o0 + prev.outcomes && catalog.products == prev.products
      modifies stats`imported, stats`updated, stats`skipped, stats`errors, stats`outcomes, catalog`products,
               site`terms, site`objectTerms, site`attachments, site`thumbnails, site`galleries
      ensures stats.Valid()
      ensures var s := AxpolStep(prev.products, catalog.faulty, catalog.broken, options.updateExisting, p);
        o == s.outcome && catalog.products == s.products && stats.outcomes == o0 + (prev.outcomes + [o])
    {
      o := ImportProduct(p);
      stats.Count(o);
      AppendAssoc(o0, prev.outcomes, o);
    }

    method ImportEach(ps: seq<AxpolProduct>)
      requires stats.Valid()
      modifies stats`imported, stats`updated, stats`skipped, stats`errors, stats`outcomes, catalog`products,
               site`terms, site`objectTerms, site`attachments, site`thumbnails, site`galleries
      ensures stats.Valid()
      ensures var run := AxpolRun(old(catalog.products), catalog.faulty, catalog.broken, options.updateExisting, ps);
        catalog.products == run.products && stats.outcomes == old(stats.outcomes) + run.outcomes
    {
      ghost var p0 := catalog.products;
      ghost var o0 := stats.outcomes;
      var i := 0;
      while i < |ps|
        invariant 0 <= i <= |ps|
        invariant stats.Valid()
        invariant var run := AxpolRun(p0, catalog.faulty, catalog.broken, options.updateExisting, ps[..i]);
          catalog.products == run.products && stats.outcomes == o0 + run.outcomes
      {
        AxpolRunSnoc(p0, catalog.faulty, catalog.broken, options.updateExisting, ps, i);
        ghost var prev := AxpolRun(p0, catalog.faulty, catalog.broken, options.updateExisting, ps[..i]);
        var o := ImportCounted(ps[i], o0, prev);
        i := i + 1;
      }
      assert ps[..|ps|] == ps;
    }
  }
}
