// The Macma importer (settings keys `hurtownia5_*`): four XML documents
// (offer, stocks, categories, prices) from local copies or the web API,
// supplier categories mapped to terms through term meta, first-match joins of
// price and stock by product code, images de-duplicated by file name, mapped
// attributes, and an optional import limit.

module Macma {
  import opened Php
  import opened Records
  import opened Shop
  import opened Cache
  import opened Media
  import opened Attributes

  const ProductsFailed := "Nie można pobrać danych produktów."
  const IdMeta := "_hurtownia5_product_id"
  const CategoryMeta := "_hurtownia5_category_id"
  const Supplier := "hurtownia5"

  /** `isset($x[$key]) && $x[$key] === $value`. */
  predicate Matches(x: Record, key: string, value: string)
  {
    Isset(x, key) && x.fields[key] == value
  }

  /** 1 + the index of the first row whose `key` is `value`, or 0. */
  function MatchIndex(rows: seq<Record>, key: string, value: string): (k: nat)
    ensures k <= |rows|
    ensures k > 0 ==> Matches(rows[k - 1], key, value)
    ensures k > 0 ==> forall j :: 0 <= j < k - 1 ==> !Matches(rows[j], key, value)
    ensures k == 0 <==> forall j :: 0 <= j < |rows| ==> !Matches(rows[j], key, value)
  {
    FirstWhere(rows, (x: Record) => Matches(x, key, value))
  }

  /** A `foreach` over the rows that stops at the first row whose `key` is `value`. */
  method FindMatch(rows: seq<Record>, key: string, value: string) returns (k: nat)
    ensures k == MatchIndex(rows, key, value)
  {
    var i := 0;
    k := 0;
    while i < |rows|
      invariant 0 <= i <= |rows|
      invariant forall j :: 0 <= j < i ==> !Matches(rows[j], key, value)
    {
      if Matches(rows[i], key, value) {
        k := i + 1;
        break;
      }
      i := i + 1;
    }
  }

  /** Row j is the first row whose `key` is `value`. */
  predicate FirstMatch(rows: seq<Record>, key: string, value: string, j: int)
  {
    0 <= j < |rows| && Matches(rows[j], key, value) && forall i :: 0 <= i < j ==> !Matches(rows[i], key, value)
  }

  /** The first match is the one `MatchIndex` finds. */
  lemma FirstMatchFound(rows: seq<Record>, key: string, value: string, j: int)
    requires FirstMatch(rows, key, value, j)
    ensures MatchIndex(rows, key, value) == j + 1
  {
    assert MatchIndex(rows, key, value) != 0;
  }

  /**
   * The join of `import_product`: the `field` of the first row whose `code`
   * is the SKU, "0" when that row lacks the field, and "0" when no row matches.
   */
  function Join(rows: seq<Record>, sku: string, field: string): (v: string)
    ensures (forall j :: 0 <= j < |rows| ==> !Matches(rows[j], "code", sku)) ==> v == "0"
    ensures forall j :: FirstMatch(rows, "code", sku, j) ==> v == FieldOr(rows[j], field, "0")
  {
    var k := MatchIndex(rows, "code", sku);
    forall j | FirstMatch(rows, "code", sku, j)
      ensures j == k - 1
    {
      FirstMatchFound(rows, "code", sku, j);
    }
    if k == 0 then "0" else FieldOr(rows[k - 1], field, "0")
  }

  /**
   * The category name `import_product` looks up: the name of the first
   * category whose id is the product's `category_id`, or "".  The source
   * computes it and never uses it.
   */
  function CategoryName(cats: seq<Record>, r: Record): (name: string)
    ensures !Isset(r, "category_id") ==> name == ""
    ensures Isset(r, "category_id") && (forall j :: 0 <= j < |cats| ==> !Matches(cats[j], "id", r.fields["category_id"]))
            ==> name == ""
    ensures forall j :: Isset(r, "category_id") && FirstMatch(cats, "id", r.fields["category_id"], j)
                        ==> name == Field(cats[j], "name")
  {
    if !Isset(r, "category_id") then ""
    else
      var k := MatchIndex(cats, "id", r.fields["category_id"]);
      forall j | FirstMatch(cats, "id", r.fields["category_id"], j)
        ensures j == k - 1
      {
        FirstMatchFound(cats, "id", r.fields["category_id"], j);
      }
      if k == 0 then "" else Field(cats[k - 1], "name")
  }

  /** The `url` of each image object that has one, in order. */
  function Urls(images: seq<map<string, string>>): (urls: seq<string>)
    ensures |urls| <= |images|
  {
    if images == [] then []
    else
      var last := images[|images| - 1];
      Urls(images[..|images| - 1]) + (if "url" in last then [last["url"]] else [])
  }

  /** A URL is collected exactly when some image object carries it. */
  lemma {:induction false} UrlsExact(images: seq<map<string, string>>, u: string)
    ensures u in Urls(images) <==> exists j :: 0 <= j < |images| && "url" in images[j] && images[j]["url"] == u
  {
    if images != [] {
      var prefix := images[..|images| - 1];
      UrlsExact(prefix, u);
      if exists j :: 0 <= j < |images| && "url" in images[j] && images[j]["url"] == u {
        var j :| 0 <= j < |images| && "url" in images[j] && images[j]["url"] == u;
        if j < |prefix| {
          assert prefix[j] == images[j];
        }
      }
      if u in Urls(prefix) {
        var j :| 0 <= j < |prefix| && "url" in prefix[j] && prefix[j]["url"] == u;
        assert images[j] == prefix[j];
      }
    }
  }

  /** `$product_data['images']` when it is an array of objects, else none. */
  function ImageObjects(r: Record): seq<map<string, string>>
  {
    if "images" in r.objects then r.objects["images"] else []
  }

  /** The values `import_product` prepares for `create_product` / `update_product`. */
  datatype Prepared = Prepared(sku: string, name: string, description: string, price: string, stock: string,
                               categoryId: string, images: seq<string>, attributes: seq<(string, string)>, id: string)

  function Prepare(r: Record, stocks: seq<Record>, prices: seq<Record>): Prepared
    requires Complete(r)
  {
    var sku := r.fields["code"];
    Prepared(sku, r.fields["name"], FieldOr(r, "description", ""), Join(prices, sku, "price"),
             Join(stocks, sku, "quantity"), Field(r, "category_id"), Urls(ImageObjects(r)),
             MapAttributes(Supplier, r, []), r.fields["id"])
  }

  /** `isset($product_data['id']) && isset($product_data['name']) && isset($product_data['code'])`. */
  predicate Complete(r: Record)
  {
    Isset(r, "id") && Isset(r, "name") && Isset(r, "code")
  }

  /** The product `create_product` saves: price, managed stock (in stock when positive) and the supplier id. */
  function NewProduct(p: Prepared): (q: Product)
    ensures q.manageStock && q.quantity == Some(IntVal(p.stock)) && (q.stockStatus == InStock <==> IntVal(p.stock) > 0)
    ensures q.regularPrice == p.price && q.shortDescription == "" && q.meta == map[IdMeta := p.id]
  {
    WithStock(Blank.(name := p.name, description := p.description, regularPrice := p.price,
                     meta := map[IdMeta := p.id]), p.stock)
  }

  /** The product `update_product` saves: the same fields on the loaded product, other meta kept. */
  function RevisedProduct(old_: Product, p: Prepared): (q: Product)
    ensures q.manageStock && q.quantity == Some(IntVal(p.stock)) && (q.stockStatus == InStock <==> IntVal(p.stock) > 0)
    ensures q.regularPrice == p.price && q.shortDescription == old_.shortDescription
    ensures q.meta == old_.meta[IdMeta := p.id] && q.attributes == old_.attributes
  {
    WithStock(old_.(name := p.name, description := p.description, regularPrice := p.price,
                    meta := old_.meta[IdMeta := p.id]), p.stock)
  }

  /**
   * `import_product`: an incomplete record is an error; an existing SKU is
   * skipped when updating is off; otherwise it is updated and counted as
   * updated, and when `wc_get_product` cannot load it the error counter moves
   * as well; a new SKU is created and counted as imported.
   */
  function MacmaStep(products: map<string, Product>, broken: set<string>, update: bool, r: Record,
                     stocks: seq<Record>, prices: seq<Record>): (s: Step)
    ensures s.outcome == Failed <==> !Complete(r)
    ensures s.outcome == Skipped <==> Complete(r) && r.fields["code"] in products && !update
    ensures s.outcome == FailedAndUpdated <==> Complete(r) && r.fields["code"] in products && update
                                               && r.fields["code"] in broken
    ensures s.outcome == Imported <==> Complete(r) && r.fields["code"] !in products
    ensures s.outcome != Imported && s.outcome != Updated ==> s.products == products
  {
    if !Complete(r) then Step(products, Failed)
    else
      var p := Prepare(r, stocks, prices);
      if p.sku in products then
        if !update then Step(products, Skipped)
        else if p.sku in broken then Step(products, FailedAndUpdated)
        else Step(products[p.sku := RevisedProduct(products[p.sku], p)], Updated)
      else Step(products[p.sku := NewProduct(p)], Imported)
  }

  function MacmaRun(products: map<string, Product>, broken: set<string>, update: bool, rs: seq<Record>,
                    stocks: seq<Record>, prices: seq<Record>): (run: Run)
    ensures |run.outcomes| == |rs|
  {
    if rs == [] then Run(products, [])
    else
      var prev := MacmaRun(products, broken, update, rs[..|rs| - 1], stocks, prices);
      var s := MacmaStep(prev.products, broken, update, rs[|rs| - 1], stocks, prices);
      Run(s.products, prev.outcomes + [s.outcome])
  }

  /** A run over one more record is the run over the earlier ones followed by that record's step. */
  lemma MacmaRunSnoc(products: map<string, Product>, broken: set<string>, update: bool, rs: seq<Record>, i: nat,
                     stocks: seq<Record>, prices: seq<Record>)
    requires i < |rs|
    ensures var prev := MacmaRun(products, broken, update, rs[..i], stocks, prices);
      var s := MacmaStep(prev.products, broken, update, rs[i], stocks, prices);
      MacmaRun(products, broken, update, rs[..i + 1], stocks, prices) == Run(s.products, prev.outcomes + [s.outcome])
  {
    assert rs[..i + 1][..i] == rs[..i];
  }

  /** Why a record is counted twice: updating is on and its existing product cannot be loaded. */
  predicate DoubleCause(update: bool, broken: set<string>, r: Record)
  {
    update && Complete(r) && r.fields["code"] in broken
  }

  /** The i-th outcome of a run is the step of the i-th record on the products the earlier records left. */
  lemma {:induction false} MacmaRunEach(products: map<string, Product>, broken: set<string>, update: bool,
                                        rs: seq<Record>, stocks: seq<Record>, prices: seq<Record>, i: nat)
    requires i < |rs|
    ensures MacmaRun(products, broken, update, rs, stocks, prices).outcomes[i]
         == MacmaStep(MacmaRun(products, broken, update, rs[..i], stocks, prices).products, broken, update, rs[i], stocks, prices).outcome
  {
    MacmaRunPrefix(products, broken, update, rs, stocks, prices, i + 1);
    MacmaRunSnoc(products, broken, update, rs, i, stocks, prices);
    var b := MacmaRun(products, broken, update, rs[..i + 1], stocks, prices).outcomes;
    var w := MacmaRun(products, broken, update, rs, stocks, prices).outcomes;
    assert w[i] == w[..i + 1][i] == b[i];
  }

  /** The outcomes of a run over a prefix of the records are the first outcomes of the whole run. */
  lemma {:induction false} MacmaRunPrefix(products: map<string, Product>, broken: set<string>, update: bool,
                                          rs: seq<Record>, stocks: seq<Record>, prices: seq<Record>, k: nat)
    requires k <= |rs|
    ensures MacmaRun(products, broken, update, rs[..k], stocks, prices).outcomes
         == MacmaRun(products, broken, update, rs, stocks, prices).outcomes[..k]
    decreases |rs| - k
  {
    if k == |rs| {
      assert rs[..k] == rs;
    } else {
      MacmaRunPrefix(products, broken, update, rs, stocks, prices, k + 1);
      MacmaRunSnoc(products, broken, update, rs, k, stocks, prices);
      var a := MacmaRun(products, broken, update, rs[..k], stocks, prices).outcomes;
      var b := MacmaRun(products, broken, update, rs[..k + 1], stocks, prices).outcomes;
      var w := MacmaRun(products, broken, update, rs, stocks, prices).outcomes;
      assert b[..k] == a;
      assert b[..k] == w[..k + 1][..k] == w[..k];
    }
  }

  lemma MacmaRunDouble(products: map<string, Product>, broken: set<string>, update: bool,
                       rs: seq<Record>, stocks: seq<Record>, prices: seq<Record>)
    ensures forall i :: 0 <= i < |rs| ==>
      (MacmaRun(products, broken, update, rs, stocks, prices).outcomes[i] == FailedAndUpdated ==> DoubleCause(update, broken, rs[i]))
  {
    forall i | 0 <= i < |rs|
      ensures MacmaRun(products, broken, update, rs, stocks, prices).outcomes[i] == FailedAndUpdated ==> DoubleCause(update, broken, rs[i])
    {
      MacmaRunEach(products, broken, update, rs, stocks, prices, i);
    }
  }


  /**
   * The counters of a run add up to the records processed plus the records
   * counted twice; with updating off nothing is counted twice.
   */
  lemma MacmaRunCounts(products: map<string, Product>, broken: set<string>, update: bool,
                       rs: seq<Record>, stocks: seq<Record>, prices: seq<Record>)
    ensures var os := MacmaRun(products, broken, update, rs, stocks, prices).outcomes;
      Sum(Tally(os)) == |rs| + DoubleCounted(os)
    ensures !update ==> Sum(Tally(MacmaRun(products, broken, update, rs, stocks, prices).outcomes)) == |rs|
  {
    var os := MacmaRun(products, broken, update, rs, stocks, prices).outcomes;
    TallySum(os);
    if !update {
      MacmaRunDouble(products, broken, update, rs, stocks, prices);
      forall i | 0 <= i < |os|
        ensures os[i] != FailedAndUpdated
      {
        assert !DoubleCause(update, broken, rs[i]);
      }
      TallySumSingle(os);
    }
  }

  lemma {:induction false} MacmaRunGrows(products: map<string, Product>, broken: set<string>, update: bool,
                                         rs: seq<Record>, stocks: seq<Record>, prices: seq<Record>)
    ensures products.Keys <= MacmaRun(products, broken, update, rs, stocks, prices).products.Keys
  {
    if rs != [] {
      MacmaRunGrows(products, broken, update, rs[..|rs| - 1], stocks, prices);
    }
  }

  lemma {:induction false} MacmaRunCovers(products: map<string, Product>, broken: set<string>, update: bool,
                                          rs: seq<Record>, stocks: seq<Record>, prices: seq<Record>, k: nat)
    requires k < |rs| && Complete(rs[k])
    ensures rs[k].fields["code"] in MacmaRun(products, broken, update, rs, stocks, prices).products
  {
    var prefix := rs[..|rs| - 1];
    MacmaRunGrows(products, broken, update, prefix, stocks, prices);
    if k < |rs| - 1 {
      assert prefix[k] == rs[k];
      MacmaRunCovers(products, broken, update, prefix, stocks, prices, k);
    }
  }

  /** Running the same records a second time imports nothing. */
  lemma MacmaRunAgain(products: map<string, Product>, broken: set<string>, update: bool,
                      rs: seq<Record>, stocks: seq<Record>, prices: seq<Record>)
    ensures var once := MacmaRun(products, broken, update, rs, stocks, prices).products;
      Tally(MacmaRun(once, broken, update, rs, stocks, prices).outcomes).imported == 0
  {
    var once := MacmaRun(products, broken, update, rs, stocks, prices).products;
    forall k | 0 <= k < |rs| && Complete(rs[k])
      ensures rs[k].fields["code"] in once
    {
      MacmaRunCovers(products, broken, update, rs, stocks, prices, k);
    }
    MacmaRunNoImports(once, broken, update, rs, rs, stocks, prices);
  }

  lemma {:induction false} MacmaRunNoImports(products: map<string, Product>, broken: set<string>, update: bool,
                                             rs: seq<Record>, all: seq<Record>, stocks: seq<Record>, prices: seq<Record>)
    requires forall k :: 0 <= k < |rs| ==> rs[k] in all
    requires forall r :: r in all && Complete(r) ==> r.fields["code"] in products
    ensures Tally(MacmaRun(products, broken, update, rs, stocks, prices).outcomes).imported == 0
  {
    if rs != [] {
      var prefix := rs[..|rs| - 1];
      forall k | 0 <= k < |prefix|
        ensures prefix[k] in all
      {
        assert prefix[k] == rs[k];
      }
      MacmaRunNoImports(products, broken, update, prefix, all, stocks, prices);
      MacmaRunGrows(products, broken, update, prefix, stocks, prices);
      var prev := MacmaRun(products, broken, update, prefix, stocks, prices);
      TallySnoc(prev.outcomes, MacmaStep(prev.products, broken, update, rs[|rs| - 1], stocks, prices).outcome);
    }
  }

  /** The terms and the term meta rows that map supplier categories to terms. */
  datatype CatState = CatState(terms: seq<Term>, meta: seq<TermMeta>)

  /** The state after `import_category` and the term id it returns (0: none). */
  datatype CatResult = CatResult(state: CatState, id: nat)

  /**
   * `import_category($category_id, $name, $parent_id)`: a category already
   * mapped returns its term.  Otherwise a parent id that is set is looked up
   * in the mapping and, when unmapped, the first category of the list with
   * that id is imported first (its name and parent as the list has them);
   * then the term is inserted under the parent's term (or at the top) and
   * mapped.  A refused insert returns 0.  `fuel` bounds the depth of parents
   * imported on the way.
   */
  function ImportCategory(s: CatState, refused: set<string>, cats: seq<Record>,
                          id: string, name: string, parent: string, fuel: nat): (r: CatResult)
    ensures |s.terms| <= |r.state.terms| && r.state.terms[..|s.terms|] == s.terms
    ensures MetaWithin(s) ==> r.id <= |r.state.terms|
    decreases fuel, 1
  {
    var known := TermByMeta(s.meta, CategoryMeta, id);
    if known > 0 then CatResult(s, known)
    else
      var p := ParentOf(s, refused, cats, parent, fuel);
      var ts := p.state.terms;
      assert ts[..|s.terms|] == s.terms;
      if Refused(ts, refused, name, ProductCat, p.id) then CatResult(p.state, 0)
      else
        assert (ts + [Term(name, ProductCat, p.id)])[..|s.terms|] == ts[..|s.terms|];
        CatResult(CatState(ts + [Term(name, ProductCat, p.id)], PutTermMeta(p.state.meta, |ts| + 1, CategoryMeta, id)),
                  |ts| + 1)
  }

  /**
   * The parent term `import_category` inserts under: none (0) for an unset
   * parent id; the mapped term of a known parent; otherwise the term of the
   * first listed category with that id, imported on the spot; 0 when the
   * list has no such category.
   */
  function ParentOf(s: CatState, refused: set<string>, cats: seq<Record>, parent: string, fuel: nat): (p: CatResult)
    ensures |s.terms| <= |p.state.terms| && p.state.terms[..|s.terms|] == s.terms
    ensures MetaWithin(s) ==> p.id <= |p.state.terms|
    decreases fuel, 0
  {
    if !Truthy(parent) then CatResult(s, 0)
    else if TermByMeta(s.meta, CategoryMeta, parent) > 0 then
      CatResult(s, TermByMeta(s.meta, CategoryMeta, parent))
    else
      var k := MatchIndex(cats, "id", parent);
      if k == 0 || fuel == 0 then CatResult(s, 0)
      else ImportCategory(s, refused, cats, parent, Field(cats[k - 1], "name"),
                          FieldOr(cats[k - 1], "parent_id", "0"), fuel - 1)
  }

  /** Every meta row names an existing term. */
  predicate MetaWithin(s: CatState)
  {
    forall j :: 0 <= j < |s.meta| ==> 0 < s.meta[j].termId <= |s.terms|
  }

  /**
   * Importing a category keeps every meta row naming an existing term and
   * loses no meta row: new rows belong to new terms.
   */
  lemma {:induction false} ImportCategoryKeeps(s: CatState, refused: set<string>, cats: seq<Record>,
                                               id: string, name: string, parent: string, fuel: nat)
    requires MetaWithin(s)
    ensures MetaWithin(ImportCategory(s, refused, cats, id, name, parent, fuel).state)
    ensures forall m :: m in s.meta ==> m in ImportCategory(s, refused, cats, id, name, parent, fuel).state.meta
    decreases fuel, 1
  {
    if TermByMeta(s.meta, CategoryMeta, id) == 0 {
      ParentOfKeeps(s, refused, cats, parent, fuel);
      var p := ParentOf(s, refused, cats, parent, fuel);
      if !Refused(p.state.terms, refused, name, ProductCat, p.id) {
        InsertKeeps(p.state, Term(name, ProductCat, p.id), id);
      }
    }
  }

  /** Finding or importing the parent keeps every meta row naming an existing term and loses no meta row. */
  lemma {:induction false} ParentOfKeeps(s: CatState, refused: set<string>, cats: seq<Record>, parent: string, fuel: nat)
    requires MetaWithin(s)
    ensures MetaWithin(ParentOf(s, refused, cats, parent, fuel).state)
    ensures forall m :: m in s.meta ==> m in ParentOf(s, refused, cats, parent, fuel).state.meta
    decreases fuel, 0
  {
    var p := ParentOf(s, refused, cats, parent, fuel);
    if Truthy(parent) && TermByMeta(s.meta, CategoryMeta, parent) == 0 {
      var k := MatchIndex(cats, "id", parent);
      if k > 0 && fuel > 0 {
        var name, grand := Field(cats[k - 1], "name"), FieldOr(cats[k - 1], "parent_id", "0");
        assert p == ImportCategory(s, refused, cats, parent, name, grand, fuel - 1);
        ImportCategoryKeeps(s, refused, cats, parent, name, grand, fuel - 1);
      } else {
        assert p.state == s;
      }
    } else {
      assert p.state == s;
    }
  }

  /** Inserting a term and mapping a category to it keeps every earlier row and every row in range. */
  lemma InsertKeeps(s: CatState, t: Term, id: string)
    requires MetaWithin(s)
    ensures var n := CatState(s.terms + [t], PutTermMeta(s.meta, |s.terms| + 1, CategoryMeta, id));
      MetaWithin(n) && forall m :: m in s.meta ==> m in n.meta
  {
    var n := CatState(s.terms + [t], PutTermMeta(s.meta, |s.terms| + 1, CategoryMeta, id));
    forall j | 0 <= j < |n.meta|
      ensures 0 < n.meta[j].termId <= |n.terms|
    {
      var m := n.meta[j];
      if !(m.termId == |s.terms| + 1 && m.key == CategoryMeta) {
        assert m in s.meta;
      }
    }
    forall m | m in s.meta
      ensures m in n.meta
    {
      var j :| 0 <= j < |s.meta| && s.meta[j] == m;
      assert m.termId <= |s.terms|;
    }
  }

  /**
   * After `import_category` returns a term, the category is mapped to it:
   * its meta row is there.
   */
  lemma ImportCategoryMaps(s: CatState, refused: set<string>, cats: seq<Record>,
                           id: string, name: string, parent: string, fuel: nat)
    ensures var r := ImportCategory(s, refused, cats, id, name, parent, fuel);
      r.id > 0 ==> TermMeta(r.id, CategoryMeta, id) in r.state.meta
  {
  }

  /** A row that maps `value` to an existing term makes the lookup succeed. */
  lemma MappedFound(rows: seq<TermMeta>, key: string, value: string, t: nat)
    requires TermMeta(t, key, value) in rows
    requires forall j :: 0 <= j < |rows| ==> rows[j].termId > 0
    ensures TermByMeta(rows, key, value) > 0
  {
    var k := FirstWhere(rows, (m: TermMeta) => m.key == key && m.value == value);
    assert k > 0;
  }

  /**
   * The parent is imported before the child: a newly inserted category term
   * is named as asked, and sits at the top when no parent id is set, or under
   * an earlier term to which the parent id is mapped (the parent's existing
   * term when it was already mapped).
   */
  lemma {:induction false} ImportCategoryParentFirst(s: CatState, refused: set<string>, cats: seq<Record>,
                                                     id: string, name: string, parent: string, fuel: nat)
    requires MetaWithin(s)
    ensures var r := ImportCategory(s, refused, cats, id, name, parent, fuel);
      r.id > 0 && TermByMeta(s.meta, CategoryMeta, id) == 0 ==>
        var t := r.state.terms[r.id - 1];
        && t.name == name && t.taxonomy == ProductCat && t.parent < r.id
        && (!Truthy(parent) ==> t.parent == 0)
        && (Truthy(parent) && TermByMeta(s.meta, CategoryMeta, parent) > 0 ==>
              t.parent == TermByMeta(s.meta, CategoryMeta, parent))
        && (t.parent > 0 ==> TermMeta(t.parent, CategoryMeta, parent) in r.state.meta)
  {
    var r := ImportCategory(s, refused, cats, id, name, parent, fuel);
    if r.id > 0 && TermByMeta(s.meta, CategoryMeta, id) == 0 {
      var p := ParentOf(s, refused, cats, parent, fuel);
      ParentOfKeeps(s, refused, cats, parent, fuel);
      ParentOfMapped(s, refused, cats, parent, fuel);
      InsertKeeps(p.state, Term(name, ProductCat, p.id), id);
    }
  }

  /**
   * The parent term is 0 for an unset parent id, the mapped term of a mapped
   * parent, and otherwise a term to which the parent id is mapped afterwards.
   */
  lemma ParentOfMapped(s: CatState, refused: set<string>, cats: seq<Record>, parent: string, fuel: nat)
    requires MetaWithin(s)
    ensures var p := ParentOf(s, refused, cats, parent, fuel);
      && (!Truthy(parent) ==> p.id == 0)
      && (Truthy(parent) && TermByMeta(s.meta, CategoryMeta, parent) > 0 ==> p.id == TermByMeta(s.meta, CategoryMeta, parent))
      && (p.id > 0 ==> TermMeta(p.id, CategoryMeta, parent) in p.state.meta)
  {
    var p := ParentOf(s, refused, cats, parent, fuel);
    if !Truthy(parent) {
      assert p.id == 0;
    } else if TermByMeta(s.meta, CategoryMeta, parent) > 0 {
      assert p == CatResult(s, TermByMeta(s.meta, CategoryMeta, parent));
    } else {
      var k := MatchIndex(cats, "id", parent);
      if k > 0 && fuel > 0 {
        var name, grand := Field(cats[k - 1], "name"), FieldOr(cats[k - 1], "parent_id", "0");
        assert p == ImportCategory(s, refused, cats, parent, name, grand, fuel - 1);
        ImportCategoryMaps(s, refused, cats, parent, name, grand, fuel - 1);
      } else {
        assert p.id == 0;
      }
    }
  }

  /**
   * A category that was imported once is found through its mapping on every
   * later import: nothing is inserted a second time.
   */
  lemma ImportCategoryAgain(s: CatState, refused: set<string>, cats: seq<Record>,
                            id: string, name: string, parent: string, fuel: nat,
                            name': string, parent': string, fuel': nat)
    requires MetaWithin(s)
    ensures var r := ImportCategory(s, refused, cats, id, name, parent, fuel);
      r.id > 0 ==> ImportCategory(r.state, refused, cats, id, name', parent', fuel').state == r.state
  {
    var r := ImportCategory(s, refused, cats, id, name, parent, fuel);
    if r.id > 0 {
      ImportCategoryMaps(s, refused, cats, id, name, parent, fuel);
      ImportCategoryKeeps(s, refused, cats, id, name, parent, fuel);
      MappedFound(r.state.meta, CategoryMeta, id, r.id);
    }
  }

  /** `import_categories`: every listed category that has an id and a name is imported in turn. */
  function ImportCategoryList(s: CatState, refused: set<string>, cats: seq<Record>, list: seq<Record>,
                              fuel: nat): (r: CatState)
    ensures |s.terms| <= |r.terms| && r.terms[..|s.terms|] == s.terms
  {
    if list == [] then s
    else
      var prev := ImportCategoryList(s, refused, cats, list[..|list| - 1], fuel);
      var c := list[|list| - 1];
      if Isset(c, "id") && Isset(c, "name") then
        var r := ImportCategory(prev, refused, cats, c.fields["id"], c.fields["name"], FieldOr(c, "parent_id", "0"), fuel).state;
        assert r.terms[..|s.terms|] == r.terms[..|prev.terms|][..|s.terms|];
        r
      else prev
  }

  /** The list with one more category is the shorter list followed by that category's import, when it has an id and a name. */
  lemma ImportCategoryListSnoc(s: CatState, refused: set<string>, cats: seq<Record>, list: seq<Record>, i: nat, fuel: nat)
    requires i < |list|
    ensures var prev := ImportCategoryList(s, refused, cats, list[..i], fuel);
      var c := list[i];
      ImportCategoryList(s, refused, cats, list[..i + 1], fuel)
        == if Isset(c, "id") && Isset(c, "name")
           then ImportCategory(prev, refused, cats, c.fields["id"], c.fields["name"], FieldOr(c, "parent_id", "0"), fuel).state
           else prev
  {
    assert list[..i + 1][..i] == list[..i];
  }

  /** Importing a list of categories loses no mapping and keeps every mapping pointing at a term. */
  lemma {:induction false} ImportCategoryListKeeps(s: CatState, refused: set<string>, cats: seq<Record>,
                                                   list: seq<Record>, fuel: nat)
    requires MetaWithin(s)
    ensures MetaWithin(ImportCategoryList(s, refused, cats, list, fuel))
    ensures forall m :: m in s.meta ==> m in ImportCategoryList(s, refused, cats, list, fuel).meta
  {
    if list != [] {
      var prev := ImportCategoryList(s, refused, cats, list[..|list| - 1], fuel);
      ImportCategoryListKeeps(s, refused, cats, list[..|list| - 1], fuel);
      var c := list[|list| - 1];
      if Isset(c, "id") && Isset(c, "name") {
        ImportCategoryKeeps(prev, refused, cats, c.fields["id"], c.fields["name"], FieldOr(c, "parent_id", "0"), fuel);
      }
    }
  }

  /**
   * After `import_categories` every listed category with an id and a name is
   * mapped to a term, unless its own insert was refused.
   */
  lemma {:induction false} ImportCategoryListMaps(s: CatState, refused: set<string>, cats: seq<Record>,
                                                  list: seq<Record>, fuel: nat, k: nat)
    requires MetaWithin(s) && k < |list| && Isset(list[k], "id") && Isset(list[k], "name")
    ensures var before := ImportCategoryList(s, refused, cats, list[..k], fuel);
      var c := list[k];
      ImportCategory(before, refused, cats, c.fields["id"], c.fields["name"], FieldOr(c, "parent_id", "0"), fuel).id > 0 ==>
        TermByMeta(ImportCategoryList(s, refused, cats, list, fuel).meta, CategoryMeta, c.fields["id"]) > 0
  {
    var before := ImportCategoryList(s, refused, cats, list[..k], fuel);
    var c := list[k];
    var r := ImportCategory(before, refused, cats, c.fields["id"], c.fields["name"], FieldOr(c, "parent_id", "0"), fuel);
    if r.id > 0 {
      ImportCategoryListKeeps(s, refused, cats, list[..k], fuel);
      ImportCategoryMaps(before, refused, cats, c.fields["id"], c.fields["name"], FieldOr(c, "parent_id", "0"), fuel);
      assert list[..k + 1][..k] == list[..k];
      assert ImportCategoryList(s, refused, cats, list[..k + 1], fuel) == r.state;
      ImportCategoryKeeps(before, refused, cats, c.fields["id"], c.fields["name"], FieldOr(c, "parent_id", "0"), fuel);
      ImportCategoryListSuffix(r.state, s, refused, cats, list, k + 1, fuel);
      var final := ImportCategoryList(s, refused, cats, list, fuel);
      MappedFound(final.meta, CategoryMeta, c.fields["id"], r.id);
    }
  }

  /** Continuing the list from a prefix keeps the prefix's mappings. */
  lemma {:induction false} ImportCategoryListSuffix(mid: CatState, s: CatState, refused: set<string>, cats: seq<Record>,
                                                    list: seq<Record>, k: nat, fuel: nat)
    requires k <= |list| && mid == ImportCategoryList(s, refused, cats, list[..k], fuel) && MetaWithin(mid)
    ensures MetaWithin(ImportCategoryList(s, refused, cats, list, fuel))
    ensures forall m :: m in mid.meta ==> m in ImportCategoryList(s, refused, cats, list, fuel).meta
    decreases |list| - k
  {
    if k == |list| {
      assert list[..k] == list;
    } else {
      var c := list[k];
      assert list[..k + 1][..k] == list[..k];
      var next := ImportCategoryList(s, refused, cats, list[..k + 1], fuel);
      if Isset(c, "id") && Isset(c, "name") {
        ImportCategoryKeeps(mid, refused, cats, c.fields["id"], c.fields["name"], FieldOr(c, "parent_id", "0"), fuel);
      }
      ImportCategoryListSuffix(next, s, refused, cats, list, k + 1, fuel);
    }
  }

  /** The product's category after `create_product` / `update_product`: the mapped term of a set category id, replacing any other. */
  function CategorySet(ot: map<(string, string), seq<nat>>, meta: seq<TermMeta>, sku: string, categoryId: string)
    : map<(string, string), seq<nat>>
  {
    if Truthy(categoryId) && TermByMeta(meta, CategoryMeta, categoryId) > 0
    then ot[(sku, ProductCat) := [TermByMeta(meta, CategoryMeta, categoryId)]]
    else ot
  }

  /** The default mapping has one entry per attribute slug. */
  lemma DefaultMappingDistinct()
    ensures DistinctKeys(DefaultMapping)
  {
  }

  /** The Macma import. */
  class MacmaImporter {
    const stats: Stats
    /** The local copies `offer.xml`, `stocks.xml`, `categories.xml` and `prices.xml`. */
    var offer: Option<Blob>
    var stocksFile: Option<Blob>
    var categoriesFile: Option<Blob>
    var pricesFile: Option<Blob>
    const options: Options
    const catalog: Catalog
    const site: Site

    constructor (settings: map<string, string>, offer: Option<Blob>, stocksFile: Option<Blob>,
                 categoriesFile: Option<Blob>, pricesFile: Option<Blob>, catalog: Catalog, site: Site)
      ensures fresh(stats) && stats.Valid() && stats.outcomes == [] && stats.total == 0
      ensures this.offer == offer && this.stocksFile == stocksFile
      ensures this.categoriesFile == categoriesFile && this.pricesFile == pricesFile
      ensures this.catalog == catalog && this.site == site && options == OptionsOf(settings)
    {
      stats := new Stats();
      this.offer, this.stocksFile, this.categoriesFile, this.pricesFile := offer, stocksFile, categoriesFile, pricesFile;
      options := OptionsOf(settings);
      this.catalog := catalog;
      this.site := site;
    }

    /** `import_category` on the site's terms and term meta. */
    method ImportCategoryInto(cats: seq<Record>, id: string, name: string, parent: string, fuel: nat) returns (t: nat)
      modifies site`terms, site`termMeta
      ensures CatResult(CatState(site.terms, site.termMeta), t)
           == ImportCategory(CatState(old(site.terms), old(site.termMeta)), site.refusedTerms, cats, id, name, parent, fuel)
      decreases fuel, 1
    {
      t := TermByMeta(site.termMeta, CategoryMeta, id);
      if t > 0 {
        return;
      }
      var p := ParentInto(cats, parent, fuel);
      t := site.InsertTerm(name, ProductCat, p);
      if t > 0 {
        site.SetTermMeta(t, CategoryMeta, id);
      }
    }

    /** The parent part of `import_category`: the parent's term, importing the parent first when it is unmapped. */
    method ParentInto(cats: seq<Record>, parent: string, fuel: nat) returns (p: nat)
      modifies site`terms, site`termMeta
      ensures CatResult(CatState(site.terms, site.termMeta), p)
           == ParentOf(CatState(old(site.terms), old(site.termMeta)), site.refusedTerms, cats, parent, fuel)
      decreases fuel, 0
    {
      p := 0;
      if Truthy(parent) {
        p := TermByMeta(site.termMeta, CategoryMeta, parent);
        if p == 0 {
          var k := FindMatch(cats, "id", parent);
          if k > 0 && fuel > 0 {
            p := ImportCategoryInto(cats, parent, Field(cats[k - 1], "name"), FieldOr(cats[k - 1], "parent_id", "0"), fuel - 1);
          }
        }
      }
    }

    /** `import_categories`. */
    method ImportCategories(cats: seq<Record>, fuel: nat)
      modifies site`terms, site`termMeta
      ensures CatState(site.terms, site.termMeta)
           == ImportCategoryList(CatState(old(site.terms), old(site.termMeta)), site.refusedTerms, cats, cats, fuel)
    {
      ghost var s0 := CatState(site.terms, site.termMeta);
      var i := 0;
      while i < |cats|
        invariant 0 <= i <= |cats|
        invariant CatState(site.terms, site.termMeta) == ImportCategoryList(s0, site.refusedTerms, cats, cats[..i], fuel)
      {
        ImportListed(cats, i, fuel, s0);
        i := i + 1;
      }
      assert cats[..|cats|] == cats;
    }

    /** One turn of the `foreach` of `import_categories`: the i-th category is imported when it has an id and a name. */
    method ImportListed(cats: seq<Record>, i: nat, fuel: nat, ghost s0: CatState)
      requires i < |cats|
      requires CatState(site.terms, site.termMeta) == ImportCategoryList(s0, site.refusedTerms, cats, cats[..i], fuel)
      modifies site`terms, site`termMeta
      ensures CatState(site.terms, site.termMeta) == ImportCategoryList(s0, site.refusedTerms, cats, cats[..i + 1], fuel)
    {
      ImportCategoryListSnoc(s0, site.refusedTerms, cats, cats, i, fuel);
      var c := cats[i];
      if Isset(c, "id") && Isset(c, "name") {
        var _ := ImportCategoryInto(cats, c.fields["id"], c.fields["name"], FieldOr(c, "parent_id", "0"), fuel);
      }
    }

    /** The product's categories ot after placing it: only the product-category assignment of its SKU can change. */
    ghost predicate CategoryPlaced(ot: map<(string, string), seq<nat>>, meta: seq<TermMeta>,
                                   ot0: map<(string, string), seq<nat>>, p: Prepared)
    {
      forall s :: Assigned(ot, s, ProductCat) == Assigned(CategorySet(ot0, meta, p.sku, p.categoryId), s, ProductCat)
    }

    /** The product's images after placing it, imported only when there are some and images are enabled. */
    ghost predicate ImagesPlaced(a: seq<string>, th: map<string, nat>, g: map<string, seq<nat>>,
                                 a0: seq<string>, th0: map<string, nat>, g0: map<string, seq<nat>>, p: Prepared)
    {
      if p.images != [] && options.importImages then ImagesFrom(a, th, g, a0, th0, g0, p.sku, p.images, site.reachable)
      else a == a0 && th == th0 && g == g0
    }

    /**
     * The product's attribute meta am and terms te after placing it, the meta
     * written only when there are mapped attributes and the product loads.
     */
    ghost predicate AttributesPlaced(te: seq<Term>, am: map<string, seq<AttributeMeta>>, taxonomies: set<string>,
                                     loadable: bool, te0: seq<Term>, am0: map<string, seq<AttributeMeta>>, p: Prepared)
    {
      if p.attributes != [] && loadable
      then am == am0[p.sku := AttributeRows(p.attributes, taxonomies, te0, site.refusedTerms, 0)]
      else am == am0 && te == te0
    }

    /**
     * What placing a product does to the site, from terms te0, assignments
     * ot0, attachments a0, featured images th0, galleries g0 and attribute
     * meta am0: the mapped category replaces the product's categories; the
     * images are imported when enabled; the mapped attributes are attached.
     */
    ghost predicate PlacedOn(te0: seq<Term>, ot0: map<(string, string), seq<nat>>, a0: seq<string>,
                             th0: map<string, nat>, g0: map<string, seq<nat>>,
                             am0: map<string, seq<AttributeMeta>>, p: Prepared)
      reads site`objectTerms, site`termMeta, site`attachments, site`thumbnails, site`galleries,
            site`attributeMeta, site`taxonomies, site`terms, catalog`products
    {
      && CategoryPlaced(site.objectTerms, site.termMeta, ot0, p)
      && ImagesPlaced(site.attachments, site.thumbnails, site.galleries, a0, th0, g0, p)
      && AttributesPlaced(site.terms, site.attributeMeta, site.taxonomies, catalog.Loadable(p.sku), te0, am0, p)
    }

    /** The category part of `create_product` and `update_product`. */
    method SetCategory(p: Prepared)
      modifies site`objectTerms
      ensures site.objectTerms == CategorySet(old(site.objectTerms), site.termMeta, p.sku, p.categoryId)
    {
      if Truthy(p.categoryId) {
        var t := TermByMeta(site.termMeta, CategoryMeta, p.categoryId);
        if t > 0 {
          site.SetObjectTerms(p.sku, ProductCat, [t], false);
        }
      }
    }

    /** The image part of `create_product` and `update_product`. */
    method AddImages(p: Prepared)
      modifies site`attachments, site`thumbnails, site`galleries
      ensures ImagesPlaced(site.attachments, site.thumbnails, site.galleries,
                           old(site.attachments), old(site.thumbnails), old(site.galleries), p)
    {
      if p.images != [] && options.importImages {
        ImportImagesInto(site, p.sku, p.images);
      }
    }

    /** The attribute part of `create_product` and `update_product`. */
    method AddAttributes(p: Prepared)
      requires DistinctKeys(p.attributes)
      modifies site`terms, site`objectTerms, site`attributeMeta
      ensures AttributesPlaced(site.terms, site.attributeMeta, site.taxonomies, catalog.Loadable(p.sku),
                               old(site.terms), old(site.attributeMeta), p)
      ensures forall s :: Assigned(site.objectTerms, s, ProductCat) == Assigned(old(site.objectTerms), s, ProductCat)
    {
      if p.attributes != [] {
        AddAttributesToProduct(site, catalog, p.sku, p.attributes);
      }
    }

    /** The category and image part of `create_product` and `update_product`. */
    method PlaceCategoryAndImages(p: Prepared)
      modifies site`objectTerms, site`attachments, site`thumbnails, site`galleries
      ensures site.objectTerms == CategorySet(old(site.objectTerms), site.termMeta, p.sku, p.categoryId)
      ensures ImagesPlaced(site.attachments, site.thumbnails, site.galleries,
                           old(site.attachments), old(site.thumbnails), old(site.galleries), p)
    {
      SetCategory(p);
      AddImages(p);
    }

    /** The category, image and attribute part of `create_product` and `update_product`. */
    method Place(p: Prepared)
      requires DistinctKeys(p.attributes)
      modifies site`terms, site`objectTerms, site`attachments, site`thumbnails, site`galleries, site`attributeMeta
      ensures PlacedOn(old(site.terms), old(site.objectTerms), old(site.attachments), old(site.thumbnails),
                       old(site.galleries), old(site.attributeMeta), p)
    {
      PlaceCategoryAndImages(p);
      AddAttributes(p);
    }

    /** The image URLs of `import_product`: the `url` of each image object that has one. */
    method CollectUrls(images: seq<map<string, string>>) returns (urls: seq<string>)
      ensures urls == Urls(images)
    {
      urls := [];
      var i := 0;
      while i < |images|
        invariant 0 <= i <= |images| && urls == Urls(images[..i])
      {
        assert images[..i + 1][..i] == images[..i];
        if "url" in images[i] {
          urls := urls + [images[i]["url"]];
        }
        i := i + 1;
      }
      assert images[..|images|] == images;
    }

    /** The values `import_product` gathers: the joins are linear searches that stop at the first match. */
    method PrepareProduct(r: Record, stocks: seq<Record>, prices: seq<Record>) returns (p: Prepared)
      requires Complete(r)
      ensures p == Prepare(r, stocks, prices) && DistinctKeys(p.attributes)
    {
      var sku := r.fields["code"];
      var price := "0";
      var k := FindMatch(prices, "code", sku);
      if k > 0 {
        price := FieldOr(prices[k - 1], "price", "0");
      }
      var stock := "0";
      k := FindMatch(stocks, "code", sku);
      if k > 0 {
        stock := FieldOr(stocks[k - 1], "quantity", "0");
      }
      var urls := CollectUrls(ImageObjects(r));
      DefaultMappingDistinct();
      MapPairsDistinct(DefaultMapping, r);
      p := Prepared(sku, r.fields["name"], FieldOr(r, "description", ""), price, stock, Field(r, "category_id"),
                    urls, MapAttributes(Supplier, r, []), r.fields["id"]);
    }

    /** The site fields that a record which is not placed leaves as they were. */
    ghost predicate SiteKept(te0: seq<Term>, ot0: map<(string, string), seq<nat>>, a0: seq<string>,
                             th0: map<string, nat>, g0: map<string, seq<nat>>, am0: map<string, seq<AttributeMeta>>)
      reads site
    {
      site.terms == te0 && site.objectTerms == ot0 && site.attachments == a0 && site.thumbnails == th0
      && site.galleries == g0 && site.attributeMeta == am0
    }

    /** `import_product` with `create_product` and `update_product`; the outcome it counts. */
    method ImportProduct(r: Record, stocks: seq<Record>, prices: seq<Record>) returns (o: Outcome)
      modifies catalog`products, site`terms, site`objectTerms, site`attachments, site`thumbnails,
               site`galleries, site`attributeMeta
      ensures Step(catalog.products, o)
           == MacmaStep(old(catalog.products), catalog.broken, options.updateExisting, r, stocks, prices)
      ensures (o == Imported || o == Updated) ==>
        PlacedOn(old(site.terms), old(site.objectTerms), old(site.attachments), old(site.thumbnails),
                 old(site.galleries), old(site.attributeMeta), Prepare(r, stocks, prices))
      ensures !(o == Imported || o == Updated) ==>
        SiteKept(old(site.terms), old(site.objectTerms), old(site.attachments), old(site.thumbnails),
                 old(site.galleries), old(site.attributeMeta))
    {
      if !Complete(r) {
        return Failed;
      }
      var p := PrepareProduct(r, stocks, prices);
      if p.sku in catalog.products {
        if !options.updateExisting {
          return Skipped;
        }
        if !catalog.Loadable(p.sku) {
          return FailedAndUpdated;
        }
        catalog.products := catalog.products[p.sku := RevisedProduct(catalog.products[p.sku], p)];
        Place(p);
        o := Updated;
      } else {
        catalog.products := catalog.products[p.sku := NewProduct(p)];
        Place(p);
        o := Imported;
      }
    }

    /**
     * `import()`: the standard attributes are created first; a products
     * document that yields nothing fails the run; missing stocks, categories
     * or prices count as empty; categories are imported when enabled; then
     * the records are imported in order, up to the import limit.
     */
    method Import(offerReply: HttpReply, stocksReply: HttpReply, categoriesReply: HttpReply, pricesReply: HttpReply)
      returns (result: RunResult)
      requires stats.Valid()
      modifies this`offer, this`stocksFile, this`categoriesFile, this`pricesFile, stats, catalog`products,
               site`attributeSlugs, site`taxonomies, site`terms, site`termMeta, site`objectTerms,
               site`attachments, site`thumbnails, site`galleries, site`attributeMeta
      ensures stats.Valid()
      ensures site.attributeSlugs == old(site.attributeSlugs)
                                   + Attributes.Accepted(ToCreate(Standard, old(site.attributeSlugs)), site.refusedAttributes)
      ensures offer == MacmaXml(old(offer), offerReply).file
      ensures var data := MacmaXml(old(offer), offerReply).data;
        (data.None? || data.value == []) ==>
          && result == Failure(ProductsFailed) && stats.outcomes == old(stats.outcomes)
          && catalog.products == old(catalog.products) && site.termMeta == old(site.termMeta)
      ensures var data := MacmaXml(old(offer), offerReply).data;
        data.Some? && data.value != [] ==>
          var cats := Rows(MacmaXml(old(categoriesFile), categoriesReply));
          var run := MacmaRun(old(catalog.products), catalog.broken, options.updateExisting,
                              data.value[..Reached(|data.value|, options.limit)],
                              Rows(MacmaXml(old(stocksFile), stocksReply)), Rows(MacmaXml(old(pricesFile), pricesReply)));
          && stocksFile == MacmaXml(old(stocksFile), stocksReply).file
          && categoriesFile == MacmaXml(old(categoriesFile), categoriesReply).file
          && pricesFile == MacmaXml(old(pricesFile), pricesReply).file
          && site.termMeta == (if options.importCategories
               then ImportCategoryList(CatState(old(site.terms), old(site.termMeta)), site.refusedTerms, cats, cats, |cats|).meta
               else old(site.termMeta))
          && catalog.products == run.products && stats.outcomes == old(stats.outcomes) + run.outcomes
          && stats.total == |data.value| && result == Success(stats.total, stats.Value())
    {
      InitAttributes(site);
      var f := MacmaXml(offer, offerReply);
      offer := f.file;
      if f.data.None? || f.data.value == [] {
        return Failure(ProductsFailed);
      }
      result := ImportFetched(f.data.value, stocksReply, categoriesReply, pricesReply);
    }

    /** The part of `import()` after the products document yielded records. */
    method ImportFetched(rs: seq<Record>, stocksReply: HttpReply, categoriesReply: HttpReply, pricesReply: HttpReply)
      returns (result: RunResult)
      requires stats.Valid()
      modifies this`stocksFile, this`categoriesFile, this`pricesFile, stats, catalog`products,
               site`terms, site`termMeta, site`objectTerms, site`attachments, site`thumbnails, site`galleries,
               site`attributeMeta
      ensures stats.Valid()
      ensures stocksFile == MacmaXml(old(stocksFile), stocksReply).file
      ensures categoriesFile == MacmaXml(old(categoriesFile), categoriesReply).file
      ensures pricesFile == MacmaXml(old(pricesFile), pricesReply).file
      ensures var cats := Rows(MacmaXml(old(categoriesFile), categoriesReply));
        site.termMeta == (if options.importCategories
          then ImportCategoryList(CatState(old(site.terms), old(site.termMeta)), site.refusedTerms, cats, cats, |cats|).meta
          else old(site.termMeta))
      ensures var run := MacmaRun(old(catalog.products), catalog.broken, options.updateExisting,
                                  rs[..Reached(|rs|, options.limit)],
                                  Rows(MacmaXml(old(stocksFile), stocksReply)), Rows(MacmaXml(old(pricesFile), pricesReply)));
        && catalog.products == run.products && stats.outcomes == old(stats.outcomes) + run.outcomes
        && stats.total == |rs| && result == Success(stats.total, stats.Value())
    {
      var g := MacmaXml(stocksFile, stocksReply);
      stocksFile := g.file;
      var stocks := Rows(g);
      g := MacmaXml(categoriesFile, categoriesReply);
      categoriesFile := g.file;
      var cats := Rows(g);
      g := MacmaXml(pricesFile, pricesReply);
      pricesFile := g.file;
      var prices := Rows(g);
      if options.importCategories {
        ImportCategories(cats, |cats|);
      }
      ghost var meta := site.termMeta;
      stats.total := |rs|;
      ImportEach(rs, stocks, prices);
      assert site.termMeta == meta;
      result := Success(stats.total, stats.Value());
    }

    /** The counters are consistent and hold o0 followed by the outcomes of run, whose products are the catalog's. */
    ghost predicate Logged(o0: seq<Outcome>, run: Run)
      reads this, stats, catalog
    {
      stats.Valid() && catalog.products == run.products && stats.outcomes == o0 + run.outcomes
    }

    /** One record imported and its outcome counted, as the next step of run prev. */
    method ImportCounted(r: Record, stocks: seq<Record>, prices: seq<Record>, ghost o0: seq<Outcome>, ghost prev: Run)
      returns (o: Outcome)
      requires Logged(o0, prev)
      modifies stats`imported, stats`updated, stats`skipped, stats`errors, stats`outcomes, catalog`products,
               site`terms, site`objectTerms, site`attachments, site`thumbnails, site`galleries, site`attributeMeta
      ensures var s := MacmaStep(prev.products, catalog.broken, options.updateExisting, r, stocks, prices);
        o == s.outcome && Logged(o0, Run(s.products, prev.outcomes + [s.outcome]))
    {
      o := ImportProduct(r, stocks, prices);
      stats.Count(o);
      AppendAssoc(o0, prev.outcomes, o);
    }

    /** One turn of the `foreach`: the run over the first i records becomes the run over the first i + 1. */
    method ImportNext(rs: seq<Record>, i: nat, stocks: seq<Record>, prices: seq<Record>,
                      ghost o0: seq<Outcome>, ghost p0: map<string, Product>)
      requires i < |rs| && Logged(o0, MacmaRun(p0, catalog.broken, options.updateExisting, rs[..i], stocks, prices))
      modifies stats`imported, stats`updated, stats`skipped, stats`errors, stats`outcomes, catalog`products,
               site`terms, site`objectTerms, site`attachments, site`thumbnails, site`galleries, site`attributeMeta
      ensures Logged(o0, MacmaRun(p0, catalog.broken, options.updateExisting, rs[..i + 1], stocks, prices))
    {
      MacmaRunSnoc(p0, catalog.broken, options.updateExisting, rs, i, stocks, prices);
      ghost var prev := MacmaRun(p0, catalog.broken, options.updateExisting, rs[..i], stocks, prices);
      var _ := ImportCounted(rs[i], stocks, prices, o0, prev);
    }

    /** The `foreach` over the product records, stopping once `import_limit` records have been imported. */
    method ImportEach(rs: seq<Record>, stocks: seq<Record>, prices: seq<Record>)
      requires stats.Valid()
      modifies stats`imported, stats`updated, stats`skipped, stats`errors, stats`outcomes, catalog`products,
               site`terms, site`objectTerms, site`attachments, site`thumbnails, site`galleries, site`attributeMeta
      ensures stats.Valid()
      ensures var run := MacmaRun(old(catalog.products), catalog.broken, options.updateExisting,
                                  rs[..Reached(|rs|, options.limit)], stocks, prices);
        catalog.products == run.products && stats.outcomes == old(stats.outcomes) + run.outcomes
    {
      ghost var p0 := catalog.products;
      ghost var o0 := stats.outcomes;
      ghost var n := Reached(|rs|, options.limit);
      var limit := options.limit;
      var count := 0;
      var i := 0;
      while i < |rs|
        invariant 0 <= i <= n && count == i
        invariant Logged(o0, MacmaRun(p0, catalog.broken, options.updateExisting, rs[..i], stocks, prices))
      {
        if limit > 0 && count >= limit {
          break;
        }
        ImportNext(rs, i, stocks, prices, o0, p0);
        count := count + 1;
        i := i + 1;
      }
      assert i == Reached(|rs|, limit);
    }
  }

  /** What a fetch that failed stands for: no rows. */
  function Rows(f: MacmaFetchResult): (rows: seq<Record>)
    ensures f.data.None? ==> rows == []
    ensures f.data.Some? ==> rows == f.data.value
  {
    if f.data.Some? then f.data.value else []
  }
}
