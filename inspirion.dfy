// The Inspirion importer (settings keys `hurtownia4_*`): products.xml from
// the local copy or by FTP, product fields set only when present, a flat list
// of category names, images de-duplicated by file name, and the choice of the
// archive to download from the FTP listing.

module Inspirion {
  import opened Php
  import opened Records
  import opened Shop
  import opened Cache
  import opened Media

  const FetchFailed := "Nie udało się pobrać danych produktów z hurtowni Inspirion."
  const IdMeta := "_hurtownia4_product_id"

  /** `isset($product_data['id']) && isset($product_data['name']) && isset($product_data['sku'])`. */
  predicate Complete(r: Record)
  {
    Isset(r, "id") && Isset(r, "name") && Isset(r, "sku")
  }

  /**
   * The setters shared by `create_product` and `update_product`: the name
   * always; description, short description, price and stock only when the
   * record has them.  A quantity makes the stock managed, in stock exactly
   * when it is positive.
   */
  function Revised(p: Product, r: Record): (q: Product)
    ensures q.name == Field(r, "name")
    ensures q.description == FieldOr(r, "description", p.description)
    ensures q.shortDescription == FieldOr(r, "short_description", p.shortDescription)
    ensures q.regularPrice == FieldOr(r, "price", p.regularPrice)
    ensures Isset(r, "stock_quantity") ==>
      q.manageStock && q.quantity == Some(IntVal(r.fields["stock_quantity"]))
      && (q.stockStatus == InStock <==> IntVal(r.fields["stock_quantity"]) > 0)
    ensures !Isset(r, "stock_quantity") ==>
      q.manageStock == p.manageStock && q.quantity == p.quantity && q.stockStatus == p.stockStatus
    ensures q.attributes == p.attributes && q.meta == p.meta
  {
    var q := p.(name := Field(r, "name"),
                description := FieldOr(r, "description", p.description),
                shortDescription := FieldOr(r, "short_description", p.shortDescription),
                regularPrice := FieldOr(r, "price", p.regularPrice));
    if Isset(r, "stock_quantity") then WithStock(q, r.fields["stock_quantity"]) else q
  }

  /** A new product: the setters on a blank product, and the supplier id as meta. */
  function NewProduct(r: Record): Product
  {
    Revised(Blank, r).(meta := map[IdMeta := Field(r, "id")])
  }

  /**
   * `import_product`: a record missing id, name or sku is an error; an
   * existing SKU is skipped when updating is off and otherwise counted as
   * updated (even when `wc_get_product` cannot load it, in which case nothing
   * changes); a new SKU is counted as imported, and it is created unless its
   * save fails, which `create_product` does not check.
   */
  function InspirionStep(products: map<string, Product>, faulty: set<string>, broken: set<string>, update: bool,
                         r: Record): (s: Step)
    ensures s.outcome == Failed <==> !Complete(r)
    ensures s.outcome == Skipped <==> Complete(r) && r.fields["sku"] in products && !update
    ensures s.outcome == Updated <==> Complete(r) && r.fields["sku"] in products && update
    ensures s.outcome == Imported <==> Complete(r) && r.fields["sku"] !in products
    ensures s.outcome == Imported && r.fields["sku"] !in faulty ==>
      s.products == products[r.fields["sku"] := NewProduct(r)]
    ensures s.outcome == Imported && r.fields["sku"] in faulty ==> s.products == products
    ensures s.outcome != Imported && s.outcome != Updated ==> s.products == products
  {
    if !Complete(r) then Step(products, Failed)
    else
      var sku := r.fields["sku"];
      if sku in products then
        if !update then Step(products, Skipped)
        else if sku in broken then Step(products, Updated)
        else Step(products[sku := Revised(products[sku], r)], Updated)
      else if sku in faulty then Step(products, Imported)
      else Step(products[sku := NewProduct(r)], Imported)
  }

  function InspirionRun(products: map<string, Product>, faulty: set<string>, broken: set<string>, update: bool,
                        rs: seq<Record>): (run: Run)
    ensures |run.outcomes| == |rs|
  {
    if rs == [] then Run(products, [])
    else
      var prev := InspirionRun(products, faulty, broken, update, rs[..|rs| - 1]);
      var s := InspirionStep(prev.products, faulty, broken, update, rs[|rs| - 1]);
      Run(s.products, prev.outcomes + [s.outcome])
  }

  lemma {:induction false} InspirionRunSingle(products: map<string, Product>, faulty: set<string>,
                                              broken: set<string>, update: bool,
                                              rs: seq<Record>)
    ensures forall i :: 0 <= i < |rs| ==>
      InspirionRun(products, faulty, broken, update, rs).outcomes[i] != FailedAndUpdated
  {
    if rs != [] {
      var prev := InspirionRun(products, faulty, broken, update, rs[..|rs| - 1]);
      InspirionRunSingle(products, faulty, broken, update, rs[..|rs| - 1]);
      var os := InspirionRun(products, faulty, broken, update, rs).outcomes;
      assert os == prev.outcomes + [InspirionStep(prev.products, faulty, broken, update, rs[|rs| - 1]).outcome];
      forall i | 0 <= i < |rs|
        ensures os[i] != FailedAndUpdated
      {
        if i < |rs| - 1 {
          assert os[i] == prev.outcomes[i];
        }
      }
    }
  }

  /** Exactly one counter moves per record, so the four counters add up to the total. */
  lemma InspirionRunCounts(products: map<string, Product>, faulty: set<string>, broken: set<string>, update: bool,
                           rs: seq<Record>)
    ensures Sum(Tally(InspirionRun(products, faulty, broken, update, rs).outcomes)) == |rs|
  {
    InspirionRunSingle(products, faulty, broken, update, rs);
    TallySumSingle(InspirionRun(products, faulty, broken, update, rs).outcomes);
  }

  lemma {:induction false} InspirionRunGrows(products: map<string, Product>, faulty: set<string>,
                                             broken: set<string>, update: bool,
                                             rs: seq<Record>)
    ensures products.Keys <= InspirionRun(products, faulty, broken, update, rs).products.Keys
  {
    if rs != [] {
      InspirionRunGrows(products, faulty, broken, update, rs[..|rs| - 1]);
    }
  }

  /**
   * After a run every complete record's SKU is in the catalog, unless it was
   * new and its save failed.
   */
  lemma {:induction false} InspirionRunCovers(products: map<string, Product>, faulty: set<string>,
                                              broken: set<string>, update: bool, rs: seq<Record>, k: nat)
    requires k < |rs| && Complete(rs[k])
    ensures var p := InspirionRun(products, faulty, broken, update, rs).products;
      rs[k].fields["sku"] in p || (rs[k].fields["sku"] in faulty && rs[k].fields["sku"] !in products)
  {
    var prefix := rs[..|rs| - 1];
    InspirionRunGrows(products, faulty, broken, update, prefix);
    if k < |rs| - 1 {
      assert prefix[k] == rs[k];
      InspirionRunCovers(products, faulty, broken, update, prefix, k);
    }
  }

  /** A record counted as imported is complete and its SKU was not in the catalog the run started from. */
  lemma {:induction false} InspirionRunImportsNew(products: map<string, Product>, faulty: set<string>,
                                                  broken: set<string>, update: bool, rs: seq<Record>, k: nat)
    requires k < |rs| && InspirionRun(products, faulty, broken, update, rs).outcomes[k] == Imported
    ensures Complete(rs[k]) && rs[k].fields["sku"] !in products
  {
    var prefix := rs[..|rs| - 1];
    var prev := InspirionRun(products, faulty, broken, update, prefix);
    var os := InspirionRun(products, faulty, broken, update, rs).outcomes;
    assert os == prev.outcomes + [InspirionStep(prev.products, faulty, broken, update, rs[|rs| - 1]).outcome];
    if k < |rs| - 1 {
      assert prefix[k] == rs[k] && os[k] == prev.outcomes[k];
      InspirionRunImportsNew(products, faulty, broken, update, prefix, k);
    } else {
      InspirionRunGrows(products, faulty, broken, update, prefix);
    }
  }

  /**
   * Running the same records a second time imports only records whose first
   * save failed; when no record's save fails, it imports nothing.
   */
  lemma InspirionRunAgain(products: map<string, Product>, faulty: set<string>, broken: set<string>, update: bool,
                          rs: seq<Record>)
    ensures var once := InspirionRun(products, faulty, broken, update, rs).products;
      forall k :: 0 <= k < |rs| && InspirionRun(once, faulty, broken, update, rs).outcomes[k] == Imported ==>
        Complete(rs[k]) && rs[k].fields["sku"] in faulty && rs[k].fields["sku"] !in products
    ensures (forall k :: 0 <= k < |rs| && Complete(rs[k]) ==> rs[k].fields["sku"] !in faulty) ==>
      var once := InspirionRun(products, faulty, broken, update, rs).products;
      Tally(InspirionRun(once, faulty, broken, update, rs).outcomes).imported == 0
  {
    var once := InspirionRun(products, faulty, broken, update, rs).products;
    var again := InspirionRun(once, faulty, broken, update, rs).outcomes;
    forall k | 0 <= k < |rs| && again[k] == Imported
      ensures Complete(rs[k]) && rs[k].fields["sku"] in faulty && rs[k].fields["sku"] !in products
    {
      InspirionRunImportsNew(once, faulty, broken, update, rs, k);
      InspirionRunCovers(products, faulty, broken, update, rs, k);
    }
    if forall k :: 0 <= k < |rs| && Complete(rs[k]) ==> rs[k].fields["sku"] !in faulty {
      forall r | r in rs && Complete(r)
        ensures r.fields["sku"] in once
      {
        var k :| 0 <= k < |rs| && rs[k] == r;
        InspirionRunCovers(products, faulty, broken, update, rs, k);
      }
      InspirionRunNoImports(once, faulty, broken, update, rs, rs);
    }
  }

  lemma {:induction false} InspirionRunNoImports(products: map<string, Product>, faulty: set<string>,
                                                 broken: set<string>, update: bool, rs: seq<Record>,
                                                 all: seq<Record>)
    requires forall k :: 0 <= k < |rs| ==> rs[k] in all
    requires forall r :: r in all && Complete(r) ==> r.fields["sku"] in products
    ensures Tally(InspirionRun(products, faulty, broken, update, rs).outcomes).imported == 0
  {
    if rs != [] {
      var prefix := rs[..|rs| - 1];
      forall k | 0 <= k < |prefix|
        ensures prefix[k] in all
      {
        assert prefix[k] == rs[k];
      }
      InspirionRunNoImports(products, faulty, broken, update, prefix, all);
      InspirionRunGrows(products, faulty, broken, update, prefix);
      var prev := InspirionRun(products, faulty, broken, update, prefix);
      TallySnoc(prev.outcomes, InspirionStep(prev.products, faulty, broken, update, rs[|rs| - 1]).outcome);
    }
  }

  /** A run over one more record is the run over the earlier ones followed by that record's step. */
  lemma InspirionRunSnoc(products: map<string, Product>, faulty: set<string>, broken: set<string>, update: bool,
                         rs: seq<Record>, i: nat)
    requires i < |rs|
    ensures var prev := InspirionRun(products, faulty, broken, update, rs[..i]);
      var s := InspirionStep(prev.products, faulty, broken, update, rs[i]);
      InspirionRun(products, faulty, broken, update, rs[..i + 1]) == Run(s.products, prev.outcomes + [s.outcome])
  {
    assert rs[..i + 1][..i] == rs[..i];
  }

  /** With updating off a run never touches a product that was already there. */
  lemma {:induction false} InspirionRunKeepsExisting(products: map<string, Product>, faulty: set<string>,
                                                     broken: set<string>,
                                                     rs: seq<Record>, sku: string)
    requires sku in products
    ensures var after := InspirionRun(products, faulty, broken, false, rs).products;
      sku in after && after[sku] == products[sku]
  {
    if rs != [] {
      InspirionRunKeepsExisting(products, faulty, broken, rs[..|rs| - 1], sku);
    }
  }

  /** The terms after `assign_categories`' loop and the ids it collected. */
  datatype Collected = Collected(terms: seq<Term>, ids: seq<nat>)

  /**
   * The loop of `assign_categories`: each name is found (under any parent)
   * or created at the top level; the ids of the names that succeed are kept,
   * in order, each read as a term id (as with an `(int)` cast; `CategoryRefs`
   * hands them on as written).
   */
  function CategoryIds(terms: seq<Term>, refused: set<string>, names: seq<string>): (c: Collected)
    ensures |terms| <= |c.terms| && c.terms[..|terms|] == terms
    ensures |c.ids| <= |names|
  {
    if names == [] then Collected(terms, [])
    else
      var prev := CategoryIds(terms, refused, names[..|names| - 1]);
      var m := GetOrCreate(prev.terms, refused, names[|names| - 1], ProductCat, None, 0);
      assert m.terms[..|terms|] == prev.terms[..|terms|];
      Collected(m.terms, prev.ids + (if m.id > 0 then [m.id] else []))
  }

  /** Every id is a term named by one of the names. */
  predicate IdsNamed(c: Collected, names: seq<string>)
  {
    forall k :: 0 <= k < |c.ids| ==> 0 < c.ids[k] <= |c.terms| && c.terms[c.ids[k] - 1].name in names
  }

  /** Every term from position `from` on bears a name that is neither empty nor refused. */
  predicate CreatableFrom(ts: seq<Term>, from: nat, refused: set<string>)
  {
    forall j :: from <= j < |ts| ==> ts[j].name != "" && ts[j].name !in refused
  }

  /** Some collected id is a term bearing this name. */
  predicate HasIdFor(c: Collected, name: string)
  {
    exists i :: 0 <= i < |c.ids| && 0 < c.ids[i] <= |c.terms| && c.terms[c.ids[i] - 1].name == name
  }

  /** The loop over one more name is the loop over the earlier names followed by that name's lookup or creation. */
  lemma CategoryIdsSnoc(terms: seq<Term>, refused: set<string>, names: seq<string>, i: nat)
    requires i < |names|
    ensures var prev := CategoryIds(terms, refused, names[..i]);
      var m := GetOrCreate(prev.terms, refused, names[i], ProductCat, None, 0);
      CategoryIds(terms, refused, names[..i + 1]) == Collected(m.terms, prev.ids + (if m.id > 0 then [m.id] else []))
  {
    assert names[..i + 1][..i] == names[..i];
  }

  /** Every id collected is a term named by one of the names. */
  lemma {:induction false} CategoryIdsNamed(terms: seq<Term>, refused: set<string>, names: seq<string>)
    ensures IdsNamed(CategoryIds(terms, refused, names), names)
  {
    if names != [] {
      var prefix := names[..|names| - 1];
      var prev := CategoryIds(terms, refused, prefix);
      var m := GetOrCreate(prev.terms, refused, names[|names| - 1], ProductCat, None, 0);
      var c := CategoryIds(terms, refused, names);
      CategoryIdsNamed(terms, refused, prefix);
      forall k | 0 <= k < |c.ids|
        ensures 0 < c.ids[k] <= |c.terms| && c.terms[c.ids[k] - 1].name in names
      {
        if k < |prev.ids| {
          assert c.ids[k] == prev.ids[k];
          assert m.terms[prev.ids[k] - 1] == prev.terms[prev.ids[k] - 1];
          assert prev.terms[prev.ids[k] - 1].name in prefix;
        }
      }
    }
  }

  /** Every term the loop created bears a name that is neither empty nor refused. */
  lemma {:induction false} CategoryIdsCreatable(terms: seq<Term>, refused: set<string>, names: seq<string>)
    ensures CreatableFrom(CategoryIds(terms, refused, names).terms, |terms|, refused)
  {
    if names != [] {
      var prefix := names[..|names| - 1];
      var prev := CategoryIds(terms, refused, prefix);
      var c := CategoryIds(terms, refused, names);
      CategoryIdsCreatable(terms, refused, prefix);
      forall j | |terms| <= j < |c.terms|
        ensures c.terms[j].name != "" && c.terms[j].name !in refused
      {
        if j < |prev.terms| {
          assert c.terms[j] == prev.terms[j];
        }
      }
    }
  }

  /** Every name that is not empty and not refused gets an id. */
  lemma {:induction false} CategoryIdsCover(terms: seq<Term>, refused: set<string>, names: seq<string>, k: nat)
    requires k < |names| && names[k] != "" && names[k] !in refused
    ensures HasIdFor(CategoryIds(terms, refused, names), names[k])
  {
    var prefix := names[..|names| - 1];
    var prev := CategoryIds(terms, refused, prefix);
    var m := GetOrCreate(prev.terms, refused, names[|names| - 1], ProductCat, None, 0);
    var c := CategoryIds(terms, refused, names);
    assert c.ids[..|prev.ids|] == prev.ids;
    if k == |names| - 1 {
      assert m.id > 0;
      assert c.ids[|c.ids| - 1] == m.id;
    } else {
      assert prefix[k] == names[k];
      CategoryIdsCover(terms, refused, prefix, k);
      HasIdForExtends(prev, c, names[k]);
    }
  }

  /** An id found for a name is still found once more terms and ids are appended. */
  lemma HasIdForExtends(c: Collected, d: Collected, name: string)
    requires HasIdFor(c, name)
    requires |c.ids| <= |d.ids| && d.ids[..|c.ids|] == c.ids
    requires |c.terms| <= |d.terms| && d.terms[..|c.terms|] == c.terms
    ensures HasIdFor(d, name)
  {
    var i :| 0 <= i < |c.ids| && 0 < c.ids[i] <= |c.terms| && c.terms[c.ids[i] - 1].name == name;
    assert d.ids[i] == c.ids[i];
    assert d.terms[c.ids[i] - 1] == c.terms[c.ids[i] - 1];
  }

  /** A lookup with no parent finds nothing in terms none of which bears the name. */
  lemma FindTermAbsent(ts: seq<Term>, more: seq<Term>, name: string)
    requires FindTerm(ts, name, ProductCat, None) == 0
    requires forall j :: 0 <= j < |more| ==> more[j].name != name
    ensures FindTerm(ts + more, name, ProductCat, None) == 0
  {
    forall j | 0 <= j < |ts + more|
      ensures !TermIs((ts + more)[j], name, ProductCat, None)
    {
      if j >= |ts| {
        assert (ts + more)[j] == more[j - |ts|];
      } else {
        assert (ts + more)[j] == ts[j];
      }
    }
  }

  /**
   * The loop gives the same ids on any extension of the terms it left, as
   * long as the extension holds only names that can be created.
   */
  lemma {:induction false} CategoryIdsStable(terms: seq<Term>, refused: set<string>, names: seq<string>, ts: seq<Term>)
    requires |CategoryIds(terms, refused, names).terms| <= |ts|
    requires ts[..|CategoryIds(terms, refused, names).terms|] == CategoryIds(terms, refused, names).terms
    requires CreatableFrom(ts, |CategoryIds(terms, refused, names).terms|, refused)
    ensures CategoryIds(ts, refused, names) == Collected(ts, CategoryIds(terms, refused, names).ids)
  {
    if names != [] {
      var prefix := names[..|names| - 1];
      var name := names[|names| - 1];
      var prev := CategoryIds(terms, refused, prefix);
      var m := GetOrCreate(prev.terms, refused, name, ProductCat, None, 0);
      assert CategoryIds(terms, refused, names) == Collected(m.terms, prev.ids + (if m.id > 0 then [m.id] else []));
      assert ts[..|prev.terms|] == prev.terms by {
        assert ts[..|prev.terms|] == ts[..|m.terms|][..|prev.terms|];
      }
      assert CreatableFrom(ts, |prev.terms|, refused) by {
        forall j | |prev.terms| <= j < |ts|
          ensures ts[j].name != "" && ts[j].name !in refused
        {
          if j < |m.terms| {
            assert ts[j] == m.terms[j];
          }
        }
      }
      CategoryIdsStable(terms, refused, prefix, ts);
      StableStep(prev.terms, refused, name, ts);
    }
  }

  /** One get-or-create gives the same answer on an extension of the terms it left, made of creatable names. */
  lemma StableStep(terms: seq<Term>, refused: set<string>, name: string, ts: seq<Term>)
    requires |GetOrCreate(terms, refused, name, ProductCat, None, 0).terms| <= |ts|
    requires ts[..|GetOrCreate(terms, refused, name, ProductCat, None, 0).terms|]
          == GetOrCreate(terms, refused, name, ProductCat, None, 0).terms
    requires CreatableFrom(ts, |GetOrCreate(terms, refused, name, ProductCat, None, 0).terms|, refused)
    ensures GetOrCreate(ts, refused, name, ProductCat, None, 0)
         == TermResult(ts, GetOrCreate(terms, refused, name, ProductCat, None, 0).id)
  {
    var m := GetOrCreate(terms, refused, name, ProductCat, None, 0);
    assert ts == m.terms + ts[|m.terms|..];
    if m.id > 0 {
      GetOrCreateAgain(terms, refused, name, ProductCat, None, 0);
      FindTermExtend(m.terms, ts[|m.terms|..], name, ProductCat, None);
    } else {
      assert name == "" || name in refused;
      FindTermAbsent(m.terms, ts[|m.terms|..], name);
    }
  }

  /** Assigning a product's categories a second time creates no term and collects the same ids. */
  lemma CategoryIdsAgain(terms: seq<Term>, refused: set<string>, names: seq<string>)
    ensures var c := CategoryIds(terms, refused, names);
      CategoryIds(c.terms, refused, names) == c
  {
    var c := CategoryIds(terms, refused, names);
    assert c.terms[..|c.terms|] == c.terms;
    CategoryIdsStable(terms, refused, names, c.terms);
  }

  /** The terms after `assign_categories`' loop and the entries it collects for `wp_set_object_terms`. */
  datatype CollectedRefs = CollectedRefs(terms: seq<Term>, refs: seq<TermRef>)

  /**
   * `assign_categories`' loop as written: a name `term_exists` finds gives
   * its `term_id` as the string of digits `term_exists` returns, and a name
   * `wp_insert_term` creates gives its int id.
   */
  function CategoryRefs(terms: seq<Term>, refused: set<string>, names: seq<string>): (c: CollectedRefs)
    ensures c.terms == CategoryIds(terms, refused, names).terms
    ensures |c.refs| == |CategoryIds(terms, refused, names).ids|
  {
    if names == [] then CollectedRefs(terms, [])
    else
      var prev := CategoryRefs(terms, refused, names[..|names| - 1]);
      var m := GetOrCreate(prev.terms, refused, names[|names| - 1], ProductCat, None, 0);
      CollectedRefs(m.terms, prev.refs + (if m.id > 0 then [PassedId(m, prev.terms)] else []))
  }

  /** `assign_categories` as written: the terms and the term assignments afterwards. */
  function AssignAsWritten(terms: seq<Term>, refused: set<string>, ot: map<(string, string), seq<nat>>,
                           sku: string, names: seq<string>): (seq<Term>, map<(string, string), seq<nat>>)
  {
    var c := CategoryRefs(terms, refused, names);
    if c.refs == [] then (c.terms, ot) else SetObjectTermsWith(c.terms, refused, ot, sku, ProductCat, c.refs, false)
  }

  /**
   * As written, a second `assign_categories` for a category it created the
   * first time does not give the product that category again: the category is
   * found, its id is passed on as a string, and WordPress creates and assigns
   * a new term named by that number.
   */
  lemma {:induction false} AsWrittenAssignRerun(terms: seq<Term>, refused: set<string>,
                                                ot: map<(string, string), seq<nat>>, sku: string, name: string)
    requires FindTerm(terms, name, ProductCat, None) == 0 && !Refused(terms, refused, name, ProductCat, 0)
    requires Decimal(|terms| + 1) != name && Decimal(|terms| + 1) !in refused
    requires FindTerm(terms, Decimal(|terms| + 1), ProductCat, None) == 0
    ensures AssignAsWritten(terms, refused, ot, sku, [name])
         == (terms + [Term(name, ProductCat, 0)], ot[(sku, ProductCat) := [|terms| + 1]])
    ensures AssignAsWritten(terms + [Term(name, ProductCat, 0)], refused, ot[(sku, ProductCat) := [|terms| + 1]],
                            sku, [name])
         == (terms + [Term(name, ProductCat, 0), Term(Decimal(|terms| + 1), ProductCat, 0)],
             ot[(sku, ProductCat) := [|terms| + 2]])
  {
    AsWrittenAssignNew(terms, refused, ot, sku, name);
    AsWrittenAssignAgain(terms, refused, ot, sku, name);
  }

  /** As written, the run after the one that created the category adds a term named by its id. */
  lemma {:induction false} AsWrittenAssignAgain(terms: seq<Term>, refused: set<string>,
                                                ot: map<(string, string), seq<nat>>, sku: string, name: string)
    requires FindTerm(terms, name, ProductCat, None) == 0 && name != ""
    requires Decimal(|terms| + 1) != name && Decimal(|terms| + 1) !in refused
    requires FindTerm(terms, Decimal(|terms| + 1), ProductCat, None) == 0
    ensures AssignAsWritten(terms + [Term(name, ProductCat, 0)], refused, ot[(sku, ProductCat) := [|terms| + 1]],
                            sku, [name])
         == (terms + [Term(name, ProductCat, 0), Term(Decimal(|terms| + 1), ProductCat, 0)],
             ot[(sku, ProductCat) := [|terms| + 2]])
  {
    var k := |terms| + 1;
    var t1 := terms + [Term(name, ProductCat, 0)];
    var ot1 := ot[(sku, ProductCat) := [k]];
    assert FindTerm(t1, name, ProductCat, None) == k by {
      FindTermSnoc(terms, Term(name, ProductCat, 0), name, ProductCat, None);
    }
    assert FindTerm(t1, Decimal(k), ProductCat, None) == 0 by {
      FindTermSnoc(terms, Term(name, ProductCat, 0), Decimal(k), ProductCat, None);
    }
    AsWrittenAssignFound(t1, refused, ot1, sku, name, k);
    SnocTwice(terms, Term(name, ProductCat, 0), Term(Decimal(k), ProductCat, 0));
    UpdateTwice(ot, (sku, ProductCat), [k], [k + 1]);
  }

  /** As written, a name no category has yet is created and the product gets it. */
  lemma {:induction false} AsWrittenAssignNew(terms: seq<Term>, refused: set<string>,
                                              ot: map<(string, string), seq<nat>>, sku: string, name: string)
    requires FindTerm(terms, name, ProductCat, None) == 0 && !Refused(terms, refused, name, ProductCat, 0)
    ensures AssignAsWritten(terms, refused, ot, sku, [name])
         == (terms + [Term(name, ProductCat, 0)], ot[(sku, ProductCat) := [|terms| + 1]])
  {
    var t1 := terms + [Term(name, ProductCat, 0)];
    CategoryRefsOne(terms, refused, name);
    assert ResolveTerms(t1, refused, ProductCat, [ById(|terms| + 1)]) == Resolved(t1, [|terms| + 1], false);
  }

  /**
   * As written, a name `term_exists` finds as category k gives the product a
   * term named by the digits of k instead, created when there is none.
   */
  lemma {:induction false} AsWrittenAssignFound(terms: seq<Term>, refused: set<string>,
                                                ot: map<(string, string), seq<nat>>, sku: string, name: string, k: nat)
    requires 0 < k <= |terms| && FindTerm(terms, name, ProductCat, None) == k
    requires Decimal(k) !in refused && FindTerm(terms, Decimal(k), ProductCat, None) == 0
    ensures AssignAsWritten(terms, refused, ot, sku, [name])
         == (terms + [Term(Decimal(k), ProductCat, 0)], ot[(sku, ProductCat) := [|terms| + 1]])
  {
    CategoryRefsOne(terms, refused, name);
    ResolveNewName(terms, refused, ProductCat, Decimal(k));
  }

  /** The loop over a single name. */
  lemma {:induction false} CategoryRefsOne(terms: seq<Term>, refused: set<string>, name: string)
    ensures var m := GetOrCreate(terms, refused, name, ProductCat, None, 0);
      CategoryRefs(terms, refused, [name])
      == CollectedRefs(m.terms, if m.id == 0 then [] else if m.id <= |terms| then [ByName(Decimal(m.id))] else [ById(m.id)])
  {
    assert [name][..0] == [];
  }

  /** What `assign_categories` leaves behind: the collected ids replace the product's categories, when there are any. */
  ghost predicate CategoriesAssigned(site: Site, t0: seq<Term>, ot0: map<(string, string), seq<nat>>,
                                     sku: string, names: seq<string>)
    reads site
  {
    var c := CategoryIds(t0, site.refusedTerms, names);
    && site.terms == c.terms
    && site.objectTerms == (if c.ids != [] then ot0[(sku, ProductCat) := c.ids] else ot0)
  }

  /** `preg_match('/\.zip$/i', $file)` without the newline allowance: ends in ".zip", any case. */
  predicate ZipSuffix(f: string)
  {
    |f| >= 4 && f[|f| - 4] == '.' && EqualsIgnoreCase(f[|f| - 3..], "zip")
  }

  /** `preg_match('/\.zip$/i', $file)`: `$` also matches before a final newline. */
  predicate IsZip(f: string)
  {
    ZipSuffix(f) || (|f| > 0 && f[|f| - 1] == '\n' && ZipSuffix(f[..|f| - 1]))
  }

  /** `end(array_filter($files, ..))`: the last listed entry that is a ZIP archive, or none. */
  function LatestZip(files: seq<string>): (r: Option<string>)
    ensures r.Some? ==> IsZip(r.value) && r.value in files
    ensures r.None? <==> forall i :: 0 <= i < |files| ==> !IsZip(files[i])
  {
    if files == [] then None
    else if IsZip(files[|files| - 1]) then Some(files[|files| - 1])
    else
      var r := LatestZip(files[..|files| - 1]);
      assert forall i :: 0 <= i < |files| - 1 ==> files[..|files| - 1][i] == files[i];
      r
  }

  /** The archive chosen is listed at a position after which no entry is an archive. */
  lemma {:induction false} LatestZipIsLast(files: seq<string>)
    requires LatestZip(files).Some?
    ensures exists i :: (0 <= i < |files| && files[i] == LatestZip(files).value
                         && forall j :: i < j < |files| ==> !IsZip(files[j]))
  {
    var n := |files| - 1;
    if IsZip(files[n]) {
      assert files[n] == LatestZip(files).value;
    } else {
      var prefix := files[..n];
      assert LatestZip(files) == LatestZip(prefix);
      LatestZipIsLast(prefix);
      var i :| 0 <= i < |prefix| && prefix[i] == LatestZip(prefix).value
        && forall j :: i < j < |prefix| ==> !IsZip(prefix[j]);
      assert files[i] == prefix[i] == LatestZip(files).value;
      forall j | i < j < |files|
        ensures !IsZip(files[j])
      {
        if j < n {
          assert files[j] == prefix[j];
        }
      }
    }
  }

  /** The Inspirion import. */
  class InspirionImporter {
    const stats: Stats
    /** The local copy `products.xml`. */
    var file: Option<LocalFile>
    const options: Options
    const catalog: Catalog
    const site: Site

    constructor (settings: map<string, string>, file: Option<LocalFile>, catalog: Catalog, site: Site)
      ensures fresh(stats) && stats.Valid() && stats.outcomes == [] && stats.total == 0
      ensures this.file == file && this.catalog == catalog && this.site == site && options == OptionsOf(settings)
    {
      stats := new Stats();
      this.file := file;
      options := OptionsOf(settings);
      this.catalog := catalog;
      this.site := site;
    }

    /** The setters of `create_product` / `update_product`, one after another. */
    method Apply(p: Product, r: Record) returns (q: Product)
      ensures q == Revised(p, r)
    {
      q := p.(name := Field(r, "name"));
      if Isset(r, "description") {
        q := q.(description := r.fields["description"]);
      }
      if Isset(r, "short_description") {
        q := q.(shortDescription := r.fields["short_description"]);
      }
      if Isset(r, "price") {
        q := q.(regularPrice := r.fields["price"]);
      }
      if Isset(r, "stock_quantity") {
        var n := IntVal(r.fields["stock_quantity"]);
        q := q.(quantity := Some(n), manageStock := true, stockStatus := if n > 0 then InStock else OutOfStock);
      }
    }

    /** One turn of `assign_categories`' loop: the name is found or created and its id kept when there is one. */
    method CollectNext(names: seq<string>, i: nat, ids: seq<nat>, ghost t0: seq<Term>) returns (ids': seq<nat>)
      requires i < |names| && Collected(site.terms, ids) == CategoryIds(t0, site.refusedTerms, names[..i])
      modifies site`terms
      ensures Collected(site.terms, ids') == CategoryIds(t0, site.refusedTerms, names[..i + 1])
    {
      CategoryIdsSnoc(t0, site.refusedTerms, names, i);
      var id := site.EnsureTerm(names[i], ProductCat, None, 0);
      ids' := if id > 0 then ids + [id] else ids;
    }

    /** `assign_categories`, with every collected id handed on as an int. */
    method AssignCategories(sku: string, names: seq<string>)
      modifies site`terms, site`objectTerms
      ensures CategoriesAssigned(site, old(site.terms), old(site.objectTerms), sku, names)
    {
      var ids: seq<nat> := [];
      var i := 0;
      ghost var t0 := site.terms;
      while i < |names|
        invariant 0 <= i <= |names|
        invariant site.objectTerms == old(site.objectTerms)
        invariant Collected(site.terms, ids) == CategoryIds(t0, site.refusedTerms, names[..i])
      {
        ids := CollectNext(names, i, ids, t0);
        i := i + 1;
      }
      assert names[..|names|] == names;
      if ids != [] {
        site.SetObjectTerms(sku, ProductCat, ids, false);
      }
    }

    /** What one product's categories and images do to the site, each part when the record asks for it. */
    ghost predicate PlacedOn(t0: seq<Term>, ot0: map<(string, string), seq<nat>>, a0: seq<string>,
                             th0: map<string, nat>, g0: map<string, seq<nat>>, r: Record)
      reads this, site
      requires Complete(r)
    {
      && (if "categories" in r.lists then CategoriesAssigned(site, t0, ot0, r.fields["sku"], r.lists["categories"])
          else site.terms == t0 && site.objectTerms == ot0)
      && (if "images" in r.lists && options.importImages
          then ImagesImported(site, a0, th0, g0, r.fields["sku"], r.lists["images"])
          else site.attachments == a0 && site.thumbnails == th0 && site.galleries == g0)
    }

    /** The category and image part of `create_product` and `update_product`. */
    method Place(r: Record)
      requires Complete(r)
      modifies site`terms, site`objectTerms, site`attachments, site`thumbnails, site`galleries
      ensures PlacedOn(old(site.terms), old(site.objectTerms), old(site.attachments),
                       old(site.thumbnails), old(site.galleries), r)
    {
      if "categories" in r.lists {
        AssignCategories(r.fields["sku"], r.lists["categories"]);
      }
      if "images" in r.lists && options.importImages {
        ImportImagesInto(site, r.fields["sku"], r.lists["images"]);
      }
    }

    /** Whether `import_product` gets as far as the category and image code for this record. */
    ghost predicate Placed(products: map<string, Product>, r: Record)
      reads this, catalog
    {
      Complete(r)
      && (r.fields["sku"] in products ==> options.updateExisting && r.fields["sku"] !in catalog.broken)
      && (r.fields["sku"] !in products ==> r.fields["sku"] !in catalog.faulty)
    }

    /** `import_product` with `create_product` and `update_product`; the outcome it counts. */
    method ImportProduct(r: Record) returns (o: Outcome)
      modifies catalog`products, site`terms, site`objectTerms, site`attachments, site`thumbnails, site`galleries
      ensures Step(catalog.products, o)
           == InspirionStep(old(catalog.products), catalog.faulty, catalog.broken, options.updateExisting, r)
      ensures Placed(old(catalog.products), r) ==>
        PlacedOn(old(site.terms), old(site.objectTerms), old(site.attachments), old(site.thumbnails),
                 old(site.galleries), r)
      ensures !Placed(old(catalog.products), r) ==>
        (site.terms == old(site.terms) && site.objectTerms == old(site.objectTerms)
         && site.attachments == old(site.attachments) && site.thumbnails == old(site.thumbnails)
         && site.galleries == old(site.galleries))
    {
      if !Complete(r) {
        return Failed;
      }
      var sku := r.fields["sku"];
      if sku in catalog.products {
        if !options.updateExisting {
          return Skipped;
        }
        if catalog.Loadable(sku) {
          var q := Apply(catalog.products[sku], r);
          catalog.products := catalog.products[sku := q];
          Place(r);
        }
        o := Updated;
      } else if sku in catalog.faulty {
        o := Imported;
      } else {
        var q := Apply(Blank, r);
        catalog.products := catalog.products[sku := q.(meta := map[IdMeta := Field(r, "id")])];
        Place(r);
        o := Imported;
      }
    }

    /**
     * `import()`: reset the counters, fetch the products (failing when that
     * yields nothing), then import every record.
     */
    method Import(now: int, reply: FtpReply) returns (result: RunResult)
      modifies this`file, stats, catalog`products,
               site`terms, site`objectTerms, site`attachments, site`thumbnails, site`galleries
      ensures stats.Valid()
      ensures file == FtpProducts(old(file), now, reply).file
      ensures var data := FtpProducts(old(file), now, reply).data;
        (data.None? || data.value == []) ==>
          && result == Failure(FetchFailed) && stats.outcomes == [] && stats.total == 0
          && catalog.products == old(catalog.products)
      ensures var data := FtpProducts(old(file), now, reply).data;
        data.Some? && data.value != [] ==>
          var run := InspirionRun(old(catalog.products), catalog.faulty, catalog.broken, options.updateExisting,
                                  data.value);
          && catalog.products == run.products && stats.outcomes == run.outcomes
          && stats.total == |data.value| && result == Success(stats.total, stats.Value())
    {
      stats.Reset();
      var f := FtpProducts(file, now, reply);
      file := f.file;
      if f.data.None? || f.data.value == [] {
        return Failure(FetchFailed);
      }
      stats.total := |f.data.value|;
      ImportEach(f.data.value);
      result := Success(stats.total, stats.Value());
    }

    /** One turn of the `foreach`: the run over the first i records becomes the run over the first i + 1. */
    method ImportNext(rs: seq<Record>, i: nat, ghost p0: map<string, Product>)
      requires i < |rs| && stats.Valid()
      requires Run(catalog.products, stats.outcomes)
            == InspirionRun(p0, catalog.faulty, catalog.broken, options.updateExisting, rs[..i])
      modifies stats`imported, stats`updated, stats`skipped, stats`errors, stats`outcomes, catalog`products,
               site`terms, site`objectTerms, site`attachments, site`thumbnails, site`galleries
      ensures stats.Valid()
      ensures Run(catalog.products, stats.outcomes)
           == InspirionRun(p0, catalog.faulty, catalog.broken, options.updateExisting, rs[..i + 1])
    {
      InspirionRunSnoc(p0, catalog.faulty, catalog.broken, options.updateExisting, rs, i);
      var o := ImportProduct(rs[i]);
      stats.Count(o);
    }

    /** The `foreach ($products_data as $product_data)` loop. */
    method ImportEach(rs: seq<Record>)
      requires stats.Valid() && stats.outcomes == []
      modifies stats`imported, stats`updated, stats`skipped, stats`errors, stats`outcomes, catalog`products,
               site`terms, site`objectTerms, site`attachments, site`thumbnails, site`galleries
      ensures stats.Valid()
      ensures Run(catalog.products, stats.outcomes)
           == InspirionRun(old(catalog.products), catalog.faulty, catalog.broken, options.updateExisting, rs)
    {
      ghost var p0 := catalog.products;
      var i := 0;
      while i < |rs|
        invariant 0 <= i <= |rs|
        invariant stats.Valid()
        invariant Run(catalog.products, stats.outcomes)
               == InspirionRun(p0, catalog.faulty, catalog.broken, options.updateExisting, rs[..i])
      {
        ImportNext(rs, i, p0);
        i := i + 1;
      }
      assert rs[..|rs|] == rs;
    }
  }
}
