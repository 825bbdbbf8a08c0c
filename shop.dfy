// The WooCommerce / WordPress state the importers write to: the product
// catalog (keyed by SKU) and the site (terms, term meta, term assignments,
// media attachments, featured images, galleries, attribute meta and the
// registered attribute taxonomies).

module Shop {
  import opened Php
  import opened Records

  datatype StockStatus = InStock | OutOfStock

  /** A product attribute stored on the product itself (not a taxonomy). */
  datatype LocalAttribute = LocalAttribute(name: string, options: seq<string>, visible: bool)

  /** The product fields the importers set. */
  datatype Product = Product(
    name: string,
    description: string,
    shortDescription: string,
    regularPrice: string,
    manageStock: bool,
    quantity: Option<int>,
    stockStatus: StockStatus,
    attributes: seq<LocalAttribute>,
    meta: map<string, string>)

  /** A `new WC_Product_Simple()` before any setter. */
  const Blank := Product("", "", "", "", false, None, InStock, [], map[])

  /**
   * `set_manage_stock(true); set_stock_quantity($q);
   * set_stock_status($q > 0 ? 'instock' : 'outofstock')`.
   */
  function WithStock(p: Product, q: string): (r: Product)
    ensures r.manageStock && r.quantity == Some(IntVal(q))
    ensures r.stockStatus == InStock <==> IntVal(q) > 0
    ensures r.(manageStock := p.manageStock, quantity := p.quantity, stockStatus := p.stockStatus) == p
  {
    p.(manageStock := true, quantity := Some(IntVal(q)),
       stockStatus := if IntVal(q) > 0 then InStock else OutOfStock)
  }

  /**
   * The products, keyed by SKU (`get_product_by_sku` / `wc_get_product_id_by_sku`).
   * `faulty` are the SKUs whose save fails (returns 0 or throws); `broken`
   * are SKUs the SKU lookup finds but `wc_get_product` cannot load.
   */
  class Catalog {
    var products: map<string, Product>
    const faulty: set<string>
    const broken: set<string>

    constructor (products: map<string, Product>, faulty: set<string>, broken: set<string>)
      ensures this.products == products && this.faulty == faulty && this.broken == broken
    {
      this.products := products;
      this.faulty := faulty;
      this.broken := broken;
    }

    /** `wc_get_product($id)` succeeds for this SKU. */
    predicate Loadable(sku: string)
      reads this`products
    {
      sku in products && sku !in broken
    }
  }

  const ProductCat := "product_cat"

  /** A term; its id is its position in `Site.terms` plus one. */
  datatype Term = Term(name: string, taxonomy: string, parent: nat)

  /** One row of the term meta table. */
  datatype TermMeta = TermMeta(termId: nat, key: string, value: string)

  /** One entry of a product's `_product_attributes` meta (a taxonomy attribute). */
  datatype AttributeMeta = AttributeMeta(taxonomy: string, position: nat)

  predicate TermIs(t: Term, name: string, taxonomy: string, parent: Option<nat>)
  {
    t.name == name && t.taxonomy == taxonomy && (parent.None? || t.parent == parent.value)
  }

  /**
   * `term_exists` / `get_term_by('name', ...)`: the id of the first term with
   * this name in this taxonomy (and under this parent, when one is given), or 0.
   */
  function FindTerm(ts: seq<Term>, name: string, taxonomy: string, parent: Option<nat>): (id: nat)
    ensures id <= |ts|
    ensures id > 0 ==> TermIs(ts[id - 1], name, taxonomy, parent)
    ensures id == 0 <==> forall j :: 0 <= j < |ts| ==> !TermIs(ts[j], name, taxonomy, parent)
  {
    FirstWhere(ts, (t: Term) => TermIs(t, name, taxonomy, parent))
  }

  /**
   * The id of the first term whose meta `key` has `value`
   * (`SELECT term_id FROM termmeta WHERE meta_key = .. AND meta_value = .. LIMIT 1`), or 0.
   */
  function TermByMeta(rows: seq<TermMeta>, key: string, value: string): (id: nat)
    ensures id > 0 ==> exists j :: 0 <= j < |rows| && rows[j] == TermMeta(id, key, value)
    ensures (forall j :: 0 <= j < |rows| ==> !(rows[j].key == key && rows[j].value == value)) ==> id == 0
  {
    var k := FirstWhere(rows, (m: TermMeta) => m.key == key && m.value == value);
    if k == 0 then 0
    else
      assert rows[k - 1] == TermMeta(rows[k - 1].termId, key, value);
      rows[k - 1].termId
  }

  /** `update_term_meta($id, $key, $value)`: replace the term's row for key, or add one. */
  function PutTermMeta(rows: seq<TermMeta>, id: nat, key: string, value: string): (r: seq<TermMeta>)
    ensures TermMeta(id, key, value) in r
    ensures forall m :: m in r && !(m.termId == id && m.key == key) ==> m in rows
    ensures forall m :: m in rows && !(m.termId == id && m.key == key) ==> m in r
  {
    if rows == [] then [TermMeta(id, key, value)]
    else if rows[0].termId == id && rows[0].key == key then [TermMeta(id, key, value)] + rows[1..]
    else [rows[0]] + PutTermMeta(rows[1..], id, key, value)
  }

  /** `wp_set_object_terms(.., $ids, .., true)`: ids not yet assigned are added after the old ones. */
  function AppendTerms(have: seq<nat>, ids: seq<nat>): (r: seq<nat>)
    ensures forall x :: x in r <==> x in have || x in ids
    ensures |have| <= |r| && r[..|have|] == have
    decreases |ids|
  {
    if ids == [] then have
    else if ids[0] in have then AppendTerms(have, ids[1..])
    else
      var r := AppendTerms(have + [ids[0]], ids[1..]);
      assert r[..|have|] == (r[..|have| + 1])[..|have|];
      r
  }

  /**
   * One entry of the terms handed to `wp_set_object_terms`: an `int` is read
   * as a term id, while a string is read as a name, also when it is the string
   * of digits `term_exists` returns as the id of a term it found.
   */
  datatype TermRef = ById(id: nat) | ByName(name: string)

  /** Every id is a term of the taxonomy. */
  predicate IdsIn(ts: seq<Term>, ids: seq<nat>, taxonomy: string)
  {
    forall i :: 0 <= i < |ids| ==> 0 < ids[i] <= |ts| && ts[ids[i] - 1].taxonomy == taxonomy
  }

  /** An id of a term of the taxonomy in `terms` stays one in any extension of `terms`. */
  lemma IdsInCons(terms: seq<Term>, ts: seq<Term>, id: nat, ids: seq<nat>, taxonomy: string)
    requires |terms| <= |ts| && ts[..|terms|] == terms && IdsIn(ts, ids, taxonomy)
    requires 0 < id <= |terms| && terms[id - 1].taxonomy == taxonomy
    ensures IdsIn(ts, [id] + ids, taxonomy)
  {
    assert ts[id - 1] == ts[..|terms|][id - 1];
    assert forall i :: 0 < i < |[id] + ids| ==> ([id] + ids)[i] == ids[i - 1];
  }

  lemma PrefixTrans(a: seq<Term>, b: seq<Term>, c: seq<Term>)
    requires |a| <= |b| && b[..|a|] == a && |b| <= |c| && c[..|b|] == b
    ensures |a| <= |c| && c[..|a|] == a
  {
    assert c[..|a|] == c[..|b|][..|a|];
  }

  /** The ids `wp_set_object_terms` resolves, the terms after its inserts, and whether it stopped at a WP_Error. */
  datatype Resolved = Resolved(terms: seq<Term>, ids: seq<nat>, failed: bool)

  /**
   * The loop of `wp_set_object_terms`: an id that names no term of the
   * taxonomy is skipped, an empty name too; any other name is looked up with
   * `term_exists` and inserted at the top level when it is missing; a refused
   * insert ends the loop with the WP_Error.
   */
  function ResolveTerms(terms: seq<Term>, refused: set<string>, taxonomy: string, refs: seq<TermRef>): (r: Resolved)
    ensures |terms| <= |r.terms| && r.terms[..|terms|] == terms
    ensures IdsIn(r.terms, r.ids, taxonomy)
    decreases |refs|
  {
    if refs == [] then Resolved(terms, [], false)
    else match refs[0]
      case ById(id) =>
        var rest := ResolveTerms(terms, refused, taxonomy, refs[1..]);
        if 0 < id <= |terms| && terms[id - 1].taxonomy == taxonomy then
          IdsInCons(terms, rest.terms, id, rest.ids, taxonomy);
          Resolved(rest.terms, [id] + rest.ids, rest.failed)
        else rest
      case ByName(name) =>
        if name == "" then ResolveTerms(terms, refused, taxonomy, refs[1..])
        else
          var m := GetOrCreate(terms, refused, name, taxonomy, None, 0);
          if m.id == 0 then Resolved(terms, [], true)
          else
            var rest := ResolveTerms(m.terms, refused, taxonomy, refs[1..]);
            PrefixTrans(terms, m.terms, rest.terms);
            IdsInCons(m.terms, rest.terms, m.id, rest.ids, taxonomy);
            Resolved(rest.terms, [m.id] + rest.ids, rest.failed)
  }

  /**
   * `wp_set_object_terms($object, $refs, $taxonomy, $append)` as WordPress
   * runs it: the resolved ids are added after the old ones or, without append,
   * replace them; after a WP_Error the ids resolved before it stay added and
   * the old ones are kept.
   */
  function SetObjectTermsWith(terms: seq<Term>, refused: set<string>, ot: map<(string, string), seq<nat>>,
                              sku: string, taxonomy: string, refs: seq<TermRef>, append: bool)
    : (r: (seq<Term>, map<(string, string), seq<nat>>))
    ensures |terms| <= |r.0| && r.0[..|terms|] == terms
    ensures r.1.Keys == ot.Keys + {(sku, taxonomy)}
    ensures forall k :: k in ot && k != (sku, taxonomy) ==> r.1[k] == ot[k]
  {
    var res := ResolveTerms(terms, refused, taxonomy, refs);
    var have := Assigned(ot, sku, taxonomy);
    (res.terms, ot[(sku, taxonomy) := if append || res.failed then AppendTerms(have, res.ids) else res.ids])
  }

  /**
   * Handed int ids of existing terms, `wp_set_object_terms` creates nothing
   * and assigns exactly those ids, which is what `Site.SetObjectTerms` models.
   */
  lemma {:induction false} SetObjectTermsByIds(terms: seq<Term>, refused: set<string>,
                                               ot: map<(string, string), seq<nat>>, sku: string, taxonomy: string,
                                               ids: seq<nat>, append: bool)
    requires IdsIn(terms, ids, taxonomy)
    ensures SetObjectTermsWith(terms, refused, ot, sku, taxonomy, seq(|ids|, i requires 0 <= i < |ids| => ById(ids[i])), append)
         == (terms, ot[(sku, taxonomy) := if append then AppendTerms(Assigned(ot, sku, taxonomy), ids) else ids])
  {
    ResolveByIds(terms, refused, taxonomy, ids);
  }

  lemma {:induction false} ResolveByIds(terms: seq<Term>, refused: set<string>, taxonomy: string, ids: seq<nat>)
    requires IdsIn(terms, ids, taxonomy)
    ensures ResolveTerms(terms, refused, taxonomy, seq(|ids|, i requires 0 <= i < |ids| => ById(ids[i])))
         == Resolved(terms, ids, false)
    decreases |ids|
  {
    var refs := seq(|ids|, i requires 0 <= i < |ids| => ById(ids[i]));
    if ids != [] {
      var tail := seq(|ids| - 1, i requires 0 <= i < |ids| - 1 => ById(ids[1..][i]));
      assert refs[1..] == tail;
      ResolveByIds(terms, refused, taxonomy, ids[1..]);
      assert [ids[0]] + ids[1..] == ids;
    }
  }

  /** The WordPress side of the shop. */
  class Site {
    var terms: seq<Term>
    var termMeta: seq<TermMeta>
    var objectTerms: map<(string, string), seq<nat>>
    var attachments: seq<string>
    var thumbnails: map<string, nat>
    var galleries: map<string, seq<nat>>
    var attributeMeta: map<string, seq<AttributeMeta>>
    var attributeSlugs: seq<string>
    var taxonomies: set<string>
    /** Term names `wp_insert_term` rejects with a WP_Error for reasons outside this model. */
    const refusedTerms: set<string>
    /** Attribute slugs `wc_create_attribute` rejects. */
    const refusedAttributes: set<string>
    /** URLs and remote file paths whose download (and upload into the media library) succeeds. */
    const reachable: set<string>

    constructor (refusedTerms: set<string>, refusedAttributes: set<string>, reachable: set<string>)
      ensures terms == [] && termMeta == [] && objectTerms == map[] && attachments == []
      ensures thumbnails == map[] && galleries == map[] && attributeMeta == map[]
      ensures attributeSlugs == [] && taxonomies == {}
      ensures this.refusedTerms == refusedTerms && this.refusedAttributes == refusedAttributes
      ensures this.reachable == reachable
    {
      terms, termMeta, objectTerms, attachments := [], [], map[], [];
      thumbnails, galleries, attributeMeta := map[], map[], map[];
      attributeSlugs, taxonomies := [], {};
      this.refusedTerms, this.refusedAttributes, this.reachable := refusedTerms, refusedAttributes, reachable;
    }

    /**
     * `wp_insert_term` returns a WP_Error: an empty name, a name refused
     * outright, a parent that does not exist, or a sibling with the same name.
     */
    predicate InsertRefused(name: string, taxonomy: string, parent: nat)
      reads this
    {
      Refused(terms, refusedTerms, name, taxonomy, parent)
    }

    /** `wp_insert_term($name, $taxonomy, ['parent' => $parent])`; 0 stands for the WP_Error. */
    method InsertTerm(name: string, taxonomy: string, parent: nat) returns (id: nat)
      modifies this`terms
      ensures id == 0 <==> old(InsertRefused(name, taxonomy, parent))
      ensures id == 0 ==> terms == old(terms)
      ensures id > 0 ==> terms == old(terms) + [Term(name, taxonomy, parent)] && id == |terms|
    {
      if InsertRefused(name, taxonomy, parent) {
        id := 0;
      } else {
        terms := terms + [Term(name, taxonomy, parent)];
        id := |terms|;
      }
    }

    /**
     * Get-or-create: the first term with this name (under `lookup`, when
     * given) or else a new one under `parent`; 0 when the insert is refused.
     */
    method EnsureTerm(name: string, taxonomy: string, lookup: Option<nat>, parent: nat) returns (id: nat)
      modifies this`terms
      ensures TermResult(terms, id) == GetOrCreate(old(terms), refusedTerms, name, taxonomy, lookup, parent)
    {
      id := FindTerm(terms, name, taxonomy, lookup);
      if id == 0 {
        id := InsertTerm(name, taxonomy, parent);
      }
    }

    /** `update_term_meta($id, $key, $value)`. */
    method SetTermMeta(id: nat, key: string, value: string)
      modifies this`termMeta
      ensures termMeta == PutTermMeta(old(termMeta), id, key, value)
    {
      termMeta := PutTermMeta(termMeta, id, key, value);
    }

    /** `wp_set_object_terms($product, $ids, $taxonomy, $append)`. */
    method SetObjectTerms(sku: string, taxonomy: string, ids: seq<nat>, append: bool)
      modifies this`objectTerms
      ensures objectTerms == old(objectTerms)[(sku, taxonomy) :=
        if append then AppendTerms(Assigned(old(objectTerms), sku, taxonomy), ids) else ids]
    {
      var have := Assigned(objectTerms, sku, taxonomy);
      objectTerms := objectTerms[(sku, taxonomy) := if append then AppendTerms(have, ids) else ids];
    }

    /** A new attachment whose stored file name is `file`; its id is its position plus one. */
    method AddAttachment(file: string) returns (id: nat)
      modifies this`attachments
      ensures attachments == old(attachments) + [file] && id == |attachments| && id > 0
    {
      attachments := attachments + [file];
      id := |attachments|;
    }

    /**
     * The featured image is the first id; the gallery the remaining ones, and
     * only when there are at least two (a single image leaves the gallery as it was).
     */
    method SetImages(sku: string, ids: seq<nat>)
      requires ids != []
      modifies this`thumbnails, this`galleries
      ensures thumbnails == old(thumbnails)[sku := ids[0]]
      ensures galleries == if |ids| > 1 then old(galleries)[sku := ids[1..]] else old(galleries)
    {
      thumbnails := thumbnails[sku := ids[0]];
      if |ids| > 1 {
        galleries := galleries[sku := ids[1..]];
      }
    }
  }

  /** The catalog after a run of records and the outcome of each record, in order. */
  datatype Run = Run(products: map<string, Product>, outcomes: seq<Outcome>)

  /** The catalog after one record and that record's outcome. */
  datatype Step = Step(products: map<string, Product>, outcome: Outcome)

  /**
   * `wp_insert_term` returns a WP_Error: an empty name, a name refused
   * outright, a parent that does not exist, or a sibling with the same name.
   */
  predicate Refused(terms: seq<Term>, refused: set<string>, name: string, taxonomy: string, parent: nat)
  {
    name == "" || name in refused || parent > |terms| || FindTerm(terms, name, taxonomy, Some(parent)) > 0
  }

  /** The terms after a get-or-create and the id it yields (0: the insert was refused). */
  datatype TermResult = TermResult(terms: seq<Term>, id: nat)

  /**
   * `term_exists($name, $taxonomy[, $lookup])`, and when that finds nothing,
   * `wp_insert_term($name, $taxonomy, ['parent' => $parent])`.
   */
  function GetOrCreate(terms: seq<Term>, refused: set<string>, name: string, taxonomy: string,
                       lookup: Option<nat>, parent: nat): (r: TermResult)
    ensures r.id <= |r.terms|
    ensures r.id > 0 ==> r.terms[r.id - 1].name == name && r.terms[r.id - 1].taxonomy == taxonomy
    ensures r.terms == terms || (r.terms == terms + [Term(name, taxonomy, parent)] && r.id == |r.terms|)
    ensures r.id == 0 <==> FindTerm(terms, name, taxonomy, lookup) == 0 && Refused(terms, refused, name, taxonomy, parent)
    ensures FindTerm(terms, name, taxonomy, lookup) > 0 ==> r == TermResult(terms, FindTerm(terms, name, taxonomy, lookup))
    ensures r.id > 0 && lookup == Some(parent) ==> r.terms[r.id - 1].parent == parent
  {
    var k := FindTerm(terms, name, taxonomy, lookup);
    if k > 0 then TermResult(terms, k)
    else if Refused(terms, refused, name, taxonomy, parent) then TermResult(terms, 0)
    else TermResult(terms + [Term(name, taxonomy, parent)], |terms| + 1)
  }

  /**
   * Get-or-create settles: asking again for the same name finds the term the
   * first call found or created, and creates nothing (when the lookup is
   * the parent the term was created under, or any parent).
   */
  lemma GetOrCreateAgain(terms: seq<Term>, refused: set<string>, name: string, taxonomy: string,
                         lookup: Option<nat>, parent: nat)
    requires lookup.None? || lookup == Some(parent)
    ensures var r := GetOrCreate(terms, refused, name, taxonomy, lookup, parent);
      r.id > 0 ==> GetOrCreate(r.terms, refused, name, taxonomy, lookup, parent) == r
  {
    var r := GetOrCreate(terms, refused, name, taxonomy, lookup, parent);
    if r.id > 0 && FindTerm(terms, name, taxonomy, lookup) == 0 {
      assert TermIs(r.terms[|terms|], name, taxonomy, lookup);
      assert forall j :: 0 <= j < |terms| ==> r.terms[j] == terms[j];
    }
  }

  /** Adding terms does not change which term a lookup finds first, once it finds one. */
  lemma FindTermExtend(ts: seq<Term>, more: seq<Term>, name: string, taxonomy: string, parent: Option<nat>)
    requires FindTerm(ts, name, taxonomy, parent) > 0
    ensures FindTerm(ts + more, name, taxonomy, parent) == FindTerm(ts, name, taxonomy, parent)
  {
    var k := FindTerm(ts, name, taxonomy, parent);
    var k' := FindTerm(ts + more, name, taxonomy, parent);
    assert (ts + more)[k - 1] == ts[k - 1];
  }

  /** A term appended after a failed lookup is found exactly when it matches. */
  lemma {:induction false} FindTermSnoc(ts: seq<Term>, t: Term, name: string, taxonomy: string, parent: Option<nat>)
    requires FindTerm(ts, name, taxonomy, parent) == 0
    ensures FindTerm(ts + [t], name, taxonomy, parent) == if TermIs(t, name, taxonomy, parent) then |ts| + 1 else 0
  {
    var k := FindTerm(ts + [t], name, taxonomy, parent);
    assert (ts + [t])[|ts|] == t;
  }

  /** `wp_set_object_terms` handed one name that no term of the taxonomy has inserts it and assigns it. */
  lemma {:induction false} ResolveNewName(terms: seq<Term>, refused: set<string>, taxonomy: string, name: string)
    requires name != "" && name !in refused && FindTerm(terms, name, taxonomy, None) == 0
    ensures ResolveTerms(terms, refused, taxonomy, [ByName(name)])
         == Resolved(terms + [Term(name, taxonomy, 0)], [|terms| + 1], false)
  {
    assert FindTerm(terms, name, taxonomy, Some(0)) == 0;
    var t := terms + [Term(name, taxonomy, 0)];
    assert ResolveTerms(t, refused, taxonomy, []) == Resolved(t, [], false);
  }

  /**
   * The `term_id` a get-or-create hands on, as `wp_set_object_terms` reads it:
   * for a term `term_exists` found (one of `before`), the string of digits it
   * returns, read as a name; for a term `wp_insert_term` created, the int id.
   */
  function PassedId(m: TermResult, before: seq<Term>): TermRef
  {
    if m.id <= |before| then ByName(Decimal(m.id)) else ById(m.id)
  }

  lemma SnocTwice(ts: seq<Term>, a: Term, b: Term)
    ensures ts + [a] + [b] == ts + [a, b]
  {
  }

  lemma UpdateTwice(m: map<(string, string), seq<nat>>, key: (string, string), v: seq<nat>, w: seq<nat>)
    ensures m[key := v][key := w] == m[key := w]
  {
  }

  /** The terms of a taxonomy assigned to a product. */
  function Assigned(m: map<(string, string), seq<nat>>, sku: string, taxonomy: string): seq<nat>
  {
    if (sku, taxonomy) in m then m[(sku, taxonomy)] else []
  }
}
