// The plugin's standard product attributes: creating the global attribute
// taxonomies, mapping a supplier record onto them, and attaching the mapped
// values to a product as taxonomy terms.

module Attributes {
  import opened Php
  import opened Records
  import opened Shop

  /** The standard attributes, slug and label, in the order they are created. */
  const Standard: seq<(string, string)> := [
    ("kolor", "Kolor"),
    ("material", "Materiał"),
    ("rozmiar", "Rozmiar"),
    ("waga", "Waga"),
    ("pojemnosc", "Pojemność"),
    ("wymiary", "Wymiary"),
    ("czas_nadruku", "Czas nadruku"),
    ("technika_nadruku", "Technika nadruku"),
    ("minimalne_zamowienie", "Minimalne zamówienie"),
    ("kraj_pochodzenia", "Kraj pochodzenia"),
    ("certyfikaty", "Certyfikaty"),
    ("opakowanie", "Opakowanie"),
    ("gwarancja", "Gwarancja")
  ]

  /** `wc_attribute_taxonomy_name($slug)`. */
  function TaxonomyOf(slug: string): (t: string)
    ensures StartsWith(t, "pa_") && t[3..] == slug
  {
    "pa_" + slug
  }

  /** No two entries share a key, as in every PHP array. */
  predicate DistinctKeys(pairs: seq<(string, string)>)
  {
    forall i, j :: 0 <= i < j < |pairs| ==> pairs[i].0 != pairs[j].0
  }

  /** The standard slugs `init_attributes` tries to create: the missing ones, in order. */
  function ToCreate(std: seq<(string, string)>, existing: seq<string>): seq<string>
  {
    if std == [] then []
    else (if std[0].0 in existing then [] else [std[0].0]) + ToCreate(std[1..], existing)
  }

  /** Those of the requested slugs that `wc_create_attribute` accepts. */
  function Accepted(slugs: seq<string>, refused: set<string>): seq<string>
  {
    if slugs == [] then []
    else (if slugs[0] in refused then [] else [slugs[0]]) + Accepted(slugs[1..], refused)
  }

  /** A slug is to be created exactly when it is a standard slug not yet present. */
  lemma {:induction false} ToCreateMembers(std: seq<(string, string)>, existing: seq<string>, s: string)
    ensures s in ToCreate(std, existing) <==> (exists i :: 0 <= i < |std| && std[i].0 == s) && s !in existing
  {
    if std != [] {
      ToCreateMembers(std[1..], existing, s);
      if exists i :: 0 <= i < |std| && std[i].0 == s {
        var i :| 0 <= i < |std| && std[i].0 == s;
        if i > 0 {
          assert std[1..][i - 1].0 == s;
        }
      }
    }
  }

  /** Exactly the slugs not refused are accepted. */
  lemma {:induction false} AcceptedMembers(slugs: seq<string>, refused: set<string>, s: string)
    ensures s in Accepted(slugs, refused) <==> s in slugs && s !in refused
  {
    if slugs != [] {
      AcceptedMembers(slugs[1..], refused, s);
    }
  }

  /**
   * After `init_attributes` every standard slug is registered unless the
   * platform refused it, so a second call creates nothing.
   */
  lemma {:induction false} InitSettles(existing: seq<string>, refused: set<string>)
    ensures Accepted(ToCreate(Standard, existing + Accepted(ToCreate(Standard, existing), refused)), refused) == []
  {
    var after := existing + Accepted(ToCreate(Standard, existing), refused);
    var again := ToCreate(Standard, after);
    forall s | s in again
      ensures s in refused
    {
      ToCreateMembers(Standard, after, s);
      ToCreateMembers(Standard, existing, s);
      AcceptedMembers(ToCreate(Standard, existing), refused, s);
    }
    AcceptedNone(again, refused);
  }

  lemma {:induction false} AcceptedNone(slugs: seq<string>, refused: set<string>)
    requires forall s :: s in slugs ==> s in refused
    ensures Accepted(slugs, refused) == []
  {
    if slugs != [] {
      AcceptedNone(slugs[1..], refused);
    }
  }

  /** The `pa_` taxonomies of a list of slugs. */
  function Registered(slugs: seq<string>): (r: set<string>)
    ensures forall s :: s in slugs ==> TaxonomyOf(s) in r
  {
    if slugs == [] then {} else Registered(slugs[..|slugs| - 1]) + {TaxonomyOf(slugs[|slugs| - 1])}
  }

  /** Registering one more slug adds its taxonomy. */
  lemma RegisteredSnoc(slugs: seq<string>, slug: string)
    ensures Registered(slugs + [slug]) == Registered(slugs) + {TaxonomyOf(slug)}
  {
    assert (slugs + [slug])[..|slugs|] == slugs;
  }

  /**
   * `init_attributes`: every standard slug missing from the attribute list is
   * created (unless refused) and its `pa_` taxonomy registered.
   */
  method InitAttributes(site: Site)
    modifies site`attributeSlugs, site`taxonomies
    ensures site.attributeSlugs == old(site.attributeSlugs) + Accepted(ToCreate(Standard, old(site.attributeSlugs)), site.refusedAttributes)
    ensures site.taxonomies == old(site.taxonomies) + Registered(Accepted(ToCreate(Standard, old(site.attributeSlugs)), site.refusedAttributes))
  {
    CreateMissing(site, Standard);
  }

  /** The loop of `init_attributes` over a list of (slug, label) pairs. */
  method CreateMissing(site: Site, std: seq<(string, string)>)
    modifies site`attributeSlugs, site`taxonomies
    ensures site.attributeSlugs == old(site.attributeSlugs) + Accepted(ToCreate(std, old(site.attributeSlugs)), site.refusedAttributes)
    ensures site.taxonomies == old(site.taxonomies) + Registered(Accepted(ToCreate(std, old(site.attributeSlugs)), site.refusedAttributes))
  {
    var existing := site.attributeSlugs;
    var i := 0;
    ghost var created: seq<string> := [];
    assert std[..0] == [];
    while i < |std|
      invariant 0 <= i <= |std|
      invariant created == Accepted(ToCreate(std[..i], existing), site.refusedAttributes)
      invariant site.attributeSlugs == existing + created
      invariant site.taxonomies == old(site.taxonomies) + Registered(created)
    {
      created := CreateNext(site, std, i, existing, created, old(site.taxonomies));
      i := i + 1;
    }
    assert std[..|std|] == std;
  }

  /** One turn of the loop of `init_attributes`: the i-th slug is created when it is missing. */
  method CreateNext(site: Site, std: seq<(string, string)>, i: nat, existing: seq<string>,
                    ghost created: seq<string>, ghost t0: set<string>) returns (ghost created': seq<string>)
    requires i < |std| && created == Accepted(ToCreate(std[..i], existing), site.refusedAttributes)
    requires site.attributeSlugs == existing + created && site.taxonomies == t0 + Registered(created)
    modifies site`attributeSlugs, site`taxonomies
    ensures created' == Accepted(ToCreate(std[..i + 1], existing), site.refusedAttributes)
    ensures site.attributeSlugs == existing + created' && site.taxonomies == t0 + Registered(created')
  {
    var slug := std[i].0;
    NextCreated(std, i, existing, site.refusedAttributes);
    created' := created;
    if slug !in existing {
      var ok := CreateAttribute(site, slug);
      if ok {
        RegisteredSnoc(created, slug);
        created' := created + [slug];
      }
    }
  }

  lemma {:induction false} NextCreated(std: seq<(string, string)>, i: nat, existing: seq<string>, refused: set<string>)
    requires i < |std|
    ensures Accepted(ToCreate(std[..i + 1], existing), refused)
         == Accepted(ToCreate(std[..i], existing), refused)
          + (if std[i].0 in existing || std[i].0 in refused then [] else [std[i].0])
  {
    var want := if std[i].0 in existing then [] else [std[i].0];
    ToCreateSnoc(std[..i], std[i], existing);
    assert std[..i + 1] == std[..i] + [std[i]];
    AcceptedAppend(ToCreate(std[..i], existing), want, refused);
    assert Accepted(want, refused) == if std[i].0 in existing || std[i].0 in refused then [] else [std[i].0] by {
      if want != [] {
        assert want[1..] == [];
      }
    }
  }

  lemma {:induction false} ToCreateSnoc(std: seq<(string, string)>, e: (string, string), existing: seq<string>)
    ensures ToCreate(std + [e], existing) == ToCreate(std, existing) + (if e.0 in existing then [] else [e.0])
  {
    var t := if e.0 in existing then [] else [e.0];
    if std == [] {
      assert std + [e] == [e] && [e][1..] == [];
    } else {
      var h := if std[0].0 in existing then [] else [std[0].0];
      assert (std + [e])[0] == std[0] && (std + [e])[1..] == std[1..] + [e];
      ToCreateSnoc(std[1..], e, existing);
      assert ToCreate(std + [e], existing) == h + (ToCreate(std[1..], existing) + t);
      assert h + (ToCreate(std[1..], existing) + t) == (h + ToCreate(std[1..], existing)) + t;
    }
  }

  lemma {:induction false} AcceptedAppend(a: seq<string>, b: seq<string>, refused: set<string>)
    ensures Accepted(a + b, refused) == Accepted(a, refused) + Accepted(b, refused)
  {
    if a == [] {
      assert a + b == b;
    } else {
      var h := if a[0] in refused then [] else [a[0]];
      assert (a + b)[0] == a[0] && (a + b)[1..] == a[1..] + b;
      AcceptedAppend(a[1..], b, refused);
      assert Accepted(a + b, refused) == h + (Accepted(a[1..], refused) + Accepted(b, refused));
      assert h + (Accepted(a[1..], refused) + Accepted(b, refused)) == (h + Accepted(a[1..], refused)) + Accepted(b, refused);
    }
  }

  /** `create_attribute`: `wc_create_attribute`, then the taxonomy is registered. */
  method CreateAttribute(site: Site, slug: string) returns (ok: bool)
    modifies site`attributeSlugs, site`taxonomies
    ensures ok <==> slug !in site.refusedAttributes
    ensures site.attributeSlugs == if ok then old(site.attributeSlugs) + [slug] else old(site.attributeSlugs)
    ensures site.taxonomies == if ok then old(site.taxonomies) + {TaxonomyOf(slug)} else old(site.taxonomies)
  {
    if slug in site.refusedAttributes {
      return false;
    }
    site.attributeSlugs := site.attributeSlugs + [slug];
    site.taxonomies := site.taxonomies + {TaxonomyOf(slug)};
    return true;
  }

  /** The slug to record-field mapping every supplier gets by default. */
  const DefaultMapping: seq<(string, string)> := [
    ("kolor", "color"),
    ("material", "material"),
    ("rozmiar", "size"),
    ("waga", "weight"),
    ("pojemnosc", "capacity"),
    ("wymiary", "dimensions")
  ]

  /** `$default_mappings[$hurtownia_id]`: defined for hurtownia1 to hurtownia5 only. */
  function DefaultMappingFor(supplier: string): seq<(string, string)>
  {
    if supplier in {"hurtownia1", "hurtownia2", "hurtownia3", "hurtownia4", "hurtownia5"}
    then DefaultMapping else []
  }

  /** The mapped attributes: for each (slug, field) whose field is set and non-empty, (slug, value). */
  function MapPairs(mapping: seq<(string, string)>, r: Record): (out: seq<(string, string)>)
    ensures |out| <= |mapping|
    ensures forall p :: p in out ==>
      exists i :: 0 <= i < |mapping| && mapping[i].0 == p.0 && Filled(r, mapping[i].1) && p.1 == r.fields[mapping[i].1]
    ensures forall i :: 0 <= i < |mapping| && Filled(r, mapping[i].1) ==>
      (mapping[i].0, r.fields[mapping[i].1]) in out
    ensures forall p :: p in out ==> Truthy(p.1)
  {
    if mapping == [] then []
    else
      var rest := MapPairs(mapping[1..], r);
      var (slug, field) := mapping[0];
      if Filled(r, field) then [(slug, r.fields[field])] + rest else rest
  }

  /** An ordered filter keeps distinct keys distinct. */
  lemma {:induction false} MapPairsDistinct(mapping: seq<(string, string)>, r: Record)
    requires DistinctKeys(mapping)
    ensures DistinctKeys(MapPairs(mapping, r))
  {
    if mapping != [] {
      MapPairsDistinct(mapping[1..], r);
      var rest := MapPairs(mapping[1..], r);
      forall p | p in rest
        ensures p.0 != mapping[0].0
      {
        var i :| 0 <= i < |mapping[1..]| && mapping[1..][i].0 == p.0 && Filled(r, mapping[1..][i].1) && p.1 == r.fields[mapping[1..][i].1];
        assert mapping[i + 1].0 == p.0;
      }
    }
  }

  /**
   * `map_attributes($id, $product, $custom)`: a non-empty custom mapping
   * replaces the supplier's default one.
   */
  function MapAttributes(supplier: string, r: Record, custom: seq<(string, string)>): (out: seq<(string, string)>)
    ensures custom != [] ==> out == MapPairs(custom, r)
    ensures custom == [] ==> out == MapPairs(DefaultMappingFor(supplier), r)
  {
    MapPairs(if custom != [] then custom else DefaultMappingFor(supplier), r)
  }

  /** With the default mapping, a slug is mapped exactly when its field is set and non-empty. */
  lemma {:induction false} DefaultMappingExact(r: Record, slug: string, v: string)
    ensures (slug, v) in MapAttributes("hurtownia5", r, []) <==>
      exists i :: 0 <= i < |DefaultMapping| && DefaultMapping[i].0 == slug
        && Filled(r, DefaultMapping[i].1) && v == r.fields[DefaultMapping[i].1]
  {
    var out := MapAttributes("hurtownia5", r, []);
    assert out == MapPairs(DefaultMapping, r);
    if exists i :: 0 <= i < |DefaultMapping| && DefaultMapping[i].0 == slug
        && Filled(r, DefaultMapping[i].1) && v == r.fields[DefaultMapping[i].1] {
      var i :| 0 <= i < |DefaultMapping| && DefaultMapping[i].0 == slug
        && Filled(r, DefaultMapping[i].1) && v == r.fields[DefaultMapping[i].1];
      assert (DefaultMapping[i].0, r.fields[DefaultMapping[i].1]) in out;
    }
  }

  /** A supplier without a default mapping and no custom one maps nothing. */
  lemma {:induction false} UnknownSupplierMapsNothing(r: Record)
    ensures MapAttributes("hurtownia6", r, []) == []
  {
  }

  /**
   * Whether `add_attributes_to_product` attaches (slug, value): the value is
   * non-empty, the `pa_` taxonomy is registered, and a term with that name
   * exists in it or can be inserted.
   */
  predicate Attaches(p: (string, string), taxonomies: set<string>, terms: seq<Term>, refused: set<string>)
  {
    Truthy(p.1) && TaxonomyOf(p.0) in taxonomies
    && (FindTerm(terms, p.1, TaxonomyOf(p.0), None) > 0 || p.1 !in refused)
  }

  /** The `_product_attributes` entries for the attached pairs, numbered in order. */
  function AttributeRows(attrs: seq<(string, string)>, taxonomies: set<string>, terms: seq<Term>,
                         refused: set<string>, position: nat): (rows: seq<AttributeMeta>)
    ensures |rows| <= |attrs|
    ensures forall k :: 0 <= k < |rows| ==> rows[k].position == position + k
  {
    if attrs == [] then []
    else if Attaches(attrs[0], taxonomies, terms, refused) then
      [AttributeMeta(TaxonomyOf(attrs[0].0), position)]
        + AttributeRows(attrs[1..], taxonomies, terms, refused, position + 1)
    else AttributeRows(attrs[1..], taxonomies, terms, refused, position)
  }

  lemma {:induction false} AttributeRowsSnoc(attrs: seq<(string, string)>, p: (string, string), taxonomies: set<string>,
                                             terms: seq<Term>, refused: set<string>, position: nat)
    ensures AttributeRows(attrs + [p], taxonomies, terms, refused, position)
         == AttributeRows(attrs, taxonomies, terms, refused, position)
          + (if Attaches(p, taxonomies, terms, refused)
             then [AttributeMeta(TaxonomyOf(p.0), position + |AttributeRows(attrs, taxonomies, terms, refused, position)|)]
             else [])
  {
    if attrs == [] {
      assert [p][1..] == [];
    } else {
      assert (attrs + [p])[1..] == attrs[1..] + [p];
      if Attaches(attrs[0], taxonomies, terms, refused) {
        AttributeRowsSnoc(attrs[1..], p, taxonomies, terms, refused, position + 1);
      } else {
        AttributeRowsSnoc(attrs[1..], p, taxonomies, terms, refused, position);
      }
    }
  }

  /** One more pair of the loop of `add_attributes_to_product`. */
  lemma {:induction false} AttributeRowsStep(attrs: seq<(string, string)>, i: nat, taxonomies: set<string>,
                                             terms: seq<Term>, refused: set<string>)
    requires i < |attrs|
    ensures AttributeRows(attrs[..i + 1], taxonomies, terms, refused, 0)
         == AttributeRows(attrs[..i], taxonomies, terms, refused, 0)
          + (if Attaches(attrs[i], taxonomies, terms, refused)
             then [AttributeMeta(TaxonomyOf(attrs[i].0), |AttributeRows(attrs[..i], taxonomies, terms, refused, 0)|)]
             else [])
  {
    AttributeRowsSnoc(attrs[..i], attrs[i], taxonomies, terms, refused, 0);
    assert attrs[..i + 1] == attrs[..i] + [attrs[i]];
  }

  /** Terms added in other taxonomies do not change what a lookup in this one finds. */
  lemma {:induction false} FindTermPast(start: seq<Term>, added: seq<Term>, name: string, taxonomy: string)
    requires forall k :: 0 <= k < |added| ==> added[k].taxonomy != taxonomy
    ensures FindTerm(start + added, name, taxonomy, None) == FindTerm(start, name, taxonomy, None)
  {
    if start == [] {
      assert start + added == added;
    } else {
      assert (start + added)[1..] == start[1..] + added;
      FindTermPast(start[1..], added, name, taxonomy);
    }
  }

  /** Term id names `value` in the slug's taxonomy and was appended to the product's terms there. */
  ghost predicate AssignedTerm(site: Site, before: map<(string, string), seq<nat>>, sku: string, slug: string,
                               value: string, id: nat)
    reads site
  {
    0 < id <= |site.terms| && TermIs(site.terms[id - 1], value, TaxonomyOf(slug), None)
    && site.objectTerms == before[(sku, TaxonomyOf(slug)) := AppendTerms(Assigned(before, sku, TaxonomyOf(slug)), [id])]
  }

  /**
   * One pair of `add_attributes_to_product`: find the term by name or insert
   * it, then assign it to the product.
   */
  method AttachOne(site: Site, sku: string, slug: string, value: string) returns (attached: bool, ghost inserted: bool)
    modifies site`terms, site`objectTerms
    ensures attached == Attaches((slug, value), site.taxonomies, old(site.terms), site.refusedTerms)
    ensures site.terms == if inserted then old(site.terms) + [Term(value, TaxonomyOf(slug), 0)] else old(site.terms)
    ensures !attached ==> site.objectTerms == old(site.objectTerms)
    ensures attached ==> exists id :: AssignedTerm(site, old(site.objectTerms), sku, slug, value, id)
    ensures forall s :: Assigned(site.objectTerms, s, ProductCat) == Assigned(old(site.objectTerms), s, ProductCat)
  {
    inserted := false;
    var taxonomy := TaxonomyOf(slug);
    if !(Truthy(value) && taxonomy in site.taxonomies) {
      return false, inserted;
    }
    var id := FindTerm(site.terms, value, taxonomy, None);
    if id == 0 {
      assert FindTerm(site.terms, value, taxonomy, Some(0)) == 0;
      id := site.InsertTerm(value, taxonomy, 0);
      if id == 0 {
        return false, inserted;
      }
      inserted := true;
    }
    ghost var before := site.objectTerms;
    assert taxonomy != ProductCat by {
      assert taxonomy[1] == 'a' && ProductCat[1] == 'r';
    }
    site.SetObjectTerms(sku, taxonomy, [id], true);
    assert AssignedTerm(site, before, sku, slug, value, id);
    return true, inserted;
  }

  /** Each term in added was inserted for an earlier pair, the one at the same place in owners, in its taxonomy. */
  ghost predicate Owned(attrs: seq<(string, string)>, added: seq<Term>, owners: seq<nat>, i: nat)
  {
    |owners| == |added| &&
    forall k :: 0 <= k < |added| ==> owners[k] < i && owners[k] < |attrs| && added[k].taxonomy == TaxonomyOf(attrs[owners[k]].0)
  }

  /** Moving to the next pair keeps every term owned, also when that pair inserts one in its own taxonomy. */
  lemma OwnedNext(attrs: seq<(string, string)>, added: seq<Term>, owners: seq<nat>, i: nat, t: Term)
    requires i < |attrs| && Owned(attrs, added, owners, i)
    ensures Owned(attrs, added, owners, i + 1)
    ensures t.taxonomy == TaxonomyOf(attrs[i].0) ==> Owned(attrs, added + [t], owners + [i], i + 1)
  {
    if t.taxonomy == TaxonomyOf(attrs[i].0) {
      forall k | 0 <= k < |added| + 1
        ensures (owners + [i])[k] < i + 1 && (added + [t])[k].taxonomy == TaxonomyOf(attrs[(owners + [i])[k]].0)
      {
        if k < |added| {
          assert (owners + [i])[k] == owners[k] && (added + [t])[k] == added[k];
        }
      }
    }
  }

  /** Terms added for the earlier keys lie in other taxonomies than the current key's. */
  lemma {:induction false} OtherTaxonomies(attrs: seq<(string, string)>, i: nat, added: seq<Term>, owners: seq<nat>)
    requires DistinctKeys(attrs) && i < |attrs| && Owned(attrs, added, owners, i)
    ensures forall k :: 0 <= k < |added| ==> added[k].taxonomy != TaxonomyOf(attrs[i].0)
  {
    forall k | 0 <= k < |added|
      ensures added[k].taxonomy != TaxonomyOf(attrs[i].0)
    {
      assert TaxonomyOf(attrs[owners[k]].0)[3..] != TaxonomyOf(attrs[i].0)[3..];
    }
  }

  /**
   * `add_attributes_to_product`: for each pair that attaches, the term is
   * found or inserted and assigned, and the product's attribute meta lists
   * the taxonomies in order.  An unknown product is left alone.
   */
  method AddAttributesToProduct(site: Site, catalog: Catalog, sku: string, attrs: seq<(string, string)>)
    requires DistinctKeys(attrs)
    modifies site`terms, site`objectTerms, site`attributeMeta
    ensures !catalog.Loadable(sku) ==>
      site.terms == old(site.terms) && site.attributeMeta == old(site.attributeMeta) && site.objectTerms == old(site.objectTerms)
    ensures catalog.Loadable(sku) ==> site.attributeMeta == old(site.attributeMeta)[sku :=
      AttributeRows(attrs, site.taxonomies, old(site.terms), site.refusedTerms, 0)]
    ensures |old(site.terms)| <= |site.terms| && site.terms[..|old(site.terms)|] == old(site.terms)
    ensures forall s :: Assigned(site.objectTerms, s, ProductCat) == Assigned(old(site.objectTerms), s, ProductCat)
  {
    if !catalog.Loadable(sku) {
      return;
    }
    var rows := AttachAll(site, sku, attrs);
    site.attributeMeta := site.attributeMeta[sku := rows];
  }

  /** The loop of `add_attributes_to_product`: the meta entries of the pairs that attach. */
  method AttachAll(site: Site, sku: string, attrs: seq<(string, string)>) returns (rows: seq<AttributeMeta>)
    requires DistinctKeys(attrs)
    modifies site`terms, site`objectTerms
    ensures rows == AttributeRows(attrs, site.taxonomies, old(site.terms), site.refusedTerms, 0)
    ensures |old(site.terms)| <= |site.terms| && site.terms[..|old(site.terms)|] == old(site.terms)
    ensures forall s :: Assigned(site.objectTerms, s, ProductCat) == Assigned(old(site.objectTerms), s, ProductCat)
  {
    rows := [];
    var i := 0;
    ghost var start := site.terms;
    ghost var added: seq<Term> := [];
    ghost var owners: seq<nat> := [];
    while i < |attrs|
      invariant 0 <= i <= |attrs|
      invariant rows == AttributeRows(attrs[..i], site.taxonomies, start, site.refusedTerms, 0)
      invariant site.terms == start + added
      invariant Owned(attrs, added, owners, i)
      invariant forall s :: Assigned(site.objectTerms, s, ProductCat) == Assigned(old(site.objectTerms), s, ProductCat)
    {
      var (slug, value) := attrs[i];
      AttributeRowsStep(attrs, i, site.taxonomies, start, site.refusedTerms);
      OtherTaxonomies(attrs, i, added, owners);
      FindTermPast(start, added, value, TaxonomyOf(slug));
      ghost var attaches := Attaches(attrs[i], site.taxonomies, start, site.refusedTerms);
      assert Attaches(attrs[i], site.taxonomies, site.terms, site.refusedTerms) == attaches;
      var attached, inserted := AttachOne(site, sku, slug, value);
      OwnedNext(attrs, added, owners, i, Term(value, TaxonomyOf(slug), 0));
      if inserted {
        added := added + [Term(value, TaxonomyOf(slug), 0)];
        owners := owners + [i];
      }
      if attached {
        rows := rows + [AttributeMeta(TaxonomyOf(slug), |rows|)];
      }
      assert rows == AttributeRows(attrs[..i + 1], site.taxonomies, start, site.refusedTerms, 0);
      i := i + 1;
    }
    assert attrs[..|attrs|] == attrs;
  }
}
