// Product images: PAR's download of every URL into the media library, and
// the Macma / Inspirion `import_image`, which reuses an attachment whose
// stored file name ends with the image's base name.

module Media {
  import opened Php
  import opened Records
  import opened Shop

  /** The URLs whose download succeeds, in order. */
  function Downloadable(urls: seq<string>, reachable: set<string>): (r: seq<string>)
    ensures |r| <= |urls|
  {
    if urls == [] then []
    else
      var last := urls[|urls| - 1];
      Downloadable(urls[..|urls| - 1], reachable) + (if last in reachable then [last] else [])
  }

  function BaseNames(urls: seq<string>): (r: seq<string>)
    ensures |r| == |urls|
  {
    if urls == [] then [] else BaseNames(urls[..|urls| - 1]) + [Basename(urls[|urls| - 1])]
  }

  /** The URLs among one more that download: those among the earlier ones, then this one if it downloads. */
  lemma DownloadableSnoc(urls: seq<string>, i: nat, reachable: set<string>)
    requires i < |urls|
    ensures Downloadable(urls[..i + 1], reachable)
         == Downloadable(urls[..i], reachable) + (if urls[i] in reachable then [urls[i]] else [])
  {
    assert urls[..i + 1][..i] == urls[..i];
  }

  /** The base names of one more URL end with that URL's base name. */
  lemma BaseNamesSnoc(urls: seq<string>, url: string)
    ensures BaseNames(urls + [url]) == BaseNames(urls) + [Basename(url)]
  {
    assert (urls + [url])[..|urls|] == urls;
  }

  /** The ids from..from+n-1, the ids of n attachments added in a row. */
  function Ids(from: nat, n: nat): (r: seq<nat>)
    ensures |r| == n && forall i :: 0 <= i < n ==> r[i] == from + i
  {
    if n == 0 then [] else Ids(from, n - 1) + [from + n - 1]
  }

  /**
   * What PAR's `import_product_images` leaves behind, from attachments a0,
   * featured images t0 and galleries g0: every URL that downloads became a new
   * attachment; the first of them is the featured image and, when there are
   * several, the others the gallery.
   */
  ghost predicate Downloaded(site: Site, a0: seq<string>, t0: map<string, nat>, g0: map<string, seq<nat>>,
                             sku: string, urls: seq<string>)
    reads site
  {
    var n := |Downloadable(urls, site.reachable)|;
    var ids := Ids(|a0| + 1, n);
    && site.attachments == a0 + BaseNames(Downloadable(urls, site.reachable))
    && site.thumbnails == (if n > 0 then t0[sku := ids[0]] else t0)
    && site.galleries == (if n > 1 then g0[sku := ids[1..]] else g0)
  }

  /** PAR's `import_product_images`. */
  method DownloadImages(site: Site, sku: string, urls: seq<string>)
    modifies site`attachments, site`thumbnails, site`galleries
    ensures Downloaded(site, old(site.attachments), old(site.thumbnails), old(site.galleries), sku, urls)
  {
    var ids := DownloadAll(site, urls);
    if ids != [] {
      site.SetImages(sku, ids);
    }
  }

  /** The download loop of `import_product_images`: one new attachment per URL that downloads. */
  method DownloadAll(site: Site, urls: seq<string>) returns (ids: seq<nat>)
    modifies site`attachments
    ensures site.attachments == old(site.attachments) + BaseNames(Downloadable(urls, site.reachable))
    ensures ids == Ids(|old(site.attachments)| + 1, |Downloadable(urls, site.reachable)|)
  {
    ids := [];
    var i := 0;
    ghost var a0 := site.attachments;
    ghost var done: seq<string> := [];
    while i < |urls|
      invariant i <= |urls| && done == Downloadable(urls[..i], site.reachable)
      invariant site.attachments == a0 + BaseNames(done)
      invariant ids == Ids(|a0| + 1, |done|)
    {
      DownloadableSnoc(urls, i, site.reachable);
      if urls[i] in site.reachable {
        BaseNamesSnoc(done, urls[i]);
        var id := site.AddAttachment(Basename(urls[i]));
        ids := ids + [id];
        done := done + [urls[i]];
      }
      i := i + 1;
    }
    assert urls[..|urls|] == urls;
  }

  /** The state `import_image` works on: the attachments' stored file names. */
  datatype ImageStep = ImageStep(attachments: seq<string>, id: nat)

  /**
   * `import_image($url)`: an attachment whose stored name ends with the
   * URL's base name is reused; otherwise a reachable URL is downloaded into a
   * new attachment; otherwise the result is false (0).
   */
  function ImportImage(atts: seq<string>, url: string, reachable: set<string>): (r: ImageStep)
    ensures r.id <= |r.attachments|
    ensures r.id > 0 ==> EndsWith(r.attachments[r.id - 1], Basename(url))
    ensures r.attachments == atts || (url in reachable && r.attachments == atts + [Basename(url)])
    ensures r.id == 0 <==> url !in reachable && forall j :: 0 <= j < |atts| ==> !EndsWith(atts[j], Basename(url))
  {
    var name := Basename(url);
    var k := FirstWhere(atts, (a: string) => EndsWith(a, name));
    if k > 0 then ImageStep(atts, k)
    else if url in reachable then
      assert EndsWith(name, name);
      ImageStep(atts + [name], |atts| + 1)
    else ImageStep(atts, 0)
  }

  /** The attachments after importing a list of URLs, and the ids obtained (failures dropped). */
  datatype ImagesResult = ImagesResult(attachments: seq<string>, ids: seq<nat>)

  function ImportAll(atts: seq<string>, urls: seq<string>, reachable: set<string>): (r: ImagesResult)
    ensures |atts| <= |r.attachments| && r.attachments[..|atts|] == atts
    ensures forall k :: 0 <= k < |r.ids| ==> 0 < r.ids[k] <= |r.attachments|
  {
    if urls == [] then ImagesResult(atts, [])
    else
      var prev := ImportAll(atts, urls[..|urls| - 1], reachable);
      var step := ImportImage(prev.attachments, urls[|urls| - 1], reachable);
      assert step.attachments[..|atts|] == prev.attachments[..|atts|];
      ImagesResult(step.attachments, prev.ids + (if step.id > 0 then [step.id] else []))
  }

  /** Some attachment's stored name ends with `name`. */
  predicate HasFileFor(atts: seq<string>, name: string)
  {
    exists j :: 0 <= j < |atts| && EndsWith(atts[j], name)
  }

  /** After an import every reachable URL has an attachment whose name ends with its base name. */
  lemma {:induction false} ImportAllCovers(atts: seq<string>, urls: seq<string>, reachable: set<string>, u: string)
    requires u in urls && u in reachable
    ensures HasFileFor(ImportAll(atts, urls, reachable).attachments, Basename(u))
  {
    var prev := ImportAll(atts, urls[..|urls| - 1], reachable);
    var step := ImportImage(prev.attachments, urls[|urls| - 1], reachable);
    assert ImportAll(atts, urls, reachable).attachments == step.attachments;
    if u == urls[|urls| - 1] {
      assert step.id > 0;
      assert EndsWith(step.attachments[step.id - 1], Basename(u));
    } else {
      assert u in urls[..|urls| - 1];
      ImportAllCovers(atts, urls[..|urls| - 1], reachable, u);
      var j :| 0 <= j < |prev.attachments| && EndsWith(prev.attachments[j], Basename(u));
      assert step.attachments[j] == prev.attachments[j];
    }
  }

  /**
   * Importing the same images a second time adds nothing to the media
   * library: every URL either finds its earlier attachment or cannot be downloaded.
   */
  lemma {:induction false} ImportAllAgain(atts: seq<string>, urls: seq<string>, reachable: set<string>)
    ensures var once := ImportAll(atts, urls, reachable).attachments;
      ImportAll(once, urls, reachable).attachments == once
  {
    var once := ImportAll(atts, urls, reachable).attachments;
    forall u | u in urls && u in reachable
      ensures HasFileFor(once, Basename(u))
    {
      ImportAllCovers(atts, urls, reachable, u);
    }
    ImportAllStable(once, urls, urls, reachable);
  }

  lemma {:induction false} ImportAllStable(atts: seq<string>, urls: seq<string>, all: seq<string>, reachable: set<string>)
    requires forall u :: u in urls ==> u in all
    requires forall u :: u in all && u in reachable ==> HasFileFor(atts, Basename(u))
    ensures ImportAll(atts, urls, reachable).attachments == atts
  {
    if urls != [] {
      ImportAllStable(atts, urls[..|urls| - 1], all, reachable);
      var u := urls[|urls| - 1];
      if u in reachable {
        var j :| 0 <= j < |atts| && EndsWith(atts[j], Basename(u));
        assert FirstWhere(atts, (a: string) => EndsWith(a, Basename(u))) > 0;
      }
    }
  }

  /** `import_image` on the site. */
  method ImportImageInto(site: Site, url: string) returns (id: nat)
    modifies site`attachments
    ensures ImageStep(site.attachments, id) == ImportImage(old(site.attachments), url, site.reachable)
  {
    var name := Basename(url);
    var k := FirstWhere(site.attachments, (a: string) => EndsWith(a, name));
    if k > 0 {
      id := k;
    } else if url in site.reachable {
      id := site.AddAttachment(name);
    } else {
      id := 0;
    }
  }

  /**
   * What the image loop shared by Macma's `add_product_images` and
   * Inspirion's `import_product_images` leaves behind: each URL imported in
   * turn; the first id obtained is the featured image and, when there are
   * several, the others the gallery.
   */
  ghost predicate ImagesImported(site: Site, a0: seq<string>, t0: map<string, nat>, g0: map<string, seq<nat>>,
                                 sku: string, urls: seq<string>)
    reads site`attachments, site`thumbnails, site`galleries
  {
    ImagesFrom(site.attachments, site.thumbnails, site.galleries, a0, t0, g0, sku, urls, site.reachable)
  }

  /** The same, for attachments a, featured images t and galleries g found after the loop. */
  ghost predicate ImagesFrom(a: seq<string>, t: map<string, nat>, g: map<string, seq<nat>>,
                             a0: seq<string>, t0: map<string, nat>, g0: map<string, seq<nat>>,
                             sku: string, urls: seq<string>, reachable: set<string>)
  {
    var r := ImportAll(a0, urls, reachable);
    && a == r.attachments
    && t == (if r.ids != [] then t0[sku := r.ids[0]] else t0)
    && g == (if |r.ids| > 1 then g0[sku := r.ids[1..]] else g0)
  }

  method ImportImagesInto(site: Site, sku: string, urls: seq<string>)
    modifies site`attachments, site`thumbnails, site`galleries
    ensures ImagesImported(site, old(site.attachments), old(site.thumbnails), old(site.galleries), sku, urls)
  {
    var ids := ImportEach(site, urls);
    if ids != [] {
      site.SetImages(sku, ids);
    }
  }

  /** The loop of `import_image` calls, keeping the ids that came back. */
  method ImportEach(site: Site, urls: seq<string>) returns (ids: seq<nat>)
    modifies site`attachments
    ensures ImagesResult(site.attachments, ids) == ImportAll(old(site.attachments), urls, site.reachable)
  {
    ids := [];
    var i := 0;
    while i < |urls|
      invariant 0 <= i <= |urls|
      invariant ImagesResult(site.attachments, ids) == ImportAll(old(site.attachments), urls[..i], site.reachable)
    {
      assert urls[..i + 1][..i] == urls[..i];
      var id := ImportImageInto(site, urls[i]);
      if id > 0 {
        ids := ids + [id];
      }
      i := i + 1;
    }
    assert urls[..|urls|] == urls;
  }
}
