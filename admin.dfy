// The admin side of the plugin: settings sanitisation, the dispatch of an
// import to the wholesaler's importer, the scheduled import of every enabled
// wholesaler, category get-or-create and the FTP image path.

module Admin {
  import opened Php
  import opened Shop

  const NotEnabled := "Hurtownia nie jest włączona."
  const NotImplemented := "Import z hurtowni 1 nie jest jeszcze zaimplementowany."
  const UnknownWholesaler := "Nieznana hurtownia."

  /** `#^https?://#`. */
  predicate HasScheme(v: string)
  {
    StartsWith(v, "http://") || StartsWith(v, "https://")
  }

  /** `preg_replace('#^https?://#', '', $value)`: one leading scheme is removed. */
  function StripScheme(v: string): (r: string)
    ensures StartsWith(v, "http://") ==> v == "http://" + r
    ensures StartsWith(v, "https://") ==> v == "https://" + r
    ensures !HasScheme(v) ==> r == v
  {
    if StartsWith(v, "http://") then
      assert v == v[..7] + v[7..];
      assert !StartsWith(v, "https://") by {
        assert v[4] == ':';
      }
      v[7..]
    else if StartsWith(v, "https://") then
      assert v == v[..8] + v[8..];
      v[8..]
    else v
  }

  /**
   * `trim($value, '/')`, then `'/' . $x . '/'` unless the trimmed value is
   * PHP-empty ('' and also '0', which stay as they are).
   */
  function NormalizePath(v: string): (r: string)
    ensures Empty(TrimSlashes(v)) ==> r == TrimSlashes(v)
    ensures Truthy(TrimSlashes(v)) ==> r == "/" + TrimSlashes(v) + "/"
  {
    var t := TrimSlashes(v);
    if Empty(t) then t else "/" + t + "/"
  }

  /** A normalised path is '', '0', or a non-empty path with exactly one slash at each end. */
  lemma NormalizePathShape(v: string)
    ensures var r := NormalizePath(v);
      Empty(r) ||
      (|r| >= 3 && r[0] == '/' && r[|r| - 1] == '/' && r[1] != '/' && r[|r| - 2] != '/')
  {
  }

  /** Normalising a normalised path changes nothing. */
  lemma NormalizePathIdempotent(v: string)
    ensures NormalizePath(NormalizePath(v)) == NormalizePath(v)
  {
    var t := TrimSlashes(v);
    if Empty(t) {
      TrimSlashesFixed(t);
    } else {
      TrimSlashesWrapped(t);
    }
  }

  /** `http://` is prefixed exactly when the value has no scheme. */
  function WithScheme(v: string): (r: string)
    ensures HasScheme(r)
    ensures HasScheme(v) ==> r == v
    ensures !HasScheme(v) ==> r == "http://" + v
  {
    if HasScheme(v) then v
    else
      assert ("http://" + v)[..7] == "http://";
      "http://" + v
  }

  /** The keys `sanitize_settings` treats specially. */
  predicate FtpHostKey(k: string)
  {
    k == "hurtownia4_ftp_host" || k == "hurtownia1_ftp_host"
  }

  predicate FtpPathKey(k: string)
  {
    k == "hurtownia4_ftp_path" || k == "hurtownia1_ftp_path"
  }

  predicate ApiUrlKey(k: string)
  {
    k == "hurtownia2_api_url" || k == "hurtownia3_api_url"
  }

  /** The value `sanitize_settings` stores under k; `text` is `sanitize_text_field`. */
  function SanitizeValue(k: string, v: string, text: string -> string): string
  {
    if FtpHostKey(k) then StripScheme(v)
    else if FtpPathKey(k) then NormalizePath(v)
    else if ApiUrlKey(k) then WithScheme(v)
    else text(v)
  }

  /**
   * `sanitize_settings($input)`: every input key and no other, each value
   * rewritten by the rule for its key.
   */
  function SanitizeSettings(input: map<string, string>, text: string -> string): (r: map<string, string>)
    ensures r.Keys == input.Keys
    ensures forall k :: k in r && FtpHostKey(k) ==>
      (input[k] == r[k] || input[k] == "http://" + r[k] || input[k] == "https://" + r[k])
      && (!HasScheme(input[k]) ==> r[k] == input[k])
    ensures forall k :: k in r && FtpPathKey(k) ==>
      Empty(r[k]) || r[k] == "/" + TrimSlashes(input[k]) + "/"
    ensures forall k :: k in r && ApiUrlKey(k) ==>
      HasScheme(r[k]) && (HasScheme(input[k]) ==> r[k] == input[k]) && (!HasScheme(input[k]) ==> r[k] == "http://" + input[k])
    ensures forall k :: k in r && !FtpHostKey(k) && !FtpPathKey(k) && !ApiUrlKey(k) ==> r[k] == text(input[k])
  {
    map k | k in input :: SanitizeValue(k, input[k], text)
  }

  /**
   * Saving the sanitised settings and sanitising them again changes nothing,
   * for a `sanitize_text_field` that is itself idempotent and FTP hosts that
   * do not carry two schemes.
   */
  lemma SanitizeSettingsIdempotent(input: map<string, string>, text: string -> string)
    requires forall v :: text(text(v)) == text(v)
    requires forall k :: k in input && FtpHostKey(k) ==> !HasScheme(StripScheme(input[k]))
    ensures SanitizeSettings(SanitizeSettings(input, text), text) == SanitizeSettings(input, text)
  {
    var once := SanitizeSettings(input, text);
    var twice := SanitizeSettings(once, text);
    forall k | k in once
      ensures twice[k] == once[k]
    {
      assert once[k] == SanitizeValue(k, input[k], text);
      assert twice[k] == SanitizeValue(k, once[k], text);
      if FtpHostKey(k) {
        HostIdempotent(input[k]);
      } else if FtpPathKey(k) {
        NormalizePathIdempotent(input[k]);
      } else if !ApiUrlKey(k) {
        assert text(text(input[k])) == text(input[k]);
      }
    }
    assert twice.Keys == once.Keys;
  }

  /**
   * Stripping the scheme again changes nothing, unless the host itself began
   * with a second scheme (`http://http://h`), which the single replacement
   * leaves in place.
   */
  lemma HostIdempotent(v: string)
    requires !HasScheme(StripScheme(v))
    ensures StripScheme(StripScheme(v)) == StripScheme(v)
  {
  }

  /** The importers the dispatch knows. */
  datatype Importer = AxpolImporter | ParImporter | InspirionImporter | MacmaImporter

  /** Where `import_products($id)` goes: a refusal with its message, or an importer's `import()`. */
  datatype Route = Refusal(message: string) | Dispatched(importer: Importer)

  /** `$settings && isset($settings[$id . '_enabled']) && $settings[$id . '_enabled']`. */
  predicate Enabled(settings: map<string, string>, id: string)
  {
    settings != map[] && id + "_enabled" in settings && Truthy(settings[id + "_enabled"])
  }

  /**
   * `import_products($id)`: a wholesaler that is not enabled is refused;
   * `hurtownia1` is not implemented; `hurtownia2`..`hurtownia5` run AXPOL,
   * PAR, Inspirion and Macma; any other id is unknown.
   */
  function Dispatch(settings: map<string, string>, id: string): (r: Route)
    ensures !Enabled(settings, id) ==> r == Refusal(NotEnabled)
    ensures r.Dispatched? <==> Enabled(settings, id) && id in {"hurtownia2", "hurtownia3", "hurtownia4", "hurtownia5"}
    ensures r == Dispatched(AxpolImporter) <==> Enabled(settings, id) && id == "hurtownia2"
    ensures r == Dispatched(ParImporter) <==> Enabled(settings, id) && id == "hurtownia3"
    ensures r == Dispatched(InspirionImporter) <==> Enabled(settings, id) && id == "hurtownia4"
    ensures r == Dispatched(MacmaImporter) <==> Enabled(settings, id) && id == "hurtownia5"
    ensures r == Refusal(UnknownWholesaler) <==>
      Enabled(settings, id) && id !in {"hurtownia1", "hurtownia2", "hurtownia3", "hurtownia4", "hurtownia5"}
  {
    if !Enabled(settings, id) then Refusal(NotEnabled)
    else if id == "hurtownia1" then Refusal(NotImplemented)
    else if id == "hurtownia2" then Dispatched(AxpolImporter)
    else if id == "hurtownia3" then Dispatched(ParImporter)
    else if id == "hurtownia4" then Dispatched(InspirionImporter)
    else if id == "hurtownia5" then Dispatched(MacmaImporter)
    else Refusal(UnknownWholesaler)
  }

  /**
   * `$result['success']` for `import_products($id)`, given which importers'
   * runs succeed (their fetches and records are not part of this module).
   */
  predicate Succeeds(settings: map<string, string>, id: string, ran: Importer -> bool)
  {
    Dispatch(settings, id).Dispatched? && ran(Dispatch(settings, id).importer)
  }

  /** The wholesalers `cron_import_products` goes through, in order. */
  const Wholesalers := ["hurtownia1", "hurtownia2", "hurtownia3", "hurtownia4", "hurtownia5"]

  /**
   * `cron_import_products`: each enabled wholesaler whose import succeeds gets
   * the time after its import (`times[i]`) as its last import; every other
   * entry of the stored map is kept.  Without settings nothing is written.
   */
  method CronImportProducts(settings: map<string, string>, last: map<string, int>, times: seq<int>, ran: Importer -> bool)
    returns (r: map<string, int>)
    requires |times| == |Wholesalers|
    ensures forall k :: k in r <==> k in last || (k in Wholesalers && Succeeds(settings, k, ran))
    ensures forall i :: 0 <= i < |Wholesalers| && Succeeds(settings, Wholesalers[i], ran) ==> r[Wholesalers[i]] == times[i]
    ensures forall k :: k in last && !(k in Wholesalers && Succeeds(settings, k, ran)) ==> r[k] == last[k]
  {
    r := last;
    if settings == map[] {
      return;
    }
    r := RecordRuns(settings, last, Wholesalers, times, ran);
  }

  /**
   * The loop of the scheduled import over distinct wholesaler ids: the
   * stored map gains, for each id whose import succeeds, the time after it.
   */
  method RecordRuns(settings: map<string, string>, last: map<string, int>, ids: seq<string>, times: seq<int>,
                    ran: Importer -> bool) returns (r: map<string, int>)
    requires |times| == |ids| && forall a, b :: 0 <= a < b < |ids| ==> ids[a] != ids[b]
    ensures forall k :: k in r <==> k in last || (k in ids && Succeeds(settings, k, ran))
    ensures forall i :: 0 <= i < |ids| && Succeeds(settings, ids[i], ran) ==> r[ids[i]] == times[i]
    ensures forall k :: k in last && !(k in ids && Succeeds(settings, k, ran)) ==> r[k] == last[k]
  {
    r := last;
    for i := 0 to |ids|
      invariant forall k :: k in r <==> k in last || (k in ids[..i] && Succeeds(settings, k, ran))
      invariant forall j :: 0 <= j < i && Succeeds(settings, ids[j], ran) ==> r[ids[j]] == times[j]
      invariant forall k :: k in last && !(k in ids[..i] && Succeeds(settings, k, ran)) ==> r[k] == last[k]
    {
      var id := ids[i];
      if Enabled(settings, id) {
        var route := Dispatch(settings, id);
        if route.Dispatched? && ran(route.importer) {
          r := r[id := times[i]];
        }
      }
      assert ids[..i + 1] == ids[..i] + [id];
    }
    assert ids[..|ids|] == ids;
  }

  /** `hurtownia1` never gets a timestamp from the scheduled import, since its import is not implemented. */
  lemma CronSkipsFirst(settings: map<string, string>, ran: Importer -> bool)
    ensures !Succeeds(settings, "hurtownia1", ran)
  {
  }

  /** `get_or_create_category($name, $parent_id)` on the site's terms. */
  method GetOrCreateCategory(site: Site, name: string, parent: nat) returns (id: nat)
    modifies site`terms
    ensures FindTerm(old(site.terms), name, ProductCat, None) > 0 ==>
      id == FindTerm(old(site.terms), name, ProductCat, None) && site.terms == old(site.terms)
    ensures FindTerm(old(site.terms), name, ProductCat, None) == 0 ==>
      if Refused(old(site.terms), site.refusedTerms, name, ProductCat, parent)
      then id == 0 && site.terms == old(site.terms)
      else site.terms == old(site.terms) + [Term(name, ProductCat, parent)] && id == |site.terms|
  {
    id := site.EnsureTerm(name, ProductCat, None, parent);
  }

  /** `rtrim($images_path, '/') . '/' . $image_path`. */
  function ImagePath(imagesPath: string, imagePath: string): (r: string)
    ensures |r| == |RTrimSlashes(imagesPath)| + 1 + |imagePath|
    ensures StartsWith(r, RTrimSlashes(imagesPath))
    ensures r[|RTrimSlashes(imagesPath)|] == '/'
    ensures r[|RTrimSlashes(imagesPath)| + 1..] == imagePath
  {
    RTrimSlashes(imagesPath) + "/" + imagePath
  }

  /** Trailing slashes on the images directory make no difference to the path. */
  lemma {:induction false} ImagePathSlashes(imagesPath: string, imagePath: string)
    ensures ImagePath(imagesPath + "/", imagePath) == ImagePath(imagesPath, imagePath)
  {
    var w := imagesPath + "/";
    assert w[..|w| - 1] == imagesPath;
    assert TrailingSlashes(w) == 1 + TrailingSlashes(imagesPath);
    assert RTrimSlashes(w) == RTrimSlashes(imagesPath);
  }
}
