// Plugin activation: the wholesalers' local directories are created and their
// paths recorded, then the default settings are merged into the stored ones
// without overwriting anything already there.

module Activator {
  import opened Php

  type Settings = map<string, string>

  /** The defaults `activate` adds, in order. */
  const Defaults: seq<(string, string)> := [
    ("hurtownia1_enabled", "0"),
    ("hurtownia1_ftp_host", "ftp.axpol.com.pl"),
    ("hurtownia1_ftp_user", ""),
    ("hurtownia1_ftp_pass", ""),
    ("hurtownia1_ftp_path", "/"),
    ("hurtownia1_ftp_images_host", "ftp.axpol.com.pl"),
    ("hurtownia1_ftp_images_user", ""),
    ("hurtownia1_ftp_images_pass", ""),
    ("hurtownia1_ftp_images_path", "/images"),
    ("hurtownia2_enabled", "0"),
    ("hurtownia2_api_url", "http://api.macma.pl"),
    ("hurtownia2_api_login", ""),
    ("hurtownia2_api_password", ""),
    ("hurtownia2_api_format", "xml"),
    ("hurtownia3_enabled", "0"),
    ("hurtownia3_api_url", "http://www.par.com.pl/api"),
    ("hurtownia3_api_login", ""),
    ("hurtownia3_api_password", ""),
    ("hurtownia3_api_format", "xml"),
    ("hurtownia4_enabled", "0"),
    ("hurtownia4_ftp_host", "ftp.inspirion.pl"),
    ("hurtownia4_ftp_user", ""),
    ("hurtownia4_ftp_pass", ""),
    ("hurtownia4_ftp_path", "/"),
    ("hurtownia6_enabled", "0"),
    ("hurtownia6_api_url", "https://api.malfini.com"),
    ("hurtownia6_username", ""),
    ("hurtownia6_password", "")]

  /** The local directories `create_directories` uses, relative to the uploads directory. */
  const DefaultPaths: seq<(string, string)> := [
    ("hurtownia1_local_path", "kc-hurtownie/axpol"),
    ("hurtownia2_local_path", "kc-hurtownie/macma"),
    ("hurtownia3_local_path", "kc-hurtownie/par"),
    ("hurtownia4_local_path", "kc-hurtownie/inspirion"),
    ("hurtownia6_local_path", "kc-hurtownie/malfini")]

  function KeysOf(ds: seq<(string, string)>): (ks: set<string>)
    ensures forall i :: 0 <= i < |ds| ==> ds[i].0 in ks
    ensures forall k :: k in ks ==> exists i :: 0 <= i < |ds| && ds[i].0 == k
  {
    if ds == [] then {} else KeysOf(ds[..|ds| - 1]) + {ds[|ds| - 1].0}
  }

  /** The value the first entry for k carries. */
  function DefaultFor(ds: seq<(string, string)>, k: string): string
    requires k in KeysOf(ds)
  {
    if k in KeysOf(ds[..|ds| - 1]) then DefaultFor(ds[..|ds| - 1], k) else ds[|ds| - 1].1
  }

  /** `foreach ($defaults as $key => $value) if (!isset($settings[$key])) $settings[$key] = $value;` */
  function Merge(s: Settings, ds: seq<(string, string)>): Settings
  {
    if ds == [] then s
    else
      var prev := Merge(s, ds[..|ds| - 1]);
      var (k, v) := ds[|ds| - 1];
      if k in prev then prev else prev[k := v]
  }

  /**
   * Every default key ends up present, no key is removed, a value already
   * there is never overwritten, and a missing key gets its first default.
   */
  lemma {:induction false} MergeSpec(s: Settings, ds: seq<(string, string)>)
    ensures Merge(s, ds).Keys == s.Keys + KeysOf(ds)
    ensures forall k :: k in s ==> Merge(s, ds)[k] == s[k]
    ensures forall k :: k in Merge(s, ds) && k !in s ==> Merge(s, ds)[k] == DefaultFor(ds, k)
  {
    if ds != [] {
      MergeSpec(s, ds[..|ds| - 1]);
    }
  }

  /** Merging the defaults a second time changes nothing: activating again leaves the settings alone. */
  lemma MergeIdempotent(s: Settings, ds: seq<(string, string)>)
    ensures Merge(Merge(s, ds), ds) == Merge(s, ds)
  {
    var once := Merge(s, ds);
    MergeSpec(s, ds);
    MergeSpec(once, ds);
    assert Merge(once, ds).Keys == once.Keys;
  }

  /** One more entry merged: its key is added unless already present. */
  lemma MergeStep(s: Settings, ds: seq<(string, string)>, i: nat)
    requires i < |ds|
    ensures Merge(s, ds[..i + 1]) ==
      var prev := Merge(s, ds[..i]);
      if ds[i].0 in prev then prev else prev[ds[i].0 := ds[i].1]
  {
    assert ds[..i + 1][..i] == ds[..i];
  }

  /** The `foreach` that adds each missing default in turn. */
  method MergeLoop(s: Settings, ds: seq<(string, string)>) returns (r: Settings)
    ensures r == Merge(s, ds)
  {
    r := s;
    for i := 0 to |ds|
      invariant r == Merge(s, ds[..i])
    {
      var (key, value) := ds[i];
      MergeStep(s, ds, i);
      if key !in r {
        r := r[key := value];
      }
    }
    assert ds[..|ds|] == ds;
  }

  /** `get_option('kc_hurtownie_settings', array())`. */
  function Current(option: Option<Settings>): Settings
  {
    if option.Some? then option.value else map[]
  }

  /** The directory an entry of `create_directories` uses: the stored path, else the default. */
  function DirFor(base: string, s: Settings, entry: (string, string)): string
  {
    base + "/" + (if entry.0 in s then s[entry.0] else entry.1)
  }

  /** The directories `create_directories` makes for the entries, each with its `/images` subdirectory. */
  function Created(base: string, s: Settings, ps: seq<(string, string)>): set<string>
  {
    if ps == [] then {}
    else
      var d := DirFor(base, Merge(s, ps[..|ps| - 1]), ps[|ps| - 1]);
      Created(base, s, ps[..|ps| - 1]) + {d, d + "/images"}
  }

  /** One more entry: its directory and `/images` under it are added. */
  lemma CreatedStep(base: string, s: Settings, ps: seq<(string, string)>, i: nat)
    requires i < |ps|
    ensures Created(base, s, ps[..i + 1]) ==
      var d := DirFor(base, Merge(s, ps[..i]), ps[i]);
      Created(base, s, ps[..i]) + {d, d + "/images"}
  {
    assert ps[..i + 1][..i] == ps[..i];
  }

  /** Every entry gets its directory and `/images` under it, at the stored path or else the default one. */
  lemma {:induction false} CreatedHasEach(base: string, s: Settings, ps: seq<(string, string)>, i: nat)
    requires i < |ps|
    requires forall a, b :: 0 <= a < b < |ps| ==> ps[a].0 != ps[b].0
    ensures DirFor(base, s, ps[i]) in Created(base, s, ps)
    ensures DirFor(base, s, ps[i]) + "/images" in Created(base, s, ps)
  {
    var prefix := ps[..|ps| - 1];
    if i < |ps| - 1 {
      assert prefix[i] == ps[i];
      CreatedHasEach(base, s, prefix, i);
    } else {
      assert forall a :: 0 <= a < |prefix| ==> prefix[a].0 != ps[i].0;
      MergeSpec(s, prefix);
      assert DirFor(base, Merge(s, prefix), ps[i]) == DirFor(base, s, ps[i]);
    }
  }

  /**
   * `create_directories` makes, for each of the five wholesalers, the
   * directory at its stored local path (or the default one) and `/images` in it.
   */
  lemma DirectoriesCreated(base: string, s: Settings)
    ensures forall i :: 0 <= i < |DefaultPaths| ==>
      DirFor(base, s, DefaultPaths[i]) in Created(base, s, DefaultPaths)
      && DirFor(base, s, DefaultPaths[i]) + "/images" in Created(base, s, DefaultPaths)
  {
    forall i | 0 <= i < |DefaultPaths|
      ensures DirFor(base, s, DefaultPaths[i]) in Created(base, s, DefaultPaths)
      ensures DirFor(base, s, DefaultPaths[i]) + "/images" in Created(base, s, DefaultPaths)
    {
      CreatedHasEach(base, s, DefaultPaths, i);
    }
  }

  /** Everything `create_directories` makes: the root directory and each wholesaler's two. */
  function Directories(base: string, s: Settings): set<string>
  {
    {base + "/kc-hurtownie"} + Created(base, s, DefaultPaths)
  }

  /** The option table and the uploads directory tree. */
  class Installation {
    /** The `kc_hurtownie_settings` option; None while it does not exist. */
    var option: Option<Settings>
    /** The directories that exist. */
    var dirs: set<string>
    /** `wp_upload_dir()['basedir']`. */
    const base: string

    constructor (option: Option<Settings>, dirs: set<string>, base: string)
      ensures this.option == option && this.dirs == dirs && this.base == base
    {
      this.option := option;
      this.dirs := dirs;
      this.base := base;
    }

    /**
     * `create_directories()`: the root directory, then for each wholesaler its
     * directory and `/images`, its local path recorded when the setting is
     * missing; the settings are saved.
     */
    method CreateDirectories()
      modifies this`option, this`dirs
      ensures option == Some(Merge(Current(old(option)), DefaultPaths))
      ensures dirs == old(dirs) + Directories(base, Current(old(option)))
    {
      var settings := if option.Some? then option.value else map[];
      dirs := dirs + {base + "/kc-hurtownie"};
      settings := CreateEach(settings, DefaultPaths);
      assert dirs == old(dirs) + Directories(base, Current(old(option)));
      option := Some(settings);
    }

    /** The `foreach` of `create_directories` over the wholesalers' path settings. */
    method CreateEach(s: Settings, ps: seq<(string, string)>) returns (r: Settings)
      modifies this`dirs
      ensures r == Merge(s, ps)
      ensures dirs == old(dirs) + Created(base, s, ps)
    {
      r := s;
      for i := 0 to |ps|
        invariant r == Merge(s, ps[..i])
        invariant dirs == old(dirs) + Created(base, s, ps[..i])
      {
        var (key, path) := ps[i];
        var full := base + "/" + (if key in r then r[key] else path);
        MergeStep(s, ps, i);
        CreatedStep(base, s, ps, i);
        dirs := dirs + {full, full + "/images"};
        if key !in r {
          r := r[key := path];
        }
      }
      assert ps[..|ps|] == ps;
    }

    /** The defaults loop of `activate()` on the settings read back from the option. */
    method AddDefaults()
      modifies this`option
      ensures option == Some(Merge(Current(old(option)), Defaults))
    {
      var settings := if option.Some? then option.value else map[];
      settings := MergeLoop(settings, Defaults);
      option := Some(settings);
    }
    /** `activate()`: the directories first, then the defaults. */
    method Activate()
      modifies this`option, this`dirs
      ensures option == Some(Activated(Current(old(option))))
      ensures dirs == old(dirs) + Directories(base, Current(old(option)))
    {
      ghost var s0 := Current(option);
      CreateDirectories();
      assert Current(option) == Merge(s0, DefaultPaths);
      AddDefaults();
    }
  }

  /** The settings `activate` leaves, from the settings it found. */
  function Activated(s: Settings): Settings
  {
    Merge(Merge(s, DefaultPaths), Defaults)
  }

  /**
   * After activation every default key and every local-path key is present,
   * nothing that was set is changed, a missing setting holds its default,
   * and the local paths `create_directories` recorded survive the merge of
   * the other defaults.
   */
  lemma ActivatedSettings(s: Settings)
    ensures Activated(s).Keys == s.Keys + KeysOf(DefaultPaths) + KeysOf(Defaults)
    ensures forall k :: k in s ==> Activated(s)[k] == s[k]
    ensures forall k :: k in KeysOf(DefaultPaths) && k !in s ==> Activated(s)[k] == DefaultFor(DefaultPaths, k)
    ensures forall k :: k in KeysOf(Defaults) && k !in s && k !in KeysOf(DefaultPaths) ==>
      Activated(s)[k] == DefaultFor(Defaults, k)
  {
    MergeSpec(s, DefaultPaths);
    MergeSpec(Merge(s, DefaultPaths), Defaults);
  }

  /** Merging two lists of defaults twice is merging them once. */
  lemma MergeTwiceIdempotent(s: Settings, ps: seq<(string, string)>, ds: seq<(string, string)>)
    ensures Merge(Merge(Merge(Merge(s, ps), ds), ps), ds) == Merge(Merge(s, ps), ds)
  {
    var once := Merge(Merge(s, ps), ds);
    MergeSpec(s, ps);
    MergeSpec(Merge(s, ps), ds);
    MergeSpec(once, ps);
    assert Merge(once, ps).Keys == once.Keys;
    assert Merge(once, ps) == once;
    MergeIdempotent(Merge(s, ps), ds);
  }

  /** Activating twice is activating once. */
  lemma ActivateAgain(s: Settings)
    ensures Activated(Activated(s)) == Activated(s)
  {
    MergeTwiceIdempotent(s, DefaultPaths, Defaults);
  }
}
