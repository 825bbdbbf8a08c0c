// Parsed supplier rows, per-record outcomes, the run counters they add up
// to, and the import options every importer reads from the settings.

module Records {
  import opened Php

  /**
   * One decoded product (or stock, price, category) entry: scalar fields,
   * arrays of scalars (image URLs, category names) and arrays of objects
   * (Macma's image objects).  A key that is absent is not `isset`.
   */
  datatype Record = Record(
    fields: map<string, string>,
    lists: map<string, seq<string>>,
    objects: map<string, seq<map<string, string>>>)

  /** `isset($r[$k])` for a scalar field. */
  predicate Isset(r: Record, k: string)
  {
    k in r.fields
  }

  /** `$r[$k]`; a missing key reads as null, which behaves as "" below. */
  function Field(r: Record, k: string): (v: string)
    ensures !Isset(r, k) ==> v == ""
  {
    if k in r.fields then r.fields[k] else ""
  }

  /** `isset($r[$k]) ? $r[$k] : $d`. */
  function FieldOr(r: Record, k: string, d: string): (v: string)
    ensures Isset(r, k) ==> v == r.fields[k]
    ensures !Isset(r, k) ==> v == d
  {
    if k in r.fields then r.fields[k] else d
  }

  /** `!empty($r[$k])`. */
  predicate Filled(r: Record, k: string)
  {
    k in r.fields && Truthy(r.fields[k])
  }

  /** An array of scalars under k, or [] when k holds no array. */
  function List(r: Record, k: string): seq<string>
  {
    if k in r.lists then r.lists[k] else []
  }

  /**
   * 1 + the index of the first element satisfying p, or 0 when none does:
   * what a `foreach` that stops at its first match finds.
   */
  function FirstWhere<T>(s: seq<T>, p: T -> bool): (k: nat)
    ensures k <= |s|
    ensures k > 0 ==> p(s[k - 1]) && forall j :: 0 <= j < k - 1 ==> !p(s[j])
    ensures k == 0 ==> forall j :: 0 <= j < |s| ==> !p(s[j])
  {
    if s == [] then 0
    else if p(s[0]) then 1
    else
      var k := FirstWhere(s[1..], p);
      if k == 0 then 0 else k + 1
  }

  /** What one record did to the run counters. */
  datatype Outcome =
    | Imported          // a new product was created
    | Updated           // an existing product was updated
    | Skipped           // an existing product was left alone
    | Failed            // the record was rejected or its save failed
    | FailedAndUpdated  // counted both as an error and as an update

  /** The counters an importer reports at the end of a run. */
  datatype Counters = Counters(imported: nat, updated: nat, skipped: nat, errors: nat)

  function Sum(c: Counters): nat
  {
    c.imported + c.updated + c.skipped + c.errors
  }

  /** The counters after one more record with outcome o. */
  function Bump(c: Counters, o: Outcome): (d: Counters)
    ensures Sum(d) == Sum(c) + (if o == FailedAndUpdated then 2 else 1)
  {
    match o
    case Imported => c.(imported := c.imported + 1)
    case Updated => c.(updated := c.updated + 1)
    case Skipped => c.(skipped := c.skipped + 1)
    case Failed => c.(errors := c.errors + 1)
    case FailedAndUpdated => c.(updated := c.updated + 1, errors := c.errors + 1)
  }

  /** The counters a sequence of outcomes adds up to, starting from zero. */
  function Tally(os: seq<Outcome>): Counters
  {
    if os == [] then Counters(0, 0, 0, 0)
    else Bump(Tally(os[..|os| - 1]), os[|os| - 1])
  }

  /** One more outcome bumps the tally of the earlier ones. */
  lemma TallySnoc(os: seq<Outcome>, o: Outcome)
    ensures Tally(os + [o]) == Bump(Tally(os), o)
  {
    assert (os + [o])[..|os|] == os;
  }

  /** Appending to a log that grew from o0 keeps o0 in front. */
  lemma AppendAssoc(o0: seq<Outcome>, os: seq<Outcome>, o: Outcome)
    ensures (o0 + os) + [o] == o0 + (os + [o])
  {
  }

  /** How many outcomes of a run are the double-counted kind. */
  function DoubleCounted(os: seq<Outcome>): nat
  {
    if os == [] then 0
    else DoubleCounted(os[..|os| - 1]) + (if os[|os| - 1] == FailedAndUpdated then 1 else 0)
  }

  /** Every record lands in exactly one counter, except double-counted ones in two. */
  lemma {:induction false} TallySum(os: seq<Outcome>)
    ensures Sum(Tally(os)) == |os| + DoubleCounted(os)
  {
    if os != [] {
      TallySum(os[..|os| - 1]);
    }
  }

  /** Without double-counted outcomes the four counters add up to the number of records. */
  lemma {:induction false} TallySumSingle(os: seq<Outcome>)
    requires forall i :: 0 <= i < |os| ==> os[i] != FailedAndUpdated
    ensures Sum(Tally(os)) == |os|
  {
    if os != [] {
      TallySumSingle(os[..|os| - 1]);
    }
  }

  /** A run in which no record is skipped leaves the skipped counter at zero. */
  lemma {:induction false} TallyNoSkips(os: seq<Outcome>)
    requires forall i :: 0 <= i < |os| ==> os[i] != Skipped
    ensures Tally(os).skipped == 0
  {
    if os != [] {
      TallyNoSkips(os[..|os| - 1]);
    }
  }

  /**
   * An importer's five counters (`imported_count`, `updated_count`,
   * `skipped_count`, `error_count`, `total_count`) and, as ghost state, the
   * outcome of every record counted since the last reset.
   */
  class Stats {
    var imported: nat
    var updated: nat
    var skipped: nat
    var errors: nat
    var total: nat
    ghost var outcomes: seq<Outcome>

    ghost predicate Valid()
      reads this
    {
      Value() == Tally(outcomes)
    }

    function Value(): Counters
      reads this
    {
      Counters(imported, updated, skipped, errors)
    }

    constructor ()
      ensures Valid() && outcomes == [] && total == 0
    {
      imported, updated, skipped, errors, total := 0, 0, 0, 0, 0;
      outcomes := [];
    }

    /** All five counters back to 0. */
    method Reset()
      modifies this
      ensures Valid() && outcomes == [] && total == 0
    {
      imported, updated, skipped, errors, total := 0, 0, 0, 0, 0;
      outcomes := [];
    }

    /** The counter for o moves (both counters for a double-counted outcome); the total does not. */
    method Count(o: Outcome)
      requires Valid()
      modifies this`imported, this`updated, this`skipped, this`errors, this`outcomes
      ensures Valid() && outcomes == old(outcomes) + [o]
    {
      ghost var before := outcomes;
      ghost var after := Bump(Value(), o);
      match o {
        case Imported => imported := imported + 1;
        case Updated => updated := updated + 1;
        case Skipped => skipped := skipped + 1;
        case Failed => errors := errors + 1;
        case FailedAndUpdated => updated, errors := updated + 1, errors + 1;
      }
      assert Value() == after;
      outcomes := outcomes + [o];
      TallySnoc(before, o);
    }
  }

  /** The options in the plugin settings that every importer consults. */
  datatype Options = Options(updateExisting: bool, importImages: bool, importCategories: bool, limit: nat)

  /**
   * `isset($s['update_existing']) && $s['update_existing']` and the like, and
   * `isset($s['import_limit']) && $s['import_limit'] > 0 ? $s['import_limit'] : 0`.
   */
  function OptionsOf(settings: map<string, string>): (o: Options)
    ensures o.updateExisting <==> "update_existing" in settings && Truthy(settings["update_existing"])
    ensures o.limit > 0 <==> "import_limit" in settings && IntVal(settings["import_limit"]) > 0
  {
    Options(
      "update_existing" in settings && Truthy(settings["update_existing"]),
      "import_images" in settings && Truthy(settings["import_images"]),
      "import_categories" in settings && Truthy(settings["import_categories"]),
      if "import_limit" in settings && IntVal(settings["import_limit"]) > 0
      then IntVal(settings["import_limit"]) else 0)
  }

  /**
   * How many records a run with a limit reaches: the loop stops before the
   * record at which the count of processed records has reached the limit.
   */
  function Reached(n: nat, limit: nat): (k: nat)
    ensures k <= n
    ensures limit == 0 ==> k == n
    ensures limit > 0 ==> k == if n < limit then n else limit
  {
    if limit > 0 && limit < n then limit else n
  }

  /** The result an importer returns: a failure message or the counters and the total. */
  datatype RunResult = Failure(message: string) | Success(total: nat, counters: Counters)
}
