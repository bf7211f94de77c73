/**
 * What the two cloud back-ends (backend/supabase_storage.py and
 * backend/firebase_storage.py) have in common: the blob path built from the
 * upload time and the label, the statistics fold over stored rows, and the
 * role lookup with its 'viewer' default.
 *
 * Rows are schemaless JSON objects, as both stores hand them back as dicts.
 */
module CloudStorage {
  import opened Common
  import opened Json

  type Row = map<string, Value>

  /** The label a row is counted under when it has none. */
  const UNKNOWN_CATEGORY := "unknown"
  /** The role a user row without one is given. */
  const DEFAULT_ROLE := "viewer"

  // ---------------------------------------------------------------- paths

  /** A local calendar time, as datetime.fromtimestamp yields it. */
  datatype DateTime = DateTime(year: nat, month: nat, day: nat, hour: nat, minute: nat, second: nat, micro: nat)

  predicate ValidDateTime(d: DateTime) {
    1 <= d.year <= 9999 && 1 <= d.month <= 12 && 1 <= d.day <= 31
    && d.hour < 24 && d.minute < 60 && d.second < 60 && d.micro < 1000000
  }

  function Pow10(w: nat): (p: nat)
    ensures p >= 1
  {
    if w == 0 then 1 else 10 * Pow10(w - 1)
  }

  predicate AllDigits(s: string) {
    forall i :: 0 <= i < |s| ==> '0' <= s[i] <= '9'
  }

  /** n written with exactly w decimal digits, zero-padded on the left (strftime's %Y, %m, %d, ...). */
  function Digits(n: nat, w: nat): (s: string)
    ensures |s| == w && AllDigits(s)
  {
    if w == 0 then "" else Digits(n / 10, w - 1) + [('0' as int + n % 10) as char]
  }

  /** The number a string of decimal digits denotes. */
  function DigitsValue(s: string): (n: nat)
    requires AllDigits(s)
  {
    if s == [] then 0 else 10 * DigitsValue(s[..|s| - 1]) + (s[|s| - 1] as int - '0' as int)
  }

  lemma {:induction false} DigitsRoundTrip(n: nat, w: nat)
    requires n < Pow10(w)
    ensures DigitsValue(Digits(n, w)) == n
  {
    if w > 0 {
      var s := Digits(n, w);
      assert s[..|s| - 1] == Digits(n / 10, w - 1);
      assert n / 10 < Pow10(w - 1);
      DigitsRoundTrip(n / 10, w - 1);
    }
  }

  /** strftime('%Y%m%d_%H%M%S'). */
  function Stamp(d: DateTime): (s: string)
    ensures |s| == 15
  {
    Digits(d.year, 4) + Digits(d.month, 2) + Digits(d.day, 2) + "_"
    + Digits(d.hour, 2) + Digits(d.minute, 2) + Digits(d.second, 2)
  }

  /** The object path of an upload: "images/" + stamp + "_" + label + ".jpg". */
  function BlobPath(d: DateTime, classification: string): (p: string)
    ensures |p| == 27 + |classification|
    ensures p[..7] == "images/" && p[|p| - 4..] == ".jpg"
  {
    "images/" + Stamp(d) + "_" + classification + ".jpg"
  }

  /** Reads the upload second and the label back out of an object path. */
  function ParseBlobPath(p: string): (r: Option<(DateTime, string)>)
    ensures r.Some? ==> |p| >= 27 && r.value.1 == p[23..|p| - 4]
  {
    if |p| < 27 || p[..7] != "images/" || p[15] != '_' || p[22] != '_' || p[|p| - 4..] != ".jpg" then None
    else if !AllDigits(p[7..11]) || !AllDigits(p[11..13]) || !AllDigits(p[13..15]) then None
    else if !AllDigits(p[16..18]) || !AllDigits(p[18..20]) || !AllDigits(p[20..22]) then None
    else
      Some((DateTime(DigitsValue(p[7..11]), DigitsValue(p[11..13]), DigitsValue(p[13..15]),
                     DigitsValue(p[16..18]), DigitsValue(p[18..20]), DigitsValue(p[20..22]), 0),
            p[23..|p| - 4]))
  }

  /** The path keeps the upload time to the second and the label, and nothing else. */
  lemma BlobPathRoundTrip(d: DateTime, classification: string)
    requires ValidDateTime(d)
    ensures ParseBlobPath(BlobPath(d, classification)) == Some((d.(micro := 0), classification))
  {
    BlobPathFields(d, classification);
    assert Pow10(2) == 100;
    assert Pow10(4) == 10000 by {
      assert Pow10(1) == 10;
      assert Pow10(3) == 1000;
    }
    DigitsRoundTrip(d.year, 4);
    DigitsRoundTrip(d.month, 2);
    DigitsRoundTrip(d.day, 2);
    DigitsRoundTrip(d.hour, 2);
    DigitsRoundTrip(d.minute, 2);
    DigitsRoundTrip(d.second, 2);
  }

  /** Where each field of the stamp and the label sit in an object path. */
  lemma BlobPathFields(d: DateTime, classification: string)
    ensures var p := BlobPath(d, classification);
      && p[15] == '_' && p[22] == '_'
      && p[7..11] == Digits(d.year, 4) && p[11..13] == Digits(d.month, 2) && p[13..15] == Digits(d.day, 2)
      && p[16..18] == Digits(d.hour, 2) && p[18..20] == Digits(d.minute, 2) && p[20..22] == Digits(d.second, 2)
      && p[23..|p| - 4] == classification
  {
    var p := BlobPath(d, classification);
    var st := Stamp(d);
    assert p == "images/" + st + "_" + classification + ".jpg";
    assert p[7..22] == st;
    assert st[0..4] == Digits(d.year, 4) && st[4..6] == Digits(d.month, 2) && st[6..8] == Digits(d.day, 2);
    assert st[8] == '_';
    assert st[9..11] == Digits(d.hour, 2) && st[11..13] == Digits(d.minute, 2) && st[13..15] == Digits(d.second, 2);
    assert p[23..|p| - 4] == classification;
  }

  /**
   * Two uploads share an object path exactly when they carry the same label
   * in the same second: the "unique filename" is unique only per second.
   */
  lemma BlobPathCollides(d1: DateTime, c1: string, d2: DateTime, c2: string)
    requires ValidDateTime(d1) && ValidDateTime(d2)
    ensures BlobPath(d1, c1) == BlobPath(d2, c2) <==> c1 == c2 && d1.(micro := 0) == d2.(micro := 0)
  {
    BlobPathRoundTrip(d1, c1);
    BlobPathRoundTrip(d2, c2);
    if c1 == c2 && d1.(micro := 0) == d2.(micro := 0) {
      assert Stamp(d1) == Stamp(d2);
    }
  }

  /** datetime.isoformat(): the fraction appears only when the microseconds are not zero. */
  function IsoFormat(d: DateTime): (s: string)
    ensures |s| == (if d.micro == 0 then 19 else 26) && s[10] == 'T'
  {
    Digits(d.year, 4) + "-" + Digits(d.month, 2) + "-" + Digits(d.day, 2) + "T"
    + Digits(d.hour, 2) + ":" + Digits(d.minute, 2) + ":" + Digits(d.second, 2)
    + (if d.micro == 0 then "" else "." + Digits(d.micro, 6))
  }

  /** What an upload reports. */
  datatype UploadResult =
    | NotInitialized                                   // {'success': False}
    | UploadFailed                                     // {'success': False, 'error': ...}
    | Uploaded(imageUrl: string, recordId: Value, blobPath: string)

  /** The first `limit` results, as a query's .limit(limit) keeps them. */
  function Take<T>(s: seq<T>, limit: nat): (r: seq<T>)
    ensures |r| <= limit && |r| <= |s| && r == s[..|r|]
    ensures |s| <= limit ==> r == s
  {
    if |s| <= limit then s else s[..limit]
  }

  // ----------------------------------------------------------- statistics

  /** doc.get('classification', 'unknown'). */
  function Category(row: Row): Value {
    Get(row, "classification", Str(UNKNOWN_CATEGORY))
  }

  /** A row's contribution to confidence_sum: numbers and booleans add, any other value raises. */
  function ConfidenceTerm(row: Row): (t: Option<real>)
    ensures "confidence" !in row ==> t == Some(0.0)
    ensures t.None? <==> "confidence" in row && !row["confidence"].Num? && !row["confidence"].Bool?
  {
    match Get(row, "confidence", Num(0.0))
    case Num(x) => Some(x)
    case Bool(b) => Some(if b then 1.0 else 0.0)
    case _ => None
  }

  /** Lists and dicts cannot be dictionary keys: indexing a dict with one raises TypeError. */
  predicate Hashable(v: Value) {
    !v.Arr? && !v.Obj?
  }

  /**
   * The key a value occupies in a Python dictionary. True and False are the
   * same key as 1 and 0 (ints and floats are already one kind of number here).
   */
  function DictKey(v: Value): (k: Value)
    ensures !k.Bool? && Hashable(k) == Hashable(v)
    ensures v.Bool? ==> k == Num(if v.b then 1.0 else 0.0)
    ensures !v.Bool? ==> k == v
  {
    match v
    case Bool(b) => Num(if b then 1.0 else 0.0)
    case _ => v
  }

  /** category_counts.get(c, 0): the count stored under c's key. */
  function CountOf(m: map<Value, nat>, c: Value): nat {
    if DictKey(c) in m then m[DictKey(c)] else 0
  }

  /** The dictionary key of each row's category, in order. */
  function Categories(rows: seq<Row>): (cs: seq<Value>)
    ensures |cs| == |rows| && forall i :: 0 <= i < |rows| ==> cs[i] == DictKey(Category(rows[i]))
  {
    if rows == [] then [] else Categories(rows[..|rows| - 1]) + [DictKey(Category(rows[|rows| - 1]))]
  }

  /** The category_counts dictionary after folding the rows in order. */
  function Counts(rows: seq<Row>): (m: map<Value, nat>)
    ensures rows != [] ==> DictKey(Category(rows[|rows| - 1])) in m
  {
    if rows == [] then map[]
    else
      var m := Counts(rows[..|rows| - 1]);
      var c := Category(rows[|rows| - 1]);
      m[DictKey(c) := CountOf(m, c) + 1]
  }

  /** One more row of the fold: its category's key is counted once more. */
  lemma CountsSnoc(rows: seq<Row>, i: nat)
    requires i < |rows|
    ensures Counts(rows[..i + 1]) == Counts(rows[..i])[DictKey(Category(rows[i])) := CountOf(Counts(rows[..i]), Category(rows[i])) + 1]
  {
    assert rows[..i + 1][..i] == rows[..i];
  }

  /** Storing one more row adds exactly one to the count of its category. */
  lemma CountsAppend(rows: seq<Row>, row: Row)
    ensures CountOf(Counts(rows + [row]), Category(row)) == CountOf(Counts(rows), Category(row)) + 1
  {
    assert (rows + [row])[..|rows|] == rows;
  }

  /**
   * What one pass of the loop adds to confidence_sum; None when the pass
   * raises, at an unhashable category key or at a confidence that cannot be
   * added.
   */
  function RowTerm(row: Row): (t: Option<real>)
    ensures t.None? <==> !Hashable(Category(row)) || ConfidenceTerm(row).None?
    ensures t.Some? ==> t == ConfidenceTerm(row)
  {
    if Hashable(Category(row)) then ConfidenceTerm(row) else None
  }

  /** confidence_sum after folding the rows in order; None once a row raises. */
  function ConfidenceSum(rows: seq<Row>): Option<real> {
    if rows == [] then Some(0.0)
    else
      match (ConfidenceSum(rows[..|rows| - 1]), RowTerm(rows[|rows| - 1]))
      case (Some(s), Some(t)) => Some(s + t)
      case _ => None
  }

  /** The statistics summary: total, category_counts and avg_confidence. */
  datatype Stats = Stats(total: nat, categoryCounts: map<Value, nat>, avgConfidence: real)

  /** get_statistics over the stored rows; None stands for the {} returned when the fold raises. */
  function Tally(rows: seq<Row>): (r: Option<Stats>)
    ensures r.Some? ==> r.value.total == |rows| && r.value.categoryCounts == Counts(rows)
    ensures r.Some? && rows == [] ==> r.value.avgConfidence == 0.0
    ensures r.None? <==> ConfidenceSum(rows).None?
  {
    match ConfidenceSum(rows)
    case None => None
    case Some(s) => Some(Stats(|rows|, Counts(rows), if |rows| > 0 then s / |rows| as real else 0.0))
  }

  /** Sum of the values of a count dictionary. */
  ghost function MapSum(m: map<Value, nat>): nat
    decreases |m|
  {
    if m == map[] then 0
    else
      assert exists k :: k in m by {
        var k :| k in m.Keys;
      }
      var k :| k in m;
      assert (m - {k}).Keys == m.Keys - {k};
      m[k] + MapSum(m - {k})
  }

  lemma {:induction false} MapSumRemove(m: map<Value, nat>, k: Value)
    requires k in m
    ensures MapSum(m) == m[k] + MapSum(m - {k})
    decreases |m|
  {
    var j :| j in m && MapSum(m) == m[j] + MapSum(m - {j});
    if j != k {
      var mj := m - {j};
      var mk := m - {k};
      assert mj.Keys == m.Keys - {j} && mk.Keys == m.Keys - {k};
      MapSumRemove(mj, k);
      MapSumRemove(mk, j);
      assert mj - {k} == mk - {j};
    }
  }

  /** Counting one more row under c adds exactly one to the sum of the counts. */
  lemma MapSumIncrement(m: map<Value, nat>, c: Value)
    ensures MapSum(m[DictKey(c) := CountOf(m, c) + 1]) == MapSum(m) + 1
  {
    var k := DictKey(c);
    var m' := m[k := CountOf(m, c) + 1];
    MapSumRemove(m', k);
    if k in m {
      MapSumRemove(m, k);
      assert m' - {k} == m - {k};
    } else {
      assert m' - {k} == m;
    }
  }

  /** The category counts always add up to the number of rows. */
  lemma {:induction false} CountsSumToTotal(rows: seq<Row>)
    ensures MapSum(Counts(rows)) == |rows|
  {
    if rows != [] {
      var n := |rows| - 1;
      CountsSumToTotal(rows[..n]);
      MapSumIncrement(Counts(rows[..n]), Category(rows[n]));
      CountsSnoc(rows, n);
      assert rows[..n + 1] == rows;
    }
  }

  /**
   * Each category's count is the number of rows whose category lands on the
   * same key, and the dictionary has a key exactly for the keys that occur.
   */
  lemma {:induction false} CountsAreOccurrences(rows: seq<Row>)
    ensures forall c :: CountOf(Counts(rows), c) == multiset(Categories(rows))[DictKey(c)]
    ensures forall c :: c in Counts(rows) <==> c in Categories(rows)
  {
    if rows != [] {
      var init := rows[..|rows| - 1];
      var k := DictKey(Category(rows[|rows| - 1]));
      CountsAreOccurrences(init);
      assert Categories(rows) == Categories(init) + [k];
      assert Counts(rows) == Counts(init)[k := CountOf(Counts(init), Category(rows[|rows| - 1])) + 1];
      forall c
        ensures CountOf(Counts(rows), c) == multiset(Categories(rows))[DictKey(c)]
      {
        assert multiset(Categories(rows)) == multiset(Categories(init)) + multiset{k};
      }
    }
  }

  /** A row without a classification is counted under 'unknown'. */
  lemma UnlabelledCountedAsUnknown(rows: seq<Row>, i: nat)
    requires i < |rows| && "classification" !in rows[i]
    ensures Str(UNKNOWN_CATEGORY) in Counts(rows) && Counts(rows)[Str(UNKNOWN_CATEGORY)] >= 1
  {
    CountsAreOccurrences(rows);
    assert Categories(rows)[i] == Str(UNKNOWN_CATEGORY);
  }

  /**
   * The fold raises exactly when some row's category is a list or a dict, or
   * its confidence is neither a number nor a boolean.
   */
  lemma {:induction false} ConfidenceSumFails(rows: seq<Row>)
    ensures ConfidenceSum(rows).None? <==>
      exists i :: 0 <= i < |rows| && (!Hashable(Category(rows[i])) || ConfidenceTerm(rows[i]).None?)
  {
    if rows != [] {
      var init := rows[..|rows| - 1];
      ConfidenceSumFails(init);
      if ConfidenceSum(init).None? {
        var i :| 0 <= i < |init| && (!Hashable(Category(init[i])) || ConfidenceTerm(init[i]).None?);
        assert rows[i] == init[i];
      } else if RowTerm(rows[|rows| - 1]).Some? {
        forall i | 0 <= i < |rows|
          ensures RowTerm(rows[i]).Some?
        {
          if i < |init| {
            assert rows[i] == init[i];
          }
        }
      }
    }
  }

  /** A document whose classification is a list makes get_statistics return {}. */
  lemma ListCategoryRaises()
    ensures Tally([map["classification" := Arr([Str("x")]), "confidence" := Num(0.5)]]).None?
  {
    var rows := [map["classification" := Arr([Str("x")]), "confidence" := Num(0.5)]];
    assert ConfidenceSum(rows[..0]) == Some(0.0);
  }

  /** True and 1 are one dictionary key: they are counted together. */
  lemma BooleanSharesNumberKey()
    ensures Counts([map["classification" := Bool(true)], map["classification" := Num(1.0)]]) == map[Num(1.0) := 2]
  {
    var rows := [map["classification" := Bool(true)], map["classification" := Num(1.0)]];
    assert rows[..1][..0] == [];
    assert Counts(rows[..1]) == map[Num(1.0) := 1];
  }

  /** A usable category key and a unit confidence per row: the sum stays between 0 and the number of rows. */
  predicate UnitConfidences(rows: seq<Row>) {
    forall i :: 0 <= i < |rows| ==>
      RowTerm(rows[i]).Some? && 0.0 <= RowTerm(rows[i]).value <= 1.0
  }

  lemma {:induction false} ConfidenceSumBounds(rows: seq<Row>)
    requires UnitConfidences(rows)
    ensures ConfidenceSum(rows).Some?
    ensures 0.0 <= ConfidenceSum(rows).value <= |rows| as real
  {
    if rows != [] {
      var init := rows[..|rows| - 1];
      assert UnitConfidences(init) by {
        forall i | 0 <= i < |init| ensures init[i] == rows[i] { }
      }
      ConfidenceSumBounds(init);
    }
  }

  /** An average of values in [0, 1]: a sum between 0 and n, divided by n > 0, lies in [0, 1]. */
  lemma QuotientInUnitRange(s: real, n: real)
    requires 0.0 <= s <= n && n > 0.0
    ensures 0.0 <= s / n <= 1.0
  {
    var q := s / n;
    assert q * n == s;
    assert (1.0 - q) * n == n - s;
  }

  /** With every confidence in [0, 1] the statistics exist and their average lies in [0, 1]. */
  lemma AverageInUnitRange(rows: seq<Row>)
    requires UnitConfidences(rows)
    ensures Tally(rows).Some? && 0.0 <= Tally(rows).value.avgConfidence <= 1.0
  {
    ConfidenceSumBounds(rows);
    if |rows| > 0 {
      var s := ConfidenceSum(rows).value;
      var n := |rows| as real;
      QuotientInUnitRange(s, n);
    }
  }

  /** The fold itself: one pass over the rows, updating total, category_counts and confidence_sum. */
  method TallyRows(rows: seq<Row>) returns (stats: Option<Stats>)
    ensures stats == Tally(rows)
  {
    var total: nat := 0;
    var counts: map<Value, nat> := map[];
    var sum := 0.0;
    for i := 0 to |rows|
      invariant total == i && counts == Counts(rows[..i]) && ConfidenceSum(rows[..i]) == Some(sum)
    {
      assert rows[..i + 1][..i] == rows[..i];
      CountsSnoc(rows, i);
      total := total + 1;
      var c := Category(rows[i]);
      if !Hashable(c) {
        ConfidenceSumFails(rows);
        return None;
      }
      counts := counts[DictKey(c) := CountOf(counts, c) + 1];
      var t := ConfidenceTerm(rows[i]);
      if t.None? {
        ConfidenceSumFails(rows);
        return None;
      }
      sum := sum + t.value;
    }
    assert rows[..|rows|] == rows;
    stats := Some(Stats(total, counts, if total > 0 then sum / total as real else 0.0));
  }

  // ---------------------------------------------------------------- roles

  /** The stored role of a user, 'viewer' when the row has none, None when there is no row. */
  function RoleOf(users: map<string, Row>, uid: string): (r: Option<Value>)
    ensures r.Some? <==> uid in users
    ensures r.Some? && "role" !in users[uid] ==> r.value == Str(DEFAULT_ROLE)
    ensures r.Some? && "role" in users[uid] ==> r.value == users[uid]["role"]
  {
    if uid in users then Some(Get(users[uid], "role", Str(DEFAULT_ROLE))) else None
  }
}
