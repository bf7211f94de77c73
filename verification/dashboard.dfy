/**
 * The dashboard's data access (dashboard/supabase-config.js): the
 * three-bucket statistics computed in the browser and the role lookup.
 *
 * Rows carry the two selected columns with their SQL types: a label that may
 * be null and a confidence that may be null.
 */
module Dashboard {
  import opened Common
  import opened Json
  import opened Config
  import CloudStorage

  datatype DashRow = DashRow(classification: Option<string>, confidence: Option<real>)

  datatype DashStats = DashStats(total: nat, freshFruit: nat, spoiledFruit: nat, other: nat, avgConfidence: real)

  /** `item.confidence || 0`: a null or zero confidence adds nothing. */
  function ConfidenceOrZero(c: Option<real>): (x: real)
    ensures c.None? ==> x == 0.0
    ensures c.Some? ==> x == c.value
  {
    match c
    case None => 0.0
    case Some(v) => v
  }

  /** The counters after the loop has seen `rows`, plus the running confidence sum. */
  function Buckets(rows: seq<DashRow>): (r: (nat, nat, nat, real))
  {
    if rows == [] then (0, 0, 0, 0.0)
    else
      var (f, s, o, sum) := Buckets(rows[..|rows| - 1]);
      var row := rows[|rows| - 1];
      var sum' := sum + ConfidenceOrZero(row.confidence);
      if row.classification == Some(CLASSIFICATION_FRESH) then (f + 1, s, o, sum')
      else if row.classification == Some(CLASSIFICATION_SPOILED) then (f, s + 1, o, sum')
      else (f, s, o + 1, sum')
  }

  /** getStatistics() on the rows of a successful query. */
  function Summary(rows: seq<DashRow>): (st: DashStats)
    ensures st.total == |rows|
  {
    var (f, s, o, sum) := Buckets(rows);
    DashStats(|rows|, f, s, o, if |rows| > 0 then sum / |rows| as real else 0.0)
  }

  /** The labels of the rows, null labels included. */
  function Labels(rows: seq<DashRow>): (ls: seq<Option<string>>)
    ensures |ls| == |rows| && forall i :: 0 <= i < |rows| ==> ls[i] == rows[i].classification
  {
    if rows == [] then [] else Labels(rows[..|rows| - 1]) + [rows[|rows| - 1].classification]
  }

  /**
   * The three buckets partition the rows: fresh and spoiled count their own
   * labels, and every other label (null included) is counted as other.
   */
  lemma {:induction false} BucketsPartition(rows: seq<DashRow>)
    ensures Buckets(rows).0 == multiset(Labels(rows))[Some(CLASSIFICATION_FRESH)]
    ensures Buckets(rows).1 == multiset(Labels(rows))[Some(CLASSIFICATION_SPOILED)]
    ensures Buckets(rows).0 + Buckets(rows).1 + Buckets(rows).2 == |rows|
  {
    if rows != [] {
      var init := rows[..|rows| - 1];
      BucketsPartition(init);
      assert Labels(rows) == Labels(init) + [rows[|rows| - 1].classification];
      assert CLASSIFICATION_FRESH != CLASSIFICATION_SPOILED by { LabelsDistinct(); }
    }
  }

  /** The summary's counters add up to the number of rows. */
  lemma SummaryPartition(rows: seq<DashRow>)
    ensures var st := Summary(rows); st.freshFruit + st.spoiledFruit + st.other == st.total == |rows|
  {
    BucketsPartition(rows);
  }

  /** A confidence per row in [0, 1] keeps the average in [0, 1]. */
  lemma {:induction false} SumBounds(rows: seq<DashRow>)
    requires forall i :: 0 <= i < |rows| ==> 0.0 <= ConfidenceOrZero(rows[i].confidence) <= 1.0
    ensures 0.0 <= Buckets(rows).3 <= |rows| as real
  {
    if rows != [] {
      var init := rows[..|rows| - 1];
      assert forall i :: 0 <= i < |init| ==> init[i] == rows[i];
      SumBounds(init);
    }
  }

  lemma AverageInUnitRange(rows: seq<DashRow>)
    requires forall i :: 0 <= i < |rows| ==> 0.0 <= ConfidenceOrZero(rows[i].confidence) <= 1.0
    ensures 0.0 <= Summary(rows).avgConfidence <= 1.0
  {
    SumBounds(rows);
    if |rows| > 0 {
      var s := Buckets(rows).3;
      var n := |rows| as real;
      CloudStorage.QuotientInUnitRange(s, n);
    }
  }

  /**
   * getStatistics(): a failed query throws (None here) instead of returning
   * partial statistics; otherwise one pass over the rows fills the counters.
   */
  method GetStatistics(queryError: bool, data: seq<DashRow>) returns (r: Option<DashStats>)
    ensures r.None? <==> queryError
    ensures r.Some? ==> r.value == Summary(data)
  {
    if queryError {
      return None;
    }
    var freshFruit, spoiledFruit, other: nat := 0, 0, 0;
    var totalConfidence := 0.0;
    for i := 0 to |data|
      invariant Buckets(data[..i]) == (freshFruit, spoiledFruit, other, totalConfidence)
    {
      assert data[..i + 1][..i] == data[..i];
      var item := data[i];
      if item.classification == Some(CLASSIFICATION_FRESH) {
        freshFruit := freshFruit + 1;
      } else if item.classification == Some(CLASSIFICATION_SPOILED) {
        spoiledFruit := spoiledFruit + 1;
      } else {
        other := other + 1;
      }
      totalConfidence := totalConfidence + ConfidenceOrZero(item.confidence);
    }
    assert data[..|data|] == data;
    var total := |data|;
    r := Some(DashStats(total, freshFruit, spoiledFruit, other, if total > 0 then totalConfidence / total as real else 0.0));
  }

  /** The same table as the backend reads it: a null column is a JSON null. */
  function AsRow(row: DashRow): CloudStorage.Row {
    map["classification" := match row.classification case Some(c) => Str(c) case None => Null,
        "confidence" := match row.confidence case Some(x) => Num(x) case None => Null]
  }

  function AsRows(rows: seq<DashRow>): (rs: seq<CloudStorage.Row>)
    ensures |rs| == |rows| && forall i :: 0 <= i < |rows| ==> rs[i] == AsRow(rows[i])
  {
    if rows == [] then [] else AsRows(rows[..|rows| - 1]) + [AsRow(rows[|rows| - 1])]
  }

  /**
   * The dashboard's fresh and spoiled counters agree with the backend's
   * category_counts for the same rows, and its "other" gathers every
   * remaining category.
   */
  lemma {:induction false} DashboardAgreesWithBackend(rows: seq<DashRow>)
    ensures Summary(rows).freshFruit == CloudStorage.CountOf(CloudStorage.Counts(AsRows(rows)), Str(CLASSIFICATION_FRESH))
    ensures Summary(rows).spoiledFruit == CloudStorage.CountOf(CloudStorage.Counts(AsRows(rows)), Str(CLASSIFICATION_SPOILED))
  {
    if rows != [] {
      var init := rows[..|rows| - 1];
      DashboardAgreesWithBackend(init);
      assert AsRows(rows)[..|rows| - 1] == AsRows(init);
      assert CLASSIFICATION_FRESH != CLASSIFICATION_SPOILED by { LabelsDistinct(); }
    }
  }

  /** What the users query returns: an error, or the row's role column (possibly null). */
  datatype RoleResponse = QueryFailed | RoleRow(role: Option<string>)

  /** getUserRole(): the stored role when it is a non-empty string, 'viewer' otherwise. */
  function UserRole(resp: RoleResponse): (r: string)
    ensures r != ""
    ensures resp.RoleRow? && resp.role.Some? && resp.role.value != "" ==> r == resp.role.value
    ensures r != CloudStorage.DEFAULT_ROLE ==> resp.RoleRow? && resp.role == Some(r)
  {
    match resp
    case QueryFailed => CloudStorage.DEFAULT_ROLE
    case RoleRow(role) =>
      match role
      case Some(s) => if s == "" then CloudStorage.DEFAULT_ROLE else s
      case None => CloudStorage.DEFAULT_ROLE
  }
}
