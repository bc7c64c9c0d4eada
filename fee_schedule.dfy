/**
 * The emission-fee schedule (the DERECHO table) and its nearest-below lookup,
 * as done by obtener_derecho in Backend/CotiCau.py.
 */
module FeeSchedule {
  import opened Wrappers

  /** One row of the fee table: a premium threshold (PRIMA) and its fee (DERECHO). */
  datatype FeeRow = FeeRow(prima: real, derecho: real)

  /**
   * Row i is the match for premium p among the first n rows: its threshold is at
   * most p, no qualifying row has a larger threshold, and no earlier qualifying row
   * has the same threshold (pandas' idxmax keeps the first maximum).
   */
  predicate IsNearestBelow(s: seq<FeeRow>, p: real, n: nat, i: nat)
    requires n <= |s|
  {
    i < n && s[i].prima <= p &&
    (forall j :: 0 <= j < n && s[j].prima <= p ==> s[j].prima <= s[i].prima) &&
    (forall j :: 0 <= j < i && s[j].prima <= p ==> s[j].prima < s[i].prima)
  }

  /** Index of the match among the first n rows, or None when no threshold is at most p. */
  function NearestBelow(s: seq<FeeRow>, p: real, n: nat): (best: Option<nat>)
    requires n <= |s|
    ensures best.Some? ==> best.value < n
    decreases n
  {
    if n == 0 then None
    else
      var b := NearestBelow(s, p, n - 1);
      if s[n - 1].prima <= p && (b.None? || s[b.value].prima < s[n - 1].prima) then Some(n - 1)
      else b
  }

  /**
   * The scan finds nothing exactly when every threshold among the first n rows
   * exceeds p, and otherwise finds the match.
   */
  lemma {:induction false} NearestBelowSpec(s: seq<FeeRow>, p: real, n: nat)
    requires n <= |s|
    ensures NearestBelow(s, p, n).None? <==> forall j :: 0 <= j < n ==> s[j].prima > p
    ensures NearestBelow(s, p, n).Some? ==> IsNearestBelow(s, p, n, NearestBelow(s, p, n).value)
    decreases n
  {
    if n > 0 {
      NearestBelowSpec(s, p, n - 1);
    }
  }

  /** At most one row is the match. */
  lemma NearestBelowUnique(s: seq<FeeRow>, p: real, n: nat, i: nat, k: nat)
    requires n <= |s|
    requires IsNearestBelow(s, p, n, i) && IsNearestBelow(s, p, n, k)
    ensures i == k
  {
  }

  /** obtener_derecho: the fee of the matching row, or of the first row when none matches. */
  function FeeFor(s: seq<FeeRow>, p: real): real
    requires |s| > 0
  {
    match NearestBelow(s, p, |s|)
    case None => s[0].derecho
    case Some(i) => s[i].derecho
  }

  /**
   * The fee is that of the row with the largest threshold at most p (the first such
   * row on ties); when every threshold exceeds p, the fee of the first row.
   */
  lemma FeeForNearest(s: seq<FeeRow>, p: real)
    requires |s| > 0
    ensures (forall j :: 0 <= j < |s| ==> s[j].prima > p) ==> FeeFor(s, p) == s[0].derecho
    ensures (exists j :: 0 <= j < |s| && s[j].prima <= p) ==>
              exists i: nat :: IsNearestBelow(s, p, |s|, i) && FeeFor(s, p) == s[i].derecho
  {
    NearestBelowSpec(s, p, |s|);
  }

  /** The table is ordered: thresholds ascend and fees never fall from one row to the next. */
  predicate Ascending(s: seq<FeeRow>) {
    forall i, j :: 0 <= i < j < |s| ==> s[i].prima <= s[j].prima && s[i].derecho <= s[j].derecho
  }

  /** On an ordered table a larger premium never gets a smaller fee. */
  lemma FeeForMonotone(s: seq<FeeRow>, p: real, q: real)
    requires |s| > 0 && Ascending(s)
    requires p <= q
    ensures FeeFor(s, p) <= FeeFor(s, q)
  {
    NearestBelowSpec(s, p, |s|);
    NearestBelowSpec(s, q, |s|);
    var bp := NearestBelow(s, p, |s|);
    var bq := NearestBelow(s, q, |s|);
    if bp.Some? {
      var i := bp.value;
      assert bq.Some? by { assert s[i].prima <= q; }
      var k := bq.value;
      if s[i].prima == s[k].prima {
        assert i == k;
      } else {
        assert s[i].prima < s[k].prima;
        assert i < k;
      }
    } else if bq.Some? {
      assert s[0].derecho <= s[bq.value].derecho;
    }
  }
}
