/**
 * The 24-hour freshness gate of server/routes/properties.router.js. A
 * table of stamped rows is asked for the rows of one key inserted within
 * the last 24 hours (lines 131-136, 355-364, 428-437, 782-787); when there
 * are none the providers are called and one row is appended, otherwise the
 * last of the fresh rows is reused (index length - 1, lines 240, 413, 474,
 * 883). Rows come back in insertion order.
 */
module Freshness {
  import opened Wrappers

  /** INTERVAL '24 hours', in seconds. */
  const FreshnessWindow: int := 86400

  /** A row together with the key the gate filters on and its insertion time. */
  datatype Stamped<K, R> = Stamped(key: K, insertedAt: int, data: R)

  /** inserted_at >= CURRENT_TIMESTAMP - INTERVAL '24 hours'. */
  predicate IsFresh(insertedAt: int, now: int) {
    insertedAt >= now - FreshnessWindow
  }

  predicate FreshFor<K(==), R>(row: Stamped<K, R>, key: K, now: int) {
    row.key == key && IsFresh(row.insertedAt, now)
  }

  /** The positions the gate's SELECT returns, in table order. */
  function FreshMatches<K(==), R>(rows: seq<Stamped<K, R>>, key: K, now: int): (r: seq<nat>)
    ensures forall k :: 0 <= k < |r| ==> r[k] < |rows| && FreshFor(rows[r[k]], key, now)
    ensures forall k, l :: 0 <= k < l < |r| ==> r[k] < r[l]
    ensures |r| == 0 ==> forall i :: 0 <= i < |rows| ==> !FreshFor(rows[i], key, now)
    ensures |r| > 0 ==> forall j :: r[|r| - 1] < j < |rows| ==> !FreshFor(rows[j], key, now)
  {
    if |rows| == 0 then []
    else
      var front := FreshMatches(rows[..|rows| - 1], key, now);
      if FreshFor(rows[|rows| - 1], key, now) then front + [|rows| - 1] else front
  }

  /** The SELECT misses no row: every fresh row of the key is among the positions it returns. */
  lemma {:induction false} FreshMatchesComplete<K, R>(rows: seq<Stamped<K, R>>, key: K, now: int)
    ensures forall i :: 0 <= i < |rows| && FreshFor(rows[i], key, now) ==> i in FreshMatches(rows, key, now)
    decreases |rows|
  {
    if |rows| > 0 {
      var prefix := rows[..|rows| - 1];
      FreshMatchesComplete(prefix, key, now);
      forall i | 0 <= i < |rows| && FreshFor(rows[i], key, now)
        ensures i in FreshMatches(rows, key, now)
      {
        if i < |rows| - 1 {
          assert prefix[i] == rows[i];
        }
      }
    }
  }

  /**
   * The gate's decision: None sends the caller to the providers, Some(i)
   * reuses row i. It misses exactly when no row of the key is fresh, and a
   * hit is the latest fresh row of the key.
   */
  function Lookup<K(==), R>(rows: seq<Stamped<K, R>>, key: K, now: int): (r: Option<nat>)
    ensures r.None? <==> forall i :: 0 <= i < |rows| ==> !FreshFor(rows[i], key, now)
    ensures r.Some? ==>
      && r.value < |rows| && FreshFor(rows[r.value], key, now)
      && forall j :: r.value < j < |rows| ==> !FreshFor(rows[j], key, now)
  {
    var matches := FreshMatches(rows, key, now);
    if |matches| == 0 then None else Some(matches[|matches| - 1])
  }

  /** A row stays fresh for exactly 24 hours: fresh when inserted, still at 23h59m, no longer at 24h01m. */
  lemma WindowBoundary(insertedAt: int)
    ensures IsFresh(insertedAt, insertedAt)
    ensures IsFresh(insertedAt, insertedAt + FreshnessWindow)
    ensures IsFresh(insertedAt, insertedAt + 23 * 3600 + 59 * 60)
    ensures !IsFresh(insertedAt, insertedAt + 24 * 3600 + 60)
  {
  }

  /** After a miss appends its row, the gate hits that row for the rest of the window. */
  lemma AppendedRowIsReused<K, R>(rows: seq<Stamped<K, R>>, key: K, insertedAt: int, data: R, now: int)
    requires IsFresh(insertedAt, now)
    ensures Lookup(rows + [Stamped(key, insertedAt, data)], key, now) == Some(|rows|)
  {
    var ext := rows + [Stamped(key, insertedAt, data)];
    assert ext[..|ext| - 1] == rows;
  }

  /** Rows of other keys never change the gate's decision for a key. */
  lemma OtherKeyIgnored<K, R>(rows: seq<Stamped<K, R>>, key: K, other: Stamped<K, R>, now: int)
    requires other.key != key
    ensures Lookup(rows + [other], key, now) == Lookup(rows, key, now)
  {
    var ext := rows + [other];
    assert ext[..|ext| - 1] == rows;
  }

  /** Once the gate misses, it keeps missing as time goes on (until a row is appended). */
  lemma MissStaysMissed<K, R>(rows: seq<Stamped<K, R>>, key: K, now: int, later: int)
    requires now <= later
    requires Lookup(rows, key, now).None?
    ensures Lookup(rows, key, later).None?
  {
  }
}
