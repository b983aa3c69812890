/**
 * The `recent_scans` list both Flask applications keep: newest first, at
 * most 50 entries (barcodebuddy/app/main.py and app/main.py).
 */
module ScanLog {

  const MaxScans: nat := 50

  /**
   * `recent_scans.insert(0, x)` followed by `recent_scans.pop()` when the
   * list has grown past `MaxScans`: `x` comes first, the older entries follow
   * shifted by one, and only the oldest can be lost.
   */
  function Prepend<T>(log: seq<T>, x: T): (r: seq<T>)
    ensures |r| == if |log| < MaxScans then |log| + 1 else |log|
    ensures |r| >= 1 && r[0] == x
    ensures forall k :: 1 <= k < |r| ==> r[k] == log[k - 1]
  {
    var grown := [x] + log;
    if |grown| > MaxScans then grown[..|grown| - 1] else grown
  }

  /** The cap holds once reached: from at most 50 entries, prepending keeps at most 50, and a full list loses exactly its oldest entry. */
  lemma PrependCapped<T>(log: seq<T>, x: T)
    requires |log| <= MaxScans
    ensures |Prepend(log, x)| <= MaxScans
    ensures |log| == MaxScans ==> Prepend(log, x) == [x] + log[..MaxScans - 1]
    ensures |log| < MaxScans ==> Prepend(log, x) == [x] + log
  {
    var r := Prepend(log, x);
    if |log| == MaxScans {
      assert forall k :: 0 <= k < |r| ==> r[k] == ([x] + log[..MaxScans - 1])[k];
    } else {
      assert forall k :: 0 <= k < |r| ==> r[k] == ([x] + log)[k];
    }
  }

  /** Prepending several results keeps them newest first: the last one prepended is at the head. */
  function PrependAll<T>(log: seq<T>, xs: seq<T>): seq<T> {
    if xs == [] then log else Prepend(PrependAll(log, xs[..|xs| - 1]), xs[|xs| - 1])
  }

  /** After prepending `xs` to a list of at most 50, the list is the newest `min(|xs| + |log|, 50)` results in reverse order of arrival. */
  lemma {:induction false} PrependAllNewestFirst<T>(log: seq<T>, xs: seq<T>)
    requires |log| <= MaxScans
    ensures var r := PrependAll(log, xs);
      |r| == if |log| + |xs| < MaxScans then |log| + |xs| else MaxScans
    ensures var r := PrependAll(log, xs);
      forall k :: 0 <= k < |r| && k < |xs| ==> r[k] == xs[|xs| - 1 - k]
  {
    if xs != [] {
      var init := xs[..|xs| - 1];
      PrependAllNewestFirst(log, init);
      var p := PrependAll(log, init);
      var r := Prepend(p, xs[|xs| - 1]);
      forall k | 0 <= k < |r| && k < |xs| ensures r[k] == xs[|xs| - 1 - k] {
        if k > 0 {
          assert r[k] == p[k - 1];
          assert init[|init| - 1 - (k - 1)] == xs[|xs| - 1 - k];
        }
      }
    }
  }

  /** The list object the handlers change in place. */
  class Recent<T> {
    var scans: seq<T>

    ghost predicate Valid()
      reads this
    {
      |scans| <= MaxScans
    }

    constructor ()
      ensures scans == [] && Valid()
    {
      scans := [];
    }

    /** `insert(0, x)`, then `pop()` if the length is over 50. */
    method Record(x: T)
      modifies this
      ensures scans == Prepend(old(scans), x)
      ensures old(Valid()) ==> Valid()
    {
      scans := [x] + scans;
      if |scans| > MaxScans {
        scans := scans[..|scans| - 1];
      }
    }
  }
}
