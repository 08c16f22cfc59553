/**
 * The price-history frame a data source returns: one row per trading day,
 * oldest first, with its columns read out as series.
 */
module Market {
  /** One row of the history frame. */
  datatype Bar = Bar(open: real, high: real, low: real, close: real, volume: real)

  function Closes(h: seq<Bar>): (c: seq<real>)
    ensures |c| == |h|
    ensures forall i :: 0 <= i < |h| ==> c[i] == h[i].close
  {
    seq(|h|, i requires 0 <= i < |h| => h[i].close)
  }

  function Highs(h: seq<Bar>): (c: seq<real>)
    ensures |c| == |h|
    ensures forall i :: 0 <= i < |h| ==> c[i] == h[i].high
  {
    seq(|h|, i requires 0 <= i < |h| => h[i].high)
  }

  function Lows(h: seq<Bar>): (c: seq<real>)
    ensures |c| == |h|
    ensures forall i :: 0 <= i < |h| ==> c[i] == h[i].low
  {
    seq(|h|, i requires 0 <= i < |h| => h[i].low)
  }

  /** Python's `max` of a non-empty list: an element no other element exceeds. */
  function Max(s: seq<real>): (m: real)
    requires |s| > 0
    ensures m in s
    ensures forall i :: 0 <= i < |s| ==> s[i] <= m
  {
    if |s| == 1 then s[0]
    else
      var rest := Max(s[1..]);
      assert forall i :: 1 <= i < |s| ==> s[i] == s[1..][i - 1];
      if s[0] >= rest then s[0] else rest
  }

  /** Python's `min` of a non-empty list: an element that exceeds no other element. */
  function Min(s: seq<real>): (m: real)
    requires |s| > 0
    ensures m in s
    ensures forall i :: 0 <= i < |s| ==> m <= s[i]
  {
    if |s| == 1 then s[0]
    else
      var rest := Min(s[1..]);
      assert forall i :: 1 <= i < |s| ==> s[i] == s[1..][i - 1];
      if s[0] <= rest then s[0] else rest
  }
}
