/** Lists of times that keep a distance. */
module Pacing {

  /** Each time is at least `gap` after the one before it, the first one after `from`. */
  predicate SpacedBy(gap: int, from: int, times: seq<int>)
    decreases |times|
  {
    times == [] || (times[0] - from >= gap && SpacedBy(gap, times[0], times[1..]))
  }

  function Last(from: int, times: seq<int>): int {
    if times == [] then from else times[|times| - 1]
  }

  lemma LastOfRest(from: int, times: seq<int>)
    requires times != []
    ensures Last(times[0], times[1..]) == Last(from, times)
  {
  }

  lemma SpacedLater(gap: int, from: int, later: int, times: seq<int>)
    requires from <= later && SpacedBy(gap, later, times)
    ensures SpacedBy(gap, from, times)
  {
  }

  /** Spaced times fill a span. */
  lemma {:induction false} SpacedSpan(gap: int, from: int, times: seq<int>)
    requires SpacedBy(gap, from, times)
    ensures |times| * gap <= Last(from, times) - from
    decreases |times|
  {
    if times != [] {
      SpacedSpan(gap, times[0], times[1..]);
      LastOfRest(from, times);
      assert |times| * gap == (|times| - 1) * gap + gap;
    }
  }

  /** No more of them than the span has room for. */
  lemma SpacedAtMost(gap: nat, from: int, times: seq<int>, few: int)
    requires SpacedBy(gap, from, times) && few <= |times|
    ensures few * gap <= Last(from, times) - from
  {
    SpacedSpan(gap, from, times);
    assert few * gap <= |times| * gap;
  }
}
