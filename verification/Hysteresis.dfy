/** A threshold that is crossed at T and recovers below nine tenths of T. */
module Hysteresis {
  import opened Common

  /** `_high`: no threshold or no value is never high. */
  predicate High(threshold: Option<real>, value: Option<real>, before: bool) {
    && threshold.Some? && value.Some?
    && value.value >= threshold.value * (if before then 0.9 else 1.0)
  }

  /** What one sample reports. */
  datatype Mark = Quiet | Crossed | Cleared

  function MarkOf(before: bool, after: bool): Mark {
    if after && !before then Crossed else if before && !after then Cleared else Quiet
  }

  /** The flag after a list of samples. */
  function FlagAfter(threshold: Option<real>, before: bool, samples: seq<Option<real>>): bool
    decreases |samples|
  {
    if samples == [] then before else FlagAfter(threshold, High(threshold, samples[0], before), samples[1..])
  }

  /** One mark for each sample. */
  function Marks(threshold: Option<real>, before: bool, samples: seq<Option<real>>): (marks: seq<Mark>)
    ensures |marks| == |samples|
    decreases |samples|
  {
    if samples == [] then []
    else
      var after := High(threshold, samples[0], before);
      [MarkOf(before, after)] + Marks(threshold, after, samples[1..])
  }

  lemma MarksUnfold(threshold: Option<real>, before: bool, samples: seq<Option<real>>)
    requires samples != []
    ensures var after := High(threshold, samples[0], before);
            && Marks(threshold, before, samples) == [MarkOf(before, after)] + Marks(threshold, after, samples[1..])
            && FlagAfter(threshold, before, samples) == FlagAfter(threshold, after, samples[1..])
  {
  }

  /** Follows the marks from a flag; none as soon as a mark repeats. */
  function Follow(flag: Option<bool>, marks: seq<Mark>): Option<bool>
    decreases |marks|
  {
    if flag.None? || marks == [] then flag
    else
      Follow(match marks[0]
             case Quiet => flag
             case Crossed => if flag.value then None else Some(true)
             case Cleared => if flag.value then Some(false) else None, marks[1..])
  }

  /** Threshold and recovered strictly alternate, and the last of them tells the flag. */
  lemma {:induction false} MarksAlternate(threshold: Option<real>, before: bool, samples: seq<Option<real>>)
    ensures Follow(Some(before), Marks(threshold, before, samples)) == Some(FlagAfter(threshold, before, samples))
    decreases |samples|
  {
    if samples != [] {
      var after := High(threshold, samples[0], before);
      MarksAlternate(threshold, after, samples[1..]);
      assert Marks(threshold, before, samples)[1..] == Marks(threshold, after, samples[1..]);
    }
  }

  predicate Low(threshold: Option<real>, value: Option<real>) {
    threshold.None? || value.None? || value.value < threshold.value * 0.9
  }

  predicate Reached(threshold: Option<real>, value: Option<real>) {
    threshold.Some? && value.Some? && value.value >= threshold.value
  }

  predicate ValidThreshold(threshold: Option<real>) {
    threshold.Some? ==> threshold.value > 0.0
  }

  lemma {:induction false} MarkAt(threshold: Option<real>, before: bool, samples: seq<Option<real>>, i: nat)
    requires i < |samples|
    ensures var flag := FlagAfter(threshold, before, samples[..i]);
            && Marks(threshold, before, samples)[i] == MarkOf(flag, High(threshold, samples[i], flag))
            && FlagAfter(threshold, before, samples[..i + 1]) == High(threshold, samples[i], flag)
    decreases i
  {
    if i == 0 {
      assert samples[..1][1..] == [];
    } else {
      MarkAt(threshold, High(threshold, samples[0], before), samples[1..], i - 1);
      assert samples[..i][1..] == samples[1..][..i - 1];
      assert samples[..i + 1][1..] == samples[1..][..i];
    }
  }

  lemma {:induction false} FallsBetween(threshold: Option<real>, before: bool, samples: seq<Option<real>>, i: nat, j: nat) returns (k: nat)
    requires i <= j <= |samples|
    requires FlagAfter(threshold, before, samples[..i]) && !FlagAfter(threshold, before, samples[..j])
    ensures i <= k < j && Low(threshold, samples[k])
    decreases j - i
  {
    MarkAt(threshold, before, samples, i);
    if Low(threshold, samples[i]) {
      k := i;
    } else {
      k := FallsBetween(threshold, before, samples, i + 1, j);
    }
  }

  /** A crossing needs a sample at the threshold; and since the last crossing one was below nine tenths of it, or missing. */
  lemma BetweenCrossings(threshold: Option<real>, before: bool, samples: seq<Option<real>>, i: nat, j: nat)
    requires i < j < |samples|
    requires Marks(threshold, before, samples)[i] == Crossed && Marks(threshold, before, samples)[j] == Crossed
    ensures Reached(threshold, samples[i]) && Reached(threshold, samples[j])
    ensures exists k :: i < k < j && Low(threshold, samples[k])
  {
    MarkAt(threshold, before, samples, i);
    MarkAt(threshold, before, samples, j);
    var k := FallsBetween(threshold, before, samples, i + 1, j);
  }

  /** Samples that stay between nine tenths of the threshold and the threshold report nothing. */
  lemma {:induction false} BandIsQuiet(threshold: real, before: bool, samples: seq<Option<real>>)
    requires forall i :: 0 <= i < |samples| ==> samples[i].Some? && 0.9 * threshold <= samples[i].value < threshold
    ensures forall i :: 0 <= i < |samples| ==> Marks(Some(threshold), before, samples)[i] == Quiet
    ensures FlagAfter(Some(threshold), before, samples) == before
    decreases |samples|
  {
    if samples != [] {
      BandIsQuiet(threshold, before, samples[1..]);
    }
  }

  /** The samples all stay between nine tenths of the threshold and the threshold. */
  predicate InBand(threshold: Option<real>, samples: seq<Option<real>>) {
    threshold.Some? && forall i :: 0 <= i < |samples| ==>
      samples[i].Some? && 0.9 * threshold.value <= samples[i].value < threshold.value
  }

  /**
   What hysteresis promises of a list of marks, one for each sample: threshold and recovered strictly
   alternate, a threshold mark needs a sample that reaches the threshold and a recovered one a sample
   below nine tenths of it or missing, there is such a sample between two threshold marks, and
   samples inside the band leave no mark.
   */
  ghost predicate HasHysteresis(threshold: Option<real>, before: bool, samples: seq<Option<real>>, marks: seq<Mark>) {
    && |marks| == |samples|
    && Follow(Some(before), marks).Some?
    && (forall i :: 0 <= i < |marks| && marks[i] == Crossed ==> Reached(threshold, samples[i]))
    && (forall i :: 0 <= i < |marks| && marks[i] == Cleared ==> Low(threshold, samples[i]))
    && (forall i, j :: 0 <= i < j < |marks| && marks[i] == Crossed && marks[j] == Crossed ==>
          exists k :: i < k < j && Low(threshold, samples[k]))
    && (InBand(threshold, samples) ==> forall i :: 0 <= i < |marks| ==> marks[i] == Quiet)
  }

  lemma MarksHaveHysteresis(threshold: Option<real>, before: bool, samples: seq<Option<real>>)
    ensures HasHysteresis(threshold, before, samples, Marks(threshold, before, samples))
  {
    var marks := Marks(threshold, before, samples);
    MarksAlternate(threshold, before, samples);
    if InBand(threshold, samples) { BandIsQuiet(threshold.value, before, samples); }
    hide Marks, InBand, FlagAfter;
    forall i | 0 <= i < |marks|
      ensures marks[i] == Crossed ==> Reached(threshold, samples[i])
      ensures marks[i] == Cleared ==> Low(threshold, samples[i])
    {
      MarkAt(threshold, before, samples, i);
    }
    forall i, j | 0 <= i < j < |marks| && marks[i] == Crossed && marks[j] == Crossed
      ensures exists k :: i < k < j && Low(threshold, samples[k])
    {
      BetweenCrossings(threshold, before, samples, i, j);
    }
  }

  /** The flag as the samples alone tell it: the last one at the threshold or below nine tenths of it decides. */
  ghost predicate LastDecides(threshold: Option<real>, before: bool, samples: seq<Option<real>>) {
    || (exists i :: 0 <= i < |samples| && Reached(threshold, samples[i]) && forall j :: i < j < |samples| ==> !Low(threshold, samples[j]))
    || (before && forall j :: 0 <= j < |samples| ==> !Low(threshold, samples[j]))
  }

  lemma {:induction false} FlagIsLastDecision(threshold: Option<real>, before: bool, samples: seq<Option<real>>)
    requires ValidThreshold(threshold)
    ensures FlagAfter(threshold, before, samples) <==> LastDecides(threshold, before, samples)
    decreases |samples|
  {
    if samples == [] {
    } else {
      var n := |samples| - 1;
      var front, last := samples[..n], samples[n];
      FlagIsLastDecision(threshold, before, front);
      MarkAt(threshold, before, samples, n);
      assert samples[..n + 1] == samples;
      hide FlagAfter, Marks;
      assert forall i :: 0 <= i < n ==> front[i] == samples[i];
      if LastDecides(threshold, before, front) && !Low(threshold, last) {
        if i :| 0 <= i < n && Reached(threshold, front[i]) && forall j :: i < j < n ==> !Low(threshold, front[j]) {
          assert Reached(threshold, samples[i]);
        }
      }
    }
  }

  /**
   The marks are exactly these: a threshold mark where a sample reaches the threshold and the samples before
   it do not leave the flag set, a recovered one where a sample is below nine tenths of it, or missing, and they do.
   */
  lemma MarksAreExact(threshold: Option<real>, before: bool, samples: seq<Option<real>>, i: nat)
    requires ValidThreshold(threshold) && i < |samples|
    ensures Marks(threshold, before, samples)[i] == Crossed <==>
              Reached(threshold, samples[i]) && !LastDecides(threshold, before, samples[..i])
    ensures Marks(threshold, before, samples)[i] == Cleared <==>
              Low(threshold, samples[i]) && LastDecides(threshold, before, samples[..i])
  {
    MarkAt(threshold, before, samples, i);
    FlagIsLastDecision(threshold, before, samples[..i]);
    hide FlagAfter, Marks, LastDecides;
  }

  /** Repeating a sample changes nothing. */
  lemma RepeatIsQuiet(threshold: Option<real>, value: Option<real>, before: bool)
    requires ValidThreshold(threshold)
    ensures var flag := High(threshold, value, before);
            High(threshold, value, flag) == flag
  {
  }
}
