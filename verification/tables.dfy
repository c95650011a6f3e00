/** Three shapes of point table, used as reference definitions for the
    calculator's hand-written if-chains and switches:
    - a ladder: points indexed by the rank of an ordinal value;
    - a band table: disjoint closed ranges of an integer, each with its points,
      and zero outside every range;
    - a staircase: thresholds of an integer, where the points are those of the
      highest threshold reached, and zero below the first. */
module Tables {

  // ---------------------------------------------------------------------
  // Ladders

  /** No later rung pays less than an earlier one. */
  predicate NonDecreasing(s: seq<int>)
  {
    forall i, j :: 0 <= i <= j < |s| ==> s[i] <= s[j]
  }

  /** Each rung pays at least as much as the one just below it. */
  predicate StepwiseNonDecreasing(s: seq<int>)
  {
    forall i :: 0 < i < |s| ==> s[i - 1] <= s[i]
  }

  /** Checking neighbouring rungs is enough to make a whole ladder monotone. */
  lemma {:induction false} StepwiseIsNonDecreasing(s: seq<int>)
    requires StepwiseNonDecreasing(s)
    ensures NonDecreasing(s)
  {
    if |s| > 1 {
      var t := s[..|s| - 1];
      assert StepwiseNonDecreasing(t) by {
        forall i | 0 < i < |t| ensures t[i - 1] <= t[i] {
          assert t[i - 1] == s[i - 1] && t[i] == s[i];
        }
      }
      StepwiseIsNonDecreasing(t);
      forall i, j | 0 <= i <= j < |s| ensures s[i] <= s[j] {
        if j < |s| - 1 {
          assert s[i] == t[i] && s[j] == t[j];
        } else if i < j {
          assert s[i] == t[i] && s[j - 1] == t[j - 1];
          assert t[i] <= t[j - 1];
        }
      }
    }
  }

  // ---------------------------------------------------------------------
  // Band tables

  /** The closed integer range lo..hi, paying `points`. */
  datatype Band = Band(lo: int, hi: int, points: int)
  {
    predicate Covers(x: int)
    {
      lo <= x <= hi
    }
  }

  /** No two bands overlap, so no integer lies in two bands. */
  predicate Disjoint(bands: seq<Band>)
  {
    forall i, j :: 0 <= i < j < |bands| ==> bands[i].hi < bands[j].lo || bands[j].hi < bands[i].lo
  }

  /** The points of the first band covering x, or 0 when none does. */
  function BandPoints(bands: seq<Band>, x: int): (r: int)
    ensures (forall k :: 0 <= k < |bands| ==> !bands[k].Covers(x)) ==> r == 0
    ensures r == 0 || exists k :: 0 <= k < |bands| && bands[k].Covers(x) && bands[k].points == r
  {
    if |bands| == 0 then 0
    else if bands[0].Covers(x) then bands[0].points
    else
      var r := BandPoints(bands[1..], x);
      assert r != 0 ==> exists k :: 0 <= k < |bands| && bands[k].Covers(x) && bands[k].points == r by {
        if r != 0 {
          var k :| 0 <= k < |bands[1..]| && bands[1..][k].Covers(x) && bands[1..][k].points == r;
          assert bands[k + 1] == bands[1..][k];
        }
      }
      r
  }

  /** In a table of disjoint bands, an integer inside band k scores exactly
      that band's points. */
  lemma {:induction false} BandPointsOfCoveringBand(bands: seq<Band>, k: int, x: int)
    requires Disjoint(bands)
    requires 0 <= k < |bands| && bands[k].Covers(x)
    ensures BandPoints(bands, x) == bands[k].points
  {
    if k > 0 {
      assert !bands[0].Covers(x);
      var rest := bands[1..];
      assert Disjoint(rest) by {
        forall i, j | 0 <= i < j < |rest| ensures rest[i].hi < rest[j].lo || rest[j].hi < rest[i].lo {
          assert rest[i] == bands[i + 1] && rest[j] == bands[j + 1];
        }
      }
      assert rest[k - 1] == bands[k];
      BandPointsOfCoveringBand(rest, k - 1, x);
    }
  }

  // ---------------------------------------------------------------------
  // Staircases

  /** From `from` upward (until the next step) the staircase pays `points`. */
  datatype Step = Step(from: int, points: int)

  /** Thresholds strictly increase, points never decrease and never go below 0. */
  predicate Rising(steps: seq<Step>)
  {
    && (forall i :: 0 < i < |steps| ==> steps[i - 1].from < steps[i].from)
    && (forall i :: 0 < i < |steps| ==> steps[i - 1].points <= steps[i].points)
    && (forall i :: 0 <= i < |steps| ==> 0 <= steps[i].points)
  }

  /** The points of the highest step whose threshold x has reached, or 0 when
      x is below every threshold. */
  function StairPoints(steps: seq<Step>, x: int): (r: int)
    ensures (forall k :: 0 <= k < |steps| ==> x < steps[k].from) ==> r == 0
    ensures r == 0 || exists k :: 0 <= k < |steps| && steps[k].from <= x && steps[k].points == r
  {
    if |steps| == 0 then 0
    else if steps[|steps| - 1].from <= x then steps[|steps| - 1].points
    else
      var init := steps[..|steps| - 1];
      var r := StairPoints(init, x);
      assert r != 0 ==> exists k :: 0 <= k < |steps| && steps[k].from <= x && steps[k].points == r by {
        if r != 0 {
          var k :| 0 <= k < |init| && init[k].from <= x && init[k].points == r;
          assert steps[k] == init[k];
        }
      }
      r
  }

  /** A rising staircase never pays more than its top step. */
  lemma {:induction false} StairPointsAtMostTop(steps: seq<Step>, x: int)
    requires Rising(steps) && |steps| > 0
    ensures 0 <= StairPoints(steps, x) <= steps[|steps| - 1].points
  {
    var top := steps[|steps| - 1];
    var init := steps[..|steps| - 1];
    if x < top.from && |init| > 0 {
      assert Rising(init);
      StairPointsAtMostTop(init, x);
      assert init[|init| - 1] == steps[|steps| - 2];
    }
  }

  /** A rising staircase is monotone: a larger input never scores less. */
  lemma {:induction false} StairPointsMonotone(steps: seq<Step>, x: int, y: int)
    requires Rising(steps)
    requires x <= y
    ensures StairPoints(steps, x) <= StairPoints(steps, y)
  {
    if |steps| > 0 {
      var top := steps[|steps| - 1];
      var init := steps[..|steps| - 1];
      if y < top.from {
        assert Rising(init);
        StairPointsMonotone(init, x, y);
      } else if x < top.from {
        StairPointsAtMostTop(steps, x);
      }
    }
  }
}
