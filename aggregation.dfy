/** The consensus step of the ensemble (`aggregate_results` in
    tool/vlm_curation_deprecated/async_vlm.py): one record per unit from the
    reviews of its panel. */
module Aggregation {
  import opened Wrappers
  import opened Text

  datatype Label = Good | Bad | Error

  /** One reviewer's structured answer (`SpikeClassification`). */
  datatype SpikeClassification = SpikeClassification(classification: Label, confidenceScore: real, reasoning: string)

  /** A reviewer task's result: its answer tagged with the reviewer id. */
  datatype Review = Review(reviewerId: nat, response: SpikeClassification)

  /** The answer standing in for a reviewer whose every attempt failed. */
  const ErrorSentinel: SpikeClassification := SpikeClassification(Error, 0.0, "")

  /** The row `aggregate_results` returns. The per-reviewer columns are kept
      as two maps from column name to value. */
  datatype Record = Record(
    unitId: int,
    averageScore: real,
    finalClassification: Label,
    combinedReasoning: string,
    scores: map<string, real>,
    classes: map<string, Label>)

  function Scores(reviews: seq<Review>): (s: seq<real>)
    ensures |s| == |reviews|
    ensures forall i :: 0 <= i < |reviews| ==> s[i] == reviews[i].response.confidenceScore
  {
    seq(|reviews|, i requires 0 <= i < |reviews| => reviews[i].response.confidenceScore)
  }

  function Labels(reviews: seq<Review>): (s: seq<Label>)
    ensures |s| == |reviews|
    ensures forall i :: 0 <= i < |reviews| ==> s[i] == reviews[i].response.classification
  {
    seq(|reviews|, i requires 0 <= i < |reviews| => reviews[i].response.classification)
  }

  // ---------------------------------------------------------------- mean

  function Sum(xs: seq<real>): real
  {
    if xs == [] then 0.0 else xs[0] + Sum(xs[1..])
  }

  /** `statistics.mean` of a non-empty list. */
  function Mean(xs: seq<real>): real
    requires |xs| > 0
  {
    Sum(xs) / (|xs| as real)
  }

  function Min(xs: seq<real>): (m: real)
    requires |xs| > 0
    ensures m in xs && forall i :: 0 <= i < |xs| ==> m <= xs[i]
  {
    if |xs| == 1 then xs[0]
    else
      var rest := Min(xs[1..]);
      assert forall i :: 1 <= i < |xs| ==> xs[i] == xs[1..][i - 1];
      if xs[0] <= rest then xs[0] else rest
  }

  function Max(xs: seq<real>): (m: real)
    requires |xs| > 0
    ensures m in xs && forall i :: 0 <= i < |xs| ==> xs[i] <= m
  {
    if |xs| == 1 then xs[0]
    else
      var rest := Max(xs[1..]);
      assert forall i :: 1 <= i < |xs| ==> xs[i] == xs[1..][i - 1];
      if rest <= xs[0] then xs[0] else rest
  }

  lemma {:induction false} SumBounds(xs: seq<real>, lo: real, hi: real)
    requires forall i :: 0 <= i < |xs| ==> lo <= xs[i] <= hi
    ensures (|xs| as real) * lo <= Sum(xs) <= (|xs| as real) * hi
  {
    if xs != [] {
      assert forall i :: 0 <= i < |xs| - 1 ==> xs[1..][i] == xs[i + 1];
      SumBounds(xs[1..], lo, hi);
    }
  }

  lemma QuotientBounds(s: real, n: real, lo: real, hi: real)
    requires n > 0.0 && n * lo <= s <= n * hi
    ensures lo <= s / n <= hi
  {
    var q := s / n;
    assert q * n == s;
    assert (q - lo) * n >= 0.0;
    assert (hi - q) * n >= 0.0;
  }

  /** A mean lies within any bounds of the values averaged. */
  lemma MeanBetween(xs: seq<real>, lo: real, hi: real)
    requires |xs| > 0
    requires forall i :: 0 <= i < |xs| ==> lo <= xs[i] <= hi
    ensures lo <= Mean(xs) <= hi
  {
    var n, total := |xs| as real, Sum(xs);
    SumBounds(xs, lo, hi);
    QuotientBounds(total, n, lo, hi);
  }

  lemma MeanExample()
    ensures Mean([0.8, 0.6, 0.4]) == 0.6
  {
    assert Sum([0.8, 0.6, 0.4]) == 0.8 + Sum([0.6, 0.4]);
    assert Sum([0.6, 0.4]) == 0.6 + Sum([0.4]);
    assert Sum([0.4]) == 0.4 + Sum([]);
  }

  // ------------------------------------------------------- majority vote

  /** `Counter(labels)["Good"]`. */
  function CountGood(labels: seq<Label>): nat
  {
    if labels == [] then 0
    else (if labels[0] == Good then 1 else 0) + CountGood(labels[1..])
  }

  /** The majority rule: Good when more than one review says Good. */
  function Majority(labels: seq<Label>): Label
  {
    if CountGood(labels) > 1 then Good else Bad
  }

  /** The count agrees with the multiplicity of Good in the multiset of labels. */
  lemma {:induction false} CountGoodIsMultiplicity(labels: seq<Label>)
    ensures CountGood(labels) == multiset(labels)[Good]
  {
    if labels != [] {
      CountGoodIsMultiplicity(labels[1..]);
      assert labels == [labels[0]] + labels[1..];
    }
  }

  /** Two distinct reviews saying Good. */
  predicate TwoGood(labels: seq<Label>)
  {
    exists i, j :: 0 <= i < j < |labels| && labels[i] == Good && labels[j] == Good
  }

  lemma {:induction false} CountGoodPositive(labels: seq<Label>)
    ensures CountGood(labels) > 0 <==> exists i :: 0 <= i < |labels| && labels[i] == Good
  {
    if labels != [] {
      CountGoodPositive(labels[1..]);
      if exists i :: 0 <= i < |labels| && labels[i] == Good {
        var i :| 0 <= i < |labels| && labels[i] == Good;
        if i > 0 { assert labels[1..][i - 1] == Good; }
      }
      if exists i :: 0 <= i < |labels[1..]| && labels[1..][i] == Good {
        var i :| 0 <= i < |labels[1..]| && labels[1..][i] == Good;
        assert labels[i + 1] == Good;
      }
    }
  }

  /** "More than one Good" means two different reviews said Good. */
  lemma {:induction false} CountGoodAtLeastTwo(labels: seq<Label>)
    ensures CountGood(labels) > 1 <==> TwoGood(labels)
  {
    if labels != [] {
      var tail := labels[1..];
      CountGoodAtLeastTwo(tail);
      CountGoodPositive(tail);
      if TwoGood(labels) {
        var i, j :| 0 <= i < j < |labels| && labels[i] == Good && labels[j] == Good;
        assert tail[j - 1] == Good;
        if i > 0 { assert tail[i - 1] == Good; }
      }
      if TwoGood(tail) {
        var i, j :| 0 <= i < j < |tail| && tail[i] == Good && tail[j] == Good;
        assert labels[i + 1] == Good && labels[j + 1] == Good;
      }
      if labels[0] == Good && CountGood(tail) > 0 {
        var j :| 0 <= j < |tail| && tail[j] == Good;
        assert labels[j + 1] == Good;
      }
    }
  }

  // ---------------------------------------------------- combined reasoning

  /** `f"Reviewer {id}: {reasoning}"`. */
  function ReasoningLine(r: Review): string
  {
    "Reviewer " + Decimal(r.reviewerId) + ": " + r.response.reasoning
  }

  /** A rendered line holds a line break only where its reasoning does. */
  lemma ReasoningLineSingle(r: Review)
    requires '\n' !in r.response.reasoning
    ensures '\n' !in ReasoningLine(r)
  {
    var d, line := Decimal(r.reviewerId), ReasoningLine(r);
    forall k | 0 <= k < |line| ensures line[k] != '\n' {
      if k >= 11 + |d| {
        assert line[k] == r.response.reasoning[k - 11 - |d|];
      } else if k >= 9 + |d| {
        assert line[k] == ": "[k - 9 - |d|];
      } else if k >= 9 {
        assert line[k] == d[k - 9] && IsDigit(d[k - 9]);
      } else {
        assert line[k] == "Reviewer "[k];
      }
    }
  }

  function ReasoningLines(reviews: seq<Review>): (lines: seq<string>)
    ensures |lines| == |reviews|
    ensures forall i :: 0 <= i < |reviews| ==> lines[i] == ReasoningLine(reviews[i])
  {
    seq(|reviews|, i requires 0 <= i < |reviews| => ReasoningLine(reviews[i]))
  }

  // --------------------------------------------------- per-reviewer columns

  /** `f"reviewer_{id}{suffix}"`. */
  function ColumnKey(id: nat, suffix: string): string
  {
    "reviewer_" + Decimal(id) + suffix
  }

  const ScoreSuffix: string := "_score"
  const ClassSuffix: string := "_class"

  function ScoreOf(c: SpikeClassification): real { c.confidenceScore }
  function ClassOf(c: SpikeClassification): Label { c.classification }

  /** A dict comprehension keyed by reviewer id: reviews are entered in order,
      so a later review with the same id overwrites an earlier one. */
  function Columns<V>(reviews: seq<Review>, suffix: string, field: SpikeClassification -> V): map<string, V>
  {
    if reviews == [] then map[]
    else
      var last := reviews[|reviews| - 1];
      Columns(reviews[..|reviews| - 1], suffix, field)[ColumnKey(last.reviewerId, suffix) := field(last.response)]
  }

  /** Different reviewer ids, or different suffixes of equal length, give
      different column names. */
  lemma ColumnKeyInjective(a: nat, b: nat, s: string, t: string)
    requires |s| == |t|
    requires ColumnKey(a, s) == ColumnKey(b, t)
    ensures a == b && s == t
  {
    var ka, kb := ColumnKey(a, s), ColumnKey(b, t);
    var da, db := Decimal(a), Decimal(b);
    assert |da| == |db|;
    assert da == ka[9..9 + |da|] && db == kb[9..9 + |db|];
    DecimalInjective(a, b);
    assert s == ka[9 + |da|..] && t == kb[9 + |db|..];
  }

  /** The score and class columns of one review never share a name. */
  lemma ScoreAndClassKeysDiffer(a: nat, b: nat)
    ensures ColumnKey(a, ScoreSuffix) != ColumnKey(b, ClassSuffix)
  {
    var ka, kb := ColumnKey(a, ScoreSuffix), ColumnKey(b, ClassSuffix);
    assert ka[|ka| - 1] == 'e' && kb[|kb| - 1] == 's';
  }

  /** There is a column for every review's id, and for no other name. */
  lemma {:induction false} ColumnsKeys<V>(reviews: seq<Review>, suffix: string, field: SpikeClassification -> V)
    ensures forall i :: 0 <= i < |reviews| ==> ColumnKey(reviews[i].reviewerId, suffix) in Columns(reviews, suffix, field)
    ensures forall k :: k in Columns(reviews, suffix, field) ==>
      exists i :: 0 <= i < |reviews| && k == ColumnKey(reviews[i].reviewerId, suffix)
    ensures forall k :: k in Columns(reviews, suffix, field) <==>
      exists i :: 0 <= i < |reviews| && k == ColumnKey(reviews[i].reviewerId, suffix)
  {
    if reviews != [] {
      var n := |reviews| - 1;
      var init := reviews[..n];
      ColumnsKeys(init, suffix, field);
      assert forall i :: 0 <= i < n ==> init[i] == reviews[i];
    }
  }

  /** Each column holds the field of the last review carrying its id. */
  lemma {:induction false} ColumnsValues<V>(reviews: seq<Review>, suffix: string, field: SpikeClassification -> V)
    ensures forall i :: 0 <= i < |reviews| && LastWithId(reviews, i) ==>
      && ColumnKey(reviews[i].reviewerId, suffix) in Columns(reviews, suffix, field)
      && Columns(reviews, suffix, field)[ColumnKey(reviews[i].reviewerId, suffix)] == field(reviews[i].response)
  {
    if reviews != [] {
      var n := |reviews| - 1;
      var init := reviews[..n];
      var m := Columns(reviews, suffix, field);
      ColumnsValues(init, suffix, field);
      forall i | 0 <= i < |reviews| && LastWithId(reviews, i)
        ensures ColumnKey(reviews[i].reviewerId, suffix) in m
        ensures m[ColumnKey(reviews[i].reviewerId, suffix)] == field(reviews[i].response)
      {
        if i < n {
          assert init[i] == reviews[i];
          assert LastWithId(init, i);
          if ColumnKey(reviews[i].reviewerId, suffix) == ColumnKey(reviews[n].reviewerId, suffix) {
            ColumnKeyInjective(reviews[i].reviewerId, reviews[n].reviewerId, suffix, suffix);
          }
        }
      }
    }
  }

  /** No later review carries the same reviewer id as review `i`. */
  predicate LastWithId(reviews: seq<Review>, i: nat)
    requires i < |reviews|
  {
    forall j :: i < j < |reviews| ==> reviews[j].reviewerId != reviews[i].reviewerId
  }

  // --------------------------------------------------------------- record

  /** `aggregate_results(reviews, unit_id)`. `statistics.mean` raises on an
      empty list, so an empty panel is an error. */
  function Aggregate(reviews: seq<Review>, unitId: int): (r: Result<Record>)
    ensures r.Ok? <==> |reviews| > 0
    ensures r.Err? ==> r.error == StatisticsError
  {
    if |reviews| == 0 then Err(StatisticsError)
    else
      Ok(Record(
        unitId,
        Mean(Scores(reviews)),
        Majority(Labels(reviews)),
        Join("\n", ReasoningLines(reviews)),
        Columns(reviews, ScoreSuffix, ScoreOf),
        Columns(reviews, ClassSuffix, ClassOf)))
  }

  /** The final label is Good exactly when at least two reviews (two
      entries of the multiset of labels) say Good, otherwise Bad; it is
      never Error. */
  lemma MajorityVote(reviews: seq<Review>, unitId: int)
    requires |reviews| > 0
    ensures var final := Aggregate(reviews, unitId).value.finalClassification;
      && final != Error
      && (final == Good <==> multiset(Labels(reviews))[Good] >= 2)
      && (final == Good <==> TwoGood(Labels(reviews)))
  {
    CountGoodIsMultiplicity(Labels(reviews));
    CountGoodAtLeastTwo(Labels(reviews));
  }

  function Vote(id: nat, verdict: Label): Review
  {
    Review(id, SpikeClassification(verdict, 0.5, ""))
  }

  /** The vote patterns of a panel of three. */
  lemma VotePatterns()
    ensures Aggregate([Vote(1, Good), Vote(2, Good), Vote(3, Bad)], 0).value.finalClassification == Good
    ensures Aggregate([Vote(1, Good), Vote(2, Bad), Vote(3, Bad)], 0).value.finalClassification == Bad
    ensures Aggregate([Vote(1, Good), Vote(2, Error), Vote(3, Error)], 0).value.finalClassification == Bad
    ensures Aggregate([Vote(1, Error), Vote(2, Error), Vote(3, Error)], 0).value.finalClassification == Bad
  {
    var l1 := Labels([Vote(1, Good), Vote(2, Good), Vote(3, Bad)]);
    assert l1 == [Good, Good, Bad];
    assert CountGood(l1) == 2 by { assert l1[1..] == [Good, Bad]; assert l1[1..][1..] == [Bad]; }
    var l2 := Labels([Vote(1, Good), Vote(2, Bad), Vote(3, Bad)]);
    assert l2 == [Good, Bad, Bad];
    assert CountGood(l2) == 1 by { assert l2[1..] == [Bad, Bad]; assert l2[1..][1..] == [Bad]; }
    var l3 := Labels([Vote(1, Good), Vote(2, Error), Vote(3, Error)]);
    assert l3 == [Good, Error, Error];
    assert CountGood(l3) == 1 by { assert l3[1..] == [Error, Error]; assert l3[1..][1..] == [Error]; }
    var l4 := Labels([Vote(1, Error), Vote(2, Error), Vote(3, Error)]);
    assert l4 == [Error, Error, Error];
    assert CountGood(l4) == 0 by { assert l4[1..] == [Error, Error]; assert l4[1..][1..] == [Error]; }
  }

  /** The average score is the mean of every review's score, Error
      sentinels counting as 0, and lies between the smallest and largest. */
  lemma AverageScore(reviews: seq<Review>, unitId: int)
    requires |reviews| > 0
    ensures var avg := Aggregate(reviews, unitId).value.averageScore;
      && avg == Sum(Scores(reviews)) / (|reviews| as real)
      && Min(Scores(reviews)) <= avg <= Max(Scores(reviews))
  {
    var rec := Aggregate(reviews, unitId).value;
    assert rec.averageScore == Mean(Scores(reviews));
    MeanBetween(Scores(reviews), Min(Scores(reviews)), Max(Scores(reviews)));
  }

  /** The combined reasoning has one line per review, in the given order,
      each reading "Reviewer <id>: <reasoning>", as long as no reasoning
      itself contains a line break. */
  lemma CombinedReasoning(reviews: seq<Review>, unitId: int)
    requires |reviews| > 0
    requires forall i :: 0 <= i < |reviews| ==> '\n' !in reviews[i].response.reasoning
    ensures var lines := Split(Aggregate(reviews, unitId).value.combinedReasoning, '\n');
      && |lines| == |reviews|
      && forall i :: 0 <= i < |reviews| ==>
           lines[i] == "Reviewer " + Decimal(reviews[i].reviewerId) + ": " + reviews[i].response.reasoning
  {
    var lines := ReasoningLines(reviews);
    forall i | 0 <= i < |lines| ensures '\n' !in lines[i] {
      ReasoningLineSingle(reviews[i]);
    }
    SplitJoin(lines, '\n');
  }

  /** One score column per reviewer id, holding that reviewer's score (the
      last review wins when an id repeats). */
  lemma ScoreColumns(reviews: seq<Review>, unitId: int)
    requires |reviews| > 0
    ensures var scores := Aggregate(reviews, unitId).value.scores;
      && (forall k :: k in scores <==>
            exists i :: 0 <= i < |reviews| && k == ColumnKey(reviews[i].reviewerId, ScoreSuffix))
      && forall i :: 0 <= i < |reviews| && LastWithId(reviews, i) ==>
           scores[ColumnKey(reviews[i].reviewerId, ScoreSuffix)] == reviews[i].response.confidenceScore
  {
    ColumnsKeys(reviews, ScoreSuffix, ScoreOf);
    ColumnsValues(reviews, ScoreSuffix, ScoreOf);
  }

  /** One class column per reviewer id, holding that reviewer's label (the
      last review wins when an id repeats). */
  lemma ClassColumns(reviews: seq<Review>, unitId: int)
    requires |reviews| > 0
    ensures var classes := Aggregate(reviews, unitId).value.classes;
      && (forall k :: k in classes <==>
            exists i :: 0 <= i < |reviews| && k == ColumnKey(reviews[i].reviewerId, ClassSuffix))
      && forall i :: 0 <= i < |reviews| && LastWithId(reviews, i) ==>
           classes[ColumnKey(reviews[i].reviewerId, ClassSuffix)] == reviews[i].response.classification
  {
    ColumnsKeys(reviews, ClassSuffix, ClassOf);
    ColumnsValues(reviews, ClassSuffix, ClassOf);
  }
}
