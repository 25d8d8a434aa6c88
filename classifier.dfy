/**
 * HandProcessor.classifyGesture: the captured points are compared with
 * every template in turn and the first template with the strictly smallest
 * error below the initial bound wins; -1 means no template matched.
 */
module Classifier {
  import opened Geometry
  import opened GestureTemplates

  /** The initial bound of the search, written `2*31 - 1` (that is, 61). */
  const InitialMinError: real := 2.0 * 31.0 - 1.0

  /** Every template has at least one point, as GestureTemplate's constructor needs. */
  predicate NonEmptyTemplates(templates: seq<Template>) {
    forall i :: 0 <= i < |templates| ==> |templates[i].points| >= 1
  }

  /** The comparison of the gesture with each template, in template order. */
  function Scores(sqrt: real -> real, templates: seq<Template>, gesture: seq<Point>): (s: seq<Comparison>)
    requires IsSqrt(sqrt) && |gesture| >= 4 && NonEmptyTemplates(templates)
    ensures |s| == |templates|
  {
    seq(|templates|, i requires 0 <= i < |templates| => CompareScore(sqrt, templates[i], gesture))
  }

  /**
   * A comparison that beats the bound with `error < bound`. A degenerate
   * comparison is numpy's nan, which is below nothing.
   */
  predicate Below(c: Comparison, bound: real) {
    c.Scored? && c.error < bound
  }

  /**
   * index is what the search settles on: -1 when no score is below the
   * initial bound; otherwise a score below the bound, strictly smaller than
   * every earlier score, and with no later score strictly below it.
   */
  predicate IsBestMatch(scores: seq<Comparison>, index: int) {
    if index == -1 then
      forall j :: 0 <= j < |scores| ==> !Below(scores[j], InitialMinError)
    else
      0 <= index < |scores| && Below(scores[index], InitialMinError)
      && (forall j :: 0 <= j < index ==> scores[j].Scored? ==> scores[index].error < scores[j].error)
      && (forall j :: index < j < |scores| ==> !Below(scores[j], scores[index].error))
  }

  /** At most one index is the best match: the selection rule has no ties. */
  lemma BestMatchUnique(scores: seq<Comparison>, a: int, b: int)
    requires IsBestMatch(scores, a) && IsBestMatch(scores, b)
    ensures a == b
  {
  }

  /**
   * The best match has the smallest score of all: no score is strictly
   * below it, and every score below the bound is at least as large.
   */
  lemma BestMatchMinimal(scores: seq<Comparison>, index: int, j: int)
    requires IsBestMatch(scores, index) && index != -1
    requires 0 <= j < |scores| && scores[j].Scored?
    ensures scores[index].error <= scores[j].error
    ensures j < index ==> scores[index].error < scores[j].error
  {
  }

  /**
   * The state of the search after the first i scores: minErrorIndex is the
   * best match among them and minError its score, or the initial bound.
   */
  predicate Searched(scores: seq<Comparison>, i: int, minError: real, minErrorIndex: int) {
    0 <= i <= |scores| && IsBestMatch(scores[..i], minErrorIndex)
    && minError == (if minErrorIndex == -1 then InitialMinError else scores[minErrorIndex].error)
  }

  /** One iteration of the search keeps it in step with the scores seen so far. */
  lemma SearchedStep(scores: seq<Comparison>, i: int, minError: real, minErrorIndex: int)
    requires Searched(scores, i, minError, minErrorIndex) && i < |scores|
    ensures Below(scores[i], minError) ==> Searched(scores, i + 1, scores[i].error, i)
    ensures !Below(scores[i], minError) ==> Searched(scores, i + 1, minError, minErrorIndex)
  {
    assert forall j :: 0 <= j < i ==> scores[..i + 1][j] == scores[..i][j];
  }

  /** classifyGesture, returning the index it settles on instead of printing its name. */
  method ClassifyGesture(sqrt: real -> real, templates: seq<Template>, gesture: seq<Point>) returns (minErrorIndex: int)
    requires IsSqrt(sqrt) && |gesture| >= 4 && NonEmptyTemplates(templates)
    ensures IsBestMatch(Scores(sqrt, templates, gesture), minErrorIndex)
  {
    ghost var scores := Scores(sqrt, templates, gesture);
    var minError := InitialMinError;
    minErrorIndex := -1;
    var i := 0;
    while i < |templates|
      invariant Searched(scores, i, minError, minErrorIndex)
    {
      var error := CompareGesture(sqrt, templates[i], gesture);
      assert scores[i] == error;
      SearchedStep(scores, i, minError, minErrorIndex);
      if error.Scored? && error.error < minError {
        minError := error.error;
        minErrorIndex := i;
      }
      i := i + 1;
    }
    assert scores[..i] == scores;
  }
}
