/** Presentation helpers of the emotion detector component: the dominant-emotion
    scan over an expression distribution and the two fixed per-label tables
    (display colour and Turkish display name). */
module Emotions {

  datatype Option<+T> = None | Some(value: T)

  /** An emotion label as the expression classifier names it ("happy", "sad", ...). */
  type Label = string

  /** The expressions of one detected face: a JavaScript object from label to score,
      written as its (label, score) entries in key insertion order, which is the
      order in which Object.keys visits them. */
  type Expressions = seq<(Label, real)>

  /** The record the dominant-emotion helper returns. */
  datatype DominantEmotion = DominantEmotion(emotion: Label, value: real)

  /** The record returned when no score beats the initial maximum of 0. */
  const NoEmotion := DominantEmotion("", 0.0)

  /** The keys of a JavaScript object are distinct. */
  ghost predicate DistinctLabels(d: Expressions) {
    forall i, j :: 0 <= i < j < |d| ==> d[i].0 != d[j].0
  }

  /** `emotions[key]`: the score stored under a label, if it is a key. */
  function Lookup(d: Expressions, key: Label): (r: Option<real>)
    ensures r.Some? ==> exists k :: 0 <= k < |d| && d[k] == (key, r.value)
    ensures r.None? ==> forall k :: 0 <= k < |d| ==> d[k].0 != key
  {
    if d == [] then None
    else if d[0].0 == key then Some(d[0].1)
    else
      var r := Lookup(d[1..], key);
      assert r.Some? ==> exists k :: 0 <= k < |d| && d[k] == (key, r.value) by {
        if r.Some? {
          var k :| 0 <= k < |d[1..]| && d[1..][k] == (key, r.value);
          assert d[k + 1] == (key, r.value);
        }
      }
      r
  }

  /** With distinct keys, looking up the label of an entry gives that entry's score. */
  lemma {:induction false} LookupAt(d: Expressions, k: nat)
    requires DistinctLabels(d) && k < |d|
    ensures Lookup(d, d[k].0) == Some(d[k].1)
  {
    if k > 0 {
      assert d[0].0 != d[k].0;
      assert d[1..][k - 1] == d[k];
      LookupAt(d[1..], k - 1);
    }
  }

  // ---------------------------------------------------------------------------
  // The dominant emotion
  // ---------------------------------------------------------------------------

  /** One step of the scan: an entry replaces the running maximum only when its
      score is strictly greater. */
  function Consider(best: DominantEmotion, entry: (Label, real)): DominantEmotion {
    if entry.1 > best.value then DominantEmotion(entry.0, entry.1) else best
  }

  /** The scan over the entries in key order, starting from ("", 0). */
  function DominantOf(d: Expressions): DominantEmotion
    decreases |d|
  {
    if d == [] then NoEmotion else Consider(DominantOf(d[..|d| - 1]), d[|d| - 1])
  }

  ghost predicate NoPositiveScore(d: Expressions) {
    forall j :: 0 <= j < |d| ==> d[j].1 <= 0.0
  }

  /** Entry k holds a positive maximal score and is the first entry to hold it. */
  ghost predicate FirstMaximumAt(d: Expressions, k: int) {
    0 <= k < |d| && d[k].1 > 0.0 &&
    (forall j :: 0 <= j < k ==> d[j].1 < d[k].1) &&
    (forall j :: k < j < |d| ==> d[j].1 <= d[k].1)
  }

  /** The declarative meaning of the dominant emotion: ("", 0) when no score is
      positive, otherwise the label and score of the first entry holding the
      largest score. */
  ghost predicate IsDominant(d: Expressions, r: DominantEmotion) {
    (NoPositiveScore(d) && r == NoEmotion) ||
    (exists k :: FirstMaximumAt(d, k) && r == DominantEmotion(d[k].0, d[k].1))
  }

  /** The strict-greater scan computes the dominant emotion. */
  lemma {:induction false} DominantOfIsDominant(d: Expressions)
    ensures IsDominant(d, DominantOf(d))
  {
    if d != [] {
      var n := |d| - 1;
      var p := d[..n];
      var best := DominantOf(p);
      DominantOfIsDominant(p);
      assert forall j :: 0 <= j < n ==> p[j] == d[j];
      // every earlier score is at most the running maximum, which is never negative
      assert best.value >= 0.0 && forall j :: 0 <= j < n ==> d[j].1 <= best.value by {
        if !NoPositiveScore(p) {
          var k :| FirstMaximumAt(p, k) && best == DominantEmotion(p[k].0, p[k].1);
        }
      }
      if d[n].1 > best.value {
        assert FirstMaximumAt(d, n);
      } else if NoPositiveScore(p) {
        assert NoPositiveScore(d);
      } else {
        var k :| FirstMaximumAt(p, k) && best == DominantEmotion(p[k].0, p[k].1);
        assert FirstMaximumAt(d, k);
      }
    }
  }

  /** The declarative meaning determines the result: in particular, among tied
      maximal scores only the first label in key order can be the answer. */
  lemma DominantIsUnique(d: Expressions, r: DominantEmotion)
    requires IsDominant(d, r)
    ensures r == DominantOf(d)
  {
    DominantOfIsDominant(d);
    var s := DominantOf(d);
    if !NoPositiveScore(d) {
      var k1 :| FirstMaximumAt(d, k1) && r == DominantEmotion(d[k1].0, d[k1].1);
      var k2 :| FirstMaximumAt(d, k2) && s == DominantEmotion(d[k2].0, d[k2].1);
      // each is at most the other, so the strict part of the first-maximum
      // condition leaves no room for two different positions
      assert d[k1].1 <= d[k2].1 && d[k2].1 <= d[k1].1;
    }
  }

  /** Stated on the object itself: when some score is positive, the returned label
      is a key whose score is the returned value, and no key has a larger score. */
  lemma DominantIsKey(d: Expressions)
    requires DistinctLabels(d) && !NoPositiveScore(d)
    ensures Lookup(d, DominantOf(d).emotion) == Some(DominantOf(d).value)
    ensures DominantOf(d).value > 0.0
    ensures forall key :: Lookup(d, key).Some? ==> Lookup(d, key).value <= DominantOf(d).value
  {
    DominantOfIsDominant(d);
    var r := DominantOf(d);
    var k :| FirstMaximumAt(d, k) && r == DominantEmotion(d[k].0, d[k].1);
    LookupAt(d, k);
  }

  /** `getDominantEmotion` as a value: null exactly when there are no expressions. */
  function Dominant(emotions: Option<Expressions>): (r: Option<DominantEmotion>)
    ensures r.None? <==> emotions.None?
    ensures emotions.Some? ==> IsDominant(emotions.value, r.value)
  {
    match emotions
    case None => None
    case Some(d) =>
      DominantOfIsDominant(d);
      Some(DominantOf(d))
  }

  /** The helper as the component runs it: a loop over the keys that keeps the
      running maximum label and score in two mutable variables. */
  method GetDominantEmotion(emotions: Option<Expressions>) returns (r: Option<DominantEmotion>)
    ensures r == Dominant(emotions)
  {
    if emotions.None? {
      return None;
    }
    var d := emotions.value;
    var maxEmotion: Label := "";
    var maxValue: real := 0.0;
    var i := 0;
    while i < |d|
      invariant 0 <= i <= |d|
      invariant DominantEmotion(maxEmotion, maxValue) == DominantOf(d[..i])
    {
      assert d[..i + 1][..i] == d[..i];
      if d[i].1 > maxValue {
        maxValue := d[i].1;
        maxEmotion := d[i].0;
      }
      i := i + 1;
    }
    assert d[..|d|] == d;
    r := Some(DominantEmotion(maxEmotion, maxValue));
  }

  // ---------------------------------------------------------------------------
  // Display tables
  // ---------------------------------------------------------------------------

  /** The colour class used for labels without an entry of their own. */
  const Gray := "bg-gray-500"

  /** The progress-bar colour class of each known label. */
  const Colors: map<Label, string> := map[
    "happy" := "bg-green-500",
    "sad" := "bg-blue-500",
    "angry" := "bg-red-500",
    "neutral" := "bg-gray-500",
    "surprised" := "bg-yellow-500",
    "disgusted" := "bg-purple-500",
    "fearful" := "bg-orange-500"
  ]

  /** The Turkish display name of each known label. */
  const Names: map<Label, string> := map[
    "happy" := "Mutlu",
    "sad" := "Üzgün",
    "angry" := "Kızgın",
    "neutral" := "Nötr",
    "surprised" := "Şaşkın",
    "disgusted" := "İğrenmiş",
    "fearful" := "Korkmuş"
  ]

  /** `colors[emotion] || "bg-gray-500"`: the `||` falls back only on a missing
      entry, since no palette entry is the empty string. */
  function EmotionColor(emotion: Label): (c: string)
    ensures c == if emotion in Colors then Colors[emotion] else Gray
  {
    if emotion in Colors && Colors[emotion] != "" then Colors[emotion] else Gray
  }

  /** `labels[emotion] || emotion`: the `||` falls back only on a missing entry,
      since no display name is the empty string. */
  function EmotionLabel(emotion: Label): (s: string)
    ensures s == if emotion in Names then Names[emotion] else emotion
  {
    if emotion in Names && Names[emotion] != "" then Names[emotion] else emotion
  }

  /** Gray is the colour of exactly the unknown labels and of "neutral". */
  lemma EmotionColorIsGray(emotion: Label)
    ensures EmotionColor(emotion) == Gray <==> emotion !in Colors || emotion == "neutral"
  {
    if emotion in Colors {
      assert emotion in {"happy", "sad", "angry", "neutral", "surprised", "disgusted", "fearful"};
    }
  }

  /** A label is shown as itself exactly when it has no Turkish name. */
  lemma EmotionLabelFixesOnlyUnknown(emotion: Label)
    ensures EmotionLabel(emotion) == emotion <==> emotion !in Names
  {
    if emotion in Names {
      assert emotion in {"happy", "sad", "angry", "neutral", "surprised", "disgusted", "fearful"};
    }
  }

  /** No two known labels share a display name. */
  lemma EmotionLabelInjective(a: Label, b: Label)
    requires a in Names && b in Names && EmotionLabel(a) == EmotionLabel(b)
    ensures a == b
  {
    assert a in {"happy", "sad", "angry", "neutral", "surprised", "disgusted", "fearful"};
    assert b in {"happy", "sad", "angry", "neutral", "surprised", "disgusted", "fearful"};
  }

  /** Both tables cover the same seven labels of the classifier. */
  lemma TablesCoverSameLabels()
    ensures Colors.Keys == Names.Keys
    ensures |Names.Keys| == 7
  {
    assert Names.Keys == {"happy", "sad", "angry", "neutral", "surprised", "disgusted", "fearful"};
  }
}
