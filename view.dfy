/** Which panels the component renders, as a function of its `emotions`,
    `isLoading` and `error` state. */
module View {
  import opened Emotions

  /** JavaScript truthiness of the error state: null and the empty string are falsy. */
  predicate ErrorShown(error: Option<string>) {
    error.Some? && error.value != ""
  }

  /** The "dominant emotion" card: the display name of the dominant label and its score. */
  datatype Card = Card(name: string, score: real)

  /** One row of the "all emotions" list: display name, bar colour class and score. */
  datatype Row = Row(name: string, color: string, score: real)

  /** What is on screen besides the video: the error banner, the loading spinner,
      the dominant card, the list of all emotions and the "no face" placeholder. */
  datatype Panels = Panels(
    errorBanner: bool,
    spinner: bool,
    card: Option<Card>,
    rows: Option<seq<Row>>,
    placeholder: bool)

  /** One row per key of the expressions, in key order. */
  function Rows(d: Expressions): (rows: seq<Row>)
    ensures |rows| == |d|
    ensures forall i :: 0 <= i < |d| ==>
      rows[i] == Row(EmotionLabel(d[i].0), EmotionColor(d[i].0), d[i].1)
  {
    seq(|d|, i requires 0 <= i < |d| => Row(EmotionLabel(d[i].0), EmotionColor(d[i].0), d[i].1))
  }

  /** The rendered panels. The card is shown exactly when the list is; its score
      is the largest score in the list and, when positive, belongs to a row with
      the same name; with no positive score it shows an empty name and 0. */
  function Render(emotions: Option<Expressions>, isLoading: bool, error: Option<string>): (p: Panels)
    ensures p.errorBanner <==> ErrorShown(error)
    ensures p.spinner <==> isLoading
    ensures p.rows.Some? <==> emotions.Some?
    ensures p.card.Some? <==> emotions.Some?
    ensures p.placeholder <==> emotions.None? && !isLoading && !ErrorShown(error)
    ensures p.placeholder ==> p.card.None? && p.rows.None?
    ensures p.card.Some? ==>
      forall i :: 0 <= i < |p.rows.value| ==> p.rows.value[i].score <= p.card.value.score
    ensures p.card.Some? && p.card.value.score > 0.0 ==>
      exists i :: 0 <= i < |p.rows.value| &&
        p.rows.value[i].name == p.card.value.name && p.rows.value[i].score == p.card.value.score
    ensures p.card.Some? && p.card.value.score <= 0.0 ==> p.card.value == Card("", 0.0)
  {
    var dominant := Dominant(emotions);
    var card := match dominant
      case None => None
      case Some(r) => Some(Card(EmotionLabel(r.emotion), r.value));
    var rows := match emotions
      case None => None
      case Some(d) => Some(Rows(d));
    assert card.Some? ==> CardAgreesWithRows(emotions.value, dominant.value) by {
      if card.Some? {
        DominantAgreesWithRows(emotions.value, dominant.value);
      }
    }
    Panels(ErrorShown(error), isLoading, card, rows, emotions.None? && !isLoading && !ErrorShown(error))
  }

  ghost predicate CardAgreesWithRows(d: Expressions, r: DominantEmotion) {
    var rows := Rows(d);
    (forall i :: 0 <= i < |rows| ==> rows[i].score <= r.value) &&
    (r.value > 0.0 ==>
      exists i :: 0 <= i < |rows| && rows[i].name == EmotionLabel(r.emotion) && rows[i].score == r.value) &&
    (r.value <= 0.0 ==> EmotionLabel(r.emotion) == "" && r.value == 0.0)
  }

  /** What the dominant record means for the rendered list. */
  lemma DominantAgreesWithRows(d: Expressions, r: DominantEmotion)
    requires IsDominant(d, r)
    ensures CardAgreesWithRows(d, r)
  {
    var rows := Rows(d);
    if NoPositiveScore(d) {
      assert "" !in Names;
    } else {
      var k :| FirstMaximumAt(d, k) && r == DominantEmotion(d[k].0, d[k].1);
      assert rows[k].name == EmotionLabel(r.emotion) && rows[k].score == r.value;
    }
  }
}
