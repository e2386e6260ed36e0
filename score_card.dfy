/** The score card's colour banding: the score's text and its ring are
    coloured by two separate threshold chains at 85 and 60. The ring's
    length (floating-point arithmetic on pi) is not part of this model. */
module ScoreCard {

  datatype Band = Red | Yellow | Green

  /** Orders the bands from worst to best. */
  function Rank(b: Band): nat
  {
    match b
    case Red => 0
    case Yellow => 1
    case Green => 2
  }

  /** Reference banding, read from the bottom up: below 60 is red, below 85
      yellow, anything else green. No range is assumed. */
  function BandOf(score: int): (b: Band)
    ensures b == Green <==> score >= 85
    ensures b == Yellow <==> 60 <= score < 85
    ensures b == Red <==> score < 60
  {
    if score < 60 then Red else if score < 85 then Yellow else Green
  }

  function TextClass(b: Band): string
  {
    match b
    case Green => "text-green-500"
    case Yellow => "text-yellow-500"
    case Red => "text-red-500"
  }

  function StrokeClass(b: Band): string
  {
    match b
    case Green => "stroke-green-500"
    case Yellow => "stroke-yellow-500"
    case Red => "stroke-red-500"
  }

  /** The class of the score's text. */
  function ScoreColor(s: int): (c: string)
    ensures c == TextClass(BandOf(s))
  {
    if s >= 85 then "text-green-500"
    else if s >= 60 then "text-yellow-500"
    else "text-red-500"
  }

  /** The class of the score's ring. */
  function StrokeColor(s: int): (c: string)
    ensures c == StrokeClass(BandOf(s))
  {
    if s >= 85 then "stroke-green-500"
    else if s >= 60 then "stroke-yellow-500"
    else "stroke-red-500"
  }

  /** What the card shows for a score: the number itself and the two classes. */
  datatype Card = Card(shown: int, textClass: string, strokeClass: string)

  function Render(score: int): (c: Card)
    ensures c.shown == score
    ensures c.textClass == TextClass(BandOf(score)) && c.strokeClass == StrokeClass(BandOf(score))
  {
    Card(score, ScoreColor(score), StrokeColor(score))
  }

  /** Different bands have different classes, for the text and for the ring. */
  lemma ClassesDistinguishBands(b1: Band, b2: Band)
    ensures TextClass(b1) == TextClass(b2) <==> b1 == b2
    ensures StrokeClass(b1) == StrokeClass(b2) <==> b1 == b2
  {
  }

  /** The text and the ring always fall in the same band: the ring has the
      class of a band exactly when the text has that band's class. */
  lemma ColorsAgree(s: int, b: Band)
    ensures ScoreColor(s) == TextClass(b) <==> StrokeColor(s) == StrokeClass(b)
    ensures ScoreColor(s) == TextClass(b) <==> BandOf(s) == b
  {
    ClassesDistinguishBands(BandOf(s), b);
  }

  /** A higher score never lands in a lower band. */
  lemma BandMonotone(s: int, t: int)
    requires s <= t
    ensures Rank(BandOf(s)) <= Rank(BandOf(t))
  {
  }

  /** There is no clamping: the card shows the raw score, anything above 100
      is still green and anything negative still red. */
  lemma NoClamping(score: int)
    ensures Render(score).shown == score
    ensures score > 100 ==>
      Render(score).textClass == "text-green-500" && Render(score).strokeClass == "stroke-green-500"
    ensures score < 0 ==>
      Render(score).textClass == "text-red-500" && Render(score).strokeClass == "stroke-red-500"
  {
  }
}
