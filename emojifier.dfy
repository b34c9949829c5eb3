/** A model of the emoji selection core of the Emojify app: the rule that turns a
    detected face's three classifier scores into one of eight emoji, the map from
    emoji to drawable resource, and the per-face loop that composites one emoji
    over each face of a picture.

    Face detection, bitmap decoding and drawing are not modelled: the faces are an
    input sequence and the compositing step is a function parameter. */
module Emojifier {

  datatype Option<T> = None | Some(value: T)

  /** The eight emoji categories, in the enum's declaration order. */
  datatype Emoji =
    | Smile
    | Frown
    | LeftWink
    | RightWink
    | LeftWinkFrown
    | RightWinkFrown
    | ClosedEyedSmile
    | ClosedEyeFrown

  /** What the detector reports for one face: its bounding box and three
      probabilities. The box is only handed on to the compositor. */
  datatype Face = Face(
    x: real, y: real, width: real, height: real,
    smilingProb: real, leftEyeOpenProb: real, rightEyeOpenProb: real)

  const SmilingProbThreshold: real := 0.15
  const EyeOpenProbThreshold: real := 0.5

  /** The three booleans the selector derives from a face. */
  datatype Expression = Expression(smiling: bool, leftEyeClosed: bool, rightEyeClosed: bool)

  /** The expression each emoji stands for, read off its name: the reference
      table against which the decision tree is checked. */
  function ExpressionOf(e: Emoji): Expression
  {
    match e
    case Smile           => Expression(true,  false, false)
    case ClosedEyedSmile => Expression(true,  true,  true)
    case RightWink       => Expression(true,  false, true)
    case LeftWink        => Expression(true,  true,  false)
    case Frown           => Expression(false, false, false)
    case ClosedEyeFrown  => Expression(false, true,  true)
    case RightWinkFrown  => Expression(false, false, true)
    case LeftWinkFrown   => Expression(false, true,  false)
  }

  /** The three threshold tests. The right eye counts as "closed" when its
      open-probability is ABOVE the threshold: the comparator is kept as the
      app has it, mirror-inverted against the left eye's. So "both eyes closed"
      needs the right eye's open score above the left eye's, and "both open"
      the reverse. */
  function Classify(f: Face): (x: Expression)
    ensures x.leftEyeClosed && x.rightEyeClosed ==> f.leftEyeOpenProb < 0.5 < f.rightEyeOpenProb
    ensures !x.leftEyeClosed && !x.rightEyeClosed ==> f.rightEyeOpenProb <= 0.5 <= f.leftEyeOpenProb
  {
    Expression(
      f.smilingProb > SmilingProbThreshold,
      f.leftEyeOpenProb < EyeOpenProbThreshold,
      f.rightEyeOpenProb > EyeOpenProbThreshold)
  }

  /** The decision tree of the selector, on the three booleans. */
  function SelectEmoji(x: Expression): (e: Emoji)
    ensures ExpressionOf(e) == x
  {
    if x.smiling then
      if !x.leftEyeClosed && !x.rightEyeClosed then Smile
      else if x.leftEyeClosed && x.rightEyeClosed then ClosedEyedSmile
      else if !x.leftEyeClosed then RightWink
      else LeftWink
    else
      if !x.leftEyeClosed && !x.rightEyeClosed then Frown
      else if x.leftEyeClosed && x.rightEyeClosed then ClosedEyeFrown
      else if !x.leftEyeClosed then RightWinkFrown
      else LeftWinkFrown
  }

  /** The emoji chosen for a face. */
  function WhichEmoji(f: Face): (e: Emoji)
    ensures ExpressionOf(e).smiling <==> f.smilingProb > 0.15
    ensures ExpressionOf(e).leftEyeClosed <==> f.leftEyeOpenProb < 0.5
    ensures ExpressionOf(e).rightEyeClosed <==> f.rightEyeOpenProb > 0.5
  {
    SelectEmoji(Classify(f))
  }

  /** Reading an emoji back as its expression undoes the selection: no two
      expressions share an emoji. */
  lemma SelectEmojiInjective(x: Expression, y: Expression)
    requires SelectEmoji(x) == SelectEmoji(y)
    ensures x == y
  {
  }

  /** Every emoji is the selector's answer for exactly its own expression, so
      every emoji is reachable. */
  lemma SelectEmojiSurjective(e: Emoji)
    ensures SelectEmoji(ExpressionOf(e)) == e
  {
  }

  /** The selector's whole behaviour as the eight-row table on score ranges. */
  lemma WhichEmojiTable(f: Face)
    ensures f.smilingProb > 0.15 && f.leftEyeOpenProb >= 0.5 && f.rightEyeOpenProb <= 0.5 ==> WhichEmoji(f) == Smile
    ensures f.smilingProb > 0.15 && f.leftEyeOpenProb < 0.5 && f.rightEyeOpenProb > 0.5 ==> WhichEmoji(f) == ClosedEyedSmile
    ensures f.smilingProb > 0.15 && f.leftEyeOpenProb >= 0.5 && f.rightEyeOpenProb > 0.5 ==> WhichEmoji(f) == RightWink
    ensures f.smilingProb > 0.15 && f.leftEyeOpenProb < 0.5 && f.rightEyeOpenProb <= 0.5 ==> WhichEmoji(f) == LeftWink
    ensures f.smilingProb <= 0.15 && f.leftEyeOpenProb >= 0.5 && f.rightEyeOpenProb <= 0.5 ==> WhichEmoji(f) == Frown
    ensures f.smilingProb <= 0.15 && f.leftEyeOpenProb < 0.5 && f.rightEyeOpenProb > 0.5 ==> WhichEmoji(f) == ClosedEyeFrown
    ensures f.smilingProb <= 0.15 && f.leftEyeOpenProb >= 0.5 && f.rightEyeOpenProb > 0.5 ==> WhichEmoji(f) == RightWinkFrown
    ensures f.smilingProb <= 0.15 && f.leftEyeOpenProb < 0.5 && f.rightEyeOpenProb <= 0.5 ==> WhichEmoji(f) == LeftWinkFrown
  {
  }

  /** The three thresholds are strict: a score exactly on a threshold does not
      trip its test, and a score just past it does. The score a detector reports
      as "0.15" is the float 0.15f, which lies just above 0.15 and so counts as
      smiling. */
  lemma ThresholdsAreStrict(f: Face)
    ensures f.smilingProb == 0.15 ==> !Classify(f).smiling
    ensures f.smilingProb == 0.150001 ==> Classify(f).smiling
    ensures f.smilingProb == 0.1500000059604644775390625 ==> Classify(f).smiling
    ensures f.leftEyeOpenProb == 0.5 ==> !Classify(f).leftEyeClosed
    ensures f.rightEyeOpenProb == 0.5 ==> !Classify(f).rightEyeClosed
  {
  }

  /** A smiling face gets one of the four smiling emoji, any other face one of
      the four frowning ones. */
  lemma SmileDecidesFamily(f: Face)
    ensures f.smilingProb > 0.15 <==> WhichEmoji(f) in {Smile, ClosedEyedSmile, RightWink, LeftWink}
    ensures f.smilingProb <= 0.15 <==> WhichEmoji(f) in {Frown, ClosedEyeFrown, RightWinkFrown, LeftWinkFrown}
  {
  }

  /** Mixed eye states give a wink on the closed side; equal eye states give the
      closed-eye or the plain variant. */
  lemma EyeStatesDecideVariant(f: Face)
    ensures Classify(f).leftEyeClosed && !Classify(f).rightEyeClosed
      <==> WhichEmoji(f) in {LeftWink, LeftWinkFrown}
    ensures !Classify(f).leftEyeClosed && Classify(f).rightEyeClosed
      <==> WhichEmoji(f) in {RightWink, RightWinkFrown}
    ensures Classify(f).leftEyeClosed && Classify(f).rightEyeClosed
      <==> WhichEmoji(f) in {ClosedEyedSmile, ClosedEyeFrown}
    ensures !Classify(f).leftEyeClosed && !Classify(f).rightEyeClosed
      <==> WhichEmoji(f) in {Smile, Frown}
  {
  }

  /** Selection looks at nothing but the three scores: not the face's box. */
  lemma SelectionIgnoresGeometry(f: Face, g: Face)
    requires f.smilingProb == g.smilingProb
    requires f.leftEyeOpenProb == g.leftEyeOpenProb
    requires f.rightEyeOpenProb == g.rightEyeOpenProb
    ensures WhichEmoji(f) == WhichEmoji(g)
  {
  }

  /** Consequences of the inverted right-eye test: a face with both eyes open
      gets a right wink, one with both eyes shut a left wink. */
  lemma RightEyeTestInverted(f: Face)
    ensures f.leftEyeOpenProb > 0.5 && f.rightEyeOpenProb > 0.5
      ==> WhichEmoji(f) == (if f.smilingProb > 0.15 then RightWink else RightWinkFrown)
    ensures f.leftEyeOpenProb < 0.5 && f.rightEyeOpenProb < 0.5
      ==> WhichEmoji(f) == (if f.smilingProb > 0.15 then LeftWink else LeftWinkFrown)
  {
  }

  /** Two worked examples: (0.9, 0.9, 0.1) is a plain smile and (0.05, 0.1, 0.9)
      a closed-eye frown. */
  lemma WorkedExamples(f: Face)
    ensures f.smilingProb == 0.9 && f.leftEyeOpenProb == 0.9 && f.rightEyeOpenProb == 0.1
      ==> WhichEmoji(f) == Smile
    ensures f.smilingProb == 0.05 && f.leftEyeOpenProb == 0.1 && f.rightEyeOpenProb == 0.9
      ==> WhichEmoji(f) == ClosedEyeFrown
  {
  }

  /** A drawable resource, by its name in the app's resources. */
  type DrawableId = string

  /** The emoji-to-drawable switch. Every emoji has its own case, so the
      switch's fallback (no bitmap, a "no emoji" notice) cannot be reached. */
  function DrawableFor(e: Emoji): (d: DrawableId)
    ensures EmojiForDrawable(d) == Some(e)
  {
    match e
    case Smile           => "smile"
    case Frown           => "frown"
    case LeftWink        => "leftwink"
    case RightWink       => "rightwink"
    case LeftWinkFrown   => "leftwinkfrown"
    case RightWinkFrown  => "rightwinkfrown"
    case ClosedEyedSmile => "closed_smile"
    case ClosedEyeFrown  => "closed_frown"
  }

  /** The emoji a drawable belongs to, if any: the inverse of DrawableFor. */
  function EmojiForDrawable(d: DrawableId): Option<Emoji>
  {
    if d == "smile" then Some(Smile)
    else if d == "frown" then Some(Frown)
    else if d == "leftwink" then Some(LeftWink)
    else if d == "rightwink" then Some(RightWink)
    else if d == "leftwinkfrown" then Some(LeftWinkFrown)
    else if d == "rightwinkfrown" then Some(RightWinkFrown)
    else if d == "closed_smile" then Some(ClosedEyedSmile)
    else if d == "closed_frown" then Some(ClosedEyeFrown)
    else None
  }

  /** A drawable name belongs to an emoji exactly when the switch maps that
      emoji to it. */
  lemma EmojiForDrawableInverse(d: DrawableId, e: Emoji)
    ensures EmojiForDrawable(d) == Some(e) <==> DrawableFor(e) == d
  {
  }

  /** Distinct emoji get distinct drawables. */
  lemma DrawableForInjective(e1: Emoji, e2: Emoji)
    ensures DrawableFor(e1) == DrawableFor(e2) ==> e1 == e2
  {
  }

  /** The drawable composited over a face. */
  function DrawableForFace(f: Face): DrawableId
  {
    DrawableFor(WhichEmoji(f))
  }

  /** The picture after compositing one emoji per face, in index order, onto
      `img`: a left fold of `overlay` over `faces`. `overlay` stands for decoding
      the drawable and drawing it over the face. */
  function OverlayAll<Image>(img: Image, faces: seq<Face>, overlay: (Image, DrawableId, Face) -> Image): Image
    decreases |faces|
  {
    if |faces| == 0 then img
    else
      var last := faces[|faces| - 1];
      overlay(OverlayAll(img, faces[..|faces| - 1], overlay), DrawableForFace(last), last)
  }

  /** Compositing a run of faces then another run is compositing them all. */
  lemma {:induction false} OverlayAllAppend<Image>(
    img: Image, a: seq<Face>, b: seq<Face>, overlay: (Image, DrawableId, Face) -> Image)
    ensures OverlayAll(img, a + b, overlay) == OverlayAll(OverlayAll(img, a, overlay), b, overlay)
    decreases |b|
  {
    if |b| == 0 {
      assert a + b == a;
    } else {
      var b' := b[..|b| - 1];
      assert (a + b)[..|a + b| - 1] == a + b';
      assert (a + b)[|a + b| - 1] == b[|b| - 1];
      OverlayAllAppend(img, a, b', overlay);
    }
  }

  /** The first face is composited first, onto the untouched picture. */
  lemma OverlayAllFirst<Image>(
    img: Image, f: Face, rest: seq<Face>, overlay: (Image, DrawableId, Face) -> Image)
    ensures OverlayAll(img, [f] + rest, overlay)
         == OverlayAll(overlay(img, DrawableForFace(f), f), rest, overlay)
  {
    OverlayAllAppend(img, [f], rest, overlay);
    assert [f][..0] == [];
  }

  /** The per-face loop of the detect-and-overlay operation, after detection.
      `noFaces` is whether the "no faces" notice is shown. */
  method DetectFacesAndOverlayEmoji<Image>(
    img: Image, faces: seq<Face>, overlay: (Image, DrawableId, Face) -> Image)
    returns (result: Image, noFaces: bool)
    ensures noFaces <==> |faces| == 0
    ensures noFaces ==> result == img
    ensures result == OverlayAll(img, faces, overlay)
  {
    result := img;
    noFaces := |faces| == 0;
    if !noFaces {
      var i := 0;
      while i < |faces|
        invariant 0 <= i <= |faces|
        invariant result == OverlayAll(img, faces[..i], overlay)
      {
        var face := faces[i];
        var emojiBitmap := DrawableFor(WhichEmoji(face));
        assert faces[..i + 1][..i] == faces[..i];
        result := overlay(result, emojiBitmap, face);
        i := i + 1;
      }
      assert faces[..|faces|] == faces;
    }
  }
}
