# Emojify: emoji selection model

Emojify is an Android app. It finds the faces in a photo and draws an emoji over each one. A face detector scores each face with three probabilities: smiling, left eye open and right eye open. `Emojifier.whichEmoji` turns those scores into one of eight emoji. A `switch` then maps the emoji to a drawable resource. `detectFacesAndOverlayEmoji` composites one emoji per face onto the running result picture.

`emojifier.dfy` (module `Emojifier`) models these pieces:

- the `Emoji` enum, as a datatype;
- the face, as a record of its box and its three scores (`real`);
- the three threshold tests (`Classify`), with thresholds 0.15 and 0.5;
- the decision tree (`SelectEmoji`, `WhichEmoji`), checked against a reference table (`ExpressionOf`) read off the emoji names;
- the emoji-to-drawable switch (`DrawableFor`) and its inverse (`EmojiForDrawable`), which has no counterpart in the app and serves as its partner;
- the drawable chosen for one face (`DrawableForFace`: the `switch (whichEmoji(face))` at line 54);
- the per-face loop (`DetectFacesAndOverlayEmoji`), proved equal to a left fold (`OverlayAll`: one compositing step per face, as the loop at lines 50-102 does).

The right-eye test is kept as written: the right eye counts as "closed" when its open-probability is greater than 0.5. The left-eye test counts the left eye as closed when its open-probability is less than 0.5. `RightEyeTestInverted` states what follows from this. A face with both open scores above 0.5 gets a right wink (RIGHT_WINK or RIGHT_WINK_FROWN). A face with both open scores below 0.5 gets a left wink (LEFT_WINK or LEFT_WINK_FROWN).

The app compares `float` scores against `double` thresholds. The model compares exact reals against 0.15 and 0.5. The results are the same: 0.5 is exact, and no `float` lies between the `double` nearest 0.15 and 0.15 itself. A detector score of "0.15" is the `float` 0.15f = 0.1500000059604644775390625, which is above the threshold, so it counts as smiling (`ThresholdsAreStrict`).

The faces are an input sequence, in the detector's index order. The compositing step is a function parameter `overlay`. It stands for decoding the drawable and running `addBitmapToFace`. The picture type is a type parameter.

## Model

| member | source | states |
|---|---|---|
| Emojifier.Classify | app/src/main/java/com/example/android/emojify/Emojifier.java:127-129 | the three strict tests, right eye `>` as written: both eyes "closed" means left-open < 0.5 < right-open; both "open" means right-open <= 0.5 <= left-open |
| Emojifier.SelectEmoji | app/src/main/java/com/example/android/emojify/Emojifier.java:132-153 | the decision tree's emoji is the one whose name describes exactly the given smiling / left-closed / right-closed combination |
| Emojifier.WhichEmoji | app/src/main/java/com/example/android/emojify/Emojifier.java:118-159 | the chosen emoji is a smiling one iff the smile score is > 0.15; it has the left eye closed iff the left-open score is < 0.5; it has the right eye closed iff the right-open score is > 0.5 (as written) |
| Emojifier.SelectEmojiInjective | app/src/main/java/com/example/android/emojify/Emojifier.java:133-153 | no two boolean combinations give the same emoji |
| Emojifier.SelectEmojiSurjective | app/src/main/java/com/example/android/emojify/Emojifier.java:203-212 | every one of the eight emoji is selected, for exactly its own combination |
| Emojifier.WhichEmojiTable | app/src/main/java/com/example/android/emojify/Emojifier.java:127-153 | the eight-row table from score ranges to emoji |
| Emojifier.ThresholdsAreStrict | app/src/main/java/com/example/android/emojify/Emojifier.java:19-20 | a score of exactly 0.15 is not smiling, while 0.150001 and the float 0.15f are; exactly 0.5 closes neither eye |
| Emojifier.SmileDecidesFamily | app/src/main/java/com/example/android/emojify/Emojifier.java:133-153 | smiling iff the emoji is one of SMILE, CLOSED_EYED_SMILE, RIGHT_WINK, LEFT_WINK; otherwise one of the four frowns |
| Emojifier.EyeStatesDecideVariant | app/src/main/java/com/example/android/emojify/Emojifier.java:134-151 | left-only closed iff a left wink; right-only closed iff a right wink; both closed iff a closed-eye emoji; neither iff SMILE or FROWN |
| Emojifier.SelectionIgnoresGeometry | app/src/main/java/com/example/android/emojify/Emojifier.java:127-129 | the emoji depends only on the three scores of the face itself |
| Emojifier.RightEyeTestInverted | app/src/main/java/com/example/android/emojify/Emojifier.java:128-129 | with the right-eye test as written, both open scores above 0.5 give RIGHT_WINK / RIGHT_WINK_FROWN, and both below 0.5 give LEFT_WINK / LEFT_WINK_FROWN |
| Emojifier.WorkedExamples | app/src/main/java/com/example/android/emojify/Emojifier.java:127-153 | scores (0.9, 0.9, 0.1) give SMILE; (0.05, 0.1, 0.9) give CLOSED_EYE_FROWN |
| Emojifier.DrawableFor | app/src/main/java/com/example/android/emojify/Emojifier.java:54-98 | each emoji maps to the drawable named in its case, which the inverse lookup maps back to that emoji; every emoji has its own case, so the default branch is unreachable |
| Emojifier.EmojiForDrawableInverse | app/src/main/java/com/example/android/emojify/Emojifier.java:54-97 | a drawable name belongs to an emoji exactly when the switch maps that emoji to it |
| Emojifier.DrawableForInjective | app/src/main/java/com/example/android/emojify/Emojifier.java:54-97 | distinct emoji get distinct drawables |
| Emojifier.OverlayAllAppend | app/src/main/java/com/example/android/emojify/Emojifier.java:50-102 | compositing two runs of faces in turn equals compositing their concatenation |
| Emojifier.OverlayAllFirst | app/src/main/java/com/example/android/emojify/Emojifier.java:43-101 | the first face is composited first, onto the untouched input picture |
| Emojifier.DetectFacesAndOverlayEmoji | app/src/main/java/com/example/android/emojify/Emojifier.java:43-108 | the "no faces" notice is shown iff there are no faces, and then the input picture is returned; the result is always one composite step per face, in index order, starting from the input |

## Left out

- Face detection (`FaceDetector`, `Frame`, `detect`, `release`) is a closed-source library call. The faces are an input of the model.
- `addBitmapToFace` (lines 169-200) is not modelled. Its sizing and placement are `float` arithmetic with `int` truncation, and its drawing is Android `Bitmap`/`Canvas` code. It is the `overlay` parameter. The model assumes each compositing step returns. In the app, decoding or `addBitmapToFace` can throw part-way through the loop (for example `createScaledBitmap` with width 0 for a face under 2 pixels wide). That aborts the operation and skips `detector.release()`.
- `BitmapFactory.decodeResource`, `Toast`, `Log.d` and `Context` resource lookup are I/O and UI side effects. A drawable is its resource name. The "no faces" toast is the `noFaces` result. The logging is dropped.
- The switch's `default` branch (lines 95-97) has no counterpart. Dafny's `match` over the eight emoji is exhaustive, and the contract of `DrawableFor` shows every emoji has its own case. In the source that branch would pass a null bitmap on to `addBitmapToFace`. It would not skip the face.
