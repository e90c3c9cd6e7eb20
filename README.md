# Hand-gesture detector: the per-tick decision rule

This project models the one piece of local logic in the HandGestureDetection web
app: `App.detect`, the routine a 10 ms timer runs. On each tick:

1. It does nothing unless the webcam reference is neither undefined nor null and
   its `<video>` has ready state 4 (`HAVE_ENOUGH_DATA`).
2. It sets the video element's and the overlay canvas's width and height to the
   video's intrinsic size.
3. It asks the hand-pose model for the hands in the frame.
4. If there is at least one hand, it gives the landmarks of the first hand, and
   only that hand, to the finger-pose gesture estimator with minimum
   confidence 4.
5. If the estimator returns a non-empty `gestures` list, it publishes the name
   of the highest-scoring entry as the displayed emoji. It finds that entry with
   `indexOf(Math.max(...scores))`, so among tied scores the first one wins.
   Otherwise the emoji stays as it was.
6. It draws the hands on the canvas.

Modules:

- `Types` (types.dfy) holds the data exchanged with the two external
  collaborators: `Point`, `Hand`, `GestureScore`, `Estimation` and Option.
- `Selection` (selection.dfy) holds the pure score selection. `Max` models
  `Math.max`. `IndexOf` models `indexOf`, including its -1 result when the value
  is absent. `ArgMaxFirst` is their composition. `IsFirstMax` is an independent
  definition of "first maximum" that `ArgMaxFirst` is proved to match exactly.
  `Selected` applies the rule to an estimator result.
- `Detector` (detector.dfy) holds the stateful part. `Video` and `Canvas` are the
  DOM objects whose sizes the tick assigns. `Current` is what the webcam reference
  holds: undefined, null, or the mounted webcam, whose video may be null. `App` holds the `emoji` display
  state, and `App.Detect` is the tick. It returns whether the tick was turned away, ran to the end, or was stopped part-way by an exception or a rejected promise. `NextEmoji` is the function that specifies
  the new emoji, and the lemmas beside it state the retention and first-hand
  properties.

The pose model's result for the frame (`hands`, None when the promise rejects)
and the gesture estimator (`estimate`, a function of the landmarks and the
minimum confidence that yields None when it rejects) are parameters of the tick. Scores are `real`, because the rule only compares them.

In the source, `detect` uses `webcamRef`, `canvasRef` and `setEmoji`, but these
are declared as hooks inside `render` (src/App1.js:103-106). The interval also
calls `detect(net)` without `this.` (src/App1.js:46), and `componentDidMount`
calls `this.detect()` without a model (src/App1.js:38). The model follows the
evident intent of src/App1.js:51-95: the references are the component's webcam
and canvas, and `setEmoji` updates the component's `emoji` state.

## Model

| member | source | states |
|---|---|---|
| Selection.Max | src/App1.js:86 | `Math.max` over a non-empty score list returns a value that occurs in the list and is at least every score |
| Selection.IndexOf | src/App1.js:85 | `indexOf` returns -1 exactly when the value is absent; otherwise it returns a position that holds the value, with no earlier position holding it |
| Selection.ArgMaxFirst | src/App1.js:82-87 | the selected index is a valid position of the list; its score is at least every score and strictly greater than every earlier score, so the first of the tied maxima wins |
| Selection.ArgMaxFirstIsFirstMax | src/App1.js:85-87 | an index is a first maximum (the reference definition) if and only if it is the selected index, so the selection is unique |
| Selection.TieGoesToFirst | src/App1.js:85-87 | when two positions both hold the maximum score, the selected index is at or before the earlier one and is never the later one |
| Selection.ArgMaxFirstAppend | src/App1.js:82-87 | an appended score becomes the selection only if it is strictly greater than the current best; an equal score never displaces an earlier one |
| Selection.Selected | src/App1.js:80-89 | nothing is selected exactly when `gestures` is undefined or empty; otherwise the selected name belongs to a first-maximum entry of `Scores`, the list of scores the `map` at src/App1.js:82-84 builds |
| Selection.SelectedIsArgMaxFirst | src/App1.js:80-89 | for a non-empty list, the published name is `gestures[index].name` at the first-maximum index, and that entry's score equals `Math.max` of the scores |
| Detector.NextEmoji | src/App1.js:68-91 | with zero hands, a rejected estimate, or an undefined or empty gesture list for the first hand, the emoji is kept exactly; otherwise it becomes the name of a first-maximum gesture estimated from `hands[0]` at minimum confidence 4 |
| Detector.OnlyFirstHandMatters | src/App1.js:78 | two hand lists with the same first hand yield the same emoji, so hands at index 1 and beyond cannot affect the result |
| Detector.PublishIgnoresPrevious | src/App1.js:80-90 | when a tick publishes (a hand, an estimate that was not rejected, a non-empty gesture list), the result does not depend on the previous emoji |
| Detector.NextEmojiIdempotent | src/App1.js:68-91 | repeating the decision on the same frame and estimate leaves the emoji where one tick put it |
| Detector.App.constructor | src/App1.js:106 | the emoji starts out null, so no gesture is shown |
| Detector.App.Detect | src/App1.js:50-96 | if the guard `IsReady` fails (src/App1.js:51-55: the reference is undefined or null, or `readyState` is not 4), nothing changes: no resize, no emoji update, no draw; a null video counts as a failed tick. On a ready tick the video's width and height become its intrinsic size. If the canvas is null, the tick fails there and nothing else changes. Otherwise the canvas gets the same size. If the pose model or the estimator rejects, the emoji is kept, nothing is drawn and the tick fails. On a completed tick the emoji is `NextEmoji` of the old emoji and the hands are drawn once |

## Left out

- Loading the hand-pose model, `estimateHands`, and the 10 ms `setInterval` driver (src/App1.js:43-48, 66): an external ML model and timer scheduling. Their output for one frame is the `hands` parameter, and None stands for a rejected estimate.
- The finger-pose `GestureEstimator` and its `estimate` (src/App1.js:69-78): a foreign library whose source is not shown, with floating-point scores. This covers curl and direction features, scoring, and the filter that drops gestures below the minimum confidence. It is the `estimate` parameter, and the model fixes only the arguments it receives.
- The six gesture descriptor modules (src/App1.js:8-13): custom-gestures/*.js is not part of this model. So whether their names match the image keys (src/App1.js:107-114) is not checked.
- `drawHand` and the canvas 2-D context (src/App1.js:93-94): pixel output in utilities.js, which is not part of this model. A draw is recorded only as the hand list appended to `Canvas.drawn`. That field is a log of calls, not what the canvas shows: assigning the canvas width at src/App1.js:63 clears it, so only the latest drawing is visible. Also, and an exception thrown inside `getContext` or `drawHand` is not modelled.
- React lifecycle, the loading spinner, the JSX layout and the image lookup (src/App1.js:26-41, 98-169): user interface.
- Overlapping asynchronous ticks and out-of-order results: the source does not handle this concurrency, and each `Detect` call runs without interleaving with another.
- Floating-point details of `Math.max` (NaN scores, and `-Infinity` for an empty list): scores are `real`, and the empty list never reaches `Math.max` because of the guard at src/App1.js:80.
