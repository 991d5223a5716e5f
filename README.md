# Emotion detector component — Dafny model

This project models the core of a React component, `EmotionDetector`. The component shows a live camera feed and lists the facial-expression scores that an external face-detection library reports for the detected face. The Dafny modules follow the component's own parts:

- `Emotions` (`emotions.dfy`) holds the presentation helpers. `GetDominantEmotion` finds the dominant emotion as the component does: a loop over the keys of the expressions object, in key order, that keeps a running maximum. The maximum starts at `("", 0)` and a score replaces it only when it is strictly greater. `EmotionColor` and `EmotionLabel` look a label up in the fixed colour table and the fixed Turkish-name table.
  - The expressions object is a sequence of `(label, score)` entries in insertion order, which is the order `Object.keys` visits them.
  - The scan is specified by the function `DominantOf`. It is checked against `IsDominant`, a declarative definition: `("", 0)` when no score is positive, else the first entry holding the largest score. Two lemmas prove they agree, one in each direction.
- `View` (`view.dfy`) decides which panels are rendered from `emotions`, `isLoading` and `error`. The panels are the error banner, the spinner, the dominant card, the list of all emotions and the "no face" placeholder.
- `Lifecycle` (`lifecycle.dfy`) is a class `EmotionDetector` with the component's React state and flags that record how far the effect chain has got. It has one method per callback or effect body: the script's load and error events, the model-loading effect, the camera effect, the detection effect and one detection tick.
  - Outcomes from the library, the camera and the clock are parameters of these methods.
  - `Valid()` is the gating invariant: no stage starts before the flag of the stage before it is set, and each error message belongs to the one stage that failed.
  - `Stage()` reads the flags as a forward-only state machine. Every method proves that the stage never moves back and that a failure is terminal.

The scores are JavaScript numbers. Here they are `real`.

## Model

| member | source | states |
|---|---|---|
| `Emotions.Lookup` | src/components/EmotionDetector.jsx:138-139 | `emotions[key]` gives a score only when some entry has that key and that score, and gives nothing when no entry has the key |
| `Emotions.LookupAt` | src/components/EmotionDetector.jsx:138-139 | Object keys are distinct, so looking up the label of the k-th key gives the k-th score. This is why the loop may read each entry's own score |
| `Emotions.DominantOfIsDominant` | src/components/EmotionDetector.jsx:135-145 | The strict-greater scan from `("", 0)` returns `("", 0)` when no score is positive. Otherwise it returns the label and score of an entry whose score is positive, at least every later score and strictly above every earlier score |
| `Emotions.DominantIsUnique` | src/components/EmotionDetector.jsx:139-141 | Any record that meets the declarative definition equals the scan's result. So among tied maximal scores, only the first in key order can be returned |
| `Emotions.DominantIsKey` | src/components/EmotionDetector.jsx:138-143 | With keys distinct and some score positive, the returned label is a key of the object and its score is the returned value. That value is positive and at least the score of every key |
| `Emotions.Dominant` | src/components/EmotionDetector.jsx:133-146 | The helper's result is null exactly when `emotions` is absent. Otherwise it is the dominant record in the declarative sense |
| `Emotions.GetDominantEmotion` | src/components/EmotionDetector.jsx:133-146 | The loop with its mutable `maxEmotion`/`maxValue` returns exactly the specified result: null for absent expressions, otherwise the dominant record |
| `Emotions.EmotionColor` | src/components/EmotionDetector.jsx:107-118 | Returns the palette entry for each of the seven known labels and `bg-gray-500` for any other string. The `\|\|` fallback never fires for a known label |
| `Emotions.EmotionColorIsGray` | src/components/EmotionDetector.jsx:107-117 | The colour is gray exactly when the label is unknown or is `neutral` |
| `Emotions.EmotionLabel` | src/components/EmotionDetector.jsx:120-131 | Returns the Turkish name for each of the seven known labels and the argument itself for any other string |
| `Emotions.EmotionLabelFixesOnlyUnknown` | src/components/EmotionDetector.jsx:120-130 | A label is displayed unchanged exactly when it has no Turkish name |
| `Emotions.EmotionLabelInjective` | src/components/EmotionDetector.jsx:121-129 | Two known labels never share a display name |
| `Emotions.TablesCoverSameLabels` | src/components/EmotionDetector.jsx:108-129 | The colour table and the name table cover the same seven labels |
| `View.Rows` | src/components/EmotionDetector.jsx:206-217 | The list has one row per key, in key order, with the key's display name, bar colour and score |
| `View.Render` | src/components/EmotionDetector.jsx:161-229 | The banner shows exactly when `error` is truthy and the spinner exactly when `isLoading`. The dominant card and the list show exactly when `emotions` is present. The placeholder shows exactly when `emotions` is absent, loading is over and no error is shown, and never together with the card or the list. The card's score is at least every row's score; when positive it matches a row with the same name, and otherwise the card shows an empty name and 0 |
| `View.DominantAgreesWithRows` | src/components/EmotionDetector.jsx:194-215 | Any dominant record in the declarative sense agrees with the rendered rows as `Render` states |
| `Lifecycle.EmotionDetector.constructor` | src/components/EmotionDetector.jsx:7-11 | On mount: no expressions, `isLoading` true, no error, neither flag set, and no effect under way |
| `Lifecycle.EmotionDetector.OnScriptLoad` | src/components/EmotionDetector.jsx:18 | The load event sets `scriptLoaded` and moves the stage to model loading. Nothing else changes |
| `Lifecycle.EmotionDetector.OnScriptError` | src/components/EmotionDetector.jsx:19 | The error event sets the script error and leaves `scriptLoaded` false. The stage becomes the terminal failure |
| `Lifecycle.EmotionDetector.RunModelEffect` | src/components/EmotionDetector.jsx:27-49 | Changes nothing unless `scriptLoaded` is set. Otherwise the spinner goes off. If both loads resolve, `modelsLoaded` is set with no error. If a load rejects, `modelsLoaded` stays false and the error is the prefix followed by the message |
| `Lifecycle.EmotionDetector.RunCameraEffect` | src/components/EmotionDetector.jsx:51-67 | Changes nothing unless `modelsLoaded` is set. Otherwise the stream is requested. A granted stream is attached when the video element is mounted. A refusal sets the camera error |
| `Lifecycle.EmotionDetector.RunDetectionEffect` | src/components/EmotionDetector.jsx:76-104 | The interval is set exactly when `modelsLoaded` is set and the video element is mounted |
| `Lifecycle.EmotionDetector.Tick` | src/components/EmotionDetector.jsx:79-101 | Nothing changes when the video or canvas is missing or the video is paused or ended. Otherwise `emotions` becomes the detection's expressions, or null when no face was found. The stage never changes |
| `Lifecycle.ScriptFailureHalts` | src/components/EmotionDetector.jsx:18-77 | In any state reachable after a script failure, model loading, the camera request and the detection interval have not started and there are no expressions. The error banner shows, the spinner stays on and the placeholder does not show |
| `Lifecycle.ModelsLoadedScreen` | src/components/EmotionDetector.jsx:40-44 | Once the models are loaded the spinner is off. With no error and no face, the placeholder shows and the dominant card does not |

## Left out

- Script-tag injection and removal, and the CDN URLs: DOM I/O. Only the load and error events are modelled.
- The face-detection library: the bundle loads, `detectSingleFace`, `matchDimensions`, `resizeResults` and `draw.drawDetections`. Their outcomes are inputs to `RunModelEffect` and `Tick`.
- `getUserMedia` and stopping the stream's tracks on cleanup: platform I/O. The camera request's outcome is an input to `RunCameraEffect`.
- Unmount cleanups: removing the script, stopping the tracks and clearing the interval. Also any state write from a detection that completes after unmount.
- The `setInterval` timer and ticks that overlap while a detection call is pending: timing and concurrency. Each tick is one atomic step.
- A detection call that rejects inside a tick. The source does not handle it, and the library is not part of this model.
- The overlay canvas: resizing on `loadedmetadata`, `clearRect` and drawing the box. So the model does not show that a tick without a face leaves the previous box drawn.
- The formatted percentages and bar widths (`toFixed(1)`, `width: …%`): floating-point formatting.
- JSX markup and CSS classes other than which panels are visible.
- Emotions.GetDominantEmotion: scores are reals, so a `NaN` score is not modelled. In the source, `NaN > max` is false, so such a key is skipped.
- Emotions.EmotionColor: does not model keys inherited from `Object.prototype`. In the source, `colors["toString"]` is a function, so it is returned instead of gray.
- Emotions.EmotionLabel: does not model keys inherited from `Object.prototype`, for the same reason as `EmotionColor`.
- Lifecycle.EmotionDetector.RunModelEffect: the two loads and the spinner update are one step. `isLoading` is already true whenever the effect passes its gate, so setting it again before the loads changes nothing visible.
- Lifecycle.EmotionDetector.RunModelEffect, RunCameraEffect and RunDetectionEffect each require that their effect has not started yet. React runs an effect again only when one of its dependencies changes, and `scriptLoaded` and `modelsLoaded` each change at most once.
- The script element fires either its load event or its error event, once. `OnScriptLoad` and `OnScriptError` therefore require that neither has fired yet.

Observed in the model, not a correction: after a script failure `isLoading` is never cleared. The error banner and the "models loading" spinner then show together for good (`Lifecycle.ScriptFailureHalts`).
