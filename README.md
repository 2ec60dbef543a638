# Result screen of HarryPotterMachineLearning, in Dafny

The app takes a user's photo, asks an on-device classifier whether it shows a
face, asks a second classifier which Harry Potter character the face
resembles, and shows the character's portrait, name and personality
description on its result screen, with a tap-to-toggle picture, a retry
button and a share button. This project models the decision logic and the
state of that screen, `ResultViewController`:

- `Predictions` (`predictions.dfy`): a classifier answer is a ranked list of
  `(name, confidence)` pairs. The confidence floor is 0.01. The model covers
  the filter both classifiers' answers go through, the face-presence gate
  (`personFound`) and the choice of the character (the first prediction that
  survives the filter).
- `CharacterTable` (`character_table.dfy`): the description switch
  (`setCharDescription`), a total lookup whose default text is Harry
  Potter's. It also holds the display-name override ("Ronald Wesley" is shown
  as "Ronald Weasley") and the share text template with its inverse.
- `ResultScreen` (`result_screen.dfy`): images are opaque tokens. A `Screen`
  value holds the five things the controller updates: the user's photo, the
  portrait, the name text, the description text and the image on display.
  Pure functions (`AfterDetection`, `AfterTryAgain`, `AfterTransform`,
  `AfterAppear`) specify each action. The class `ResultViewController` has
  those five fields, and each of its methods is proved to move `State()`
  exactly as the matching function says.
- `Scenarios` (`scenarios.dfy`): concrete runs on fixed classifier answers.
- `Wrappers` (`wrappers.dfy`): `Option`, standing for Swift optionals.

The two classifiers are parameters of type `Image -> seq<Prediction>`. They
are foreign model calls. `UIImage(named:)` becomes `CharacterImage`, with
the set of bundled asset names as a parameter: a label with no asset yields
no image, as `UIImage(named:)` yields `nil`.

Three behaviours of the code worth naming:
- The face gate accepts only the label `"People"` (line 176 of the controller).
- A prediction is kept when its confidence is `>= 0.01`, the floor included (lines 172 and 189).
- When a face is found but no character prediction reaches the floor, the
  screen is left unchanged, with no error shown (lines 191-193).

## Model

| member | source | states |
|---|---|---|
| `Predictions.Surviving` | HarryPotterMachineLearning/ResultScreen/ResultViewController.swift:172-173 | the filtered list holds exactly the predictions of the input that reach the 0.01 floor, and is no longer than the input |
| `Predictions.SurvivingAppend` | HarryPotterMachineLearning/ResultScreen/ResultViewController.swift:189-190 | filtering distributes over concatenation, so it keeps the classifier's order and never re-sorts |
| `Predictions.SurvivingIdempotent` | HarryPotterMachineLearning/ResultScreen/ResultViewController.swift:172-173 | filtering an already filtered list changes nothing |
| `Predictions.SurvivingHead` | HarryPotterMachineLearning/ResultScreen/ResultViewController.swift:172-185 | the head of the filtered list is the prediction at the first index whose confidence reaches the floor; the list is empty exactly when no prediction reaches it |
| `Predictions.PersonFound` | HarryPotterMachineLearning/ResultScreen/ResultViewController.swift:171-186 | the gate accepts only if some prediction at or above the floor is labelled "People", and rejects when none reaches the floor, the empty answer included |
| `Predictions.PersonFoundIff` | HarryPotterMachineLearning/ResultScreen/ResultViewController.swift:172-181 | the gate accepts exactly when the first prediction at or above the floor is labelled "People" |
| `Predictions.PersonFoundSkipsBelowFloor` | HarryPotterMachineLearning/ResultScreen/ResultViewController.swift:172-181 | a higher-ranked prediction below the floor is skipped: prefixing it does not change the gate's answer |
| `Predictions.SelectCharacter` | HarryPotterMachineLearning/ResultScreen/ResultViewController.swift:189-193 | no character is chosen exactly when no prediction reaches the floor; otherwise the choice is the prediction at the first index that reaches it |
| `Predictions.SelectCharacterIgnoresLater` | HarryPotterMachineLearning/ResultScreen/ResultViewController.swift:189-191 | once a prediction survives, predictions after it, however confident, never change the choice |
| `CharacterTable.Description` | HarryPotterMachineLearning/ResultScreen/ResultViewController.swift:90-112 | total lookup: any label outside the nine listed gets the Harry Potter text, and only those labels and "Harry Potter" itself get it |
| `CharacterTable.DescriptionsDistinct` | HarryPotterMachineLearning/ResultScreen/ResultViewController.swift:91-109 | two different listed characters never share a description |
| `CharacterTable.DefaultIsHarryPotter` | HarryPotterMachineLearning/ResultScreen/ResultViewController.swift:98-111 | the default branch gives the same text as the "Harry Potter" case |
| `CharacterTable.DisplayName` | HarryPotterMachineLearning/ResultScreen/ResultViewController.swift:196-200 | the shown name differs from the label exactly when the label is "Ronald Wesley", which is shown as "Ronald Weasley" |
| `CharacterTable.DescriptionUsesRawLabel` | HarryPotterMachineLearning/ResultScreen/ResultViewController.swift:194-200 | Ron's description is his own only because the lookup uses the raw label; the shown name would get the default text |
| `CharacterTable.ShareMessage` | HarryPotterMachineLearning/ResultScreen/ResultViewController.swift:152 | the share text is the fixed prefix, then the name, then the fixed suffix |
| `CharacterTable.SharedName` | HarryPotterMachineLearning/ResultScreen/ResultViewController.swift:152 | reading a name out of a text of the share template's shape; a name read back fits the template's length |
| `CharacterTable.ShareMessageRoundTrip` | HarryPotterMachineLearning/ResultScreen/ResultViewController.swift:152 | the name embedded in the share text is read back unchanged |
| `CharacterTable.ShareMessageInjective` | HarryPotterMachineLearning/ResultScreen/ResultViewController.swift:152 | different shown names give different share texts |
| `ResultScreen.CharacterImage` | HarryPotterMachineLearning/ResultScreen/ResultViewController.swift:86-88 | a portrait exists exactly when the bundle holds an asset of that name, and it is the portrait of that name |
| `ResultScreen.AfterDetection` | HarryPotterMachineLearning/ResultScreen/ResultViewController.swift:188-206 | the user's photo is never touched; with no prediction at or above the floor nothing changes; otherwise the portrait and description come from the first surviving raw label, the name shown is its display name, and the portrait ends up on display |
| `ResultScreen.AfterTryAgain` | HarryPotterMachineLearning/ResultScreen/ResultViewController.swift:155-160 | both images are absent, the placeholder hat is shown, and the texts are kept |
| `ResultScreen.AfterTransform` | HarryPotterMachineLearning/ResultScreen/ResultViewController.swift:61-70 | only the picture changes; nothing changes unless both images are present; then the portrait is shown if the user's photo was showing, and the user's photo otherwise (also when neither was showing); when the two differ, the picture always changes |
| `ResultScreen.RouteFor` | HarryPotterMachineLearning/ResultScreen/ResultViewController.swift:41-54 | with no photo nothing runs; character detection runs exactly when the face gate accepts the photo's answer; otherwise the alert is shown |
| `ResultScreen.AfterAppear` | HarryPotterMachineLearning/ResultScreen/ResultViewController.swift:41-54 | with a photo the face gate accepts, the screen becomes `AfterDetection` of the character answer for that photo; otherwise it is unchanged; so it changes only if some character prediction also reaches the floor |
| `ResultScreen.TryAgainIdempotent` | HarryPotterMachineLearning/ResultScreen/ResultViewController.swift:155-160 | retrying twice is the same as retrying once |
| `ResultScreen.TransformAfterTryAgain` | HarryPotterMachineLearning/ResultScreen/ResultViewController.swift:61-64 | after a retry a tap on the picture does nothing |
| `ResultScreen.TransformTwice` | HarryPotterMachineLearning/ResultScreen/ResultViewController.swift:61-70 | with two distinct images, one of them showing, two taps restore the screen: the tap is a toggle |
| `ResultScreen.ResultViewController.constructor` | HarryPotterMachineLearning/ResultScreen/ResultViewController.swift:25-28 | both texts start empty, there is no portrait yet, and the handed-over photo is kept |
| `ResultScreen.ResultViewController.DidSelect` | HarryPotterMachineLearning/ResultScreen/ResultViewController.swift:211-216 | only the user's photo is replaced |
| `ResultScreen.ResultViewController.SetCharImage` | HarryPotterMachineLearning/ResultScreen/ResultViewController.swift:86-88 | only the portrait changes, to the asset named by the label |
| `ResultScreen.ResultViewController.SetCharDescription` | HarryPotterMachineLearning/ResultScreen/ResultViewController.swift:90-113 | only the description text changes, to the table's text for the label |
| `ResultScreen.ResultViewController.MagicUserToCharAnimation` | HarryPotterMachineLearning/ResultScreen/ResultViewController.swift:72-84 | end effect only: the portrait is on display and nothing else changed |
| `ResultScreen.ResultViewController.DetectHPCharacter` | HarryPotterMachineLearning/ResultScreen/ResultViewController.swift:188-206 | the new state is `AfterDetection` of the old one |
| `ResultScreen.ResultViewController.ViewDidAppear` | HarryPotterMachineLearning/ResultScreen/ResultViewController.swift:41-54 | the route taken is `RouteFor` of the photo, and the new state is `AfterAppear` of the old one |
| `ResultScreen.ResultViewController.TransformImage` | HarryPotterMachineLearning/ResultScreen/ResultViewController.swift:61-70 | the new state is `AfterTransform` of the old one |
| `ResultScreen.ResultViewController.TryAgain` | HarryPotterMachineLearning/ResultScreen/ResultViewController.swift:155-160 | the new state is `AfterTryAgain` of the old one |
| `ResultScreen.ResultViewController.Share` | HarryPotterMachineLearning/ResultScreen/ResultViewController.swift:148-153 | the text shared is the template around the name on screen, and that name can be read back from it |
| `Scenarios.HarryPotterMatch` | HarryPotterMachineLearning/ResultScreen/ResultViewController.swift:188-200 | a face plus "Harry Potter" ranked above "Dobby" shows Harry's portrait, name and description |
| `Scenarios.NoFaceFound` | HarryPotterMachineLearning/ResultScreen/ResultViewController.swift:171-185 | an empty answer, or one whose top label is "Dog", leads to the alert |
| `Scenarios.LowConfidenceSkipped` | HarryPotterMachineLearning/ResultScreen/ResultViewController.swift:172-181 | a top prediction below the floor does not hide a "People" prediction behind it |
| `Scenarios.RonaldWeasleyShown` | HarryPotterMachineLearning/ResultScreen/ResultViewController.swift:194-200 | "Ronald Wesley" is shown and shared as "Ronald Weasley" but keeps Ron's own description |
| `Scenarios.RonShareText` | HarryPotterMachineLearning/ResultScreen/ResultViewController.swift:152 | the share text for Ron reads "I got Ronald Weasley! Check who you look like here!" |

## Left out

- The classifier calls `predictPerson` and `predictHPCharacter` are foreign model calls. They are parameters of type `Image -> seq<Prediction>`.
- Confidences are `real`, compared with the exact value 1/100. The type of the classifier's `valuePredict` is not part of this model; the model assumes it is `Double`. No `Double` lies between 1/100 and the `Double` nearest to it, so `>= 0.01` then gives the same answer on every input.
- If `valuePredict` were `Float`, the literal would become `Float(0.01)`, which lies just below 1/100. A confidence equal to exactly that `Float` would be kept by the app and dropped by the model. This `Float` case is not modelled.
- Image equality (`imageView.image == userImage`) is equality of tokens. `UIImage` identity and pixel data are not modelled.
- The layout and styling code is not modelled: outlets, corner radii, `addBorder`, `addLoader`, `removeLoader`, and the gesture wiring in `viewDidLoad`. It has no behaviour to state.
- `displayAlert` appears only as the `NoFaceAlert` route. Presenting the alert, and the screen dismissal its "Try again" action triggers, are UI effects.
- `done` only dismisses the screen and changes no modelled state.
- The camera that `tryAgain` reopens (`showCamera`) is a foreign collaborator. So is the share sheet that `share` presents.
- The `DispatchQueue.main.async` hop in `didSelect` is not modelled. `DidSelect` applies the assignment at once.
- The label texts are `string`, never `nil`, because `viewDidLoad` sets both to `""`. The `nil` guard in `share` is therefore not modelled.
- MagicUserToCharAnimation: only the end effect is modelled, with the portrait on display. The 0.5-second timer is not modelled, nor are taps that arrive before it fires.
- TransformImage: the cross-fade durations (2 s and 1 s) are not modelled. The `transformImage(to:duration:)` extension is not part of this model and is taken to set the image to its target.
