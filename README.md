# Parenting-platform app core, modelled in Dafny

This project models the logic core of a React Native app that connects parents
("normal" users) with doctors. The app's logic is small and spread across five
files:

- **Local store** (`utils/storage.js`, modules `Storage` and `StorageFacts`).
  - Three JSON-encoded entries live in the device's key-value storage: `user`, `posts` and `consultations`.
  - Each entry has a save and a get. Posts and consultations also have an add, which puts the new item at the front of the list.
  - The storage is the class `Storage.Store`. Its field `entries` maps each present key to the value stored under it.
  - Each helper is a method of the class, and its contract gives the new entries as a function of the old ones. The lemmas then prove what the helpers promise:
    - a saved value reads back;
    - a missing key reads as the default (null for the user, `[]` for the lists);
    - an add prepends, and a run of adds keeps the list newest first;
    - each helper touches only its own key;
    - a failure is swallowed. A failed read during an add replaces the stored list with the new item alone.
- **Launch routing** (`app/_layout.tsx`, modules `Layout` and `LayoutFacts`).
  - `checkUserLogin` reads the saved user.
  - A falsy user stays on the registration screens.
  - A user whose `type` is the string `"normal"` goes to `/(tabs_person)/home`.
  - Every other truthy user goes to `/(tabs_doctor)/dashboard`.
- **Call screens** (`app/video-call.jsx`, `app/video-call-doctor.jsx`; modules `Duration`, `DurationFacts`, `VideoCall` and `VideoCallDoctor`).
  - `formatDuration` turns whole seconds into `MM:SS`. Its partner is a strict reader, `Duration.ParseDuration`. The two are proved inverse on all inputs, which makes the display injective.
  - Below 100 minutes the display is exactly five characters with `:` at index 2.
  - The screens' React state are the classes `PatientCallScreen` and `DoctorCallScreen`. Their methods are the one-second tick and the handlers, and each method's contract gives the complete new state.
  - The rating dialog's stars follow the rule "star k is filled when the selected rating is at least k". The model proves this gives a filled prefix of exactly the clamped rating.
- **Doctor profile** (`app/doctor-details.jsx`, modules `DoctorDetails` and `DoctorDetailsFacts`).
  - A falsy doctor record shows only the error view. A record whose `name` is not a string, or whose shown fields hold an object, makes rendering throw.
  - The avatar initials, `name.split(' ').map(n => n[0]).join('')`, are proved equal to a reference scan that collects the first character of every word. So extra, leading and trailing spaces do not change them.
  - The description uses `split(' ')[1]` and reads `undefined` for a one-word name.
  - The merged profile keeps the doctor's fields except the six mock keys it overrides. Its average rating is the doctor's own `rating`.

Module `Js` holds the JavaScript semantics these rely on:
- dynamic values and truthiness;
- property reads, where a read on null or undefined throws;
- the `${...}` conversion to text;
- `split` on one character, `join`, `padStart`, and `toString` of a non-negative integer.

A number inside a stored or routed record is carried as its display text, because the modelled code only stores, copies and prints such numbers. The call timer, the one number the modelled code computes with, is a `nat` of its own.

The registration screen only creates users of type `normal` or `doctor`
(app/(auth)/register.jsx:18, 36). The routing code does not rely on that: it
sends every truthy user whose `type` is not exactly `"normal"` to the doctor
dashboard, including a record with no `type` at all, and the model follows the
routing code.

## Model

| member | source | states |
|---|---|---|
| `Js.Truthy` | app/_layout.tsx:20 | a value is falsy exactly when it is undefined, null, false, `0` or `""`; every array and object is truthy |
| `Js.Member` | app/_layout.tsx:22 | a read of one of the app's record keys (`type`, `name`, ...) throws exactly on null and undefined; on an object it gives the field, or undefined when the field is missing; on any other value it gives undefined |
| `Js.ToText` | app/doctor-details.jsx:39 | `${v}` inserts a string unchanged, "undefined" for undefined, "[object Object]" for an object, and a one-string array as that string |
| `Js.JoinText` | app/doctor-details.jsx:83 | `join(sep)` of no elements is empty, and of two or more is at least as long as the separator; `DoctorDetails.JoinEmptyCons` gives `join('')` element by element |
| `Js.CharAt` | app/doctor-details.jsx:83 | `n[0]` is undefined exactly past the end of the text, and otherwise the one-character string at that index; `DoctorDetails.InitialsScan` uses it for the avatar |
| `Js.JoinStrings` | app/doctor-details.jsx:83 | joining an array of strings as values gives the same text as joining the strings |
| `Js.NoOccurrences` | app/doctor-details.jsx:39 | a text has no occurrence of a character exactly when the character is not in it |
| `Js.Split` | app/doctor-details.jsx:83 | `split` on one character gives one more piece than there are separators, no piece contains the separator, and joining the pieces with the separator gives the text back |
| `Js.PadStart` | app/video-call.jsx:42 | `padStart` never truncates, keeps the text as its suffix, and fills the front with the pad character up to the width |
| `Js.DecimalText` | app/video-call.jsx:42 | `toString` of a non-negative integer is a canonical numeral (digits, no leading zero) whose value is the integer; one digit below 10, at most two below 100 |
| `Duration.Pad2` | app/video-call.jsx:42 | `toString().padStart(2, '0')`: at least two characters, a leading zero below 10, the plain numeral from 10; `DurationFacts.Pad2Shape` gives its value and digit shape |
| `Duration.FormatDuration` | app/video-call.jsx:39-43 | `formatDuration`, shared with app/video-call-doctor.jsx:35-39: at least five characters, with ':' third from the end |
| `Duration.ParseDuration` | app/video-call.jsx:39-43 | a reference reader with no counterpart in the app, used as the formatter's partner: it accepts only digit fields around a ':' third from the end |
| `DurationFacts.Pad2Shape` | app/video-call.jsx:42 | padding to two digits keeps the value, gives at least two digits, exactly two below 100, and a leading zero only when exactly two |
| `DurationFacts.Pad2OfValue` | app/video-call.jsx:42 | every field the reader accepts is the padded text of its own value |
| `DurationFacts.MinutesAndSeconds` | app/video-call.jsx:40-41 | floor minutes and remainder seconds recompose the count, with seconds below 60 |
| `DurationFacts.FormatParseRoundTrip` | app/video-call.jsx:39-43 | the displayed duration reads back as the number of seconds, for every count, including 100 minutes and more |
| `DurationFacts.ParseFormatRoundTrip` | app/video-call.jsx:39-43 | every text the reader accepts is exactly the display of the value it reads |
| `DurationFacts.FormatInjective` | app/video-call.jsx:39-43 | two different durations are never displayed alike |
| `DurationFacts.FormatShape` | app/video-call.jsx:39-43 | every display is a minutes field of two or more digits, a ':' and a two-digit seconds field below 60; it is five characters long exactly below 6000 seconds |
| `DurationFacts.FormatUnderHundredMinutes` | app/video-call.jsx:39-43 | below 6000 seconds the display is five characters, digits around a ':' at index 2 |
| `Storage.Written` | utils/storage.js:13 | `setItem` sets the key to the value and changes no other key; a failed write changes nothing |
| `Storage.Removed` | utils/storage.js:31 | `removeItem` deletes the key and changes no other key; a failed removal changes nothing |
| `Storage.Fetched` | utils/storage.js:21-25 | a getter's result is its default whenever the read fails or the key is absent (null for the user, `[]` for the lists) |
| `Storage.Unshifted` | utils/storage.js:59 | `unshift` succeeds exactly on an array, giving one more element with the item first; on any other value it throws; `StorageFacts.AddPrepends` and `AddToNonList` state what the add then stores |
| `Storage.Added` | utils/storage.js:56-64 | an add changes no key but its own, and changes nothing when its write fails |
| `Storage.Store.SaveUser` | utils/storage.js:11-17 | the user entry becomes the given value; a failed write changes nothing |
| `Storage.Store.GetUser` | utils/storage.js:19-27 | returns the stored user, or null when none is stored or the read fails |
| `Storage.Store.RemoveUser` | utils/storage.js:29-35 | the user entry is deleted; a failed removal changes nothing |
| `Storage.Store.SavePosts` | utils/storage.js:38-44 | the posts entry becomes the given value; a failed write changes nothing |
| `Storage.Store.GetPosts` | utils/storage.js:46-54 | returns the stored posts, or `[]` when none are stored or the read fails |
| `Storage.Store.AddPost` | utils/storage.js:56-64 | the entries become those of reading the list, putting the post in front and writing it back, with the failure cases of `Storage.Added` |
| `Storage.Store.SaveConsultations` | utils/storage.js:67-73 | the consultations entry becomes the given value; a failed write changes nothing |
| `Storage.Store.GetConsultations` | utils/storage.js:75-83 | returns the stored consultations, or `[]` when none are stored or the read fails |
| `Storage.Store.AddConsultation` | utils/storage.js:85-93 | as `AddPost`, on the consultations entry |
| `StorageFacts.KeysDistinct` | utils/storage.js:4-8 | the three keys are distinct |
| `StorageFacts.SaveThenGet` | utils/storage.js:11-27 | a successful save is what the next successful get returns |
| `StorageFacts.RemoveThenGet` | utils/storage.js:29-35 | after a successful removal the getter returns its default |
| `StorageFacts.SaveOverwrites` | utils/storage.js:38-44 | a second save replaces the first one completely |
| `StorageFacts.OwnKeyOnly` | utils/storage.js:11-93 | save, remove and add change no entry other than their own; a failed save or removal changes nothing |
| `StorageFacts.OtherKeysRead` | utils/storage.js:11-93 | every getter of another key reads the same before and after any save, removal or add |
| `StorageFacts.AddPrepends` | utils/storage.js:56-64 | an add puts the item in front of the stored list and keeps the rest in order; on an empty store the list becomes the item alone |
| `StorageFacts.AddAfterFailedRead` | utils/storage.js:46-64 | when the read fails and the write succeeds, the stored list is replaced by the new item alone |
| `StorageFacts.AddToNonList` | utils/storage.js:56-64 | when the stored value is not an array, `unshift` throws and the add changes nothing |
| `StorageFacts.AddedAllNewestFirst` | utils/storage.js:56-64 | after a run of successful adds the list holds the added items newest first, in front of the earlier list |
| `Layout.Path` | app/_layout.tsx:24-27 | the route literal of each tab group; the person home's route is used exactly for the person home |
| `Layout.LaunchRedirect` | app/_layout.tsx:20-29 | no redirect exactly for a falsy user; the person home exactly when `type` is the string "normal"; the doctor dashboard for every other truthy user |
| `Layout.CheckUserLogin` | app/_layout.tsx:18-31 | the redirect is the launch decision applied to what `getUser` returns |
| `LayoutFacts.NoUserNoRedirect` | app/_layout.tsx:19-30 | with no saved user, after a removal, or on a failed read, the app stays on the registration screens |
| `LayoutFacts.SavedUserRoutes` | app/_layout.tsx:19-28 | after saving a user record the launch routes on its `type` field alone |
| `LayoutFacts.ListsDoNotRoute` | app/_layout.tsx:19-29 | adding posts or consultations never changes the launch route |
| `VideoCall.PatientCallScreen.constructor` | app/video-call.jsx:19-22 | the call starts at 0 seconds, unmuted, with the dialog closed and rating 0 |
| `VideoCall.PatientCallScreen.Tick` | app/video-call.jsx:31-34 | each second adds one to the duration and changes nothing else |
| `VideoCall.PatientCallScreen.HandleMute` | app/video-call.jsx:69-71 | flips the microphone state and changes nothing else |
| `VideoCall.PatientCallScreen.HandleEndCall` | app/video-call.jsx:45-48 | opens the rating dialog and changes nothing else |
| `VideoCall.PatientCallScreen.HandleRatingSubmit` | app/video-call.jsx:50-62 | records the given rating and closes the dialog; timer and microphone unchanged |
| `VideoCall.PatientCallScreen.HandleSkipRating` | app/video-call.jsx:64-67 | closes the dialog and keeps the earlier rating |
| `VideoCall.PatientCallScreen.HandleRequestClose` | app/video-call.jsx:138 | the back action closes the dialog and keeps the earlier rating |
| `VideoCall.PatientCallScreen.DurationText` | app/video-call.jsx:93 | the timer text reads back as the elapsed seconds |
| `VideoCall.PatientCallScreen.Stars` | app/video-call.jsx:147-160 | five stars, with as many filled as the selected rating clamped to 0..5 |
| `VideoCall.StarIcons` | app/video-call.jsx:155 | the row has five stars, the filled ones come first, all are filled from rating 5 and none at rating 0 or below |
| `VideoCall.PrefixCount` | app/video-call.jsx:155 | a row filled exactly up to position n has n filled stars, limited to its length |
| `VideoCall.StarsFilled` | app/video-call.jsx:148-158 | star k is filled iff the rating is at least k; filled stars form a prefix; their count is the clamped rating |
| `VideoCall.SubmittedStars` | app/video-call.jsx:148-155 | after pressing star k, exactly the first k stars are filled |
| `VideoCall.EndCallAndRate` | app/video-call.jsx:45-62 | ending the call and rating k closes the dialog with rating k and k filled stars; timer and microphone unchanged |
| `VideoCall.EndCallAndSkip` | app/video-call.jsx:45-67 | ending the call and skipping restores the screen |
| `VideoCall.MuteTwice` | app/video-call.jsx:69-71 | muting twice restores the screen |
| `VideoCallDoctor.DoctorCallScreen.constructor` | app/video-call-doctor.jsx:17-19 | the call starts at 0 seconds, unmuted, camera on |
| `VideoCallDoctor.DoctorCallScreen.Tick` | app/video-call-doctor.jsx:27-33 | each second adds one to the duration and changes nothing else |
| `VideoCallDoctor.DoctorCallScreen.HandleMute` | app/video-call-doctor.jsx:56-58 | flips the microphone and leaves the camera and timer alone |
| `VideoCallDoctor.DoctorCallScreen.HandleVideoToggle` | app/video-call-doctor.jsx:60-62 | flips the camera and leaves the microphone and timer alone |
| `VideoCallDoctor.DoctorCallScreen.DurationText` | app/video-call-doctor.jsx:35-39 | the timer text reads back as the elapsed seconds and is `MM:SS` below 100 minutes |
| `VideoCallDoctor.TogglesTwice` | app/video-call-doctor.jsx:56-62 | the two toggles, each pressed twice and interleaved, restore the screen |
| `DoctorDetails.Render` | app/doctor-details.jsx:16-104 | error view exactly for a missing or falsy record; a profile exactly for an object whose `name` is a string and whose shown fields hold no object, with the word-start initials and the merged record; otherwise rendering throws |
| `DoctorDetails.Initials` | app/doctor-details.jsx:83 | the avatar text is the first character of every word of the name, in order |
| `DoctorDetails.FirstLetters` | app/doctor-details.jsx:83 | `.map(n => n[0])` keeps one entry per piece: undefined exactly for an empty piece, otherwise its first character; `DoctorDetails.InitialsScan` joins them |
| `DoctorDetails.WordStarts` | app/doctor-details.jsx:83 | a reference scan with no counterpart in the app, used as the partner of `Initials`: its result is no longer than the text, has no space and takes only characters of the text |
| `DoctorDetails.SecondWord` | app/doctor-details.jsx:39 | `split(' ')[1]` is undefined exactly for a name without a space, and otherwise a piece without spaces |
| `DoctorDetails.Description` | app/doctor-details.jsx:39 | the description starts with the template's fixed opening and ends with its fixed closing text; `DoctorDetailsFacts.SecondWordOf` and `OneWordName` give its whole text |
| `DoctorDetails.Overrides` | app/doctor-details.jsx:39-54 | the object literal sets exactly the six mock keys, with the given description and average rating |
| `DoctorDetails.Details` | app/doctor-details.jsx:37-55 | the merge has the doctor's keys plus the six mock keys, keeps every doctor field that is not overridden, and takes the description's specialty and the average rating from the doctor's own fields |
| `DoctorDetails.JoinEmptyCons` | app/doctor-details.jsx:83 | `join('')` of a list is its first element's text followed by the rest's, null and undefined giving nothing |
| `DoctorDetails.InitialsScan` | app/doctor-details.jsx:83 | the first letters of all pieces, and of all pieces but the first, are the word starts of the name from a word boundary and from inside a word |
| `DoctorDetailsFacts.WordStartsAppend` | app/doctor-details.jsx:83 | the word-start scan of a concatenation continues where the first part's scan stopped |
| `DoctorDetailsFacts.DoubleSpace` | app/doctor-details.jsx:83 | a doubled space between words gives the same initials as a single one |
| `DoctorDetailsFacts.OuterSpaces` | app/doctor-details.jsx:83 | a leading or trailing space does not change the initials |
| `DoctorDetailsFacts.SplitWhole` | app/doctor-details.jsx:39 | a text without a space is one piece |
| `DoctorDetailsFacts.SplitFirstPiece` | app/doctor-details.jsx:39 | the first word of a text is split off whole |
| `DoctorDetailsFacts.SecondWordOf` | app/doctor-details.jsx:39 | for a name of two or more words, `split(' ')[1]` is the second word and the description is the fixed opening, that word, the fixed middle, the specialty's text and the fixed closing |
| `DoctorDetailsFacts.OneWordName` | app/doctor-details.jsx:39 | a one-word name has no second piece and the description reads "undefined" in its place |
| `DoctorDetailsFacts.MissingDoctorShowsError` | app/doctor-details.jsx:16-34 | without route parameters, or with a falsy record, only the error view is shown |
| `DoctorDetails.Renderable` | app/doctor-details.jsx:87-104 | React's rule for a child: an object cannot be rendered, text, numbers, booleans, null and undefined can; `DoctorDetailsFacts.ObjectFieldThrows` shows the consequence |
| `DoctorDetails.ShownFieldsRenderable` | app/doctor-details.jsx:87-104 | a record with none of the shown fields passes, and one that passes holds no object in a shown field |
| `DoctorDetailsFacts.ObjectFieldThrows` | app/doctor-details.jsx:88-104 | an object in a shown field (`specialty`, `rating`, `reviews`, `experience`, `location`) makes rendering throw |
| `DoctorDetailsFacts.NameOnlyRenders` | app/doctor-details.jsx:87-104 | a record with only a string name still shows the profile, its missing fields rendering as nothing |

## Left out

- Asynchrony. Each helper is modelled as completing before the next call, so the lost update of two overlapping adds is not modelled.
- JSON text. Encoding and parsing are taken as an exact round trip of the saved value. JSON drops undefined fields, turns undefined array elements into null and refuses cycles; none of that is modelled. The same holds for parsing the route's `doctor` parameter and for a parse failure of corrupt stored text.
- Logging with `console.error` and `console.log` is left out; it has no effect on state or results.
- Navigation, alerts and timers. The modelled parts are:
  - the routing decision, without the `router.replace` call;
  - the state changes of the rating handlers, without the alert and the delayed navigation;
  - the interval's update, as `Tick`, without the timer.
- The doctor screen's `handleEndCall` only shows a confirmation alert and changes no screen state, so it has no member. Its confirm action calls `router`, which that file does not import, and navigation is not modelled.
- Presentation: styles, icons, images, the hard-coded call partners, and the header's `user?.username || 'المستخدم'` fallback in the doctor profile.
- Key order of JavaScript objects. The merged doctor record is a map, so the insertion order of its keys is not modelled.
- DoctorDetails.Render: rendering is modelled only as far as whether it throws. Shown fields that are missing, null, undefined or booleans render as nothing; only `${doctor.specialty}` in the description template prints "undefined" for a missing specialty. The texts of the profile's shown fields (rating, reviews, experience, location) and of the statistics cards are not modelled.
- VideoCall.PatientCallScreen.Tick and VideoCallDoctor.DoctorCallScreen.Tick: `callDuration` is an unbounded `nat`, while in JavaScript it is a double. There `prev + 1` stops changing at 2^53, and beyond that range the double division and remainder behind `formatDuration` are not compared with the model's exact ones. No call lasts that long (2^53 seconds is about 285 million years), so the model is exact for every duration a call can reach.
- Numbers in records: the feed's like counter (app/(tabs_person)/home.jsx:130) adds to and subtracts from a stored post's `likes`. That screen is outside this model, so a record number is kept only as its display text, with no arithmetic.
- Js.CharAt, DoctorDetails.FirstLetters, DoctorDetails.Initials: strings are sequences of Unicode scalar values, not of UTF-16 code units. For a word that starts with a character outside the Basic Multilingual Plane, such as an emoji, JavaScript's `n[0]` takes only the first half of its surrogate pair, but the model keeps the whole character.
