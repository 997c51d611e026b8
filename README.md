# SafeShe core, modelled in Dafny

SafeShe is an Android personal-safety app built around one activity,
`MainActivity`. The user keeps up to four emergency phone numbers. An SOS
sends each of them a text message with the phone's location, either when
the SOS button is pressed or when the phone is shaken for more than a
second. This project models the logic inside that activity:

- **Contacts** (`contacts.dfy`) models the emergency-contact list and the
  text field beside it. Adding a number succeeds only when the text has
  length 10, counted as Kotlin counts it (UTF-16 code units), and the list
  holds fewer than four entries; it then clears the field. Deleting removes one card. The list is saved
  to and loaded from a preference file as a *set* of strings, so a save
  followed by a load keeps which numbers are present but not their order
  or duplicates. The pure functions (`AddPressed`, `RemoveAt`, `Replay`)
  state the rules on values. The `ContactBook` class holds the same state
  as fields and keeps an invariant: at most four entries, and the saved set
  equals the set of listed numbers.
- **Shake** (`shake.dfy`) models the accelerometer listener as a state
  machine. Its state is the last reading on each axis, an armed flag
  (`shaking`) and the time the detector was armed. `Step` is one sample.
  `ShakeListener` is the object whose fields the listener updates. Lemmas
  over whole runs of samples show both directions of its promise. An SOS
  needs an unbroken run of above-threshold samples that lasts more than
  1000 ms from the sample that armed the detector. Conversely, such a run
  starting on an unarmed detector makes some sample of it fire. A second
  SOS needs a fresh arming sample after the first one, and two consecutive
  samples never both fire.
- **Sos** (`sos.dfy`) models the dispatch. An empty list does nothing.
  Missing permissions produce only a warning. Otherwise the message is the
  map-link text when both coordinates are known and the fallback text
  otherwise, and every contact gets exactly one send attempt, in list
  order. A failed send is reported and the loop continues; the reports
  match the failed sends one for one.
- **Activity** (`activity.dfy`) connects a sensor sample to the detector
  and a firing sample to the dispatch on the current contact list.

Modelling choices:

- Accelerometer readings and the movement measure are `real`s, not floats.
- Time is an `int` parameter instead of a read of the system clock.
- Coordinates enter the model as the text the app prints for them.
- The permission checks are one boolean.
- The SMS service is an `SmsRadio` object. Each send may throw, and a ghost
  log records every attempt and whether the platform accepted it. The app
  passes no sent or delivery intent, so whether a message arrived is never
  observed and is not part of the model.
- The preference file is a `Preferences` object that maps keys to string
  sets.
- The order in which the platform returns the saved set is left open.
  `Enumerate` may list the elements in any order.

The text field's placeholder asks for a "10-digit mobile number"
(`MainActivity.kt:140`), but the code only checks that the text has length
10 (`MainActivity.kt:150`). The model follows the code: any text accepted
by that check is added, digits or not. Dafny strings are sequences of
Unicode scalar values while Kotlin's `length` counts UTF-16 code units, so
the guard uses `Utf16Length`, which counts a character outside the Basic
Multilingual Plane twice (five pasted emoji have length 10, as in Kotlin).

## Model

| member | source | states |
|---|---|---|
| `Contacts.Utf16Length` | app/src/main/java/com/example/safeshe/MainActivity.kt:150 | `currentNumber.length` counts UTF-16 code units: between one and two per character, exactly one per character when all lie in the Basic Multilingual Plane, exactly two per character when none do |
| `Contacts.Utf16Append` | app/src/main/java/com/example/safeshe/MainActivity.kt:150 | the length of a concatenation is the sum of the lengths, so with the single-character cases every string's UTF-16 length is determined |
| `Contacts.AddPressed` | app/src/main/java/com/example/safeshe/MainActivity.kt:150-154 | the list grows iff the text has UTF-16 length 10 and the list has fewer than 4 entries; it then grows by exactly the typed text at the end, earlier entries stay in order and the field becomes ""; otherwise list and text are unchanged; a list of at most 4 stays at most 4 |
| `Contacts.RemoveAt` | app/src/main/java/com/example/safeshe/MainActivity.kt:183 | removing a valid index shrinks the list by one, keeps the entries before and after it in relative order, and removes exactly that one entry (as a multiset) |
| `Contacts.Apply` | app/src/main/java/com/example/safeshe/MainActivity.kt:139-185 | one user action: it fails (the `removeAt` exception) iff it deletes an index outside the list; an edit only replaces the text; an add is exactly the guarded append `AddPressed`; a valid delete removes exactly the entry at that index (`RemoveAt`) and keeps the text; no action takes a list of at most 4 past 4 |
| `Contacts.BoundPreserved` | app/src/main/java/com/example/safeshe/MainActivity.kt:139-185 | from at most 4 contacts, no sequence of edits, adds and deletes makes the list longer than 4 |
| `Contacts.SaveLoadRoundTrip` | app/src/main/java/com/example/safeshe/MainActivity.kt:275-285 | reading back the saved set gives exactly the distinct saved numbers; the length is kept iff the saved list had no duplicates, and the lists are then permutations of each other |
| `Contacts.Enumerate` | app/src/main/java/com/example/safeshe/MainActivity.kt:284 | `addAll` of a set yields every element of the set exactly once |
| `Contacts.Preferences.PutStringSet` | app/src/main/java/com/example/safeshe/MainActivity.kt:277 | storing a set under a key replaces only that key's value |
| `Contacts.Preferences.GetStringSet` | app/src/main/java/com/example/safeshe/MainActivity.kt:282 | reading a key gives its stored set, or the default when the key was never written |
| `Contacts.ContactBook.constructor` | app/src/main/java/com/example/safeshe/MainActivity.kt:56-64 | a new activity starts with an empty text field and the list loaded from the preference file, and the book invariant holds |
| `Contacts.ContactBook.LoadContacts` | app/src/main/java/com/example/safeshe/MainActivity.kt:280-285 | the list is replaced by an enumeration of the saved set (empty when nothing was saved), and the invariant holds |
| `Contacts.ContactBook.SaveContacts` | app/src/main/java/com/example/safeshe/MainActivity.kt:275-278 | the contacts key now holds the set of listed numbers and nothing else in the file changes |
| `Contacts.ContactBook.EditNumber` | app/src/main/java/com/example/safeshe/MainActivity.kt:139 | the text field takes the typed value |
| `Contacts.ContactBook.AddNumber` | app/src/main/java/com/example/safeshe/MainActivity.kt:148-155 | the screen state becomes `AddPressed` of the old one; the file is rewritten only when the add succeeded; the invariant (at most 4, file in sync) is preserved |
| `Contacts.ContactBook.DeleteAt` | app/src/main/java/com/example/safeshe/MainActivity.kt:181-185 | the list becomes `RemoveAt` of the old list, the text field is untouched, the file is rewritten and the invariant is preserved |
| `Contacts.StoredBounded` | app/src/main/java/com/example/safeshe/MainActivity.kt:275-285 | while the invariant holds the saved set has at most 4 numbers and equals the listed ones, so the next launch loads at most 4 |
| `Shake.Abs` | app/src/main/java/com/example/safeshe/MainActivity.kt:298-300 | the per-axis change is non-negative and equals the difference or its negation |
| `Shake.Movement` | app/src/main/java/com/example/safeshe/MainActivity.kt:298-306 | the total movement is non-negative, and zero exactly when the sample repeats the stored last reading on all three axes |
| `Shake.Step` | app/src/main/java/com/example/safeshe/MainActivity.kt:293-320 | every sample becomes the stored last reading; movement at most 4 disarms and never fires; above 4 arms an unarmed detector with start time now; an armed detector fires iff more than 1000 ms have passed since arming, and then disarms; otherwise it stays armed with the same start time |
| `Shake.ArmedWitness` | app/src/main/java/com/example/safeshe/MainActivity.kt:309-318 | a detector that was unarmed after the first n0 samples and is armed now was armed by one later sample, taken while unarmed at the recorded start time, and every sample from it on was above the threshold |
| `Shake.FireNeedsShakeSince` | app/src/main/java/com/example/safeshe/MainActivity.kt:309-316 | if the detector was unarmed after the first n0 samples, an SOS at sample k needs an arming sample j with n0 <= j < k, all samples j..k above the threshold, and more than 1000 ms between j and k |
| `Shake.FireNeedsSustainedShake` | app/src/main/java/com/example/safeshe/MainActivity.kt:309-316 | starting unarmed, an SOS at sample k needs an earlier arming sample j, all samples j..k above the threshold, and more than 1000 ms between j and k |
| `Shake.StaysArmed` | app/src/main/java/com/example/safeshe/MainActivity.kt:309-316 | from an arming sample on, while every sample is above the threshold and none fires, the detector stays armed with that sample's time as start time |
| `Shake.SustainedShakeFires` | app/src/main/java/com/example/safeshe/MainActivity.kt:309-316 | an above-threshold run from an unarmed detector at sample j to a sample k more than 1000 ms later makes some sample in (j, k] fire |
| `Shake.RefireNeedsNewShake` | app/src/main/java/com/example/safeshe/MainActivity.kt:309-316 | after an SOS at k1, another SOS at k2 needs its own arming sample strictly between them, an above-threshold run from it to k2, and more than 1000 ms since that arming |
| `Shake.NoConsecutiveFires` | app/src/main/java/com/example/safeshe/MainActivity.kt:313-315 | the sample right after one that fired never fires |
| `Shake.ShakeListener.constructor` | app/src/main/java/com/example/safeshe/MainActivity.kt:289-291 | the listener starts with all readings zero, unarmed, start time 0 |
| `Shake.ShakeListener.OnSensorChanged` | app/src/main/java/com/example/safeshe/MainActivity.kt:293-320 | the new field values and the SOS request are exactly `Step` of the old fields and the sample |
| `Sos.SosMessage` | app/src/main/java/com/example/safeshe/MainActivity.kt:246-253 | the message starts with the map link iff both latitude and longitude are present, then carries "latitude,longitude"; otherwise it is the fallback text |
| `Sos.Attempts` | app/src/main/java/com/example/safeshe/MainActivity.kt:255-261 | exactly one attempt per list entry, in list order, each with the same message |
| `Sos.Plan` | app/src/main/java/com/example/safeshe/MainActivity.kt:222-253 | an empty list does nothing; a non-empty list without permissions only warns; otherwise the message is `SosMessage` of the fix and every contact gets one attempt in order |
| `Sos.FailedNumbers` | app/src/main/java/com/example/safeshe/MainActivity.kt:256-260 | the failure toasts: no more reports than attempts, and none when every send went through |
| `Sos.FailedNumbersAppend` | app/src/main/java/com/example/safeshe/MainActivity.kt:255-260 | the reports keep attempt order: those for a log split in two parts are the first part's reports followed by the second's |
| `Sos.FailedAreRejected` | app/src/main/java/com/example/safeshe/MainActivity.kt:256-260 | every failure report names a number whose attempt failed |
| `Sos.RejectedAreReported` | app/src/main/java/com/example/safeshe/MainActivity.kt:256-260 | every failed attempt's number is among the failure reports |
| `Sos.FailureCount` | app/src/main/java/com/example/safeshe/MainActivity.kt:256-260 | there are exactly as many failure reports as failed attempts |
| `Sos.FailureMultiplicity` | app/src/main/java/com/example/safeshe/MainActivity.kt:256-260 | each number is reported exactly as many times as sends to it threw (a number listed twice whose sends both throw is reported twice) |
| `Sos.SmsRadio.SendTextMessage` | app/src/main/java/com/example/safeshe/MainActivity.kt:257 | each call records exactly one attempt, to that number with that text, whether or not it went through |
| `Sos.FanOut` | app/src/main/java/com/example/safeshe/MainActivity.kt:255-261 | the radio gets exactly the attempts of `Attempts(contacts, message)`, in order and with nothing skipped after a failure; the reported numbers are those whose send failed |
| `Sos.SendSos` | app/src/main/java/com/example/safeshe/MainActivity.kt:222-273 | the outcome is `Plan` of the inputs; nothing is sent unless it dispatches, and a dispatch sends exactly the planned attempts |
| `Activity.OnShakeSample` | app/src/main/java/com/example/safeshe/MainActivity.kt:313-315 | the listener takes one `Step`; the dispatch on the current contact list runs iff that sample fires; nothing is sent and nothing reported unless the dispatch goes ahead (not when the list is empty or permissions are missing) |

## Left out

- The Compose screen: layout, the cards, the pulse animation of the SOS button, the top bar. These are rendering only. The button's `enabled = contactsList.size < 4` (line 156) repeats the guard that `AddPressed` already models.
- The snackbar that watches `shaking` (lines 212-218). It is reactive UI with no effect on state.
- The runtime permission request at start-up (lines 66-81). `sendSOS`'s three permission checks are one boolean, `granted`.
- The location request: priority, intervals, the main looper, and unregistering the callback after one fix. The asynchronous callback is modelled as running once, with the fix's coordinates as parameters.
- Vibration and the "SOS Sent!" toast after the fan-out. They are platform feedback with no state in the model.
- Registering and unregistering the sensor listener in `onResume`/`onPause`, and `onAccuracyChanged`, which is empty.
- How `SharedPreferences` writes the file (`apply()` is asynchronous). The store is a map from keys to string sets.
- The order in which the platform returns a saved set. `Enumerate` allows any order.
- Shake.Step: movement is computed on exact reals, not 32-bit floats, so float rounding near the threshold is not modelled.
- Shake.Step: time is an unbounded integer, so `Long` overflow of `currentTime - shakeStartTime` is not modelled.
- Sos.SosMessage: coordinates enter as their printed text. The float-to-string formatting of `Double` is not modelled.
- Sos.SmsRadio.SendTextMessage: whether a send succeeds is left open. The model does not describe why the platform call fails.
- The ordering between a button press and the later location callback. The callback reads the live contact list when it runs, so edits made between the two would be seen. In the model, `SendSos` takes the list as it is when the callback runs.
- The model keeps `shaking` and `shakeStartTime` in `ShakeListener` together with the last readings. In the source they are fields of the activity, but only the listener changes them.
- Contacts.ContactBook.DeleteAt: it requires a valid index, because the delete icon exists only for listed entries. The value-level `Contacts.Apply` models an out-of-range `removeAt` as the exception it throws.
