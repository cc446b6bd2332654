# Mapty workout log: a Dafny model

Mapty is a single-page workout tracker. The user clicks on a map, fills in a
form for a running or a cycling workout, and the app does four things. It
builds a workout record with a derived metric: pace for running, speed for
cycling. It pushes the record onto its in-memory list. It saves the list to
browser storage under the key `workouts`. It draws a marker and a list entry.
This project models the logic in `script.js` that does not touch the page,
the map or the browser:

- the form guard of `_newWorkout`, with `validInputs` and `allPositive` (module `Inputs`);
- the `Workout`, `Running` and `Cycling` classes: the stored fields, `calcPace`,
  `calcSpeed` and `_setDescription` (module `Workouts`, with the number and
  letter formatting in `Text`);
- the `#workouts` list: `push` and `find` by id (module `Store`);
- `_setLocalStorage`, `_getlocalStorage` and the storage half of `reset`,
  over storage modelled as a map from key to stored record list (module `Persistence`);
- the `App` state and its handlers: start-up, submit, a click in the list,
  and reset (module `Tracker`).

Every operation is a pure function over immutable values. The random id from
`uuid.v4()` and the month and day from `new Date()` are parameters. Form
values are a `Num` datatype: a finite real, NaN, +Infinity or -Infinity.
Pace and speed are exact `real` arithmetic.

A description can be parsed back. `ParseDescription` reads the type and the
date back out of a description string, and `DescriptionRoundTrip` proves it
returns what `Describe` was given. `DescriptionParseIff` proves the converse:
only the exact text `Describe` builds reads back as a given type and date. So
the text `"<Type> on <Month> <day>"` is never ambiguous and is pinned character
for character.

Two consequences of how `script.js` stores its list:

- Loading what was saved does not give back identical records.
  `JSON.stringify` turns each record's `Date` into ISO text. The model
  therefore proves the round trip for every field except the date
  (`LoadAfterSave`). It proves exact equality only for a list that has already
  been through storage once (`EncodeIdempotent`).
- `_getlocalStorage` keeps the current list when the key is missing. The
  guard `if (!storageData) return;` also returns early when the stored text
  parses to any falsy JSON value (`null`, `0`, `false`, `""`), and
  `JSON.parse` throws on text that is not JSON. In the model, storage maps each
  key to a list of records, so a falsy value and unparsable text
  cannot occur, and `Load` has just the two cases: key missing or key present.

## Model

| member | source | states |
|---|---|---|
| Inputs.EveryIff | script.js:152-153 | The short-circuiting `every` scan used by both guards accepts exactly when every input passes the test |
| Inputs.ValidAndPositive | script.js:152-153 | `validInputs` and `allPositive` hold together exactly when every input is a finite number greater than zero |
| Text.NatToString | script.js:28 | The day number in a description is a non-empty run of decimal digits, with no leading zero unless the number is zero |
| Text.ParseNatToString | script.js:28 | The decimal day text reads back as the same number, so it carries the day without loss |
| Text.ParseNatCanonical | script.js:28 | Only the unpadded decimal text of a number reads back as that number, so a padded day such as "05" is never taken for the app's output |
| Workouts.Pace | script.js:43-47 | Running pace is positive, and pace times distance gives back the duration (minutes per kilometre) |
| Workouts.Speed | script.js:60-64 | Cycling speed is positive, and speed times duration gives back 60 times the distance (kilometres per hour from minutes) |
| Workouts.PaceTimesSpeed | script.js:43-64 | For the same distance and duration, pace times speed is exactly 60 |
| Workouts.DescriptionRoundTrip | script.js:25-29 | A description starts with the capitalised type and " on ", and parsing it gives back the type, the month from the 12-name table and the day |
| Workouts.DescriptionParseIff | script.js:25-29 | A string reads back as a type and a date exactly when it is the description `_setDescription` builds for them, character for character |
| Workouts.NewRunning | script.js:32-41 | A new running workout has clicks 0 and keeps the given id, date, coords, distance, duration and cadence unchanged; its pace is `calcPace`'s; its description starts "Running on " and names its month and day |
| Workouts.NewCycling | script.js:50-58 | A new cycling workout has clicks 0 and keeps the given id, date, coords, distance, duration and elevation unchanged; its speed is `calcSpeed`'s; its description starts "Cycling on " and names its month and day |
| Store.Find | script.js:289 | Lookup by id gives nothing exactly when no workout has the id, and otherwise gives the workout at the first position holding it |
| Store.AppendAtEnd | script.js:200 | Push puts the new workout last and leaves every earlier entry where it was |
| Store.FindAfterAppend | script.js:289 | After a push, a lookup still finds an earlier holder of the id first; the new workout is found only when no earlier one has its id |
| Store.FindFreshAfterAppend | script.js:289 | A workout pushed under an id no earlier workout has is what a lookup of that id returns |
| Persistence.Encode | script.js:302 | Serialising a record keeps its id, coords, distance, duration, clicks, description, type and metric; only the date becomes text |
| Persistence.Save | script.js:301-303 | Saving stores the whole serialised list under `workouts`, overwrites what was there, and leaves every other key alone |
| Persistence.Load | script.js:305-312 | With no value under the key the list stays as it was; with a value, the stored list replaces it entirely |
| Persistence.Remove | script.js:321 | Reset deletes the `workouts` key and keeps every other key and value |
| Persistence.LoadAfterSave | script.js:301-312 | Loading after a save gives a list of the same length and order, each record agreeing with the saved one on everything but the date |
| Persistence.EncodeIdempotent | script.js:301-312 | A list read back from storage survives another save and load exactly |
| Persistence.SaveOverwrites | script.js:302 | Of two saves, the later one wins |
| Persistence.LoadAfterRemove | script.js:305-322 | After reset removes the key, a load finds nothing and leaves the list as it was |
| Tracker.RunningAcceptedIff | script.js:170-182 | A running entry is accepted exactly when distance, duration and cadence are all finite and greater than zero |
| Tracker.CyclingAcceptedIff | script.js:185-197 | A cycling entry is accepted exactly when distance, duration and elevation are finite and distance and duration are greater than zero; elevation may be zero or negative |
| Tracker.Startup | script.js:75-80 | At start-up the list is empty when nothing is stored, and is the stored list otherwise |
| Tracker.NewWorkout | script.js:150-213 | A submission is rejected with the alert exactly when the guard fails. Otherwise the new workout of the chosen type, built from the form's values, the clicked coords, the id and the date, is appended at the end, and the new list is saved. The new workout's pace or speed is the one `calcPace` or `calcSpeed` gives for its distance and duration |
| Tracker.SubmitKeepsEarlierEntries | script.js:174-200 | A rejected submission leaves the list and the storage unchanged. An accepted one adds exactly one workout and keeps every earlier entry in place |
| Tracker.FindNewWorkout | script.js:289 | With a fresh id, looking up the id after an accepted submission finds the workout just created |
| Tracker.RestartAfterSubmit | script.js:199-212 | After an accepted submission, a fresh start reads back every earlier workout and the new one, in order, with everything but the dates intact |
| Tracker.MoveToPopup | script.js:282-299 | A click outside every entry does nothing. A click on an entry pans the map at zoom 13 to the first workout with that id. An id that no workout has is the case where `script.js` throws a TypeError |
| Tracker.Reset | script.js:320-323 | After reset and the reload it triggers, the list is empty, the key is gone, and other keys are kept |

## Left out

- Page plumbing is not modelled: DOM access, form show/hide/clear, `_toggleElevationField`, `setTimeout`, and the HTML of `_renderWorkout` and `_renderWorkoutMarker`, including `toFixed` rounding.
- The Leaflet map is not modelled: creation, tiles, markers, popups and `setView`. These are calls into a foreign library. `MoveToPopup` returns the pan it would request.
- Geolocation and `_loadMap` are not modelled. This is a host API with an asynchronous callback. The clicked coordinates are a parameter of `NewWorkout`.
- `JSON.stringify`, `JSON.parse` and `localStorage` become a map from key to stored record list. The ISO text of a serialised date is not modelled (`IsoText`).
- `uuid.v4()` and `new Date()` are replaced by parameters. Id uniqueness is a precondition of `Store.FindFreshAfterAppend` and `Tracker.FindNewWorkout`.
- The `+input.value` coercion is not modelled; its result is the `Num` input. For example, an empty field becomes 0. IEEE rounding is replaced by exact `real` arithmetic.
- Workout types other than 'running' and 'cycling' are not modelled. The form's select offers only those two, so `Kind` has two values. For any other value `_newWorkout` would push `undefined` and then throw while rendering.
- Text.Capitalize models upper-casing for ASCII letters only. That is all the two type names contain.
- The `clicks` counter is set to 0 and never changed, as in `script.js`.
- Tracker.Startup: storage is any map from key to record list. A stored record may still carry a live `LocalDate`, which `JSON.parse` never produces. The model does not rule such storage out, because only `Save` writes the key and `Save` always stores `IsoText` dates.
