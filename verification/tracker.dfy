/** The `App` class with the map, form and rendering left out: the state it
    keeps (the workout list and the storage it writes), start-up, form
    submission, a click in the workout list, and reset. */
module Tracker {
  import opened Wrappers
  import opened Inputs
  import opened Workouts
  import opened Store
  import opened Persistence

  /** `#mapZoomLevel` */
  const MapZoomLevel: nat := 13

  /** The text of the alert shown for a rejected submission. */
  const InvalidInputAlert: string := "Inputs have to be positive numbers"

  /** The values read from the form on submit. */
  datatype Form = Form(kind: Kind, distance: Num, duration: Num, cadence: Num, elevation: Num)

  /** The app's state: `#workouts` and the browser storage. */
  datatype App = App(workouts: seq<Workout>, storage: Storage)

  /** The guard clause of `_newWorkout` for the chosen type: running checks
      all three inputs for finiteness and positivity, cycling checks all
      three for finiteness but only distance and duration for positivity. */
  predicate Accepts(f: Form) {
    match f.kind
    case Running =>
      ValidInputs([f.distance, f.duration, f.cadence])
      && AllPositive([f.distance, f.duration, f.cadence])
    case Cycling =>
      ValidInputs([f.distance, f.duration, f.elevation])
      && AllPositive([f.distance, f.duration])
  }

  /** A running entry is accepted exactly when distance, duration and
      cadence are finite numbers greater than zero. */
  lemma RunningAcceptedIff(f: Form)
    requires f.kind == Running
    ensures Accepts(f) <==>
              && f.distance.Finite? && f.distance.value > 0.0
              && f.duration.Finite? && f.duration.value > 0.0
              && f.cadence.Finite? && f.cadence.value > 0.0
  {
    var xs := [f.distance, f.duration, f.cadence];
    ValidAndPositive(xs);
    assert xs[0] == f.distance && xs[1] == f.duration && xs[2] == f.cadence;
  }

  /** A cycling entry is accepted exactly when distance, duration and
      elevation are finite and distance and duration are greater than zero;
      the elevation may be zero or negative. */
  lemma CyclingAcceptedIff(f: Form)
    requires f.kind == Cycling
    ensures Accepts(f) <==>
              && f.distance.Finite? && f.distance.value > 0.0
              && f.duration.Finite? && f.duration.value > 0.0
              && f.elevation.Finite?
  {
    var xs := [f.distance, f.duration, f.elevation];
    var ys := [f.distance, f.duration];
    EveryIff(xs, IsFinite);
    EveryIff(ys, IsPositive);
    assert xs[0] == f.distance && xs[1] == f.duration && xs[2] == f.elevation;
    assert ys[0] == f.distance && ys[1] == f.duration;
  }

  /** The constructor: reads the stored list, if any, into the empty list. */
  function Startup(storage: Storage): (app: App)
    ensures app.storage == storage
    ensures StorageKey !in storage ==> app.workouts == []
    ensures StorageKey in storage ==> app.workouts == storage[StorageKey]
  {
    App(Load(storage, []), storage)
  }

  /** The two outcomes of a submission: an alert, with nothing changed, or
      the new workout together with the state after it was pushed and saved. */
  datatype Submission = Rejected(alert: string) | Accepted(app: App, workout: Workout)

  /** Pushes a workout and saves the whole list. */
  function Commit(app: App, w: Workout): App {
    var ws := Append(app.workouts, w);
    App(ws, Save(app.storage, ws))
  }

  /** `_newWorkout`: the guard for the chosen type, then construction of the
      workout at the clicked coordinates, push, and save. The id and the
      creation date are the values `uuid.v4()` and `new Date()` produced. */
  function NewWorkout(app: App, f: Form, coords: Coords, id: string, date: Date): (r: Submission)
    ensures r.Rejected? <==> !Accepts(f)
    ensures r.Rejected? ==> r.alert == InvalidInputAlert
    ensures r.Accepted? ==>
              && r.app.workouts == app.workouts + [r.workout]
              && r.app.storage == Save(app.storage, r.app.workouts)
    ensures r.Accepted? ==>
              && r.workout.kind() == f.kind
              && r.workout.id == id
              && r.workout.date == LocalDate(date)
              && r.workout.coords == coords
              && f.distance == Finite(r.workout.distance)
              && f.duration == Finite(r.workout.duration)
              && r.workout.distance > 0.0 && r.workout.duration > 0.0
              && r.workout.clicks == 0
              && ParseDescription(r.workout.description) == Some((f.kind, date))
    ensures r.Accepted? && f.kind == Running ==> f.cadence == Finite(r.workout.detail.cadence)
    ensures r.Accepted? && f.kind == Running ==>
              r.workout.detail.pace == Pace(r.workout.distance, r.workout.duration)
    ensures r.Accepted? && f.kind == Cycling ==> f.elevation == Finite(r.workout.detail.elevationGain)
    ensures r.Accepted? && f.kind == Cycling ==>
              r.workout.detail.speed == Speed(r.workout.distance, r.workout.duration)
  {
    match f.kind
    case Running =>
      if !Accepts(f) then Rejected(InvalidInputAlert)
      else
        RunningAcceptedIff(f);
        var w := NewRunning(id, date, coords, f.distance.value, f.duration.value, f.cadence.value);
        Accepted(Commit(app, w), w)
    case Cycling =>
      if !Accepts(f) then Rejected(InvalidInputAlert)
      else
        CyclingAcceptedIff(f);
        var w := NewCycling(id, date, coords, f.distance.value, f.duration.value, f.elevation.value);
        Accepted(Commit(app, w), w)
  }

  /** The state after a submission: unchanged when it was rejected. */
  function AfterSubmit(app: App, r: Submission): App {
    if r.Accepted? then r.app else app
  }

  /** A submission either leaves the whole state alone or adds exactly one
      workout at the end, keeping every earlier one where it was. */
  lemma SubmitKeepsEarlierEntries(app: App, f: Form, coords: Coords, id: string, date: Date)
    ensures var next := AfterSubmit(app, NewWorkout(app, f, coords, id, date));
            if Accepts(f) then
              |next.workouts| == |app.workouts| + 1
              && forall i :: 0 <= i < |app.workouts| ==> next.workouts[i] == app.workouts[i]
            else next == app
  {
  }

  /** With a fresh id, looking the id up after a successful submission
      finds the new workout. */
  lemma FindNewWorkout(app: App, f: Form, coords: Coords, id: string, date: Date)
    requires forall i :: 0 <= i < |app.workouts| ==> app.workouts[i].id != id
    requires Accepts(f)
    ensures var r := NewWorkout(app, f, coords, id, date);
            r.Accepted? && Find(r.app.workouts, id) == Some(r.workout)
  {
    var r := NewWorkout(app, f, coords, id, date);
    assert r.app.workouts == Append(app.workouts, r.workout);
    FindFreshAfterAppend(app.workouts, r.workout);
  }

  /** After a successful submission a fresh start reads back the whole
      list, record for record, with only the dates turned into text. */
  lemma RestartAfterSubmit(app: App, f: Form, coords: Coords, id: string, date: Date)
    requires Accepts(f)
    ensures var r := NewWorkout(app, f, coords, id, date);
            r.Accepted?
            && |Startup(r.app.storage).workouts| == |app.workouts| + 1
            && (forall i :: 0 <= i < |app.workouts| ==>
                  SameData(app.workouts[i], Startup(r.app.storage).workouts[i]))
            && SameData(r.workout, Startup(r.app.storage).workouts[|app.workouts|])
  {
    var r := NewWorkout(app, f, coords, id, date);
    LoadAfterSave(app.storage, r.app.workouts, []);
  }

  /** What a click in the workout list does to the map. */
  datatype Move =
    | Ignore                              // the click was not on a workout entry
    | PanTo(coords: Coords, zoom: nat)    // `setView` on the workout's coordinates
    | LookupFailure                       // `find` gave `undefined`; the app then throws a TypeError

  /** `_moveToPopup`: `target` is the `data-id` of the workout entry the
      click landed in, or None when it landed outside every entry. */
  function MoveToPopup(app: App, target: Option<string>): (r: Move)
    ensures r.Ignore? <==> target.None?
    ensures r.LookupFailure? <==>
              target.Some? && forall i :: 0 <= i < |app.workouts| ==> app.workouts[i].id != target.value
    ensures r.PanTo? ==>
              r.zoom == MapZoomLevel
              && exists i :: IsFirstMatch(app.workouts, target.value, i) && r.coords == app.workouts[i].coords
  {
    match target
    case None => Ignore
    case Some(id) =>
      match Find(app.workouts, id)
      case None => LookupFailure
      case Some(w) => PanTo(w.coords, MapZoomLevel)
  }

  /** `reset`: removes the stored list and reloads the page, which starts
      the app again over what is left in storage. */
  function Reset(app: App): (r: App)
    ensures r.workouts == []
    ensures StorageKey !in r.storage
    ensures forall k :: k != StorageKey ==> (k in r.storage <==> k in app.storage)
    ensures forall k :: k in r.storage ==> r.storage[k] == app.storage[k]
  {
    Startup(Remove(app.storage))
  }
}
