/** `_setLocalStorage`, `_getlocalStorage` and the storage half of `reset`,
    over browser storage modelled as a map from key to the list of records
    stored there. `JSON.stringify` and `JSON.parse` are replaced by
    `Encode`, which keeps every field a JSON round trip keeps. */
module Persistence {
  import opened Workouts

  /** The one key the app reads and writes. */
  const StorageKey: string := "workouts"

  type Storage = map<string, seq<Workout>>

  /** `a` and `b` agree on every field except the creation date. */
  predicate SameData(a: Workout, b: Workout) {
    && a.id == b.id
    && a.coords == b.coords
    && a.distance == b.distance
    && a.duration == b.duration
    && a.clicks == b.clicks
    && a.description == b.description
    && a.detail == b.detail
  }

  /** A record as it comes back from storage: the `Date` object has become
      its ISO text, everything else is plain data. */
  function Encode(w: Workout): (e: Workout)
    ensures SameData(w, e) && e.kind() == w.kind()
    ensures e.date.IsoText?
  {
    w.(date := IsoText)
  }

  function EncodeAll(ws: seq<Workout>): (es: seq<Workout>)
    ensures |es| == |ws|
    ensures forall i :: 0 <= i < |ws| ==> es[i] == Encode(ws[i])
  {
    seq(|ws|, i requires 0 <= i < |ws| => Encode(ws[i]))
  }

  /** `localStorage.setItem('workouts', JSON.stringify(workouts))` */
  function Save(st: Storage, ws: seq<Workout>): (r: Storage)
    ensures StorageKey in r && r[StorageKey] == EncodeAll(ws)
    ensures forall k :: k != StorageKey ==> (k in r <==> k in st)
    ensures forall k :: k in st && k != StorageKey ==> r[k] == st[k]
  {
    st[StorageKey := EncodeAll(ws)]
  }

  /** `_getlocalStorage`: with nothing stored under the key the list stays
      as it was; otherwise the stored list replaces it entirely. */
  function Load(st: Storage, current: seq<Workout>): (r: seq<Workout>)
    ensures StorageKey !in st ==> r == current
    ensures StorageKey in st ==> r == st[StorageKey]
  {
    if StorageKey in st then st[StorageKey] else current
  }

  /** `localStorage.removeItem('workouts')` */
  function Remove(st: Storage): (r: Storage)
    ensures StorageKey !in r
    ensures forall k :: k != StorageKey ==> (k in r <==> k in st)
    ensures forall k :: k in r ==> r[k] == st[k]
  {
    st - {StorageKey}
  }

  /** Loading what was saved gives back the saved list, record for record
      and in order, with only the dates turned into text. */
  lemma LoadAfterSave(st: Storage, ws: seq<Workout>, current: seq<Workout>)
    ensures |Load(Save(st, ws), current)| == |ws|
    ensures forall i :: 0 <= i < |ws| ==>
              SameData(ws[i], Load(Save(st, ws), current)[i])
              && Load(Save(st, ws), current)[i].kind() == ws[i].kind()
  {
  }

  /** A list that has already been through storage survives a second save
      and load exactly. */
  lemma {:induction false} EncodeIdempotent(ws: seq<Workout>)
    ensures EncodeAll(EncodeAll(ws)) == EncodeAll(ws)
  {
    var es := EncodeAll(ws);
    assert forall i :: 0 <= i < |ws| ==> Encode(es[i]) == es[i];
  }

  /** The last save wins: saving twice is the same as saving the second list. */
  lemma SaveOverwrites(st: Storage, a: seq<Workout>, b: seq<Workout>)
    ensures Save(Save(st, a), b) == Save(st, b)
  {
  }

  /** After the key is removed, a load finds no data and changes nothing. */
  lemma LoadAfterRemove(st: Storage, current: seq<Workout>)
    ensures Load(Remove(st), current) == current
  {
  }
}
