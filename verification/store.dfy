/** The in-memory workout list `#workouts` of the `App` class: grown by
    `push` and searched by `find` on the id. */
module Store {
  import opened Wrappers
  import opened Workouts

  /** Position `i` holds the first workout of `ws` whose id is `id`. */
  predicate IsFirstMatch(ws: seq<Workout>, id: string, i: int) {
    0 <= i < |ws| && ws[i].id == id && forall j :: 0 <= j < i ==> ws[j].id != id
  }

  /** `#workouts.find(work => work.id === id)`: the first workout with that
      id, or `undefined` (None) when there is none. */
  function Find(ws: seq<Workout>, id: string): (r: Option<Workout>)
    ensures r.None? <==> forall i :: 0 <= i < |ws| ==> ws[i].id != id
    ensures r.Some? ==> exists i :: IsFirstMatch(ws, id, i) && ws[i] == r.value
    decreases |ws|
  {
    if |ws| == 0 then None
    else if ws[0].id == id then
      assert IsFirstMatch(ws, id, 0);
      Some(ws[0])
    else
      var r := Find(ws[1..], id);
      assert forall i :: 1 <= i < |ws| ==> ws[i] == ws[1..][i - 1];
      assert forall i :: IsFirstMatch(ws[1..], id, i) ==> IsFirstMatch(ws, id, i + 1);
      r
  }

  /** `#workouts.push(workout)` */
  function Append(ws: seq<Workout>, w: Workout): seq<Workout> {
    ws + [w]
  }

  /** Appending keeps every earlier entry in place and puts the new one last. */
  lemma AppendAtEnd(ws: seq<Workout>, w: Workout)
    ensures |Append(ws, w)| == |ws| + 1
    ensures Append(ws, w)[..|ws|] == ws
    ensures Append(ws, w)[|ws|] == w
  {
  }

  /** Looking up an id after an append finds an earlier holder of that id
      if there is one, and otherwise the appended workout when its id matches. */
  lemma {:induction false} FindAfterAppend(ws: seq<Workout>, w: Workout, id: string)
    ensures Find(Append(ws, w), id)
            == if Find(ws, id).Some? then Find(ws, id)
               else if w.id == id then Some(w)
               else None
    decreases |ws|
  {
    if |ws| > 0 && ws[0].id != id {
      assert Append(ws, w)[1..] == Append(ws[1..], w);
      FindAfterAppend(ws[1..], w, id);
    }
  }

  /** A workout appended under an id no earlier workout has is what a
      lookup of that id returns. */
  lemma FindFreshAfterAppend(ws: seq<Workout>, w: Workout)
    requires forall i :: 0 <= i < |ws| ==> ws[i].id != w.id
    ensures Find(Append(ws, w), w.id) == Some(w)
  {
    FindAfterAppend(ws, w, w.id);
  }
}
