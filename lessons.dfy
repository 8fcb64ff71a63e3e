/**
 * Lesson records and the lesson objects the app keeps in `lessons` and
 * `searchResults`.
 */
module Lessons {

  /**
   * One lesson as a plain record: the JSON object the backend sends, or an
   * entry of the demo fixture. `backendId` is the `_id` property. A string
   * property that is missing (undefined) is the empty string here: both are
   * falsy and compare equal to themselves, which is all the app relies on.
   * `price` and `spaces` are integers, as in the demo data.
   */
  datatype LessonData = LessonData(
    backendId: string,
    id: string,
    subject: string,
    location: string,
    price: int,
    spaces: int,
    icon: string)

  /**
   * A lesson object. The app hands the same object to several places
   * (`lessons`, the fallback `searchResults`, the sorted copy it renders)
   * and `addToCart`/`removeFromCart` change its `spaces` in place; no other
   * property is ever written.
   */
  class Lesson {
    const backendId: string
    const id: string
    const subject: string
    const location: string
    const price: int
    var spaces: int
    const icon: string

    constructor (d: LessonData)
      ensures Snapshot() == d
    {
      backendId, id, subject, location := d.backendId, d.id, d.subject, d.location;
      price, spaces, icon := d.price, d.spaces, d.icon;
    }

    /** The object's properties as a record (what `{...lesson}` copies). */
    function Snapshot(): LessonData
      reads this
    {
      LessonData(backendId, id, subject, location, price, spaces, icon)
    }
  }

  /** No two lesson objects in `ls` share an `id`. */
  predicate IdsUnique(ls: seq<Lesson>) {
    forall i, j :: 0 <= i < j < |ls| ==> ls[i].id != ls[j].id
  }

  /** The id normalisation of one fetched record: `{...lesson, id: lesson._id || lesson.id}`. */
  function NormalizeId(d: LessonData): (r: LessonData)
    ensures d.backendId != "" ==> r.id == d.backendId
    ensures d.backendId == "" ==> r == d
    ensures r.(id := d.id) == d
  {
    if d.backendId != "" then d.(id := d.backendId) else d
  }

  /** `lessons.map(lesson => ({...lesson, id: lesson._id || lesson.id}))` */
  function Normalize(ds: seq<LessonData>): (r: seq<LessonData>)
    ensures |r| == |ds|
    ensures forall i :: 0 <= i < |ds| ==> r[i] == NormalizeId(ds[i])
  {
    if ds == [] then [] else [NormalizeId(ds[0])] + Normalize(ds[1..])
  }

  /** Normalising an already normalised list changes nothing. */
  lemma NormalizeIdempotent(ds: seq<LessonData>)
    ensures Normalize(Normalize(ds)) == Normalize(ds)
  {
  }

  /** After normalisation every record that carries a backend id is known by it. */
  lemma NormalizedIdsAreBackendIds(ds: seq<LessonData>, i: nat)
    requires i < |ds|
    ensures ds[i].backendId != "" ==> Normalize(ds)[i].id == ds[i].backendId
    ensures ds[i].backendId == "" ==> Normalize(ds)[i] == ds[i]
  {
  }

  /** The fixture the app falls back to when fetching lessons fails. */
  function DemoLessons(): (r: seq<LessonData>)
    ensures |r| == 10
    ensures forall i :: 0 <= i < |r| ==> r[i].spaces == 5 && r[i].price > 0 && r[i].backendId == ""
    ensures forall i, j :: 0 <= i < j < |r| ==> r[i].id != r[j].id
  {
    [ LessonData("", "1", "Piano", "London", 50, 5, "fa-music"),
      LessonData("", "2", "Guitar", "Manchester", 40, 5, "fa-guitar"),
      LessonData("", "3", "Violin", "Birmingham", 45, 5, "fa-violin"),
      LessonData("", "4", "Drums", "Liverpool", 35, 5, "fa-drum"),
      LessonData("", "5", "Singing", "Leeds", 30, 5, "fa-microphone"),
      LessonData("", "6", "Saxophone", "Bristol", 55, 5, "fa-saxophone"),
      LessonData("", "7", "Flute", "Glasgow", 38, 5, "fa-flute"),
      LessonData("", "8", "Trumpet", "Edinburgh", 42, 5, "fa-trumpet"),
      LessonData("", "9", "Cello", "Cardiff", 48, 5, "fa-cello"),
      LessonData("", "10", "Clarinet", "Belfast", 36, 5, "fa-clarinet") ]
  }

  /** The demo records already carry their ids: normalising them is the identity. */
  lemma DemoLessonsNormalized()
    ensures Normalize(DemoLessons()) == DemoLessons()
  {
  }

  /** `lessons.find(l => l.id === id)` as an index: the first position holding that id, or -1. */
  function LessonIndex(ls: seq<Lesson>, id: string): (r: int)
    ensures -1 <= r < |ls|
    ensures r >= 0 ==> ls[r].id == id && forall k :: 0 <= k < r ==> ls[k].id != id
    ensures r == -1 ==> forall k :: 0 <= k < |ls| ==> ls[k].id != id
  {
    if ls == [] then -1
    else if ls[0].id == id then 0
    else
      var r := LessonIndex(ls[1..], id);
      if r == -1 then -1 else r + 1
  }

  /** `lessons.find(l => l.id === id)`: the first lesson object with that id, or null (undefined). */
  method FindLesson(ls: seq<Lesson>, id: string) returns (found: Lesson?)
    ensures found == null <==> LessonIndex(ls, id) == -1
    ensures found != null ==> found == ls[LessonIndex(ls, id)]
  {
    var i := 0;
    while i < |ls| && ls[i].id != id
      invariant 0 <= i <= |ls|
      invariant forall k :: 0 <= k < i ==> ls[k].id != id
    {
      i := i + 1;
    }
    found := if i < |ls| then ls[i] else null;
  }
}
