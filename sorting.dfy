/**
 * `sortedLessons`: a sorted copy of the lesson objects on display, key one of
 * four keys, ascending or descending, using the app's comparator.
 */
module Sorting {
  import opened Lessons

  /** The values the sort menu offers for `sortBy`. */
  datatype SortKey = Subject | Location | Price | Spaces

  /** `sortOrder`: the app only ever stores 'asc' or 'desc'. */
  datatype SortOrder = Asc | Desc

  /** `toggleSortOrder`: 'asc' becomes 'desc', anything else becomes 'asc'. */
  function Toggled(order: SortOrder): (r: SortOrder)
    ensures r != order
  {
    if order == Asc then Desc else Asc
  }

  /** Toggling twice gives back the order one started with. */
  lemma ToggleTwice(order: SortOrder)
    ensures Toggled(Toggled(order)) == order
  {
  }

  /** JavaScript's `a < b` on strings: lexicographic, a proper prefix first. */
  predicate StrLess(a: string, b: string)
    decreases |a|
  {
    if a == [] then b != []
    else if b == [] then false
    else if a[0] != b[0] then a[0] < b[0]
    else StrLess(a[1..], b[1..])
  }

  lemma {:induction false} StrLessIrreflexive(a: string)
    ensures !StrLess(a, a)
    decreases |a|
  {
    if a != [] {
      StrLessIrreflexive(a[1..]);
    }
  }

  lemma {:induction false} StrLessTransitive(a: string, b: string, c: string)
    requires StrLess(a, b) && StrLess(b, c)
    ensures StrLess(a, c)
    decreases |a|
  {
    if a != [] && b != [] && c != [] && a[0] == b[0] == c[0] {
      StrLessTransitive(a[1..], b[1..], c[1..]);
    }
  }

  lemma {:induction false} StrLessTotal(a: string, b: string)
    requires a != b
    ensures StrLess(a, b) || StrLess(b, a)
    decreases |a|
  {
    if a != [] && b != [] && a[0] == b[0] {
      assert a == [a[0]] + a[1..] && b == [b[0]] + b[1..];
      StrLessTotal(a[1..], b[1..]);
    }
  }

  /** A sort key's value: `subject`/`location` are strings, `price`/`spaces` go through `Number()`. */
  datatype SortValue = Text(text: string) | Number(number: int)

  /** `a[this.sortBy]` */
  function KeyOf(l: Lesson, key: SortKey): (v: SortValue)
    reads l
    ensures v.Text? <==> key in {Subject, Location}
  {
    match key
    case Subject => Text(l.subject)
    case Location => Text(l.location)
    case Price => Number(l.price)
    case Spaces => Number(l.spaces)
  }

  /** `aValue > bValue` for two values of the same key. */
  predicate Greater(x: SortValue, y: SortValue) {
    match (x, y)
    case (Text(a), Text(b)) => StrLess(b, a)
    case (Number(a), Number(b)) => a > b
    case _ => false
  }

  lemma GreaterIrreflexive(x: SortValue)
    ensures !Greater(x, x)
  {
    if x.Text? {
      StrLessIrreflexive(x.text);
    }
  }

  lemma GreaterTransitive(x: SortValue, y: SortValue, z: SortValue)
    requires Greater(x, y) && Greater(y, z)
    ensures Greater(x, z)
  {
    if x.Text? {
      StrLessTransitive(z.text, y.text, x.text);
    }
  }

  lemma GreaterTotal(x: SortValue, y: SortValue)
    requires x.Text? == y.Text? && x != y
    ensures Greater(x, y) || Greater(y, x)
  {
    if x.Text? {
      StrLessTotal(x.text, y.text);
    }
  }

  /**
   * The comparator on two key values:
   * ascending `aValue > bValue ? 1 : -1`, descending `aValue < bValue ? 1 : -1`.
   */
  function CompareValues(x: SortValue, y: SortValue, order: SortOrder): (r: int)
    ensures r == 1 || r == -1
  {
    if order == Asc then (if Greater(x, y) then 1 else -1)
    else (if Greater(y, x) then 1 else -1)
  }

  /** The comparator handed to `Array.prototype.sort`, on two lesson objects. It never answers 0. */
  function Compare(a: Lesson, b: Lesson, key: SortKey, order: SortOrder): (r: int)
    reads a, b
    ensures r == 1 || r == -1
  {
    CompareValues(KeyOf(a, key), KeyOf(b, key), order)
  }

  /**
   * Equal keys: the comparator answers -1 both ways round, so it claims each
   * element goes before the other. It is not a consistent comparator.
   */
  lemma CompareTies(a: Lesson, b: Lesson, key: SortKey, order: SortOrder)
    requires KeyOf(a, key) == KeyOf(b, key)
    ensures Compare(a, b, key, order) == -1 && Compare(b, a, key, order) == -1
  {
    GreaterIrreflexive(KeyOf(a, key));
  }

  /** Different keys: the comparator is antisymmetric, one answer is 1 and the other -1. */
  lemma CompareDistinct(a: Lesson, b: Lesson, key: SortKey, order: SortOrder)
    requires KeyOf(a, key) != KeyOf(b, key)
    ensures Compare(a, b, key, order) == -Compare(b, a, key, order)
  {
    ValuesCompareDistinct(KeyOf(a, key), KeyOf(b, key), order);
  }

  lemma ValuesCompareDistinct(x: SortValue, y: SortValue, order: SortOrder)
    requires x.Text? == y.Text? && x != y
    ensures CompareValues(x, y, order) == -CompareValues(y, x, order)
    ensures CompareValues(x, y, order) == -1 ==> PrecedesValue(x, y, order)
  {
    GreaterTotal(x, y);
    if Greater(x, y) && Greater(y, x) {
      GreaterTransitive(x, y, x);
      GreaterIrreflexive(x);
    }
  }

  /** Value x comes strictly before value y in the chosen direction. */
  predicate PrecedesValue(x: SortValue, y: SortValue, order: SortOrder) {
    if order == Asc then Greater(y, x) else Greater(x, y)
  }

  lemma PrecedesTransitive(x: SortValue, y: SortValue, z: SortValue, order: SortOrder)
    requires PrecedesValue(x, y, order) && PrecedesValue(y, z, order)
    ensures PrecedesValue(x, z, order)
  {
    if order == Asc {
      GreaterTransitive(z, y, x);
    } else {
      GreaterTransitive(x, y, z);
    }
  }

  /** a's key comes strictly before b's in the chosen direction. */
  predicate Precedes(a: Lesson, b: Lesson, key: SortKey, order: SortOrder)
    reads a, b
  {
    PrecedesValue(KeyOf(a, key), KeyOf(b, key), order)
  }

  /** No two positions of ls hold the same key. */
  predicate DistinctKeys(ls: seq<Lesson>, key: SortKey)
    reads ls
  {
    forall i, j :: 0 <= i < j < |ls| ==> KeyOf(ls[i], key) != KeyOf(ls[j], key)
  }

  /** Keys strictly increase (Asc) or strictly decrease (Desc) along ls. */
  predicate StrictlyOrdered(ls: seq<Lesson>, key: SortKey, order: SortOrder)
    reads ls
  {
    forall i, j :: 0 <= i < j < |ls| ==> Precedes(ls[i], ls[j], key, order)
  }

  /** A lesson object paired with its key, read once before sorting starts. */
  datatype Keyed = Keyed(lesson: Lesson, value: SortValue)

  /** The lessons of a list of pairs, in order. */
  function LessonsOf(ks: seq<Keyed>): (r: seq<Lesson>)
    ensures |r| == |ks| && forall i :: 0 <= i < |ks| ==> r[i] == ks[i].lesson
  {
    if ks == [] then [] else [ks[0].lesson] + LessonsOf(ks[1..])
  }

  /** The lessons of a list of pairs, counted with multiplicity. */
  function LessonBag(ks: seq<Keyed>): multiset<Lesson> {
    if ks == [] then multiset{} else multiset{ks[0].lesson} + LessonBag(ks[1..])
  }

  lemma {:induction false} LessonBagOf(ks: seq<Keyed>)
    ensures multiset(LessonsOf(ks)) == LessonBag(ks)
  {
    if ks != [] {
      LessonBagOf(ks[1..]);
      assert LessonsOf(ks) == [ks[0].lesson] + LessonsOf(ks[1..]);
    }
  }

  /** Pairs every lesson with the value of `a[sortBy]`. */
  function WithKeys(ls: seq<Lesson>, key: SortKey): (r: seq<Keyed>)
    reads ls
    ensures |r| == |ls| && forall i :: 0 <= i < |ls| ==> r[i] == Keyed(ls[i], KeyOf(ls[i], key))
  {
    if ls == [] then [] else [Keyed(ls[0], KeyOf(ls[0], key))] + WithKeys(ls[1..], key)
  }

  /**
   * The engine's sort is implementation-defined for this comparator; the
   * model sorts by insertion, placing x after every element the comparator
   * says x goes after.
   */
  function Insert(x: Keyed, ks: seq<Keyed>, order: SortOrder): (r: seq<Keyed>)
    ensures multiset(r) == multiset(ks) + multiset{x}
  {
    if ks == [] then [x]
    else
      assert ks == [ks[0]] + ks[1..];
      if CompareValues(x.value, ks[0].value, order) > 0 then [ks[0]] + Insert(x, ks[1..], order)
      else [x] + ks
  }

  /** Inserts the pairs of `rest`, left to right, into the already sorted `sorted`. */
  function InsertAll(sorted: seq<Keyed>, rest: seq<Keyed>, order: SortOrder): (r: seq<Keyed>)
    ensures multiset(r) == multiset(sorted) + multiset(rest)
    decreases |rest|
  {
    if rest == [] then sorted
    else
      assert rest == [rest[0]] + rest[1..];
      InsertAll(Insert(rest[0], sorted, order), rest[1..], order)
  }

  /** Insertion adds exactly x's lesson to the lessons of the list. */
  lemma {:induction false} InsertLessons(x: Keyed, ks: seq<Keyed>, order: SortOrder)
    ensures LessonBag(Insert(x, ks, order)) == LessonBag(ks) + multiset{x.lesson}
  {
    if ks != [] && CompareValues(x.value, ks[0].value, order) > 0 {
      InsertLessons(x, ks[1..], order);
      assert ([ks[0]] + Insert(x, ks[1..], order))[1..] == Insert(x, ks[1..], order);
    }
  }

  /** Inserting a whole list adds exactly its lessons. */
  lemma {:induction false} InsertAllLessons(sorted: seq<Keyed>, rest: seq<Keyed>, order: SortOrder)
    ensures LessonBag(InsertAll(sorted, rest, order)) == LessonBag(sorted) + LessonBag(rest)
    decreases |rest|
  {
    if rest != [] {
      InsertLessons(rest[0], sorted, order);
      InsertAllLessons(Insert(rest[0], sorted, order), rest[1..], order);
    }
  }

  /** `[...ls].sort(comparator)`: a sorted copy holding the same lesson objects; ls itself is left as it was. */
  function Sort(ls: seq<Lesson>, key: SortKey, order: SortOrder): (r: seq<Lesson>)
    reads ls
    ensures multiset(r) == multiset(ls)
  {
    var keyed := WithKeys(ls, key);
    assert LessonsOf(keyed) == ls;
    var sorted := InsertAll([], keyed, order);
    InsertAllLessons([], keyed, order);
    LessonBagOf(keyed);
    LessonBagOf(sorted);
    LessonsOf(sorted)
  }

  /** Sorting nothing gives nothing. */
  lemma SortEmpty(key: SortKey, order: SortOrder)
    ensures Sort([], key, order) == []
  {
  }

  /** Values strictly increase (Asc) or decrease (Desc) along the pairs. */
  predicate PairsOrdered(ks: seq<Keyed>, order: SortOrder) {
    forall i, j :: 0 <= i < j < |ks| ==> PrecedesValue(ks[i].value, ks[j].value, order)
  }

  /** All values are of one kind (all text or all numbers), as the values of one sort key are. */
  predicate OneKind(ks: seq<Keyed>, text: bool) {
    forall i :: 0 <= i < |ks| ==> ks[i].value.Text? == text
  }

  /** Every pair of an insertion's result is the inserted pair or one of the list's. */
  lemma InsertMembers(x: Keyed, ks: seq<Keyed>, order: SortOrder, j: nat)
    requires j < |Insert(x, ks, order)|
    ensures Insert(x, ks, order)[j] == x || Insert(x, ks, order)[j] in ks
  {
    var r := Insert(x, ks, order);
    assert r[j] in multiset(r);
  }

  /** Putting x in front of a strictly ordered list whose head x precedes keeps it strictly ordered. */
  lemma InsertFrontOrdered(x: Keyed, ks: seq<Keyed>, order: SortOrder)
    requires PairsOrdered(ks, order) && ks != []
    requires PrecedesValue(x.value, ks[0].value, order)
    ensures PairsOrdered([x] + ks, order)
  {
    var r := [x] + ks;
    forall i, j | 0 <= i < j < |r|
      ensures PrecedesValue(r[i].value, r[j].value, order)
    {
      if i > 0 {
        assert r[i] == ks[i - 1] && r[j] == ks[j - 1];
      } else if j > 1 {
        PrecedesTransitive(x.value, ks[0].value, ks[j - 1].value, order);
      }
    }
  }

  /** Putting a head in front of a strictly ordered tail it precedes everywhere keeps it strictly ordered. */
  lemma ConsOrdered(head: Keyed, tail: seq<Keyed>, order: SortOrder)
    requires PairsOrdered(tail, order)
    requires forall j :: 0 <= j < |tail| ==> PrecedesValue(head.value, tail[j].value, order)
    ensures PairsOrdered([head] + tail, order)
  {
  }

  /** Inserting a pair whose value differs from every value of a strictly ordered list keeps it strictly ordered. */
  lemma {:induction false} InsertOrdered(x: Keyed, ks: seq<Keyed>, order: SortOrder)
    requires PairsOrdered(ks, order) && OneKind(ks, x.value.Text?)
    requires forall k :: 0 <= k < |ks| ==> ks[k].value != x.value
    ensures PairsOrdered(Insert(x, ks, order), order)
  {
    if ks != [] {
      if CompareValues(x.value, ks[0].value, order) > 0 {
        var tail := Insert(x, ks[1..], order);
        InsertOrdered(x, ks[1..], order);
        ValuesCompareDistinct(ks[0].value, x.value, order);
        forall j | 0 <= j < |tail|
          ensures PrecedesValue(ks[0].value, tail[j].value, order)
        {
          InsertMembers(x, ks[1..], order, j);
        }
        ConsOrdered(ks[0], tail, order);
      } else {
        ValuesCompareDistinct(x.value, ks[0].value, order);
        InsertFrontOrdered(x, ks, order);
      }
    }
  }

  /** Inserting the rest one by one keeps the sorted prefix strictly ordered while all values differ. */
  lemma {:induction false} InsertAllOrdered(sorted: seq<Keyed>, rest: seq<Keyed>, order: SortOrder, text: bool)
    requires PairsOrdered(sorted, order) && OneKind(sorted, text) && OneKind(rest, text)
    requires forall i, j :: 0 <= i < j < |rest| ==> rest[i].value != rest[j].value
    requires forall i, j :: 0 <= i < |sorted| && 0 <= j < |rest| ==> sorted[i].value != rest[j].value
    ensures PairsOrdered(InsertAll(sorted, rest, order), order)
    decreases |rest|
  {
    if rest != [] {
      var x := rest[0];
      InsertOrdered(x, sorted, order);
      var next := Insert(x, sorted, order);
      forall i | 0 <= i < |next|
        ensures next[i] == x || next[i] in sorted
      {
        InsertMembers(x, sorted, order, i);
      }
      InsertAllOrdered(next, rest[1..], order, text);
    }
  }

  /** With pairwise-distinct keys the sorted copy is strictly ordered in the chosen direction. */
  lemma SortOrdered(ls: seq<Lesson>, key: SortKey, order: SortOrder)
    requires DistinctKeys(ls, key)
    ensures StrictlyOrdered(Sort(ls, key, order), key, order)
  {
    var keyed := WithKeys(ls, key);
    InsertAllOrdered([], keyed, order, key in {Subject, Location});
    var sorted := InsertAll([], keyed, order);
    forall i | 0 <= i < |sorted|
      ensures sorted[i].value == KeyOf(sorted[i].lesson, key)
    {
      assert sorted[i] in multiset(sorted);
      assert sorted[i] in keyed;
    }
  }
}
