/** The Task collection as the handlers use it through Mongoose: documents in natural (insertion)
    order with distinct ids, a range query sorted by date, and update and delete by id. */
module Store {
  import opened Wrappers
  import opened Json
  import opened Dates
  import opened TaskModel
  import opened Validation

  /** Messages of the errors Mongoose throws when it cannot cast a value. */
  const IdCastFailed := "Cast to ObjectId failed for path \"_id\""
  const SaveCastFailed := "Task validation failed: completed: Cast to Boolean failed"
  const UpdateCastFailed := "Cast to Boolean failed for path \"completed\""
  const RangeCastFailed := "Cast to date failed for path \"date\""

  function Ids(docs: seq<Record>): set<ObjectId> {
    set r | r in docs :: r.id
  }

  predicate DistinctIds(docs: seq<Record>) {
    forall i, j :: 0 <= i < j < |docs| ==> docs[i].id != docs[j].id
  }

  /** Position of the document with the given id. */
  function IndexOf(docs: seq<Record>, id: ObjectId): (k: Option<nat>)
    ensures k.Some? ==> k.value < |docs| && docs[k.value].id == id
    ensures k.None? <==> id !in Ids(docs)
  {
    if docs == [] then None
    else if docs[0].id == id then Some(0)
    else
      match IndexOf(docs[1..], id)
      case None => assert Ids(docs) == {docs[0].id} + Ids(docs[1..]); None
      case Some(k) => Some(k + 1)
  }

  predicate InWindow(r: Record, lo: Timestamp, hi: Timestamp) {
    lo <= r.date <= hi
  }

  /** The documents matching `{ date: { $gte: lo, $lte: hi } }`, in natural order. */
  function InRange(docs: seq<Record>, lo: Timestamp, hi: Timestamp): (r: seq<Record>)
    ensures forall x :: x in r <==> x in docs && InWindow(x, lo, hi)
    ensures |r| <= |docs|
  {
    if docs == [] then []
    else
      var init := InRange(docs[..|docs| - 1], lo, hi);
      var last := docs[|docs| - 1];
      assert docs == docs[..|docs| - 1] + [last];
      if InWindow(last, lo, hi) then init + [last] else init
  }

  predicate SortedByDate(s: seq<Record>) {
    forall i, j :: 0 <= i < j < |s| ==> s[i].date <= s[j].date
  }

  /** Inserts `x` after every element whose date is not later than its own. */
  function InsertByDate(sorted: seq<Record>, x: Record): (r: seq<Record>)
    requires SortedByDate(sorted)
    ensures SortedByDate(r)
    ensures multiset(r) == multiset(sorted) + multiset{x}
  {
    if sorted == [] then [x]
    else if x.date < sorted[0].date then [x] + sorted
    else
      var rest := InsertByDate(sorted[1..], x);
      assert sorted == [sorted[0]] + sorted[1..];
      PrependSorted(sorted[0], sorted[1..], rest, x);
      [sorted[0]] + rest
  }

  /** A first element not later than anything after it keeps a sorted sequence sorted. */
  lemma PrependSorted(first: Record, tail: seq<Record>, rest: seq<Record>, x: Record)
    requires SortedByDate([first] + tail) && SortedByDate(rest) && first.date <= x.date
    requires multiset(rest) == multiset(tail) + multiset{x}
    ensures SortedByDate([first] + rest)
  {
    forall j | 0 <= j < |rest| ensures first.date <= rest[j].date {
      assert rest[j] in multiset(rest);
      if rest[j] != x {
        assert rest[j] in multiset(tail);
        assert rest[j] in tail;
        var i :| 0 <= i < |tail| && tail[i] == rest[j];
        var whole := [first] + tail;
        assert whole[0] == first && whole[i + 1] == tail[i];
        assert whole[0].date <= whole[i + 1].date;
      }
    }
    var s := [first] + rest;
    forall i, j | 0 <= i < j < |s| ensures s[i].date <= s[j].date {
      if i == 0 { assert s[j] == rest[j - 1]; } else { assert s[i] == rest[i - 1] && s[j] == rest[j - 1]; }
    }
  }

  /** `.sort({ date: 1 })`: sorted by date and a permutation of the matches, which is all MongoDB
      promises; among equal dates the model fixes one order of its own. */
  function SortByDate(s: seq<Record>): (r: seq<Record>)
    ensures SortedByDate(r)
    ensures multiset(r) == multiset(s)
  {
    if s == [] then []
    else
      assert s == s[..|s| - 1] + [s[|s| - 1]];
      InsertByDate(SortByDate(s[..|s| - 1]), s[|s| - 1])
  }

  /** What `Task.find({ date: { $gte: lo, $lte: hi } }).sort({ date: 1 })` yields. */
  function Listing(docs: seq<Record>, lo: Timestamp, hi: Timestamp): seq<Record> {
    SortByDate(InRange(docs, lo, hi))
  }

  /** The listing is sorted by date and holds each matching document as often as the collection
      does, and nothing else. */
  lemma ListingIsSortedSelection(docs: seq<Record>, lo: Timestamp, hi: Timestamp)
    ensures SortedByDate(Listing(docs, lo, hi))
    ensures multiset(Listing(docs, lo, hi)) == multiset(InRange(docs, lo, hi))
    ensures forall x :: x in Listing(docs, lo, hi) <==> x in docs && InWindow(x, lo, hi)
  {
    var l := Listing(docs, lo, hi);
    forall x ensures x in l <==> x in InRange(docs, lo, hi) {
      assert x in l <==> x in multiset(l);
    }
  }

  /** Bounded by the start of one day and the end of another, the listing holds the documents
      dated on any day between the two, both included. */
  lemma ListingIsWholeDays(docs: seq<Record>, s: Timestamp, e: Timestamp)
    ensures forall x :: x in Listing(docs, StartOfDay(s), EndOfDay(e)) <==>
      x in docs && DayOf(s) <= DayOf(x.date) <= DayOf(e)
  {
    ListingIsSortedSelection(docs, StartOfDay(s), EndOfDay(e));
    forall x: Record {
      WholeDayRange(s, e, x.date);
    }
  }

  /** Mongoose's cast of `completed` fails: the key is there but its value is not one of the
      Boolean literals. */
  predicate CompletedCastFails(body: map<string, Json>) {
    "completed" in body && CastBoolean(body["completed"]).None?
  }

  /** The cast `completed` of a body whose cast does not fail; None when the key is absent. */
  function CompletedValue(body: map<string, Json>): Option<bool> {
    if "completed" in body then CastBoolean(body["completed"]) else None
  }

  /** What `new Task(req.body)` is given once the body passed `validateTask`: the content string,
      the cast `completed` and the date as `new Date` reads it. Keys that are not schema paths are
      dropped; `_id`, `createdAt` and `updatedAt` are schema paths the model does not take from the
      body (the id is the one MongoDB assigns, the timestamps the save time). */
  function BodyFields(body: map<string, Json>, parse: DateParser): Fields
    requires ValidateTask(body, parse) == Next
  {
    Fields(Some(body["content"].s), CompletedValue(body), NewDate(Get(body, "date"), parse))
  }

  /** What an update with a validated body writes: the trimmed content (the `trim` setter runs on
      updates too), the date as given and `completed` when the body has it. */
  function BodyPatch(body: map<string, Json>, parse: DateParser): Patch
    requires ValidateTask(body, parse) == Next
  {
    Patch(Some(Trim(body["content"].s)), CompletedValue(body), NewDate(Get(body, "date"), parse))
  }

  /** The fields an update writes; None leaves a field as it is. */
  datatype Patch = Patch(content: Option<string>, completed: Option<bool>, date: Option<Timestamp>)

  /** `findByIdAndUpdate(id, patch, { new: true })` on one document: the given fields are set,
      `updatedAt` is the moment of the update, and the `pre('save')` hook does not run, so the date
      is stored as given. */
  function ApplyPatch(r: Record, p: Patch, now: Timestamp): (u: Record)
    ensures u.id == r.id && u.createdAt == r.createdAt && u.version == r.version && u.updatedAt == now
    ensures u.content == p.content.GetOr(r.content)
    ensures u.completed == p.completed.GetOr(r.completed)
    ensures u.date == p.date.GetOr(r.date)
  {
    r.(content := p.content.GetOr(r.content),
       completed := p.completed.GetOr(r.completed),
       date := p.date.GetOr(r.date),
       updatedAt := now)
  }

  /** The collection without its `k`-th document. */
  function RemoveAt(docs: seq<Record>, k: nat): seq<Record>
    requires k < |docs|
  {
    docs[..k] + docs[k + 1..]
  }

  lemma RemoveAtIndex(docs: seq<Record>, k: nat, i: nat)
    requires k < |docs| && i < |docs| - 1
    ensures RemoveAt(docs, k)[i] == if i < k then docs[i] else docs[i + 1]
  {
  }

  /** Deleting by id removes that one document: the other documents stay, in the same order, and
      the ids stay distinct. */
  lemma RemoveAtKeepsOthers(docs: seq<Record>, k: nat)
    requires k < |docs| && DistinctIds(docs)
    ensures DistinctIds(RemoveAt(docs, k))
    ensures forall x :: x in RemoveAt(docs, k) <==> x in docs && x.id != docs[k].id
    ensures |RemoveAt(docs, k)| == |docs| - 1
  {
    var r := RemoveAt(docs, k);
    forall i, j | 0 <= i < j < |r| ensures r[i].id != r[j].id {
      RemoveAtIndex(docs, k, i);
      RemoveAtIndex(docs, k, j);
    }
    forall x | x in docs && x.id != docs[k].id ensures x in r {
      var i :| 0 <= i < |docs| && docs[i] == x;
      if i < k { RemoveAtIndex(docs, k, i); } else { RemoveAtIndex(docs, k, i - 1); }
    }
    forall x | x in r ensures x in docs && x.id != docs[k].id {
      var i :| 0 <= i < |r| && r[i] == x;
      RemoveAtIndex(docs, k, i);
    }
  }

  /** After a delete, the ids are those before it less the deleted one. */
  lemma RemoveAtIds(docs: seq<Record>, k: nat)
    requires k < |docs| && DistinctIds(docs)
    ensures Ids(RemoveAt(docs, k)) == Ids(docs) - {docs[k].id}
  {
    RemoveAtKeepsOthers(docs, k);
    var r := RemoveAt(docs, k);
    forall id | id in Ids(docs) - {docs[k].id} ensures id in Ids(r) {
      var x :| x in docs && x.id == id;
    }
  }

  /** Replacing a document by one with the same id keeps the ids distinct and the other
      documents where they were. */
  lemma ReplaceAtKeepsIds(docs: seq<Record>, k: nat, u: Record)
    requires k < |docs| && DistinctIds(docs) && u.id == docs[k].id
    ensures DistinctIds(docs[k := u]) && Ids(docs[k := u]) == Ids(docs)
  {
    var r := docs[k := u];
    forall id | id in Ids(docs) ensures id in Ids(r) {
      var x :| x in docs && x.id == id;
      var i :| 0 <= i < |docs| && docs[i] == x;
      assert r[i].id == id;
    }
  }

  /** The collection, shared by every handler. */
  class TaskStore {
    var docs: seq<Record>

    ghost predicate Valid()
      reads this
    {
      DistinctIds(docs)
    }

    constructor()
      ensures Valid() && docs == []
    {
      docs := [];
    }

    /** `Task.find(...).sort({ date: 1 })`: the documents dated between `lo` and `hi`. */
    method Find(lo: Timestamp, hi: Timestamp) returns (found: seq<Record>)
      ensures found == Listing(docs, lo, hi)
      ensures SortedByDate(found)
      ensures forall x :: x in found <==> x in docs && InWindow(x, lo, hi)
    {
      var matching: seq<Record> := [];
      var i := 0;
      while i < |docs|
        invariant 0 <= i <= |docs|
        invariant matching == InRange(docs[..i], lo, hi)
      {
        assert docs[..i + 1][..i] == docs[..i];
        if InWindow(docs[i], lo, hi) {
          matching := matching + [docs[i]];
        }
        i := i + 1;
      }
      assert docs[..i] == docs;
      found := SortByDate(matching);
      ListingIsSortedSelection(docs, lo, hi);
    }

    /** `save()` of a new document. */
    method Insert(r: Record)
      requires Valid() && r.id !in Ids(docs)
      modifies this
      ensures Valid() && docs == old(docs) + [r]
    {
      docs := docs + [r];
    }

    /** `findByIdAndUpdate(id, patch, { new: true })`: the updated document, or None when no
        document has that id. */
    method FindByIdAndUpdate(id: ObjectId, p: Patch, now: Timestamp) returns (updated: Option<Record>)
      requires Valid()
      modifies this
      ensures Valid()
      ensures id !in Ids(old(docs)) ==> updated.None? && docs == old(docs)
      ensures id in Ids(old(docs)) ==>
        var k := IndexOf(old(docs), id).value;
        updated == Some(ApplyPatch(old(docs)[k], p, now)) && docs == old(docs)[k := updated.value]
    {
      var k := IndexOf(docs, id);
      if k.None? {
        updated := None;
      } else {
        var u := ApplyPatch(docs[k.value], p, now);
        ReplaceAtKeepsIds(docs, k.value, u);
        docs := docs[k.value := u];
        updated := Some(u);
      }
    }

    /** `findByIdAndDelete(id)`: the removed document, or None when no document has that id. */
    method FindByIdAndDelete(id: ObjectId) returns (deleted: Option<Record>)
      requires Valid()
      modifies this
      ensures Valid()
      ensures id !in Ids(old(docs)) ==> deleted.None? && docs == old(docs)
      ensures id in Ids(old(docs)) ==>
        var k := IndexOf(old(docs), id).value;
        deleted == Some(old(docs)[k]) && docs == RemoveAt(old(docs), k)
    {
      var k := IndexOf(docs, id);
      if k.None? {
        deleted := None;
      } else {
        deleted := Some(docs[k.value]);
        RemoveAtKeepsOthers(docs, k.value);
        docs := RemoveAt(docs, k.value);
      }
    }
  }
}
