/** The analysis history of placement-app/src/utils/storage.js: a
    most-recent-first list of JSON records kept under one storage key,
    read in full, changed, and written back by every operation. The clock
    readings `Date.now().toString()` and `new Date().toISOString()` are
    parameters. */
module Storage {
  import opened Wrappers

  /** A JSON value, as produced by `JSON.parse`. */
  datatype Json =
    | JNull
    | JBool(b: bool)
    | JNumber(n: int)
    | JString(s: string)
    | JArray(items: seq<Json>)
    | JObject(fields: map<string, Json>)

  /** One history entry: an object's fields by name. */
  type Record = map<string, Json>

  /** `item.id === id` for a string `id`: an entry without an `id` field
      never matches. */
  predicate HasId(entry: Record, id: string) {
    "id" in entry && entry["id"] == JString(id)
  }

  /** `{ id, createdAt, ...analysisData }`: the spread comes last, so every
      field of the data is kept and the generated fields only fill gaps. */
  function NewEntry(data: Record, id: string, createdAt: string): (entry: Record)
    ensures entry.Keys == data.Keys + {"id", "createdAt"}
    ensures forall k :: k in data ==> entry[k] == data[k]
    ensures "id" !in data ==> entry["id"] == JString(id)
    ensures "createdAt" !in data ==> entry["createdAt"] == JString(createdAt)
  {
    map["id" := JString(id), "createdAt" := JString(createdAt)] + data
  }

  /** Entry `i` is the first whose id is `id`. */
  predicate FirstWithId(history: seq<Record>, id: string, i: int) {
    && 0 <= i < |history|
    && HasId(history[i], id)
    && forall j :: 0 <= j < i ==> !HasId(history[j], id)
  }

  /** `history.find(item => item.id === id)`. */
  function FindById(history: seq<Record>, id: string): (found: Option<Record>)
    ensures found.None? <==> forall i :: 0 <= i < |history| ==> !HasId(history[i], id)
    ensures forall i :: FirstWithId(history, id, i) ==> found == Some(history[i])
  {
    if |history| == 0 then None
    else if HasId(history[0], id) then Some(history[0])
    else
      var rest := FindById(history[1..], id);
      assert forall i :: 1 <= i < |history| ==> history[i] == history[1..][i - 1];
      assert forall i :: FirstWithId(history, id, i) ==> i > 0 && FirstWithId(history[1..], id, i - 1);
      rest
  }

  /** The number of entries whose id is `id`. */
  function CountWithId(history: seq<Record>, id: string): (count: nat)
    ensures count <= |history|
  {
    if |history| == 0 then 0
    else (if HasId(history[0], id) then 1 else 0) + CountWithId(history[1..], id)
  }

  /** No entry is counted exactly when no entry has the id. */
  lemma {:induction false} CountWithIdZero(history: seq<Record>, id: string)
    ensures CountWithId(history, id) == 0 <==> forall i :: 0 <= i < |history| ==> !HasId(history[i], id)
    decreases |history|
  {
    if |history| > 0 {
      CountWithIdZero(history[1..], id);
      assert forall i :: 1 <= i < |history| ==> history[i] == history[1..][i - 1];
    }
  }

  /** `history.filter(item => item.id !== id)`. */
  function Without(history: seq<Record>, id: string): (kept: seq<Record>)
    ensures |kept| == |history| - CountWithId(history, id)
  {
    if |history| == 0 then []
    else if HasId(history[0], id) then Without(history[1..], id)
    else [history[0]] + Without(history[1..], id)
  }

  class HistoryStore {
    /** The storage key `placement_analysis_history`; `None` when unset. */
    var stored: Option<seq<Record>>

    constructor()
      ensures stored == None
    {
      stored := None;
    }

    /** `getHistory()`: the stored list, or the empty list when nothing is
        stored. */
    function GetHistory(): (history: seq<Record>)
      reads this
      ensures stored.None? ==> history == []
      ensures stored.Some? ==> history == stored.value
    {
      if stored.Some? then stored.value else []
    }

    /** `saveAnalysis(analysisData)`: the new entry goes to the head of the
        list and is returned. */
    method SaveAnalysis(data: Record, now: string, isoTime: string) returns (entry: Record)
      modifies this
      ensures entry == NewEntry(data, now, isoTime)
      ensures stored == Some([entry] + old(GetHistory()))
      ensures |GetHistory()| == |old(GetHistory())| + 1 && GetHistory()[1..] == old(GetHistory())
    {
      var history := GetHistory();
      entry := map["id" := JString(now), "createdAt" := JString(isoTime)] + data;
      history := [entry] + history;
      stored := Some(history);
    }

    /** `getAnalysisById(id)`. */
    function GetAnalysisById(id: string): (found: Option<Record>)
      reads this
      ensures found.None? <==> forall i :: 0 <= i < |GetHistory()| ==> !HasId(GetHistory()[i], id)
      ensures forall i :: FirstWithId(GetHistory(), id, i) ==> found == Some(GetHistory()[i])
    {
      FindById(GetHistory(), id)
    }

    /** `deleteAnalysis(id)`: the filtered list is written back, even when
        nothing was stored before. */
    method DeleteAnalysis(id: string)
      modifies this
      ensures stored == Some(Without(old(GetHistory()), id))
      ensures |GetHistory()| == |old(GetHistory())| - CountWithId(old(GetHistory()), id)
      ensures GetAnalysisById(id) == None
    {
      var history := GetHistory();
      var filtered := Without(history, id);
      stored := Some(filtered);
      DeleteThenFind(history, id);
    }

    /** `clearHistory()`: the key is removed. */
    method ClearHistory()
      modifies this
      ensures stored == None
      ensures GetHistory() == []
    {
      stored := None;
    }
  }

  // ----- properties -----

  /** A saved entry is found by its own id straight away, even when an older
      entry has the same id, because the new one is at the head. The id is
      the generated one unless the data brings its own. */
  lemma SaveThenFind(history: seq<Record>, data: Record, now: string, isoTime: string, id: string)
    requires HasId(NewEntry(data, now, isoTime), id)
    ensures FindById([NewEntry(data, now, isoTime)] + history, id) == Some(NewEntry(data, now, isoTime))
  {
    assert FirstWithId([NewEntry(data, now, isoTime)] + history, id, 0);
  }

  /** `Without` distributes over concatenation, so the kept entries stay in
      their original order. */
  lemma {:induction false} WithoutAppend(a: seq<Record>, b: seq<Record>, id: string)
    ensures Without(a + b, id) == Without(a, id) + Without(b, id)
    decreases |a|
  {
    if |a| > 0 {
      assert (a + b)[0] == a[0] && (a + b)[1..] == a[1..] + b;
      WithoutAppend(a[1..], b, id);
    } else {
      assert a + b == b;
    }
  }

  /** The kept entries are exactly the entries without that id. */
  lemma {:induction false} WithoutMembers(history: seq<Record>, id: string)
    ensures forall e :: e in Without(history, id) <==> e in history && !HasId(e, id)
    decreases |history|
  {
    if |history| > 0 {
      WithoutMembers(history[1..], id);
      assert history == [history[0]] + history[1..];
    }
  }

  /** An id nobody has leaves the history unchanged. */
  lemma {:induction false} WithoutUnknownId(history: seq<Record>, id: string)
    requires forall i :: 0 <= i < |history| ==> !HasId(history[i], id)
    ensures Without(history, id) == history
    decreases |history|
  {
    if |history| > 0 {
      WithoutUnknownId(history[1..], id);
    }
  }

  /** After deleting an id it can no longer be found. */
  lemma DeleteThenFind(history: seq<Record>, id: string)
    ensures FindById(Without(history, id), id) == None
  {
    var kept := Without(history, id);
    WithoutMembers(history, id);
    forall i | 0 <= i < |kept| ensures !HasId(kept[i], id) {
      assert kept[i] in kept;
    }
  }
}
