/** The pre-ship test checklist of placement-app/src/pages/TestChecklist.jsx:
    a map from test id to a pass flag, kept in one storage key and replaced
    as a whole on every toggle or reset. */
module TestChecklist {
  import opened Wrappers

  /** The ids of `TEST_ITEMS`, in display order. */
  const TestIds: seq<string> := [
    "jd-validation", "short-jd-warning", "skills-extraction", "round-mapping",
    "score-calculation", "skill-toggles", "persist-refresh", "history-storage",
    "export-buttons", "no-console-errors"
  ]

  /** The keys whose flag is truthy. */
  function PassedKeys(m: map<string, bool>): set<string> {
    set k | k in m && m[k]
  }

  /** `Object.values(checklist).filter(Boolean).length`. */
  function PassedCount(m: map<string, bool>): (count: nat)
    ensures count <= |m|
    ensures count == 0 <==> forall k :: k in m ==> !m[k]
  {
    SubsetCard(PassedKeys(m), m.Keys);
    assert forall k :: k in m && m[k] ==> k in PassedKeys(m);
    |PassedKeys(m)|
  }

  /** `passedCount === totalCount`, the total being the ten test items. */
  predicate AllPassed(m: map<string, bool>)
    ensures AllPassed(m) ==> |m| >= 10
  {
    PassedCount(m) == |TestIds|
  }

  /** The map `toggleItem(id)` saves: `id` set to the negation of its
      truthiness, an absent id counting as false. */
  function Toggled(m: map<string, bool>, id: string): (r: map<string, bool>)
    ensures id in r && r[id] == !(id in m && m[id])
    ensures forall k :: k != id ==> (k in r <==> k in m)
    ensures forall k :: k in m && k != id ==> r[k] == m[k]
  {
    m[id := !(id in m && m[id])]
  }

  // ----- the page -----

  class ChecklistPage {
    /** The React state `checklist`. */
    var checklist: map<string, bool>
    /** The storage key `placement_test_checklist`. */
    var saved: Stored<map<string, bool>>

    /** Mounting runs `loadChecklist`: a parsed map is adopted; a missing or
        unreadable one leaves the initial empty map. */
    constructor(stored: Stored<map<string, bool>>)
      ensures saved == stored
      ensures checklist == if stored.Parsed? then stored.value else map[]
    {
      saved := stored;
      checklist := if stored.Parsed? then stored.value else map[];
    }

    /** `saveChecklist(newChecklist)`: the storage write comes first, so a
        write that throws leaves both the storage and the state as they were. */
    method SaveChecklist(newChecklist: map<string, bool>, writeOk: bool)
      modifies this
      ensures writeOk ==> saved == Parsed(newChecklist) && checklist == newChecklist
      ensures !writeOk ==> saved == old(saved) && checklist == old(checklist)
    {
      if writeOk {
        saved := Parsed(newChecklist);
        checklist := newChecklist;
      }
    }

    /** `toggleItem(id)`. */
    method ToggleItem(id: string, writeOk: bool)
      modifies this
      ensures writeOk ==> saved == Parsed(Toggled(old(checklist), id))
      ensures checklist == if writeOk then Toggled(old(checklist), id) else old(checklist)
      ensures !writeOk ==> saved == old(saved)
    {
      var updated := checklist[id := !(id in checklist && checklist[id])];
      SaveChecklist(updated, writeOk);
    }

    /** `resetChecklist()`; `confirmed` is the answer to `window.confirm`. */
    method ResetChecklist(confirmed: bool, writeOk: bool)
      modifies this
      ensures confirmed && writeOk ==> checklist == map[] && saved == Parsed(map[])
      ensures !(confirmed && writeOk) ==> checklist == old(checklist) && saved == old(saved)
    {
      if confirmed {
        SaveChecklist(map[], writeOk);
      }
    }
  }

  // ----- properties -----

  /** A toggle moves the passed count by exactly one, up when the item was
      not passed and down when it was. */
  lemma ToggleCount(m: map<string, bool>, id: string)
    ensures PassedCount(Toggled(m, id)) ==
            if id in m && m[id] then PassedCount(m) - 1 else PassedCount(m) + 1
  {
    var t := Toggled(m, id);
    if id in m && m[id] {
      assert PassedKeys(t) == PassedKeys(m) - {id};
    } else {
      assert PassedKeys(t) == PassedKeys(m) + {id};
    }
  }

  /** Toggling the same item twice restores the count, and restores the map
      itself when the item was already present. */
  lemma ToggleTwice(m: map<string, bool>, id: string)
    ensures PassedCount(Toggled(Toggled(m, id), id)) == PassedCount(m)
    ensures id in m ==> Toggled(Toggled(m, id), id) == m
    ensures id !in m ==> Toggled(Toggled(m, id), id) == m[id := false]
  {
    ToggleCount(m, id);
    ToggleCount(Toggled(m, id), id);
  }

  /** After a confirmed reset nothing has passed. */
  lemma ResetNothingPassed()
    ensures PassedCount(map[]) == 0
    ensures !AllPassed(map[])
  {
    assert PassedKeys(map[]) == {};
  }

  /** A subset is never larger than its superset. */
  lemma {:induction false} SubsetCard<T>(a: set<T>, b: set<T>)
    requires a <= b
    ensures |a| <= |b|
    ensures |a| == |b| ==> a == b
    decreases |b|
  {
    if a != {} {
      var x :| x in a;
      SubsetCard(a - {x}, b - {x});
      assert a == (a - {x}) + {x} && b == (b - {x}) + {x};
    } else if |b| == 0 {
    } else {
      var y :| y in b;
      assert y !in a;
    }
  }

  /** No two positions of `xs` hold the same value. */
  ghost predicate Distinct<T>(xs: seq<T>) {
    forall i, j :: 0 <= i < j < |xs| ==> xs[i] != xs[j]
  }

  /** A sequence without repetitions has as many elements as its set. */
  lemma {:induction false} DistinctCard<T>(xs: seq<T>)
    requires Distinct(xs)
    ensures |set x | x in xs| == |xs|
    decreases |xs|
  {
    if |xs| > 0 {
      var init := xs[..|xs| - 1];
      assert Distinct(init);
      DistinctCard(init);
      assert (set x | x in xs) == (set x | x in init) + {xs[|xs| - 1]};
      assert xs[|xs| - 1] !in init;
    }
  }

  /** The ten test ids are distinct: they differ in length or in one of
      their first two characters. */
  lemma TestIdCount()
    ensures |set id | id in TestIds| == |TestIds| == 10
  {
    var t := TestIds;
    assert |t[0]| == 13 && t[0][0] == 'j';
    assert |t[1]| == 16;
    assert |t[2]| == 17 && t[2][0] == 's' && t[2][1] == 'k';
    assert |t[3]| == 13 && t[3][0] == 'r';
    assert |t[4]| == 17 && t[4][0] == 's' && t[4][1] == 'c';
    assert |t[5]| == 13 && t[5][0] == 's';
    assert |t[6]| == 15 && t[6][0] == 'p';
    assert |t[7]| == 15 && t[7][0] == 'h';
    assert |t[8]| == 14;
    assert |t[9]| == 17 && t[9][0] == 'n';
    assert Distinct(t);
    DistinctCard(t);
  }

  /** For a map whose keys are test ids, at most ten items pass, and all
      pass exactly when every test id is present and true. */
  lemma AllPassedIff(m: map<string, bool>)
    requires forall k :: k in m ==> k in TestIds
    ensures PassedCount(m) <= 10
    ensures AllPassed(m) <==> forall id :: id in TestIds ==> id in m && m[id]
  {
    var ids := set id | id in TestIds;
    TestIdCount();
    SubsetCard(PassedKeys(m), ids);
    if forall id :: id in TestIds ==> id in m && m[id] {
      assert ids <= PassedKeys(m);
      assert PassedKeys(m) == ids;
    }
    if AllPassed(m) {
      assert PassedKeys(m) == ids;
      forall id | id in TestIds
        ensures id in m && m[id]
      {
        assert id in ids;
      }
    }
  }
}
