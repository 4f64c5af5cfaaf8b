/** The ship gate of placement-app/src/pages/Ship.jsx: the page reads the
    stored test checklist and unlocks once at least ten items have passed. */
module Ship {
  import opened Wrappers
  import opened TestChecklist

  /** The lock decision for a parsed checklist: `passed < 10`. */
  predicate LockedFor(m: map<string, bool>) {
    PassedCount(m) < 10
  }

  class ShipPage {
    var isLocked: bool
    var passedCount: nat

    /** The initial state: locked, nothing passed. */
    constructor()
      ensures isLocked && passedCount == 0
    {
      isLocked := true;
      passedCount := 0;
    }

    /** `checkShipStatus()` run against the stored checklist `saved`. A parse
        failure locks the page but leaves the shown count as it was. */
    method CheckShipStatus(saved: Stored<map<string, bool>>)
      modifies this
      ensures saved.Parsed? ==> passedCount == PassedCount(saved.value) && isLocked == LockedFor(saved.value)
      ensures saved.Missing? ==> isLocked && passedCount == 0
      ensures saved.Malformed? ==> isLocked && passedCount == old(passedCount)
    {
      match saved {
        case Parsed(checklist) =>
          var passed := PassedCount(checklist);
          passedCount := passed;
          isLocked := passed < 10;
        case Missing =>
          isLocked := true;
          passedCount := 0;
        case Malformed =>
          isLocked := true;
      }
    }
  }

  /** The gate (count not below ten) agrees with the checklist page's
      `allPassed` (count exactly ten) on every checklist keyed by test ids,
      and so unlocks exactly when every test item is marked passed. */
  lemma ShipGateAgreesWithChecklist(m: map<string, bool>)
    requires forall k :: k in m ==> k in TestIds
    ensures !LockedFor(m) <==> AllPassed(m)
    ensures !LockedFor(m) <==> forall id :: id in TestIds ==> id in m && m[id]
  {
    AllPassedIff(m);
  }

  /** Without the key-set restriction the two pages disagree: a checklist
      with eleven passed keys unlocks shipping but is not `allPassed`. */
  lemma ShipGateWiderThanChecklist()
    ensures exists m: map<string, bool> :: !LockedFor(m) && !AllPassed(m)
  {
    var m := map k | k in TestIds + ["extra"] :: true;
    var ids := set id | id in TestIds;
    TestIdCount();
    assert "extra" !in ids by {
      forall i | 0 <= i < |TestIds| ensures TestIds[i] != "extra" {
        assert |TestIds[i]| >= 13;
      }
    }
    assert PassedKeys(m) == ids + {"extra"};
    assert !LockedFor(m) && !AllPassed(m);
  }
}
