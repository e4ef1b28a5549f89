/**
 * Building a keyed mapping from an ordered list of (key, entry) slots by
 * assigning them one after the other, so that a later slot overwrites an
 * earlier one that has the same key. This is the reference meaning of the
 * map literals in the transformation.
 */
module Slots {

  /** The keys that occur in the slots. */
  ghost function KeysOf<V>(slots: seq<(string, V)>): set<string>
  {
    set i | 0 <= i < |slots| :: slots[i].0
  }

  /** The mapping obtained by assigning every slot in order. */
  function Assign<V>(slots: seq<(string, V)>): (m: map<string, V>)
    ensures m.Keys == KeysOf(slots)
    ensures |m| <= |slots|
    ensures slots != [] ==> |m| >= 1
    decreases |slots|
  {
    if slots == [] then map[]
    else
      var init, last := slots[..|slots| - 1], slots[|slots| - 1];
      assert KeysOf(slots) == KeysOf(init) + {last.0} by {
        forall k | k in KeysOf(slots) ensures k in KeysOf(init) + {last.0} {
          var i :| 0 <= i < |slots| && slots[i].0 == k;
          if i < |init| { assert init[i] == slots[i]; }
        }
      }
      Assign(init)[last.0 := last.1]
  }

  /** A slot is the last one carrying its key. */
  ghost predicate IsLastWithKey<V>(slots: seq<(string, V)>, i: int)
  {
    0 <= i < |slots| && forall j :: i < j < |slots| ==> slots[j].0 != slots[i].0
  }

  /** Every key of the mapping takes its entry from the last slot that carries it. */
  lemma {:induction false} LastSlotWins<V>(slots: seq<(string, V)>, i: int)
    requires IsLastWithKey(slots, i)
    ensures slots[i].0 in Assign(slots)
    ensures Assign(slots)[slots[i].0] == slots[i].1
    decreases |slots|
  {
    var init := slots[..|slots| - 1];
    if i < |slots| - 1 {
      forall j | i < j < |init| ensures init[j].0 != init[i].0 {
        assert init[j] == slots[j];
      }
      LastSlotWins(init, i);
    }
  }

  /** No two slots share a key. */
  ghost predicate DistinctKeys<V>(slots: seq<(string, V)>)
  {
    forall i, j :: 0 <= i < j < |slots| ==> slots[i].0 != slots[j].0
  }

  /** Slots with pairwise distinct keys give one entry per slot. */
  lemma {:induction false} AssignSizeWhenDistinct<V>(slots: seq<(string, V)>)
    requires DistinctKeys(slots)
    ensures |Assign(slots)| == |slots|
    decreases |slots|
  {
    if slots != [] {
      var init, last := slots[..|slots| - 1], slots[|slots| - 1];
      assert DistinctKeys(init) by {
        forall i, j | 0 <= i < j < |init| ensures init[i].0 != init[j].0 {
          assert init[i] == slots[i] && init[j] == slots[j];
        }
      }
      AssignSizeWhenDistinct(init);
      assert last.0 !in KeysOf(init) by {
        forall i | 0 <= i < |init| ensures init[i].0 != last.0 {
          assert init[i] == slots[i];
        }
      }
    }
  }

  /** Two slots sharing a key give fewer entries than slots. */
  lemma {:induction false} AssignShrinksOnSharedKey<V>(slots: seq<(string, V)>, i: int, j: int)
    requires 0 <= i < j < |slots| && slots[i].0 == slots[j].0
    ensures |Assign(slots)| < |slots|
    decreases |slots|
  {
    var init, last := slots[..|slots| - 1], slots[|slots| - 1];
    assert init[i] == slots[i];
    if j < |slots| - 1 {
      assert init[j] == slots[j];
      AssignShrinksOnSharedKey(init, i, j);
    } else {
      assert last.0 in KeysOf(init);
    }
  }

  /** The mapping has one entry per slot exactly when no two slots share a key. */
  lemma AssignSizeIffDistinct<V>(slots: seq<(string, V)>)
    ensures |Assign(slots)| == |slots| <==> DistinctKeys(slots)
  {
    if DistinctKeys(slots) {
      AssignSizeWhenDistinct(slots);
    } else {
      var i, j :| 0 <= i < j < |slots| && slots[i].0 == slots[j].0;
      AssignShrinksOnSharedKey(slots, i, j);
    }
  }
}
