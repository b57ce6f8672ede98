/** The optional values, fallible results, bytes and small facts shared by the other modules. */
module Wrappers {

  datatype Option<+T> = None | Some(value: T)

  datatype Result<+R, +E> = Success(value: R) | Failure(error: E)

  type byte = b: nat | b < 256

  /** `left` is what `keeps` picks out of `all`, each element once and in order: element `k` of
      `left` stood at `at[k]`. */
  ghost predicate PickedAt<T(!new)>(all: seq<T>, keeps: T -> bool, left: seq<T>, at: seq<nat>) {
    && |at| == |left|
    && (forall k | 0 <= k < |at| :: at[k] < |all| && left[k] == all[at[k]] && keeps(left[k]))
    && (forall j, k | 0 <= j < k < |at| :: at[j] < at[k])
    && (forall i | 0 <= i < |all| && keeps(all[i]) :: i in at)
  }

  ghost predicate Picked<T(!new)>(all: seq<T>, keeps: T -> bool, left: seq<T>) {
    exists at :: PickedAt(all, keeps, left, at)
  }

  function Moved(at: seq<nat>): (r: seq<nat>)
    ensures |r| == |at| && forall k | 0 <= k < |at| :: r[k] == at[k] + 1
  {
    seq(|at|, k requires 0 <= k < |at| => at[k] + 1)
  }

  lemma MovedHas(at: seq<nat>, i: nat)
    requires i in at
    ensures i + 1 in Moved(at)
  {
    var k :| 0 <= k < |at| && at[k] == i;
    assert Moved(at)[k] == i + 1;
  }

  lemma PickedSkip<T(!new)>(all: seq<T>, keeps: T -> bool, left: seq<T>, at: seq<nat>)
    requires all != [] && !keeps(all[0]) && PickedAt(all[1..], keeps, left, at)
    ensures PickedAt(all, keeps, left, Moved(at))
  {
    forall i | 0 <= i < |all| && keeps(all[i]) ensures i in Moved(at) {
      assert all[1..][i - 1] == all[i];
      MovedHas(at, i - 1);
    }
  }

  lemma PickedKeep<T(!new)>(all: seq<T>, keeps: T -> bool, left: seq<T>, at: seq<nat>)
    requires all != [] && keeps(all[0]) && PickedAt(all[1..], keeps, left, at)
    ensures PickedAt(all, keeps, [all[0]] + left, [0] + Moved(at))
  {
    var next, after := [0] + Moved(at), [all[0]] + left;
    forall k | 0 <= k < |next| ensures next[k] < |all| && after[k] == all[next[k]] && keeps(after[k]) {
      if k > 0 {
        assert next[k] == at[k - 1] + 1 && after[k] == left[k - 1] == all[1..][at[k - 1]];
      }
    }
    forall j, k | 0 <= j < k < |next| ensures next[j] < next[k] {
      assert j > 0 ==> at[j - 1] < at[k - 1];
    }
    forall i | 0 <= i < |all| && keeps(all[i]) ensures i in next {
      assert next[0] == 0;
      if i > 0 {
        assert all[1..][i - 1] == all[i];
        MovedHas(at, i - 1);
      }
    }
  }

  /** One more element in front, kept or not. */
  lemma PickedFirst<T(!new)>(all: seq<T>, keeps: T -> bool, left: seq<T>)
    requires all != [] && Picked(all[1..], keeps, left)
    ensures Picked(all, keeps, (if keeps(all[0]) then [all[0]] else []) + left)
  {
    var at :| PickedAt(all[1..], keeps, left, at);
    var after := (if keeps(all[0]) then [all[0]] else []) + left;
    if keeps(all[0]) {
      PickedKeep(all, keeps, left, at);
      PickedBy(all, keeps, after, [0] + Moved(at));
    } else {
      PickedSkip(all, keeps, left, at);
      assert after == left;
      PickedBy(all, keeps, after, Moved(at));
    }
  }

  lemma PickedBy<T(!new)>(all: seq<T>, keeps: T -> bool, left: seq<T>, at: seq<nat>)
    requires PickedAt(all, keeps, left, at)
    ensures Picked(all, keeps, left)
  {
  }

  lemma PickedNone<T(!new)>(keeps: T -> bool)
    ensures Picked([], keeps, [])
  {
    assert PickedAt([], keeps, [], []);
  }

  lemma SubsetSize<T>(a: set<T>, b: set<T>)
    requires a <= b
    ensures |a| <= |b|
  {
    if a != {} {
      var x :| x in a;
      SubsetSize(a - {x}, b - {x});
    }
  }

  lemma Associates<T>(a: seq<T>, b: seq<T>, c: seq<T>)
    ensures a + b + c == a + (b + c)
  {
  }
}
