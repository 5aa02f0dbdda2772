/**
 Node taints (pkg/utils/taints.go) and the three taints the remediation works with.
 */
module Taints {
  import opened Basics

  /** Taint keys; the three named ones are those of the taints declared by the controller. */
  datatype Key =
    | UnschedulableKey // node.kubernetes.io/unschedulable
    | RemediationKey   // medik8s.io/remediation
    | OutOfServiceKey  // node.kubernetes.io/out-of-service
    | OtherKey(name: string)

  datatype Effect = NoSchedule | PreferNoSchedule | NoExecute

  datatype Taint = Taint(key: Key, value: string, effect: Effect, timeAdded: Option<int>)

  const NODE_UNSCHEDULABLE := Taint(UnschedulableKey, "", NoSchedule, None)
  const NODE_NO_EXECUTE := Taint(RemediationKey, "self-node-remediation", NoExecute, None)
  const OUT_OF_SERVICE := Taint(OutOfServiceKey, "nodeshutdown", NoExecute, None)

  /** Two taints match when key and effect agree; value and time do not count. */
  predicate Matches(a: Taint, b: Taint) {
    a.key == b.key && a.effect == b.effect
  }

  predicate Has(taints: seq<Taint>, t: Taint) {
    exists i :: 0 <= i < |taints| && Matches(taints[i], t)
  }

  /** The taints that do not match `t`, in their order. */
  function Without(taints: seq<Taint>, t: Taint): (r: seq<Taint>)
    ensures forall x :: x in r ==> x in taints && !Matches(x, t)
    ensures forall x :: x in taints && !Matches(x, t) ==> x in r
  {
    if taints == [] then []
    else
      var init, last := taints[..|taints| - 1], taints[|taints| - 1];
      assert taints == init + [last];
      if Matches(last, t) then Without(init, t) else Without(init, t) + [last]
  }

  /** Some taint has this key and this effect. */
  predicate Holds(taints: seq<Taint>, key: Key, effect: Effect) {
    exists x :: x in taints && x.key == key && x.effect == effect
  }

  lemma HasMeansHolds(taints: seq<Taint>, t: Taint)
    ensures Has(taints, t) <==> Holds(taints, t.key, t.effect)
  {
    if Has(taints, t) {
      var i :| 0 <= i < |taints| && Matches(taints[i], t);
      assert taints[i] in taints;
    }
    if Holds(taints, t.key, t.effect) {
      var x :| x in taints && x.key == t.key && x.effect == t.effect;
      var i :| 0 <= i < |taints| && taints[i] == x;
      assert Matches(taints[i], t);
    }
  }

  method TaintExists(taints: seq<Taint>, t: Taint) returns (found: bool)
    ensures found <==> Has(taints, t)
    ensures found <==> Holds(taints, t.key, t.effect)
  {
    HasMeansHolds(taints, t);
    for i := 0 to |taints|
      invariant forall j :: 0 <= j < i ==> !Matches(taints[j], t)
    {
      if Matches(taints[i], t) {
        return true;
      }
    }
    return false;
  }

  method DeleteTaint(taints: seq<Taint>, t: Taint) returns (newTaints: seq<Taint>, deleted: bool)
    ensures newTaints == Without(taints, t)
    ensures deleted <==> Holds(taints, t.key, t.effect)
    ensures !Has(newTaints, t)
    ensures forall x :: x in newTaints <==> x in taints && (x.key != t.key || x.effect != t.effect)
  {
    HasMeansHolds(taints, t);
    newTaints, deleted := [], false;
    for i := 0 to |taints|
      invariant newTaints == Without(taints[..i], t)
      invariant deleted <==> Has(taints[..i], t)
    {
      WithoutAppend(taints[..i], taints[i], t);
      HasAppend(taints[..i], taints[i], t);
      assert taints[..i + 1] == taints[..i] + [taints[i]];
      if Matches(t, taints[i]) {
        deleted := true;
      } else {
        newTaints := newTaints + [taints[i]];
      }
    }
    assert taints[..|taints|] == taints;
  }

  lemma WithoutAppend(taints: seq<Taint>, x: Taint, t: Taint)
    ensures Without(taints + [x], t) == if Matches(x, t) then Without(taints, t) else Without(taints, t) + [x]
  {
    assert (taints + [x])[..|taints|] == taints;
  }

  /** The taints this operator adds itself, or makes the node controller add. */
  predicate Owned(t: Taint) {
    Matches(t, NODE_UNSCHEDULABLE) || Matches(t, NODE_NO_EXECUTE) || Matches(t, OUT_OF_SERVICE)
  }

  /** Only the three pairs of key and effect are the operator's; value and time do not matter. */
  lemma OwnedExactly(t: Taint)
    ensures Owned(t) <==> (t.key, t.effect) in {(UnschedulableKey, NoSchedule), (RemediationKey, NoExecute),
                                                (OutOfServiceKey, NoExecute)}
  {
  }

  /** A taint with the key but another effect survives the deletion. */
  lemma OtherEffectSurvives(x: Taint, t: Taint)
    requires x.key != t.key || x.effect != t.effect
    ensures Without([x], t) == [x]
  {
    assert [x][..0] == [];
  }

  predicate HasOwned(taints: seq<Taint>) {
    Has(taints, NODE_UNSCHEDULABLE) || Has(taints, NODE_NO_EXECUTE) || Has(taints, OUT_OF_SERVICE)
  }

  /** Everybody else's taints, in their order. */
  function Foreign(taints: seq<Taint>): seq<Taint> {
    if taints == [] then []
    else
      var init, last := taints[..|taints| - 1], taints[|taints| - 1];
      if Owned(last) then Foreign(init) else Foreign(init) + [last]
  }

  lemma HasAppend(taints: seq<Taint>, x: Taint, t: Taint)
    ensures Has(taints + [x], t) <==> Has(taints, t) || Matches(x, t)
  {
    var all := taints + [x];
    if Matches(x, t) {
      assert all[|taints|] == x;
    }
    if Has(taints, t) {
      var i :| 0 <= i < |taints| && Matches(taints[i], t);
      assert all[i] == taints[i];
    }
  }

  lemma {:induction false} HasWithout(taints: seq<Taint>, t: Taint, u: Taint)
    ensures Has(Without(taints, t), u) <==> Has(taints, u) && !Matches(t, u)
  {
    if taints == [] {
    } else {
      var init, last := taints[..|taints| - 1], taints[|taints| - 1];
      assert taints == init + [last];
      HasWithout(init, t, u);
      HasAppend(init, last, u);
      HasAppend(Without(init, t), last, u);
    }
  }

  lemma ForeignAppend(taints: seq<Taint>, x: Taint)
    ensures Foreign(taints + [x]) == if Owned(x) then Foreign(taints) else Foreign(taints) + [x]
  {
    assert (taints + [x])[..|taints|] == taints;
  }

  /** Removing an owned taint leaves the foreign taints and their order alone. */
  lemma {:induction false} ForeignWithout(taints: seq<Taint>, t: Taint)
    requires Owned(t)
    ensures Foreign(Without(taints, t)) == Foreign(taints)
  {
    if taints == [] {
    } else {
      var init, last := taints[..|taints| - 1], taints[|taints| - 1];
      ForeignWithout(init, t);
      ForeignAppend(Without(init, t), last);
    }
  }

  /** Without an owned taint, the foreign taints are the whole list. */
  lemma {:induction false} ForeignIsAll(taints: seq<Taint>)
    requires !HasOwned(taints)
    ensures Foreign(taints) == taints
  {
    if taints == [] {
    } else {
      var init, last := taints[..|taints| - 1], taints[|taints| - 1];
      assert taints == init + [last];
      HasAppend(init, last, NODE_UNSCHEDULABLE);
      HasAppend(init, last, NODE_NO_EXECUTE);
      HasAppend(init, last, OUT_OF_SERVICE);
      ForeignIsAll(init);
    }
  }
}
