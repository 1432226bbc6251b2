/** Status conditions (internal/controller/helpers/conditions.go). */
module Conditions {
  import opened Api

  /** The first condition of a kind. */
  function Find(conditions: seq<Condition>, kind: string): Option<Condition> {
    if conditions == [] then None
    else if conditions[0].kind == kind then Some(conditions[0])
    else Find(conditions[1..], kind)
  }

  predicate IsTrue(conditions: seq<Condition>, kind: string) {
    Find(conditions, kind).Some? && Find(conditions, kind).value.status
  }

  /** The stored form of a new condition: its transition time moves only when the status does. */
  function Stamp(old_: Option<Condition>, desired: Condition, now: int): Condition {
    var stamped := if desired.transitionTime == 0 then desired.(transitionTime := now) else desired;
    if old_.Some? && old_.value.status == desired.status then stamped.(transitionTime := old_.value.transitionTime) else stamped
  }

  function Set(conditions: seq<Condition>, desired: Condition, now: int): seq<Condition> {
    if conditions == [] then [Stamp(None, desired, now)]
    else if conditions[0].kind == desired.kind then [Stamp(Some(conditions[0]), desired, now)] + conditions[1..]
    else [conditions[0]] + Set(conditions[1..], desired, now)
  }

  lemma {:induction false} SetActsAt(conditions: seq<Condition>, desired: Condition, now: int, i: nat)
    requires i <= |conditions|
    requires forall j :: 0 <= j < i ==> conditions[j].kind != desired.kind
    requires i < |conditions| ==> conditions[i].kind == desired.kind
    ensures Set(conditions, desired, now) ==
      if i < |conditions| then conditions[i := Stamp(Some(conditions[i]), desired, now)]
      else conditions + [Stamp(None, desired, now)]
  {
    if i > 0 {
      SetActsAt(conditions[1..], desired, now, i - 1);
    }
  }

  /** Overwrites the first condition of the kind in place, or appends. */
  method SetCondition(conditions: seq<Condition>, desired: Condition, now: int) returns (r: seq<Condition>)
    ensures r == Set(conditions, desired, now)
    ensures forall kind :: kind != desired.kind ==> Find(r, kind) == Find(conditions, kind)
    ensures var was, is_ := Find(conditions, desired.kind), Find(r, desired.kind);
      && is_.Some? && is_.value.status == desired.status && is_.value.reason == desired.reason
      && is_.value.transitionTime == (
        if was.Some? && was.value.status == desired.status then was.value.transitionTime
        else if desired.transitionTime == 0 then now else desired.transitionTime)
  {
    forall kind {
      SetIsSeen(conditions, desired, now, kind);
    }
    var stamped := if desired.transitionTime == 0 then desired.(transitionTime := now) else desired;
    for i := 0 to |conditions|
      invariant forall j :: 0 <= j < i ==> conditions[j].kind != desired.kind
    {
      if conditions[i].kind == desired.kind {
        if conditions[i].status == desired.status {
          stamped := stamped.(transitionTime := conditions[i].transitionTime);
        }
        SetActsAt(conditions, desired, now, i);
        return conditions[i := stamped];
      }
    }
    SetActsAt(conditions, desired, now, |conditions|);
    r := conditions + [stamped];
  }

  /** Setting a condition is what a later lookup of its kind sees, and no other kind changes. */
  lemma {:induction false} SetIsSeen(conditions: seq<Condition>, desired: Condition, now: int, kind: string)
    ensures Find(Set(conditions, desired, now), kind) ==
      if kind == desired.kind then Some(Stamp(Find(conditions, kind), desired, now)) else Find(conditions, kind)
  {
    if conditions != [] {
      if conditions[0].kind != desired.kind {
        SetIsSeen(conditions[1..], desired, now, kind);
      }
    }
  }
}
