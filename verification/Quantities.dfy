/** Resource arithmetic on Pods (internal/controller/helpers/quantities.go). */
module Quantities {
  import opened Api

  /** target[name] += source[name] for every name of source, in any order. */
  method AddResourceList(target: ResourceList, source: ResourceList) returns (r: ResourceList)
    ensures forall k :: k in r <==> k in target || k in source
    ensures forall k :: At(r, k) == At(target, k) + At(source, k)
  {
    r := target;
    var left := source.Keys;
    while left != {}
      invariant left <= source.Keys
      invariant forall k :: k in r <==> k in target || (k in source && k !in left)
      invariant forall k :: k in source && k !in left ==> r[k] == At(target, k) + source[k]
      invariant forall k :: k in target && (k !in source || k in left) ==> r[k] == target[k]
      decreases |left|
    {
      var name :| name in left;
      left := left - {name};
      r := r[name := At(r, name) + source[name]];
    }
  }

  /** left - right per key of left, floored at zero. */
  method SubtractResourceList(minuend: ResourceList, right: ResourceList) returns (r: ResourceList)
    ensures r.Keys == minuend.Keys
    ensures forall k :: k in minuend ==> r[k] == Max(0, minuend[k] - At(right, k))
  {
    r := map[];
    var left := minuend.Keys;
    while left != {}
      invariant left <= minuend.Keys
      invariant r.Keys == minuend.Keys - left
      invariant forall k :: k in r ==> r[k] == Max(0, minuend[k] - At(right, k))
      decreases |left|
    {
      var name :| name in left;
      left := left - {name};
      var value := minuend[name];
      if name in right {
        value := value - right[name];
      }
      r := r[name := if value < 0 then 0 else value];
    }
  }

  // ---- effective requests ----------------------------------------------------------------------

  function SumOf(lists: seq<ResourceList>, k: string): int {
    if lists == [] then 0 else SumOf(lists[..|lists| - 1], k) + At(lists[|lists| - 1], k)
  }

  /** The largest declared amount, if any list declares one. */
  function LargestOf(lists: seq<ResourceList>, k: string): Option<int> {
    if lists == [] then None
    else
      var rest, last := LargestOf(lists[..|lists| - 1], k), lists[|lists| - 1];
      if k !in last then rest
      else if rest.None? || last[k] > rest.value then Some(last[k])
      else rest
  }

  /** The larger of the containers' sum and the largest init container, plus the overhead. */
  function Effective(pod: Pod, k: string): int {
    var regular, initial := SumOf(pod.containers, k), LargestOf(pod.initContainers, k);
    (if initial.Some? then Max(regular, initial.value) else regular) + At(pod.overhead, k)
  }

  lemma {:induction false} LargestIsReached(lists: seq<ResourceList>, k: string)
    ensures LargestOf(lists, k).None? <==> forall i :: 0 <= i < |lists| ==> k !in lists[i]
    ensures LargestOf(lists, k).Some? ==>
      && (forall i :: 0 <= i < |lists| && k in lists[i] ==> lists[i][k] <= LargestOf(lists, k).value)
      && (exists i :: 0 <= i < |lists| && k in lists[i] && lists[i][k] == LargestOf(lists, k).value)
  {
    if lists != [] {
      var init, last := lists[..|lists| - 1], lists[|lists| - 1];
      LargestIsReached(init, k);
      assert forall i :: 0 <= i < |init| ==> init[i] == lists[i];
      if LargestOf(init, k).Some? {
        var i :| 0 <= i < |init| && k in init[i] && init[i][k] == LargestOf(init, k).value;
        assert lists[i][k] == LargestOf(init, k).value;
      }
      if k in last {
        assert lists[|lists| - 1][k] == last[k];
      }
    }
  }

  /** Without the overhead the effective request is the least amount that covers the containers together and each init container
      alone. */
  lemma EffectiveIsLeast(pod: Pod, k: string)
    ensures var bare := Effective(pod, k) - At(pod.overhead, k);
      && bare >= SumOf(pod.containers, k)
      && (forall i :: 0 <= i < |pod.initContainers| && k in pod.initContainers[i] ==> bare >= pod.initContainers[i][k])
      && (bare == SumOf(pod.containers, k)
          || exists i :: 0 <= i < |pod.initContainers| && k in pod.initContainers[i] && bare == pod.initContainers[i][k])
  {
    LargestIsReached(pod.initContainers, k);
  }

  /** Containers add up. */
  lemma OneContainerMore(lists: seq<ResourceList>, list: ResourceList, k: string)
    ensures SumOf([], k) == 0 && SumOf(lists + [list], k) == SumOf(lists, k) + (if k in list then list[k] else 0)
  {
    assert (lists + [list])[..|lists|] == lists;
  }

  method SumContainers(lists: seq<ResourceList>) returns (r: ResourceList)
    ensures forall k :: At(r, k) == SumOf(lists, k)
  {
    r := map[];
    for i := 0 to |lists|
      invariant forall k :: At(r, k) == SumOf(lists[..i], k)
    {
      assert lists[..i + 1][..i] == lists[..i];
      r := AddResourceList(r, lists[i]);
    }
    assert lists[..|lists|] == lists;
  }

  method LargestInit(lists: seq<ResourceList>) returns (r: ResourceList)
    ensures forall k :: LargestOf(lists, k) == if k in r then Some(r[k]) else None
  {
    r := map[];
    for i := 0 to |lists|
      invariant forall k :: LargestOf(lists[..i], k) == if k in r then Some(r[k]) else None
    {
      assert lists[..i + 1][..i] == lists[..i];
      var left := lists[i].Keys;
      while left != {}
        invariant left <= lists[i].Keys
        invariant forall k :: LargestOf(if k in left then lists[..i] else lists[..i + 1], k) == if k in r then Some(r[k]) else None
        decreases |left|
      {
        var name :| name in left;
        left := left - {name};
        if name !in r || lists[i][name] > r[name] {
          r := r[name := lists[i][name]];
        }
      }
    }
    assert lists[..|lists|] == lists;
  }

  method EffectivePodRequests(pod: Pod) returns (r: ResourceList)
    ensures forall k :: At(r, k) == Effective(pod, k)
  {
    var regular := SumContainers(pod.containers);
    var initial := LargestInit(pod.initContainers);
    r := regular;
    var left := initial.Keys;
    while left != {}
      invariant left <= initial.Keys
      invariant forall k :: At(r, k) == if k in initial && k !in left then Max(At(regular, k), initial[k]) else At(regular, k)
      decreases |left|
    {
      var name :| name in left;
      left := left - {name};
      if initial[name] > At(r, name) {
        r := r[name := initial[name]];
      }
    }
    r := AddResourceList(r, pod.overhead);
  }
}
