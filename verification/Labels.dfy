/** Ownership labels (internal/controller/helpers/labels.go). */
module Labels {
  /** The label keys of KubeCell; `Other` stands for every other key. */
  datatype LabelKey = ManagedBy | CellName | ClusterName | ClusterNamespace | ClusterUid | ExecutionMode | ProfileHash | Other(text: string)

  type LabelMap = map<LabelKey, string>

  const KUBECELL := "kubecell"
  const SHARED := "shared-virtual-kubelet"

  function Text(key: LabelKey): string {
    match key
    case ManagedBy => "app.kubernetes.io/managed-by"
    case CellName => "kubecell.io/cell-name"
    case ClusterName => "kubecell.io/virtual-cluster-name"
    case ClusterNamespace => "kubecell.io/virtual-cluster-namespace"
    case ClusterUid => "kubecell.io/virtual-cluster-uid"
    case ExecutionMode => "kubecell.io/execution-mode"
    case ProfileHash => "kubecell.io/profile-hash"
    case Other(text) => text
  }

  /** KubeCell's keys are told apart by their texts, so that a map over keys is a map over texts. */
  lemma KeysAreDistinct(a: LabelKey, b: LabelKey)
    requires !a.Other? && !b.Other? && Text(a) == Text(b)
    ensures a == b
  {
    assert Text(ManagedBy)[0] == 'a';
    assert Text(CellName)[12] == 'c' && Text(ExecutionMode)[12] == 'e' && Text(ProfileHash)[12] == 'p';
    assert Text(ClusterName)[12] == Text(ClusterNamespace)[12] == Text(ClusterUid)[12] == 'v';
    assert |Text(ClusterName)| == 32 && |Text(ClusterNamespace)| == 37 && |Text(ClusterUid)| == 31;
  }

  function Get(labels: LabelMap, key: LabelKey): string {
    if key in labels then labels[key] else ""
  }

  function OwnedHostLabels(cell: string, namespace: string, name: string, uid: string, profileHash: string): LabelMap {
    map[ManagedBy := KUBECELL, CellName := cell, ClusterName := name, ClusterNamespace := namespace,
        ClusterUid := uid, ExecutionMode := SHARED, ProfileHash := profileHash]
  }

  predicate MatchesOwnedHostLabels(labels: LabelMap, cell: string, namespace: string, name: string, uid: string) {
    && Get(labels, ManagedBy) == KUBECELL
    && Get(labels, CellName) == cell
    && Get(labels, ClusterNamespace) == namespace
    && Get(labels, ClusterName) == name
    && Get(labels, ClusterUid) == uid
    && Get(labels, ExecutionMode) == SHARED
  }

  /** Labels applied over any others match the identity they were made for, and no other one. */
  lemma LabelsIdentifyTheOwner(
      others: LabelMap, cell: string, namespace: string, name: string, uid: string, profileHash: string,
      cell': string, namespace': string, name': string, uid': string)
    ensures MatchesOwnedHostLabels(others + OwnedHostLabels(cell, namespace, name, uid, profileHash), cell', namespace', name', uid')
      <==> cell == cell' && namespace == namespace' && name == name' && uid == uid'
    ensures Get(others + OwnedHostLabels(cell, namespace, name, uid, profileHash), ClusterUid) == uid
  {
    var owned := OwnedHostLabels(cell, namespace, name, uid, profileHash);
    assert forall k :: k in owned ==> Get(others + owned, k) == owned[k];
  }
}
