/** Derived names of a VirtualCluster (internal/controller/helpers/names.go). */
module Names {
  import opened Text

  datatype DerivedNames = DerivedNames(
    hostNamespace: string, k3kCluster: string, foundationWork: string, instanceWork: string, adminKubeconfig: string)

  const FOUNDATION_SUFFIX := "-foundation"
  const INSTANCE_SUFFIX := "-instance"
  const ADMIN_SUFFIX := "-admin-kubeconfig"

  predicate SlugChar(c: char) {
    'a' <= c <= 'z' || '0' <= c <= '9' || c == '-'
  }

  predicate IsSlug(s: string) {
    forall i :: 0 <= i < |s| ==> SlugChar(s[i])
  }

  /** What is left after a maximal run of characters outside [a-z0-9-]. */
  function SkipRun(s: string): (r: string)
    ensures |r| <= |s|
    ensures s != [] && !SlugChar(s[0]) ==> |r| < |s|
  {
    if s != [] && !SlugChar(s[0]) then SkipRun(s[1..]) else s
  }

  /** Every maximal run of characters outside [a-z0-9-] becomes one '-'. */
  function ReplaceRuns(s: string): (r: string)
    ensures IsSlug(r)
    decreases |s|
  {
    if s == [] then []
    else if SlugChar(s[0]) then [s[0]] + ReplaceRuns(s[1..])
    else ['-'] + ReplaceRuns(SkipRun(s))
  }

  function DnsSlug(value: string): (r: string)
    ensures IsSlug(r)
  {
    Trim(ReplaceRuns(Lower(value)))
  }

  /** strings.Trim(value[:limit], "-") when value is longer than limit. */
  function Truncated(value: string, limit: nat): (r: string)
    ensures |r| <= limit || |r| <= |value| <= limit
    ensures IsSlug(value) ==> IsSlug(r)
  {
    Trim(if |value| <= limit then value else value[..limit])
  }

  function UidPart(uid: string): (r: string)
    ensures |r| <= 8 && (|uid| >= 8 ==> |r| == 8)
  {
    var lower := Lower(uid);
    if |lower| > 8 then lower[..8] else lower
  }

  /** The middle part of the host namespace: only the slug is shortened, never the UID suffix. */
  function HostSlug(namespace: string, name: string, uid: string): (r: string)
    ensures IsSlug(r)
    ensures |r| + |UidPart(uid)| <= 59
  {
    var slug := DnsSlug(namespace + "-" + name);
    var maxSlug := 63 - 3 - 1 - |UidPart(uid)|;
    if |slug| > maxSlug then Trim(slug[..maxSlug]) else slug
  }

  function NamesFor(namespace: string, name: string, uid: string): DerivedNames {
    var part := UidPart(uid);
    var host := "kc-" + HostSlug(namespace, name, uid) + "-" + part;
    DerivedNames(
      host,
      "kc-" + part,
      host + FOUNDATION_SUFFIX,
      host + INSTANCE_SUFFIX,
      "kubecell-" + Truncated(DnsSlug(name), 63) + "-" + part + ADMIN_SUFFIX)
  }

  predicate HasSuffix(s: string, suffix: string) {
    |suffix| <= |s| && s[|s| - |suffix|..] == suffix
  }

  lemma SuffixOf(prefix: string, suffix: string)
    ensures HasSuffix(prefix + suffix, suffix)
  {
  }

  /** Equally long parts in front of the same tail can be read back from the whole string. */
  lemma PartIsReadable(prefixA: string, partA: string, prefixB: string, partB: string, tail: string)
    requires |partA| == |partB|
    ensures prefixA + partA + tail == prefixB + partB + tail ==> partA == partB
  {
    var a, b := prefixA + partA + tail, prefixB + partB + tail;
    if a == b {
      assert |prefixA| == |prefixB|;
      assert partA == a[|prefixA|..|prefixA| + |partA|];
      assert partB == b[|prefixA|..|prefixA| + |partA|];
    }
  }

  lemma AlphabetOfJoin(prefix: string, part: string)
    requires IsSlug(prefix)
    ensures IsSlug(prefix + part) <==> IsSlug(part)
  {
    var h := prefix + part;
    if IsSlug(h) {
      forall i | 0 <= i < |part| ensures SlugChar(part[i]) {
        assert part[i] == h[|prefix| + i];
      }
    }
  }

  lemma HostPrefix(slug: string)
    requires IsSlug(slug)
    ensures IsSlug("kc-" + slug + "-") && |"kc-" + slug + "-"| == |slug| + 4
  {
    var prefix := "kc-" + slug + "-";
    forall i | 0 <= i < |prefix| ensures SlugChar(prefix[i]) {
      if 3 <= i < |prefix| - 1 {
        assert prefix[i] == slug[i - 3];
      }
    }
  }

  /** The host namespace is a DNS label within the 63-octet limit of section 2.3.4 of RFC 1035, it ends
      in the UID part, and its alphabet is right exactly when the UID part's is. */
  lemma HostNamespaceIsLabel(namespace: string, name: string, uid: string)
    ensures |NamesFor(namespace, name, uid).hostNamespace| <= 63
    ensures HasSuffix(NamesFor(namespace, name, uid).hostNamespace, UidPart(uid))
    ensures IsSlug(NamesFor(namespace, name, uid).hostNamespace) <==> IsSlug(UidPart(uid))
  {
    var slug, part := HostSlug(namespace, name, uid), UidPart(uid);
    var prefix := "kc-" + slug + "-";
    HostPrefix(slug);
    AlphabetOfJoin(prefix, part);
    SuffixOf(prefix, part);
  }

  /** Two clusters whose UID parts differ share none of the derived names. */
  lemma DifferentUidsNeverCollide(nsA: string, nameA: string, uidA: string, nsB: string, nameB: string, uidB: string)
    requires |uidA| >= 8 && |uidB| >= 8 && UidPart(uidA) != UidPart(uidB)
    ensures var a, b := NamesFor(nsA, nameA, uidA), NamesFor(nsB, nameB, uidB);
      && a.hostNamespace != b.hostNamespace
      && a.k3kCluster != b.k3kCluster
      && a.foundationWork != b.foundationWork
      && a.instanceWork != b.instanceWork
      && a.adminKubeconfig != b.adminKubeconfig
  {
    var a, b := NamesFor(nsA, nameA, uidA), NamesFor(nsB, nameB, uidB);
    var partA, partB := UidPart(uidA), UidPart(uidB);
    var hostA, hostB := "kc-" + HostSlug(nsA, nameA, uidA) + "-", "kc-" + HostSlug(nsB, nameB, uidB) + "-";
    PartIsReadable(hostA, partA, hostB, partB, FOUNDATION_SUFFIX);
    PartIsReadable(hostA, partA, hostB, partB, INSTANCE_SUFFIX);
    PartIsReadable(hostA, partA, hostB, partB, "");
    assert a.hostNamespace == hostA + partA + "" && b.hostNamespace == hostB + partB + "";
    PartIsReadable("kc-", partA, "kc-", partB, "");
    assert a.k3kCluster == "kc-" + partA + "" && b.k3kCluster == "kc-" + partB + "";
    PartIsReadable("kubecell-" + Truncated(DnsSlug(nameA), 63) + "-", partA,
                   "kubecell-" + Truncated(DnsSlug(nameB), 63) + "-", partB, ADMIN_SUFFIX);
  }

  /** A Foundation Work name is never an Instance Work name, whatever the two clusters are. */
  lemma FoundationIsNotInstance(nsA: string, nameA: string, uidA: string, nsB: string, nameB: string, uidB: string)
    ensures NamesFor(nsA, nameA, uidA).foundationWork != NamesFor(nsB, nameB, uidB).instanceWork
  {
    var f, i := NamesFor(nsA, nameA, uidA).foundationWork, NamesFor(nsB, nameB, uidB).instanceWork;
    assert f[|f| - 1] == 'n' && i[|i| - 1] == 'e';
  }

  /** No derived name is empty, and the two Works of a cluster have different names. */
  lemma NamesAreThere(namespace: string, name: string, uid: string)
    ensures var n := NamesFor(namespace, name, uid);
      n.hostNamespace != "" && n.foundationWork != "" && n.instanceWork != "" && n.foundationWork != n.instanceWork
  {
    FoundationIsNotInstance(namespace, name, uid, namespace, name, uid);
    assert NamesFor(namespace, name, uid).hostNamespace[0] == 'k';
  }

  // ---- names of well-formed inputs ---------------------------------------------------------------

  /** A name that the API server accepts without dashes at its ends: nothing in it needs replacing. */
  predicate Tidy(s: string) {
    s != [] && IsSlug(s) && s[0] != '-' && s[|s| - 1] != '-'
  }

  lemma {:induction false} SlugIsKept(s: string)
    requires IsSlug(s)
    ensures Lower(s) == s && ReplaceRuns(s) == s
  {
    if s != [] {
      SlugIsKept(s[1..]);
      assert s == [s[0]] + s[1..];
    }
  }

  lemma TidyIsKept(s: string)
    requires Tidy(s)
    ensures DnsSlug(s) == s
  {
    SlugIsKept(s);
  }

  lemma TidyJoin(a: string, b: string)
    requires Tidy(a) && Tidy(b)
    ensures Tidy(a + "-" + b)
  {
    var s := a + "-" + b;
    assert s[0] == a[0] && s[|s| - 1] == b[|b| - 1];
  }

  lemma TidySlug(namespace: string, name: string, uid: string)
    requires Tidy(namespace) && Tidy(name) && |namespace| + |name| <= 50
    ensures HostSlug(namespace, name, uid) == namespace + "-" + name
  {
    TidyJoin(namespace, name);
    TidyIsKept(namespace + "-" + name);
  }

  lemma TidyUid(uid: string)
    requires IsSlug(uid) && |uid| > 8
    ensures UidPart(uid) == uid[..8]
  {
    SlugIsKept(uid);
  }

  lemma TidyTruncated(name: string)
    requires Tidy(name) && |name| <= 63
    ensures Truncated(DnsSlug(name), 63) == name
  {
    TidyIsKept(name);
  }

  /** The names of a cluster, where nothing has to be replaced or shortened. */
  lemma NamesAre(namespace: string, name: string, uid: string)
    requires Tidy(namespace) && Tidy(name) && IsSlug(uid) && |uid| > 8 && |namespace| + |name| <= 50
    ensures var n := NamesFor(namespace, name, uid);
      && n.hostNamespace == "kc-" + (namespace + "-" + name) + "-" + uid[..8] && n.k3kCluster == "kc-" + uid[..8]
      && n.foundationWork == n.hostNamespace + "-foundation" && n.instanceWork == n.hostNamespace + "-instance"
      && n.adminKubeconfig == "kubecell-" + name + "-" + uid[..8] + "-admin-kubeconfig"
  {
    TidySlug(namespace, name, uid);
    TidyTruncated(name);
    TidyUid(uid);
  }
}
