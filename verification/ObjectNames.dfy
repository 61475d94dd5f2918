/** Names of the generated PrometheusRule objects. */
module ObjectNames {
  import opened Text
  import opened AlertTypes

  const MONITORING_NAMESPACE := "kubesphere-monitoring-system"

  function NamePrefix(level: Level): string {
    match level
    case NamespaceLevel(ns) => "alertrules-ns-" + ns + "-"
    case ClusterLevel => "alertrules-cl-"
    case GlobalLevel => "alertrules-gl-"
  }

  function Name(level: Level, i: nat): string {
    NamePrefix(level) + NatToString(i)
  }

  function Key(level: Level, i: nat): ObjectKey {
    ObjectKey(MONITORING_NAMESPACE, Name(level, i))
  }

  /** The last separator decides: text after it contains none. */
  lemma {:induction false} LastSeparator(a: string, d: string, b: string, e: string, sep: char)
    requires a + [sep] + d == b + [sep] + e
    requires Free(d, sep) && Free(e, sep)
    ensures a == b && d == e
  {
    var s := a + [sep] + d;
    assert s[|a|] == sep && s[|b|] == sep;
    assert |a| == |b|;
    assert a == s[..|a|] && b == s[..|b|] && d == s[|a| + 1..] && e == s[|b| + 1..];
  }

  function Tag(level: Level): char {
    match level
    case NamespaceLevel(_) => 'n'
    case ClusterLevel => 'c'
    case GlobalLevel => 'g'
  }

  /** What follows the fixed 14 characters of a name. */
  function Rest(level: Level, i: nat): string {
    if level.NamespaceLevel? then level.namespace + "-" + NatToString(i) else NatToString(i)
  }

  lemma NameShape(level: Level, i: nat)
    ensures |Name(level, i)| >= 14
    ensures Name(level, i)[11] == Tag(level) && Name(level, i)[14..] == Rest(level, i)
  {
    var head := if level.NamespaceLevel? then "alertrules-ns-" else if level.ClusterLevel? then "alertrules-cl-" else "alertrules-gl-";
    assert |head| == 14 && head[11] == Tag(level);
    assert Name(level, i) == head + Rest(level, i);
  }

  /** No two (level, namespace, index) triples share a name, whatever hyphens and digits the namespace holds. */
  lemma NamesInjective(l: Level, i: nat, l': Level, i': nat)
    requires Name(l, i) == Name(l', i')
    ensures l == l' && i == i'
  {
    NameShape(l, i);
    NameShape(l', i');
    if l.NamespaceLevel? {
      LastSeparator(l.namespace, NatToString(i), l'.namespace, NatToString(i'), '-');
    }
    NatToStringInjective(i, i');
  }
}
