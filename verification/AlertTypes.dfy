/** Values shared by the alerting controllers: source rule groups, the
    Prometheus rules rendered from them and the PrometheusRule objects. */
module AlertTypes {
  import opened Text

  type Labels = map<string, string>

  /** k8s.io/apimachinery intstr.IntOrString */
  datatype IntOrString = IntVal(n: int) | StrVal(s: string) {
    function String(): string {
      match this
      case IntVal(n) => Itoa(n)
      case StrVal(s) => s
    }
  }

  /** One PromQL label matcher to be injected into an expression. */
  datatype Matcher = Matcher(kind: string, name: string, value: string)

  /** A user-written alerting rule. A nil label or annotation map is the empty map.
      `selectors` is what ParseGlobalRuleEnforceMatchers extracts; only global rules have any. */
  datatype SourceRule = SourceRule(
    alert: string, expr: IntOrString, duration: string, severity: string,
    labels: Labels, annotations: Labels, disable: bool, selectors: seq<Matcher>)

  /** A RuleGroup, ClusterRuleGroup or GlobalRuleGroup object. `enabled` says whether its metadata
      carries the label alerting.kubesphere.io/enable with value true. */
  datatype SourceGroup = SourceGroup(
    name: string, enabled: bool, interval: string, strategy: string, rules: seq<SourceRule>)

  datatype PromRule = PromRule(
    alert: string, duration: string, expr: IntOrString, labels: Labels, annotations: Labels)

  datatype RuleGroup = RuleGroup(name: string, interval: string, strategy: string, rules: seq<PromRule>)

  datatype OwnerReference = OwnerReference(apiVersion: string, kind: string, name: string, uid: string)

  /** A PrometheusRule object; `groups` is its spec. */
  datatype PrometheusRule = PrometheusRule(
    groups: seq<RuleGroup>, labels: Labels, owners: seq<OwnerReference>)

  datatype ObjectKey = ObjectKey(namespace: string, name: string)

  /** Which of the three controllers is meant, and for which namespace. */
  datatype Level = NamespaceLevel(namespace: string) | ClusterLevel | GlobalLevel

  /** yaml.Marshal, seen only through the length of its output; None is a marshalling error. */
  type Marshal = RuleGroup -> Option<nat>

  /** Injects matchers into a PromQL expression; None is a parse or injection error. */
  type Enforcer = (seq<Matcher>, string) -> Option<string>
}
