/** Label selection among all the Shops of one namespace. */
module Labels {
  import opened Names

  type LabelSet = map<string, string>

  const INSTANCE := "app.kubernetes.io/instance"
  const COMPONENT := "app.kubernetes.io/component"

  function LabelsFor(shop: string): LabelSet
  {
    map["app.kubernetes.io/name" := "shop", INSTANCE := shop, "app.kubernetes.io/managed-by" := "shop-operator"]
  }

  function LabelsForComponent(shop: string, component: string): LabelSet
  {
    LabelsFor(shop)[COMPONENT := component]
  }

  /** An equality selector selects what carries all of its labels. */
  predicate Selects(selector: LabelSet, labels: LabelSet)
  {
    forall k | k in selector :: k in labels && labels[k] == selector[k]
  }

  /** matchLabels together with one "In" expression. */
  predicate SelectsIn(selector: LabelSet, key: string, values: seq<string>, labels: LabelSet)
  {
    Selects(selector, labels) && key in labels && labels[key] in values
  }

  /** The Service of (X, m) selects the pods of the Deployment of (Y, n) exactly
      when they are the same Shop and the same microservice. */
  lemma ServiceSelection(x: string, m: string, y: string, n: string)
    ensures Selects(LabelsForComponent(x, m), LabelsForComponent(y, n)) <==> x == y && m == n
  {
    var selector, labels := LabelsForComponent(x, m), LabelsForComponent(y, n);
    assert INSTANCE in selector && selector[INSTANCE] == x && labels[INSTANCE] == y;
    assert COMPONENT in selector && selector[COMPONENT] == m && labels[COMPONENT] == n;
    if x == y && m == n {
      assert selector == labels;
    }
  }

  /** A ServiceMonitor selects exactly its own Shop's metrics Services. */
  lemma MonitorSelection(x: string, components: seq<string>, y: string, n: string)
    ensures SelectsIn(map[INSTANCE := x], COMPONENT, components, LabelsForComponent(y, n)) <==>
              x == y && n in components
  {
    var labels := LabelsForComponent(y, n);
    assert INSTANCE in labels && labels[INSTANCE] == y && COMPONENT in labels && labels[COMPONENT] == n;
    assert INSTANCE in map[INSTANCE := x];
  }

  const SHOP_LABEL := "shop"

  /** The labels of an alert raised by Shop X's own rules. */
  function AlertLabels(shop: string, severity: string): LabelSet
  {
    map["severity" := severity, SHOP_LABEL := shop]
  }

  /** A route matches an alert on its one matcher, and delivers through one Secret. */
  datatype Route = Route(matchLabel: string, matchValue: string, receiver: string, secretName: string,
      secretKey: string)

  function RouteFor(shop: string): Route
  {
    Route(SHOP_LABEL, shop, "discord-" + ResourceName(shop), WebhookSecretName(DiscordName(shop)), "url")
  }

  predicate RouteMatches(route: Route, alert: LabelSet)
  {
    route.matchLabel in alert && alert[route.matchLabel] == route.matchValue
  }

  /** An alert from Shop X's rules matches the route of X and of no other Shop, and
      the receivers and Secrets of different Shops are different. */
  lemma AlertRoutingIsExact(x: string, y: string, severity: string)
    ensures RouteMatches(RouteFor(y), AlertLabels(x, severity)) <==> x == y
    ensures RouteFor(x).secretName == NameOf(x, WebhookSecret) && RouteFor(x).secretKey == "url"
    ensures RouteFor(x).secretName == RouteFor(y).secretName <==> x == y
    ensures RouteFor(x).receiver == RouteFor(y).receiver <==> x == y
  {
    ChildNamesAreCollisionFree(x, WebhookSecret, y, WebhookSecret);
    var alert := AlertLabels(x, severity);
    assert SHOP_LABEL in alert && alert[SHOP_LABEL] == x;
    if RouteFor(x).receiver == RouteFor(y).receiver {
      assert RouteFor(x).receiver[13..] == x && RouteFor(y).receiver[13..] == y;
    }
  }
}
