/** Which objects select which, for the objects as the Shop controller makes them,
    among any Shops that share a namespace. */
module ShopSelection {
  import opened Names
  import opened Labels
  import opened MetricsScope
  import opened Regex
  import opened ShopModel

  /** A Shop's Service sends traffic to the pods of its own Deployment of the same
      microservice and to no other pods. */
  lemma ServicesReachOwnPods(cfg: Config, x: Shop, m: Microservice, was1: Object, y: Shop, n: Microservice,
                             env: seq<EnvVar>, was2: Object)
    ensures Selects(MadeService(x, m, was1).body.target, MadeDeployment(cfg, y, n, env, was2).body.podLabels) <==>
              x.name == y.name && m.name == n.name
  {
    ServiceSelection(x.name, m.name, y.name, n.name);
  }

  lemma {:induction false} MetricNamesAre(services: seq<Microservice>, name: string)
    ensures name in MetricNames(services) <==>
              exists i :: 0 <= i < |services| && services[i].hasMetrics && services[i].name == name
    decreases |services|
  {
    if services != [] {
      MetricNamesAre(services[1..], name);
      assert forall i | 0 < i < |services| :: services[i] == services[1..][i - 1];
      assert name in MetricNames(services) <==>
          (services[0].hasMetrics && services[0].name == name) || name in MetricNames(services[1..]);
    }
  }

  /** A Shop's ServiceMonitor scrapes a Service exactly when that Service is the Shop's
      own and fronts a microservice that exposes metrics. */
  lemma MonitorsReachOwnServices(cfg: Config, x: Shop, y: Shop, m: Microservice, was: Object)
    ensures var monitor := MadeMonitor(cfg, x).body;
            SelectsIn(monitor.selector, monitor.component, monitor.components, MadeService(y, m, was).labels) <==>
              x.name == y.name &&
              exists i :: 0 <= i < |cfg.services| && cfg.services[i].hasMetrics && cfg.services[i].name == m.name
  {
    MonitorSelection(x.name, MetricNames(cfg.services), y.name, m.name);
    MetricNamesAre(cfg.services, m.name);
  }

  /** Every alert that a Shop's rules raise is matched by the routing object of that
      Shop and of no other. */
  lemma AlertsReachOwnRoute(x: Shop, y: Shop, j: nat)
    requires j < |MadeAlerts(x).body.rules|
    ensures RouteMatches(MadeRouting(y).body.route, MadeAlerts(x).body.rules[j].labels) <==> x.name == y.name
    ensures MadeRouting(y).body.route.secretName == NameOf(y.name, WebhookSecret)
  {
    AlertRoutingIsExact(x.name, y.name, "warning");
    AlertRoutingIsExact(x.name, y.name, "critical");
  }

  /** Which pods an alert's expression ranges over: those of one namespace that the metrics
      scope of one Shop reaches. */
  ghost predicate RangesOver(ns: string, shop: string, podNs: string, pod: Pod)
  {
    ns == podNs && InScope(BACKENDS, shop, pod)
  }

  /** The rules and the dashboard of a Shop range over the pods of its own namespace and
      scope; there is one warning and one critical alert. */
  lemma AlertsRangeOverOwnScope(x: Shop, j: nat, podNs: string, pod: Pod)
    requires j < |MadeAlerts(x).body.rules| && Tidy(BACKENDS, pod)
    ensures |MadeAlerts(x).body.rules| == 2
    ensures var rule := MadeAlerts(x).body.rules[j];
            && rule.labels == map["severity" := if j == 0 then "warning" else "critical", "shop" := x.name]
            && (RangesOver(rule.scopeNs, rule.scopeShop, podNs, pod) <==>
                  var stem := if pod.JobPod? then ResourceName(x.name) else x.name;
                  podNs == x.ns &&
                  ((DotLike(stem, pod.shop) && pod.service in BACKENDS) || DotShadowed(BACKENDS, stem, pod.shop)))
    ensures MadeDashboard(x).body.ns == x.ns && MadeDashboard(x).body.shop == x.name
  {
    TwoAlerts(x);
    BackendScope(x.name, pod);
  }

  lemma TwoAlerts(x: Shop)
    ensures var rules := MadeAlerts(x).body.rules;
            && |rules| == 2
            && (forall j | 0 <= j < 2 :: rules[j].scopeNs == x.ns && rules[j].scopeShop == x.name)
            && rules[0].labels == map["severity" := "warning", "shop" := x.name]
            && rules[1].labels == map["severity" := "critical", "shop" := x.name]
  {
  }
}
