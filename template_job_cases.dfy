/**
 * The rule's behaviour on the dashboards of its test table, each case a
 * lemma that fixes the exact result. Expected messages are written with the
 * title and the offending value spliced in where the rule formats them.
 */
module TemplateJobCases {
  import opened Lint
  import opened TemplateVars
  import opened TemplateJobRule
  import opened TemplateJobProperties

  const PrometheusSelector := Template(templateType := "datasource", query := "prometheus")
  const LokiSelector := Template(templateType := "datasource", query := "loki")
  const GoodJob := Template(name := "job", datasource := "$datasource", templateType := "query",
                            templateLabel := "job", multi := true, allValue := ".+")
  const GoodInstance := Template(name := "instance", datasource := "${datasource}", templateType := "query",
                                 templateLabel := "instance", multi := true, allValue := ".+")

  /** One selector followed by a template that selects nothing: the single selector is `datasource`. */
  lemma OneKind(a: Template, b: Template)
    requires IsDatasource(a) && !IsDatasource(b)
    ensures DatasourceKinds([a, b]) == [a.query]
    ensures Expected([a, b]) == ["datasource"]
  {
    QueriesAppend([], a);
    assert [a] == [] + [a];
    QueriesAppend([a], b);
    assert [a, b] == [a] + [b];
    DedupAppendFresh([], a.query);
    assert [a.query] == [] + [a.query];
  }

  /** Two selectors of different kinds: one selector per kind, in declaration order. */
  lemma TwoKinds(a: Template, b: Template, c: Template)
    requires IsDatasource(a) && IsDatasource(b) && !IsDatasource(c) && a.query != b.query
    ensures DatasourceKinds([a, b, c]) == [a.query, b.query]
    ensures Expected([a, b, c]) == [a.query + "_datasource", b.query + "_datasource"]
  {
    TwoQueries(a, b, c);
    DedupAppendFresh([], a.query);
    assert [a.query] == [] + [a.query];
    DedupAppendFresh([a.query], b.query);
    assert [a.query, b.query] == [a.query] + [b.query];
  }

  /** Two selectors then a template that selects nothing: both queries, in order. */
  lemma TwoQueries(a: Template, b: Template, c: Template)
    requires IsDatasource(a) && IsDatasource(b) && !IsDatasource(c)
    ensures DatasourceQueries([a, b, c]) == [a.query, b.query]
  {
    QueriesAppend([], a);
    assert [a] == [] + [a];
    QueriesAppend([a], b);
    assert [a, b] == [a] + [b];
    QueriesAppend([a, b], c);
    assert [a, b, c] == [a, b] + [c];
  }

  /** A dashboard without templates is not a Prometheus dashboard and passes. */
  lemma NonPrometheusDashboardPasses()
    ensures Evaluate(Dashboard("test", [])) == Result(Success, "OK")
  {
  }

  lemma MissingJobTemplate()
    ensures Evaluate(Dashboard("test", [PrometheusSelector]))
         == Result(Error, "Dashboard '" + "test" + "' " + "is missing the " + "job" + " template")
  {
  }

  /** Any datasource kind brings a dashboard under the rule, not only `prometheus`. */
  lemma LokiOnlyDashboardIsChecked()
    ensures Evaluate(Dashboard("test", [LokiSelector]))
         == Result(Error, "Dashboard '" + "test" + "' " + "is missing the " + "job" + " template")
  {
  }

  /** The reference is checked before the type: this job template has no type at all. */
  lemma WrongJobDatasource()
    ensures Evaluate(Dashboard("test", [PrometheusSelector, Template(name := "job", datasource := "foo")]))
         == Result(Error, "Dashboard '" + "test" + "' " + "job template should use datasource " + "$datasource"
           + ", is currently '" + "foo" + "'")
  {
    var ts := [PrometheusSelector, Template(name := "job", datasource := "foo")];
    OneKind(ts[0], ts[1]);
    assert ts[0] in ts && FirstNamed(ts, "job", 1);
    EvaluateWrongDatasource(Dashboard("test", ts), 1);
    assert JoinAlternatives(["datasource"]) == "$datasource";
  }

  /** With two kinds, every per-kind selector is listed, in declaration order. */
  lemma WrongJobDatasourceOfTwo()
    ensures Evaluate(Dashboard("test", [PrometheusSelector, LokiSelector, Template(name := "job", datasource := "foo")]))
         == Result(Error, "Dashboard '" + "test" + "' " + "job template should use datasource "
           + ("$prometheus_datasource" + " or " + "$loki_datasource") + ", is currently '" + "foo" + "'")
  {
    var ts := [PrometheusSelector, LokiSelector, Template(name := "job", datasource := "foo")];
    TwoKinds(ts[0], ts[1], ts[2]);
    assert ts[0] in ts && FirstNamed(ts, "job", 2);
    EvaluateWrongDatasource(Dashboard("test", ts), 2);
    PrometheusOrLoki();
  }

  /** The per-kind selectors of `prometheus` and `loki`, listed as alternatives. */
  lemma PrometheusOrLoki()
    ensures JoinAlternatives(["prometheus" + "_datasource", "loki" + "_datasource"])
         == "$prometheus_datasource" + " or " + "$loki_datasource"
  {
  }

  /** A reference written `$datasource` names the single expected selector. */
  lemma DollarDatasourceExpected(ts: seq<Template>, i: int)
    requires 0 <= i < |ts| && ts[i].datasource == "$datasource"
    requires Expected(ts) == ["datasource"]
    ensures StripVariable(ts[i].datasource) in Expected(ts)
  {
  }

  lemma WrongJobType()
    ensures Evaluate(Dashboard("test", [PrometheusSelector, Template(name := "job", datasource := "$datasource", templateType := "bar")]))
         == Result(Error, "Dashboard '" + "test" + "' " + "job template should be a Prometheus query, is currently '" + "bar" + "'")
  {
    var ts := [PrometheusSelector, Template(name := "job", datasource := "$datasource", templateType := "bar")];
    OneKind(ts[0], ts[1]);
    DollarDatasourceExpected(ts, 1);
    assert ts[0] in ts && FirstNamed(ts, "job", 1);
    EvaluateWrongType(Dashboard("test", ts), 1);
  }

  lemma WrongJobLabel()
    ensures Evaluate(Dashboard("test", [PrometheusSelector, Template(name := "job", datasource := "$datasource", templateType := "query", templateLabel := "bar")]))
         == Result(Error, "Dashboard '" + "test" + "' " + "job template should be a labelled 'job', is currently '" + "bar" + "'")
  {
    var ts := [PrometheusSelector, Template(name := "job", datasource := "$datasource", templateType := "query", templateLabel := "bar")];
    OneKind(ts[0], ts[1]);
    DollarDatasourceExpected(ts, 1);
    assert ts[0] in ts && FirstNamed(ts, "job", 1);
    EvaluateWrongLabel(Dashboard("test", ts), 1);
  }

  lemma MissingInstanceTemplate()
    ensures Evaluate(Dashboard("test", [PrometheusSelector, GoodJob]))
         == Result(Error, "Dashboard '" + "test" + "' " + "is missing the " + "instance" + " template")
  {
    var ts := [PrometheusSelector, GoodJob];
    OneKind(ts[0], ts[1]);
    DollarDatasourceExpected(ts, 1);
    assert ts[0] in ts && FirstNamed(ts, "job", 1);
    EvaluateMissingInstance(Dashboard("test", ts), 1);
  }

  lemma ConformingDashboardPasses()
    ensures Evaluate(Dashboard("test", [PrometheusSelector, GoodJob, GoodInstance])) == Result(Success, "OK")
  {
    var ts := [PrometheusSelector, GoodJob, GoodInstance];
    OneKind(ts[0], ts[1]);
    assert ts[..2] == [ts[0], ts[1]];
    QueriesAppend(ts[..2], ts[2]);
    assert ts[..2] + [ts[2]] == ts;
    assert DatasourceKinds(ts) == DatasourceKinds(ts[..2]);
    DollarDatasourceExpected(ts, 1);
    assert FirstNamed(ts, "job", 1);
    FindTemplateAt(ts, "job", 1);
    assert ts[2] in ts;
    assert FindTemplate(ts, "instance").Some?;
    assert CheckJob(Dashboard("test", ts), ts[1], Expected(ts)) == OK;
  }
}
