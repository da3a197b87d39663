/**
 * The "job/instance template" rule: a dashboard that declares a datasource
 * selector must filter by a `job` variable driven by that selector and must
 * also declare an `instance` variable. Checks run in a fixed order and the
 * first one that fails is the rule's single finding.
 */
module TemplateJobRule {
  import opened Lint
  import opened TemplateVars

  predicate IsDatasource(t: Template) {
    t.templateType == "datasource"
  }

  /** Some template of the list selects a datasource. */
  predicate HasDatasource(ts: seq<Template>) {
    exists t :: t in ts && IsDatasource(t)
  }

  predicate Distinct(s: seq<string>) {
    forall i, j :: 0 <= i < j < |s| ==> s[i] != s[j]
  }

  /** Position of the first occurrence of `x` in `s`. */
  function FirstIndex(s: seq<string>, x: string): (i: nat)
    requires x in s
    ensures i < |s| && s[i] == x && x !in s[..i]
  {
    if s[0] == x then 0
    else
      var k := FirstIndex(s[1..], x);
      assert s[..k + 1] == [s[0]] + s[1..][..k];
      k + 1
  }

  /** A position holding `x` with no earlier `x` is the first occurrence. */
  lemma FirstIndexAt(s: seq<string>, x: string, i: nat)
    requires i < |s| && s[i] == x && x !in s[..i]
    ensures FirstIndex(s, x) == i
  {
  }

  /**
   * The values of `s` without repetition, each kept where it first occurs:
   * the order in which a left-to-right scan discovers them.
   */
  function Dedup(s: seq<string>): (r: seq<string>)
    ensures forall x :: x in r <==> x in s
    ensures Distinct(r)
    ensures forall i, j :: 0 <= i < j < |r| ==> FirstIndex(s, r[i]) < FirstIndex(s, r[j])
  {
    if s == [] then []
    else
      var init := s[..|s| - 1];
      var x := s[|s| - 1];
      var p := Dedup(init);
      assert s == init + [x];
      assert forall y :: y in init ==> FirstIndex(s, y) == FirstIndex(init, y) by {
        forall y | y in init ensures FirstIndex(s, y) == FirstIndex(init, y) {
          var k := FirstIndex(init, y);
          assert s[..k] == init[..k];
          FirstIndexAt(s, y, k);
        }
      }
      if x in p then p
      else
        assert s[..|s| - 1] == init;
        FirstIndexAt(s, x, |s| - 1);
        p + [x]
  }

  /** The `Query` of every datasource-type template, in declaration order. */
  function DatasourceQueries(ts: seq<Template>): (r: seq<string>)
    ensures forall q :: q in r <==> exists t :: t in ts && IsDatasource(t) && t.query == q
  {
    if ts == [] then []
    else
      var init := DatasourceQueries(ts[..|ts| - 1]);
      var t := ts[|ts| - 1];
      assert ts == ts[..|ts| - 1] + [t];
      if IsDatasource(t) then init + [t.query] else init
  }

  /**
   * The datasource kinds a dashboard supports: the distinct queries of its
   * datasource templates, in the order they are first declared.
   */
  function DatasourceKinds(ts: seq<Template>): (r: seq<string>)
    ensures forall k :: k in r <==> exists t :: t in ts && IsDatasource(t) && t.query == k
    ensures Distinct(r)
    ensures r == [] <==> !HasDatasource(ts)
  {
    var r := Dedup(DatasourceQueries(ts));
    assert r != [] ==> r[0] in r;
    assert forall t :: t in ts && IsDatasource(t) ==> t.query in r;
    r
  }

  /**
   * The selector variables a job template may use: `datasource` when there is
   * one kind, otherwise `<kind>_datasource` for each kind, in the same order.
   */
  function ExpectedNames(kinds: seq<string>): (r: seq<string>)
    ensures |r| == |kinds|
    ensures |kinds| == 1 ==> r == ["datasource"]
    ensures |kinds| != 1 ==> forall i :: 0 <= i < |kinds| ==> r[i] == kinds[i] + "_datasource"
  {
    if |kinds| == 1 then ["datasource"]
    else seq(|kinds|, i requires 0 <= i < |kinds| => kinds[i] + "_datasource")
  }

  /** Distinct kinds give distinct selector names. */
  lemma ExpectedNamesDistinct(kinds: seq<string>)
    requires Distinct(kinds)
    ensures Distinct(ExpectedNames(kinds))
  {
    var r := ExpectedNames(kinds);
    if |kinds| != 1 {
      forall i, j | 0 <= i < j < |r| ensures r[i] != r[j] {
        assert r[i][..|kinds[i]|] == kinds[i];
        assert r[j][..|kinds[j]|] == kinds[j];
      }
    }
  }

  /**
   * The selector names the job template of `ts` may refer to: none without a
   * datasource selector, and never the same name twice.
   */
  function Expected(ts: seq<Template>): (r: seq<string>)
    ensures |r| == |DatasourceKinds(ts)|
    ensures r == [] <==> !HasDatasource(ts)
    ensures Distinct(r)
  {
    var kinds := DatasourceKinds(ts);
    ExpectedNamesDistinct(kinds);
    ExpectedNames(kinds)
  }

  /** The first template called `name`, if any. */
  function FindTemplate(ts: seq<Template>, name: string): (r: Option<Template>)
    ensures r.None? <==> forall t :: t in ts ==> t.name != name
    ensures r.Some? ==> exists i :: FirstNamed(ts, name, i) && ts[i] == r.value
  {
    if ts == [] then None
    else if ts[0].name == name then
      assert FirstNamed(ts, name, 0);
      Some(ts[0])
    else
      var r := FindTemplate(ts[1..], name);
      assert r.Some? ==> exists i :: FirstNamed(ts, name, i) && ts[i] == r.value by {
        if r.Some? {
          var i :| FirstNamed(ts[1..], name, i) && ts[1..][i] == r.value;
          assert FirstNamed(ts, name, i + 1);
        }
      }
      r
  }

  /** Position `i` holds the first template called `name`. */
  predicate FirstNamed(ts: seq<Template>, name: string, i: int) {
    0 <= i < |ts| && ts[i].name == name && forall j :: 0 <= j < i ==> ts[j].name != name
  }

  // Every finding starts with the dashboard's title, quoted, as in
  // "Dashboard 'node' is missing the job template".

  /** `r` is an error whose message names the dashboard called `title`. */
  predicate Qualified(r: Result, title: string) {
    r.severity == Error && "Dashboard '" + title + "' " <= r.message
  }

  predicate EndsWith(s: string, suffix: string) {
    |suffix| <= |s| && s[|s| - |suffix|..] == suffix
  }

  /** The finding for a dashboard without a template called `name`. */
  function MissingTemplate(title: string, name: string): (r: Result)
    ensures Qualified(r, title)
    ensures EndsWith(r.message, " " + name + " template")
  {
    var head := "Dashboard '" + title + "' " + "is missing the";
    assert head + (" " + name + " template") == "Dashboard '" + title + "' " + "is missing the " + name + " template";
    Result(Error, "Dashboard '" + title + "' " + "is missing the " + name + " template")
  }

  /**
   * The finding for a job template whose reference is none of the `expected`
   * selectors; it quotes the reference as found.
   */
  function WrongDatasource(title: string, expected: seq<string>, actual: string): (r: Result)
    ensures Qualified(r, title)
    ensures EndsWith(r.message, "'" + actual + "'")
  {
    var head := "Dashboard '" + title + "' " + "job template should use datasource " + JoinAlternatives(expected)
      + ", is currently ";
    assert head + ("'" + actual + "'") == head + "'" + actual + "'";
    Result(Error, "Dashboard '" + title + "' " + "job template should use datasource " + JoinAlternatives(expected)
      + ", is currently '" + actual + "'")
  }

  /** The finding for a job template that is not a query; it quotes the type found. */
  function WrongType(title: string, actual: string): (r: Result)
    ensures Qualified(r, title)
    ensures EndsWith(r.message, "'" + actual + "'")
  {
    var head := "Dashboard '" + title + "' " + "job template should be a Prometheus query, is currently ";
    assert head + ("'" + actual + "'") == "Dashboard '" + title + "' " + "job template should be a Prometheus query, is currently '" + actual + "'";
    Result(Error, "Dashboard '" + title + "' " + "job template should be a Prometheus query, is currently '" + actual + "'")
  }

  /** The finding for a job template with another label than `job`; it quotes the label found. */
  function WrongLabel(title: string, actual: string): (r: Result)
    ensures Qualified(r, title)
    ensures EndsWith(r.message, "'" + actual + "'")
  {
    var head := "Dashboard '" + title + "' " + "job template should be a labelled 'job', is currently ";
    assert head + ("'" + actual + "'") == "Dashboard '" + title + "' " + "job template should be a labelled 'job', is currently '" + actual + "'";
    Result(Error, "Dashboard '" + title + "' " + "job template should be a labelled 'job', is currently '" + actual + "'")
  }

  /**
   * The checks on the dashboard's first job template, in order (reference,
   * type, label), followed by the presence of an instance template.
   */
  function CheckJob(d: Dashboard, job: Template, expected: seq<string>): (r: Result)
    ensures r == OK || Qualified(r, d.title)
  {
    var source := StripVariable(job.datasource);
    if source !in expected then WrongDatasource(d.title, expected, source)
    else if job.templateType != "query" then WrongType(d.title, job.templateType)
    else if job.templateLabel != "job" then WrongLabel(d.title, job.templateLabel)
    else if FindTemplate(d.templates, "instance").None? then MissingTemplate(d.title, "instance")
    else OK
  }

  /** The rule built by `NewTemplateJobRule`, applied to one dashboard. */
  function Evaluate(d: Dashboard): (r: Result)
    ensures r == OK || Qualified(r, d.title)
    ensures !HasDatasource(d.templates) ==> r == OK
  {
    if DatasourceKinds(d.templates) == [] then OK
    else
      match FindTemplate(d.templates, "job")
      case None => MissingTemplate(d.title, "job")
      case Some(job) => CheckJob(d, job, Expected(d.templates))
  }
}
