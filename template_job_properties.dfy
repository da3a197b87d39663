/**
 * What the template-job rule guarantees for every dashboard: when it passes,
 * which finding each failed check produces and in what order the checks
 * run, and which changes to a dashboard cannot change the verdict.
 */
module TemplateJobProperties {
  import opened Lint
  import opened TemplateVars
  import opened TemplateJobRule

  /** `FindTemplate` returns exactly the template at the first position holding `name`. */
  lemma FindTemplateAt(ts: seq<Template>, name: string, i: int)
    requires FirstNamed(ts, name, i)
    ensures FindTemplate(ts, name) == Some(ts[i])
  {
  }

  /** The job template passes the datasource, type and label checks. */
  ghost predicate JobConforms(job: Template, expected: seq<string>) {
    && StripVariable(job.datasource) in expected
    && job.templateType == "query"
    && job.templateLabel == "job"
  }

  /**
   * A dashboard the rule accepts: it has no datasource selector at all, or
   * its first `job` template is well formed and some template is called
   * `instance`.
   */
  ghost predicate Conforms(d: Dashboard) {
    var ts := d.templates;
    || !HasDatasource(ts)
    || (&& (exists i :: FirstNamed(ts, "job", i) && JobConforms(ts[i], Expected(ts)))
        && (exists t :: t in ts && t.name == "instance"))
  }

  /** The rule succeeds exactly on conforming dashboards, and success always reads "OK". */
  lemma EvaluateSuccessIff(d: Dashboard)
    ensures Evaluate(d).severity == Success <==> Conforms(d)
    ensures Evaluate(d).severity == Success ==> Evaluate(d) == OK
  {
  }

  /** With a datasource selector but no `job` template, the rule reports the missing job template. */
  lemma EvaluateMissingJob(d: Dashboard)
    requires HasDatasource(d.templates)
    requires forall t :: t in d.templates ==> t.name != "job"
    ensures Evaluate(d) == MissingTemplate(d.title, "job")
  {
    var t :| t in d.templates && IsDatasource(t);
    assert t.query in DatasourceKinds(d.templates);
  }

  /**
   * On a dashboard with a datasource selector, the verdict is that of the
   * checks on its first job template.
   */
  lemma EvaluateAtJob(d: Dashboard, i: int)
    requires HasDatasource(d.templates)
    requires FirstNamed(d.templates, "job", i)
    ensures Evaluate(d) == CheckJob(d, d.templates[i], Expected(d.templates))
  {
    var t :| t in d.templates && IsDatasource(t);
    assert t.query in DatasourceKinds(d.templates);
    FindTemplateAt(d.templates, "job", i);
  }

  /**
   * A job template whose stripped reference is not an expected selector is
   * reported first, whatever its type and label: the message lists every
   * expected selector and quotes the stripped reference.
   */
  lemma EvaluateWrongDatasource(d: Dashboard, i: int)
    requires HasDatasource(d.templates)
    requires FirstNamed(d.templates, "job", i)
    requires StripVariable(d.templates[i].datasource) !in Expected(d.templates)
    ensures Evaluate(d) == WrongDatasource(d.title, Expected(d.templates), StripVariable(d.templates[i].datasource))
  {
    EvaluateAtJob(d, i);
  }

  /** Once the reference is right, a job template that is not a query is reported, whatever its label. */
  lemma EvaluateWrongType(d: Dashboard, i: int)
    requires HasDatasource(d.templates)
    requires FirstNamed(d.templates, "job", i)
    requires StripVariable(d.templates[i].datasource) in Expected(d.templates)
    requires d.templates[i].templateType != "query"
    ensures Evaluate(d) == WrongType(d.title, d.templates[i].templateType)
  {
    EvaluateAtJob(d, i);
  }

  /** Once reference and type are right, a job template labelled otherwise than `job` is reported. */
  lemma EvaluateWrongLabel(d: Dashboard, i: int)
    requires HasDatasource(d.templates)
    requires FirstNamed(d.templates, "job", i)
    requires StripVariable(d.templates[i].datasource) in Expected(d.templates)
    requires d.templates[i].templateType == "query"
    requires d.templates[i].templateLabel != "job"
    ensures Evaluate(d) == WrongLabel(d.title, d.templates[i].templateLabel)
  {
    EvaluateAtJob(d, i);
  }

  /** A well-formed job template without any `instance` template is reported as a missing instance template. */
  lemma EvaluateMissingInstance(d: Dashboard, i: int)
    requires HasDatasource(d.templates)
    requires FirstNamed(d.templates, "job", i)
    requires JobConforms(d.templates[i], Expected(d.templates))
    requires forall t :: t in d.templates ==> t.name != "instance"
    ensures Evaluate(d) == MissingTemplate(d.title, "instance")
  {
    EvaluateAtJob(d, i);
  }

  /** Declaring one more template adds its query at the end when it selects a datasource. */
  lemma QueriesAppend(ts: seq<Template>, t: Template)
    ensures DatasourceQueries(ts + [t]) == DatasourceQueries(ts) + (if IsDatasource(t) then [t.query] else [])
  {
  }

  /** A kind not seen before is discovered after all the earlier ones. */
  lemma DedupAppendFresh(s: seq<string>, x: string)
    requires x !in s
    ensures Dedup(s + [x]) == Dedup(s) + [x]
  {
  }

  /** A kind seen before is not discovered again. */
  lemma DedupAppendSeen(s: seq<string>, x: string)
    requires x in s
    ensures Dedup(s + [x]) == Dedup(s)
  {
  }

  /** Appending a template of another name leaves the first template called `name` where it was. */
  lemma {:induction false} FindTemplateAppend(ts: seq<Template>, t: Template, name: string)
    requires t.name != name || FindTemplate(ts, name).Some?
    ensures FindTemplate(ts + [t], name) == FindTemplate(ts, name)
  {
    if ts == [] {
    } else {
      assert (ts + [t])[1..] == ts[1..] + [t];
      if ts[0].name != name {
        FindTemplateAppend(ts[1..], t, name);
      }
    }
  }

  /** The queries of two lists declared one after the other are those of the first, then those of the second. */
  lemma {:induction false} QueriesConcat(a: seq<Template>, b: seq<Template>)
    ensures DatasourceQueries(a + b) == DatasourceQueries(a) + DatasourceQueries(b)
  {
    if b == [] {
      assert a + b == a;
    } else {
      var n := |b| - 1;
      assert a + b == (a + b[..n]) + [b[n]];
      assert b == b[..n] + [b[n]];
      QueriesConcat(a, b[..n]);
      QueriesAppend(a + b[..n], b[n]);
      QueriesAppend(b[..n], b[n]);
    }
  }

  /** Inserting a template of another name anywhere leaves the lookup of `name` unchanged. */
  lemma FindTemplateInsert(ts: seq<Template>, k: int, t: Template, name: string)
    requires 0 <= k <= |ts| && t.name != name
    ensures FindTemplate(ts[..k] + [t] + ts[k..], name) == FindTemplate(ts, name)
  {
    var us := ts[..k] + [t] + ts[k..];
    assert |us| == |ts| + 1;
    assert forall j :: 0 <= j < k ==> us[j] == ts[j];
    assert forall j :: k < j < |us| ==> us[j] == ts[j - 1];
    if FindTemplate(ts, name).Some? {
      var i :| FirstNamed(ts, name, i) && ts[i] == FindTemplate(ts, name).value;
      var p := if i < k then i else i + 1;
      assert us[p] == ts[i];
      forall j | 0 <= j < p ensures us[j].name != name {
        if j > k {
          assert us[j] == ts[j - 1];
        }
      }
      assert FirstNamed(us, name, p);
      FindTemplateAt(us, name, p);
    } else {
      forall u | u in us ensures u.name != name {
        var j :| 0 <= j < |us| && us[j] == u;
        if j > k {
          assert us[j] == ts[j - 1];
        }
      }
    }
  }

  /**
   * A template that neither selects a datasource nor is called `job` or
   * `instance`, inserted at any position, does not change the verdict.
   */
  lemma EvaluateIgnoresUnrelated(d: Dashboard, k: int, t: Template)
    requires 0 <= k <= |d.templates|
    requires !IsDatasource(t) && t.name != "job" && t.name != "instance"
    ensures Evaluate(d.(templates := d.templates[..k] + [t] + d.templates[k..])) == Evaluate(d)
  {
    var ts := d.templates;
    var us := ts[..k] + [t] + ts[k..];
    assert ts == ts[..k] + ts[k..];
    QueriesConcat(ts[..k] + [t], ts[k..]);
    QueriesConcat(ts[..k], [t]);
    QueriesConcat(ts[..k], ts[k..]);
    assert DatasourceQueries([t]) == [] by {
      QueriesAppend([], t);
      assert [t] == [] + [t];
    }
    assert DatasourceQueries(us) == DatasourceQueries(ts);
    FindTemplateInsert(ts, k, t, "job");
    FindTemplateInsert(ts, k, t, "instance");
    var d2 := d.(templates := us);
    assert DatasourceKinds(us) == DatasourceKinds(ts);
    forall job, e ensures CheckJob(d2, job, e) == CheckJob(d, job, e) {
    }
  }

  /**
   * Declaring a datasource kind a second time adds no kind: the expected
   * selectors, and so the verdict, stay as they were.
   */
  lemma EvaluateIgnoresRepeatedKind(d: Dashboard, t: Template)
    requires IsDatasource(t) && t.name != "job" && t.name != "instance"
    requires exists u :: u in d.templates && IsDatasource(u) && u.query == t.query
    ensures Evaluate(d.(templates := d.templates + [t])) == Evaluate(d)
  {
    var ts := d.templates + [t];
    assert ts[..|ts| - 1] == d.templates;
    QueriesAppend(d.templates, t);
    DedupAppendSeen(DatasourceQueries(d.templates), t.query);
    FindTemplateAppend(d.templates, t, "job");
    FindTemplateAppend(d.templates, t, "instance");
    var d2 := d.(templates := ts);
    forall job, e ensures CheckJob(d2, job, e) == CheckJob(d, job, e) {
    }
  }

  /**
   * `ts2` is `ts` with some datasource references respelled (`$x` for `${x}`
   * or back) without changing the variable they point at.
   */
  ghost predicate SameUpToSpelling(ts: seq<Template>, ts2: seq<Template>) {
    && |ts| == |ts2|
    && forall i :: 0 <= i < |ts| ==>
         && ts2[i] == ts[i].(datasource := ts2[i].datasource)
         && StripVariable(ts2[i].datasource) == StripVariable(ts[i].datasource)
  }

  lemma {:induction false} QueriesSameUpToSpelling(ts: seq<Template>, ts2: seq<Template>)
    requires SameUpToSpelling(ts, ts2)
    ensures DatasourceQueries(ts) == DatasourceQueries(ts2)
  {
    if ts != [] {
      var n := |ts| - 1;
      assert SameUpToSpelling(ts[..n], ts2[..n]);
      QueriesSameUpToSpelling(ts[..n], ts2[..n]);
    }
  }

  lemma FindSameUpToSpelling(ts: seq<Template>, ts2: seq<Template>, name: string)
    requires SameUpToSpelling(ts, ts2)
    ensures FindTemplate(ts, name).None? == FindTemplate(ts2, name).None?
    ensures FindTemplate(ts, name).Some? ==>
      && FindTemplate(ts2, name).value == FindTemplate(ts, name).value.(datasource := FindTemplate(ts2, name).value.datasource)
      && StripVariable(FindTemplate(ts2, name).value.datasource) == StripVariable(FindTemplate(ts, name).value.datasource)
  {
    if FindTemplate(ts, name).Some? {
      var i :| FirstNamed(ts, name, i) && ts[i] == FindTemplate(ts, name).value;
      assert FirstNamed(ts2, name, i);
      FindTemplateAt(ts2, name, i);
    }
  }

  /**
   * The rule compares references only after stripping, so spelling a
   * reference `$x` or `${x}` never changes the verdict.
   */
  lemma EvaluateRespectsStripping(d: Dashboard, d2: Dashboard)
    requires d2.title == d.title
    requires SameUpToSpelling(d.templates, d2.templates)
    ensures Evaluate(d2) == Evaluate(d)
  {
    QueriesSameUpToSpelling(d.templates, d2.templates);
    FindSameUpToSpelling(d.templates, d2.templates, "job");
    FindSameUpToSpelling(d.templates, d2.templates, "instance");
    var kinds := DatasourceKinds(d.templates);
    assert DatasourceKinds(d2.templates) == kinds;
    if kinds != [] && FindTemplate(d.templates, "job").Some? {
      var job := FindTemplate(d.templates, "job").value;
      var job2 := FindTemplate(d2.templates, "job").value;
      CheckJobRespectsStripping(d, d2, job, job2, Expected(d.templates));
    }
  }

  lemma CheckJobRespectsStripping(d: Dashboard, d2: Dashboard, job: Template, job2: Template, expected: seq<string>)
    requires d2.title == d.title
    requires FindTemplate(d2.templates, "instance").None? == FindTemplate(d.templates, "instance").None?
    requires job2 == job.(datasource := job2.datasource)
    requires StripVariable(job2.datasource) == StripVariable(job.datasource)
    ensures CheckJob(d2, job2, expected) == CheckJob(d, job, expected)
  {
  }
}
