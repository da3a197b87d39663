# Template-job lint rule, modelled in Dafny

This project models one lint rule of a dashboard linter, the rule that
`NewTemplateJobRule()` builds. A dashboard is a title plus an ordered
templating list. Each template has a name, a type, a query, a datasource
reference, a label, a multi-value flag and an "all" value. The rule turns
one dashboard into one result, which is either `Success` with message
`"OK"` or a single `Error` that names the dashboard.

The rule works like this:

1. It collects the query of every `datasource`-type template. These are the
   datasource kinds. If there are none, the dashboard is not a Prometheus
   dashboard and the rule gives `OK`.
2. It works out the selector variables that a job template may use. With one
   kind the only selector is `datasource`. With several kinds there is one
   `<kind>_datasource` per kind, in the order the kinds were declared.
3. It looks up the first template named `job` and checks three things, in
   this order:
   - its datasource reference, with the `$x` / `${x}` wrapping removed, must
     name one of the selectors;
   - its type must be `query`;
   - its label must be `job`.
4. It requires that some template is named `instance`.

The first check that fails decides the error message. The message always
starts with `Dashboard '<title>' `. When the reference check fails, the
message lists the allowed selectors as `$a or $b`.

Files:
- `dashboard.dfy` (module `Lint`): the data model. It has `Severity`,
  `Result`, `Template` (every field defaults to its zero value, as a Go
  struct literal does), `Dashboard` and `Option`.
- `template_vars.dfy` (module `TemplateVars`): removing the reference
  wrapping, and listing the alternatives with `" or "`.
- `template_job_rule.dfy` (module `TemplateJobRule`): kind discovery,
  selector names, template lookup, the message formats and `Evaluate`.
- `template_job_properties.dfy` (module `TemplateJobProperties`): lemmas
  that hold for all dashboards. They cover when the rule passes, which
  finding each failed check gives, the order of the checks, and which edits
  to a dashboard leave the verdict unchanged: an unrelated template inserted
  at any position, a repeated datasource kind appended after the existing
  templates, and a reference respelled between `$x` and `${x}` for a name `x` not
  itself wrapped in braces.
- `template_job_cases.dfy` (module `TemplateJobCases`): one lemma per row
  of the rule's test table.

The rule's own source file is not part of this model. Its behaviour is
taken from the test table in lint/rule_template_job_test.go. Where that
table says nothing, the model makes these choices:
- Any datasource-type template brings a dashboard under the rule, whatever
  its query. The comment at lint/rule_template_job_test.go:14 says that
  non-Prometheus dashboards should not fail. Its case has no templates at
  all, so the model reads "non-Prometheus" as "without a datasource
  template". A dashboard whose only selector has query `loki` therefore gets
  the missing-job finding (`LokiOnlyDashboardIsChecked`).
- Kinds are deduplicated and kept in first-declaration order. A second
  `prometheus` selector appended after the existing templates therefore
  does not turn the dashboard into a two-kind dashboard
  (`EvaluateIgnoresRepeatedKind`). A repeated kind declared before the
  first selector of a kind declared earlier moves that kind ahead of it,
  and so reorders the selectors the wrong-datasource finding lists.
- When several templates are named `job` or `instance`, the first one
  counts.
- A reference that is exactly `$` followed by `{…}` is read as the
  `${x}` form and yields `x`. Any other reference that starts with `$` loses
  only the `$`. Text that does not start with `$` is kept as it is.

The case lemmas write each expected message with the title and the offending
value as separate literals, where the rule formats them in. The resulting
text is the same as the message in the test table.

## Model

| member | source | states |
|---|---|---|
| `TemplateVars.StripVariable` | lint/rule_template_job_test.go:112-116 | the result is the name the reference points at: the reference is `${r}`, or `$r`, or it does not start with `$` and is returned unchanged; `$` followed by a braced name always reads as the `${r}` form |
| `TemplateVars.StripBracedReference` | lint/rule_template_job_test.go:199-202 | stripping `${x}` gives `x` for every `x` |
| `TemplateVars.StripDollarReference` | lint/rule_template_job_test.go:191-195 | stripping `$x` gives `x` unless `x` itself is braced |
| `TemplateVars.StripFormsAgree` | lint/rule_template_job_test.go:191-206 | for a name `x` not itself wrapped in braces, `$x` and `${x}` point at the same variable |
| `TemplateVars.JoinAlternatives` | lint/rule_template_job_test.go:68-72 | the list is empty exactly when there are no names; it starts with `$` and the first name; a single name gives just `$name` |
| `TemplateVars.JoinAlternativesAppend` | lint/rule_template_job_test.go:68-72 | one more name adds ` or $name` at the end, so the list keeps the names' order |
| `TemplateJobRule.FirstIndex` | lint/rule_template_job_test.go:79-87 | the position returned holds the value and no earlier position does |
| `TemplateJobRule.FirstIndexAt` | lint/rule_template_job_test.go:79-87 | a position holding the value with no earlier occurrence is the first index |
| `TemplateJobRule.Dedup` | lint/rule_template_job_test.go:68-95 | the result has the same members as the input, has no repeats, and keeps the order of first occurrence |
| `TemplateJobRule.DatasourceQueries` | lint/rule_template_job_test.go:35-39 | a query is listed exactly when some datasource-type template carries it |
| `TemplateJobRule.DatasourceKinds` | lint/rule_template_job_test.go:14-43 | the kinds are the queries of the datasource templates, without repeats; there are none exactly when no template is of type datasource |
| `TemplateJobRule.ExpectedNames` | lint/rule_template_job_test.go:44-95 | one selector per kind: `datasource` for a single kind, otherwise `<kind>_datasource` for each kind in order |
| `TemplateJobRule.ExpectedNamesDistinct` | lint/rule_template_job_test.go:68-95 | distinct kinds give distinct selector names |
| `TemplateJobRule.Expected` | lint/rule_template_job_test.go:44-95 | one selector name per datasource kind, none exactly when the dashboard has no datasource template, and no name listed twice |
| `TemplateJobRule.FindTemplate` | lint/rule_template_job_test.go:24-43 | `None` exactly when no template has the name; otherwise the template at the first position with that name |
| `TemplateJobRule.MissingTemplate` | lint/rule_template_job_test.go:28 | the missing-template finding is an error naming the dashboard and ends with ` <name> template`; `MissingJobTemplate` and `MissingInstanceTemplate` fix its full text |
| `TemplateJobRule.WrongDatasource` | lint/rule_template_job_test.go:48-72 | the wrong-datasource finding is an error naming the dashboard and ends by quoting the reference found; `WrongJobDatasource` and `WrongJobDatasourceOfTwo` fix its full text |
| `TemplateJobRule.WrongType` | lint/rule_template_job_test.go:100 | the wrong-type finding is an error naming the dashboard and ends by quoting the type found; `WrongJobType` fixes its full text |
| `TemplateJobRule.WrongLabel` | lint/rule_template_job_test.go:125 | the wrong-label finding is an error naming the dashboard and ends by quoting the label found; `WrongJobLabel` fixes its full text |
| `TemplateJobRule.CheckJob` | lint/rule_template_job_test.go:96-174 | the checks after the lookup give `OK` or an error qualified with the dashboard title |
| `TemplateJobRule.Evaluate` | lint/rule_template_job_test.go:8-213 | every result is `OK` or an `Error` whose message starts with `Dashboard '<title>' `; a dashboard without datasource templates always gets `OK` |
| `TemplateJobProperties.FindTemplateAt` | lint/rule_template_job_test.go:60-63 | the lookup returns the template at the first position with the name |
| `TemplateJobProperties.EvaluateSuccessIff` | lint/rule_template_job_test.go:175-210 | the rule succeeds exactly when there is no datasource template, or when the first job template has an expected reference, type `query` and label `job` and some template is named `instance`; success always reads `OK` |
| `TemplateJobProperties.EvaluateAtJob` | lint/rule_template_job_test.go:96-174 | on a dashboard with a datasource template, the verdict is that of the checks on the first job template against the expected selectors |
| `TemplateJobProperties.EvaluateMissingJob` | lint/rule_template_job_test.go:24-43 | with a datasource template and no `job` template, the result is the missing-job finding |
| `TemplateJobProperties.EvaluateWrongDatasource` | lint/rule_template_job_test.go:44-95 | a job reference that is not an expected selector is reported first, whatever the type and label are; the message lists every selector and quotes the stripped reference |
| `TemplateJobProperties.EvaluateWrongType` | lint/rule_template_job_test.go:96-120 | with the reference right, a non-`query` type is reported, whatever the label is |
| `TemplateJobProperties.EvaluateWrongLabel` | lint/rule_template_job_test.go:121-146 | with reference and type right, a label other than `job` is reported |
| `TemplateJobProperties.EvaluateMissingInstance` | lint/rule_template_job_test.go:147-174 | with a well-formed job template and no `instance` template, the result is the missing-instance finding |
| `TemplateJobProperties.QueriesAppend` | lint/rule_template_job_test.go:79-87 | declaring one more template appends its query exactly when it is of type datasource |
| `TemplateJobProperties.DedupAppendFresh` | lint/rule_template_job_test.go:79-87 | a new kind is discovered after all earlier ones |
| `TemplateJobProperties.DedupAppendSeen` | lint/rule_template_job_test.go:79-87 | a kind declared again is not discovered a second time |
| `TemplateJobProperties.FindTemplateAppend` | lint/rule_template_job_test.go:55-63 | appending a template does not change the lookup of a name it does not carry, nor of a name already found |
| `TemplateJobProperties.QueriesConcat` | lint/rule_template_job_test.go:79-87 | the queries of two lists declared one after the other are those of the first list followed by those of the second |
| `TemplateJobProperties.FindTemplateInsert` | lint/rule_template_job_test.go:55-63 | inserting a template of another name at any position leaves the lookup of a name unchanged |
| `TemplateJobProperties.EvaluateIgnoresUnrelated` | lint/rule_template_job_test.go:14-23 | a template that is not a datasource and is named neither `job` nor `instance`, inserted at any position, never changes the verdict |
| `TemplateJobProperties.EvaluateIgnoresRepeatedKind` | lint/rule_template_job_test.go:79-87 | a selector for an already declared kind, appended after the existing templates, never changes the verdict |
| `TemplateJobProperties.QueriesSameUpToSpelling` | lint/rule_template_job_test.go:191-206 | respelling references does not change the discovered queries |
| `TemplateJobProperties.FindSameUpToSpelling` | lint/rule_template_job_test.go:191-206 | respelling references finds the corresponding template, with the same stripped reference |
| `TemplateJobProperties.CheckJobRespectsStripping` | lint/rule_template_job_test.go:191-206 | the job checks see a reference only after stripping |
| `TemplateJobProperties.EvaluateRespectsStripping` | lint/rule_template_job_test.go:191-206 | respelling references so that each strips to the same name, such as `$x` for `${x}` with `x` not itself wrapped in braces, never changes the verdict |
| `TemplateJobCases.OneKind` | lint/rule_template_job_test.go:55-63 | one selector followed by a non-selector gives the single kind and the selector `datasource` |
| `TemplateJobCases.TwoKinds` | lint/rule_template_job_test.go:79-91 | two selectors of different kinds give one `<kind>_datasource` per kind, in declaration order |
| `TemplateJobCases.TwoQueries` | lint/rule_template_job_test.go:79-91 | two selectors followed by a non-selector give their two queries in declaration order |
| `TemplateJobCases.PrometheusOrLoki` | lint/rule_template_job_test.go:72 | the two selectors are listed as `$prometheus_datasource or $loki_datasource` |
| `TemplateJobCases.DollarDatasourceExpected` | lint/rule_template_job_test.go:114 | the reference `$datasource` names the single expected selector |
| `TemplateJobCases.NonPrometheusDashboardPasses` | lint/rule_template_job_test.go:14-23 | a dashboard without templates gets `Success`/`OK` |
| `TemplateJobCases.LokiOnlyDashboardIsChecked` | lint/rule_template_job_test.go:14-43 | a dashboard whose only selector has query `loki` gives "Dashboard 'test' is missing the job template" |
| `TemplateJobCases.MissingJobTemplate` | lint/rule_template_job_test.go:24-43 | a Prometheus selector alone gives "Dashboard 'test' is missing the job template" |
| `TemplateJobCases.WrongJobDatasource` | lint/rule_template_job_test.go:44-67 | a job with reference `foo` and no type gives the `$datasource` finding quoting `'foo'` |
| `TemplateJobCases.WrongJobDatasourceOfTwo` | lint/rule_template_job_test.go:68-95 | with `prometheus` and `loki` selectors, the finding lists `$prometheus_datasource or $loki_datasource` |
| `TemplateJobCases.WrongJobType` | lint/rule_template_job_test.go:96-120 | reference `$datasource` with type `bar` gives the Prometheus-query finding quoting `'bar'` |
| `TemplateJobCases.WrongJobLabel` | lint/rule_template_job_test.go:121-146 | a query with label `bar` gives the labelled-'job' finding quoting `'bar'` |
| `TemplateJobCases.MissingInstanceTemplate` | lint/rule_template_job_test.go:147-174 | a well-formed job template alone gives "Dashboard 'test' is missing the instance template" |
| `TemplateJobCases.ConformingDashboardPasses` | lint/rule_template_job_test.go:175-210 | a selector, a well-formed job template and an instance template give `Success`/`OK` |

## Left out

- The rule's own source file is not part of this model. The rule is
  modelled from its test table. The deduplication of kinds, the first-match lookup
  and the exact stripping of malformed references are therefore choices of
  this model, as described above.
- The rule interface, rule registration and the rule's name and description
  strings are left out. They do not appear in the modelled file.
- The `Warning` severity is part of the data model, but this rule never
  produces it. Other lint rules are left out.
- JSON decoding of dashboards and the `json:"list"` tag are left out. The
  templating list is a plain sequence. Decoding belongs to a separate
  component.
- `Multi` and `AllValue` are carried in `Template` but not checked. No test
  case checks them.
- Only the presence of the instance template is checked. Its datasource,
  type and label are not validated. The test table is consistent with
  presence-only checking.
- The Go test harness (`testing.T`, `testRule` and the table loop) is left
  out.
