/**
 * The values the lint rules work on: a dashboard's templating variables and
 * the outcome of applying one rule to one dashboard.
 */
module Lint {

  /** Outcome level of a rule; `Warning` exists but the template-job rule never produces it. */
  datatype Severity = Success | Warning | Error

  /** What one rule reports about one dashboard. */
  datatype Result = Result(severity: Severity, message: string)

  /** The result every rule gives a dashboard it has nothing to say about. */
  const OK: Result := Result(Success, "OK")

  /**
   * One templating variable. Every field defaults to its zero value, so that a
   * template written with only some fields leaves the others empty.
   */
  datatype Template = Template(
    name: string := "",
    templateType: string := "",
    query: string := "",
    datasource: string := "",
    templateLabel: string := "",
    multi: bool := false,
    allValue: string := "")

  /** A dashboard: its title and its templating list, in declaration order. */
  datatype Dashboard = Dashboard(title: string, templates: seq<Template>)

  datatype Option<T> = None | Some(value: T)
}
