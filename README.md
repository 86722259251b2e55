# FinOps Guardian report renderer

FinOps Guardian reads the JSON cost report of the Infracost cost-estimation
tool and renders it as the text of a pull-request comment. This project
models that renderer. It exists twice with the same template, as
`GenerateReport` in `internal/infracost/parser.go` and as `generateReport`
in `main.go`.

- Module `Infracost` (`infracost_parser.dfy`) holds the decoded records as
  datatypes: `ResourceDiff`, `DiffDetail`, `Project` and `InfracostOutput`.
  Every money value stays an opaque string. The module also holds the
  template's fixed text as named constants (the 50-dash rule, the banner
  with its two emoji, the Spanish summary and heading).
- `Report` is the template's output written as a pure function. The Go code
  runs `text/template` with `{{-` trim markers. Those markers drop the line
  break after the heading and every line break between the range actions.
  So the output is the header, then for each resource of each project
  `"\n  - `name` (resourceType): +$monthlyCost"`, then a line break, the
  rule and a final line break.
- `Infracost.GenerateReport` is a method. It appends to a string buffer in
  two nested loops, over the projects and then over each project's
  resources, and is proved equal to `Report`.
- Module `MainReport` (`main_report.dfy`) models main.go. Its records are
  type synonyms of the parser's records, which have the same fields. It
  keeps its own copy of the template text, proves that copy equal to the
  parser's, and proves that its `GenerateReport` returns that same report.
- Module `TextLines` (`text_lines.dfy`) splits a text at its `'\n'`
  characters and joins lines back together. It is used to state the report
  line by line.

Both Go functions return `(string, error)`. The model returns
`Result<string>`. One error branch is taken when the fixed template fails to
parse. The other is taken when execution fails: either it meets a field the
record does not have, or writing to its output fails. The template only
names fields the records have, and writes to a `bytes.Buffer` never fail.
So neither branch can be taken here, and both methods are proved to return
`Ok`.

The report begins with a line break before the first rule, because the
template literal opens with one (parser.go:61). The model follows the code
on this.

## Model

| member | source | states |
|---|---|---|
| `Infracost.Header` | internal/infracost/parser.go:61-67 | The text before the first range action. It starts with `Opening` (a line break, the 50-dash rule, a line break, the banner, a line break) and ends with `**Recursos añadidos/modificados:**`. Its length is the opening, a line break, the summary line, two line breaks and the heading. |
| `Infracost.Bullet` | internal/infracost/parser.go:69-71 | One resource's text ``"\n  - `N` (T): +$C"``: it starts with a line break and `  - ` followed by a backquote, then the name `N` verbatim. It ends with the cost `C` verbatim and is 14 characters longer than `N`, `T` and `C` together. |
| `Infracost.ResourcesText` | internal/infracost/parser.go:69-71 | The inner range's text is empty exactly when the project has no resources. Otherwise it starts with a line break, and it is at least 14 characters per resource. |
| `Infracost.ProjectsText` | internal/infracost/parser.go:68-72 | The outer range's text is empty exactly when no project has a resource. Otherwise it starts with a line break. |
| `Infracost.Report` | internal/infracost/parser.go:61-74 | The report starts with `Header(diffTotalMonthlyCost)` and ends with the footer `"\n" + rule + "\n"`. It is exactly header plus footer if and only if no project has a resource. |
| `Infracost.GenerateReport` | internal/infracost/parser.go:60-87 | Always returns `Ok`, never either error. The text is exactly `Report(output)`: header, one bullet per resource (projects in order, resources in order within each), footer. |
| `Infracost.ReportAsLines` | internal/infracost/parser.go:61-74 | For every input, the report is these lines joined by `'\n'`: `""`, rule, banner, `""`, summary line, `""`, heading, one bullet line per resource, rule, `""`. |
| `Infracost.ReportLines` | internal/infracost/parser.go:61-74 | If no shown field contains a line break, splitting the report at its line breaks gives exactly those lines, `9 + (number of resources)` of them. |
| `Infracost.ReportOpening` | internal/infracost/parser.go:61-63 | The report starts with a line break, the 50-dash rule, a line break, the banner `📊 **Reporte de FinOps Guardian** 📈` and a line break. |
| `Infracost.CostVerbatim` | internal/infracost/parser.go:65 | `diffTotalMonthlyCost` appears character for character right after `**$` and right before `**.`, at a fixed offset. It is not escaped or interpreted. |
| `Infracost.EmptyCostShowsBareDollar` | internal/infracost/parser.go:65 | An empty cost leaves the literal `**$**.` in the summary. |
| `Infracost.BulletLines` | internal/infracost/parser.go:70 | Gives one line per resource, and line k is resource k's bullet. |
| `Infracost.BulletIsBreakThenLine` | internal/infracost/parser.go:69-71 | Each resource emits one line break followed by its bullet, and nothing after it, because the trim markers remove the other breaks. |
| `Infracost.ResourcesTextAppend` | internal/infracost/parser.go:69-71 | The inner range over `a + b` emits a's bullets and then b's. |
| `Infracost.ProjectsTextAppend` | internal/infracost/parser.go:68-72 | The outer range over `p1 + p2` emits p1's bullets and then p2's. |
| `Infracost.ReportOfJoinedProjects` | internal/infracost/parser.go:68-73 | Rendering `projects = p1 + p2` gives header + bullets(p1) + bullets(p2) + footer. |
| `Infracost.ProjectsTextIsFlat` | internal/infracost/parser.go:68-72 | The nested ranges emit the same text as one range over all resources, flattened in project order. |
| `Infracost.BulletOrder` | internal/infracost/parser.go:68-72 | Resource j of project i is bullet number `(resources in projects before i) + j`. |
| `Infracost.EmptyProjectAddsNothing` | internal/infracost/parser.go:69-71 | A project with no resources adds no text, wherever it stands in the list. |
| `Infracost.ReportWithoutResources` | internal/infracost/parser.go:67-73 | If no project has a resource, including when there are no projects, the heading is followed directly by a line break, the rule and a line break. |
| `Infracost.ReportDependsOnlyOnResources` | internal/infracost/parser.go:65-71 | Two documents with the same summary cost and the same flattened resource list render the same report. |
| `Infracost.ProjectNameAndTotalIgnored` | internal/infracost/parser.go:65-72 | Changing a project's `name` or its `diff.totalMonthlyCost` never changes the report. |
| `Infracost.SingleResourceExample` | internal/infracost/parser.go:65-70 | For one resource `aws_instance.web` / `aws_instance` / `120.50`, the report has 10 lines. Line 4 ends `**$120.50**.` and line 7 is ``  - `aws_instance.web` (aws_instance): +$120.50``. |
| `MainReport.GenerateReport` | main.go:43-77 | Always returns `Ok`, and the text is exactly the parser's `Report(output)`. So every property above holds for main.go's renderer too. |
| `MainReport.TemplatesAgree` | main.go:45-58 | main.go's rule, banner, summary text and heading are the parser's, character for character. |
| `MainReport.HeaderAgrees` | main.go:45-51 | The text main.go's template emits before its range actions equals the parser's header for every cost. |

## Left out

- `ParseJSONFile` (internal/infracost/parser.go:42-56) and the read and decode steps of `main` (main.go:91-103) are left out. They are file reading and reflection-driven JSON decoding, so only the records they fill are modelled. Their error messages and their partly filled return value are left out with them.
- `main` (main.go:80-114) is left out: flag parsing with its default file name, console output (including the line break `fmt.Println` adds) and exit codes are all I/O.
- The `text/template` engine is left out. Only the fixed template's meaning is modelled, as direct string building. What the template can never do here (fail to parse, name a missing field) is not modelled beyond the two error constructors that are never returned.
- Wrapping errors with `fmt.Errorf` and `%w` is library behaviour and is left out.
- Text is modelled as sequences of Unicode code points, while Go strings are UTF-8 bytes. Nothing is escaped, so the bytes written are the UTF-8 encoding of the modelled text. Go strings that are not valid UTF-8 have no counterpart here; `GenerateReport` would copy them byte for byte, but `json.Unmarshal` never produces them. JSON decoding's own byte handling is not part of this model.
- Go's nil slice and empty slice both loop zero times under `range`. The model has a single empty sequence for both.
- The 50-dash rule and the summary sentence are written as two literals joined together. Each equals the single literal in the source.
