/** The report renderer of internal/infracost/parser.go: the decoded cost
    report records and GenerateReport, which fills a buffer by executing a
    fixed text template over them.

    The template's text and its whitespace-trimming actions are spelled out
    here as the pieces they render to: the `{{-` actions drop the line break
    after the resources heading and every line break between the range
    actions, so each resource adds one leading line break and its bullet. */
module Infracost {
  import opened TextLines

  /** One resource whose estimated monthly cost changed. */
  datatype ResourceDiff = ResourceDiff(name: string, resourceType: string, monthlyCost: string)

  /** The cost diff of one project; resources keep their input order. */
  datatype DiffDetail = DiffDetail(totalMonthlyCost: string, resources: seq<ResourceDiff>)

  datatype Project = Project(name: string, diff: DiffDetail)

  /** The decoded document. Money values are opaque strings, never parsed. */
  datatype InfracostOutput = InfracostOutput(diffTotalMonthlyCost: string, projects: seq<Project>)

  /** The two error returns of GenerateReport: the template does not parse,
      or executing it fails. */
  datatype ReportError = TemplateParseError | TemplateExecuteError

  datatype Result<T> = Ok(value: T) | Err(error: ReportError)

  // The fixed text of the template. The rule and the summary sentence are
  // each written as two literals joined together, which equal the single
  // literal of the template: the verifier can show that a short literal holds
  // no line break, but not a 50-character one within its resource limit.

  /** The fifty-dash rule that opens and closes the report. */
  const DashedRule: string := "-------------------------" + "-------------------------"
  /** U+1F4CA BAR CHART. */
  const BarChart: string := "\U{1F4CA}"
  /** U+1F4C8 CHART WITH UPWARDS TREND. */
  const ChartUp: string := "\U{1F4C8}"
  const Banner: string := BarChart + " **Reporte de FinOps Guardian** " + ChartUp
  /** The summary sentence up to the cost ("aumentará" with U+00E1). */
  const SummaryWords: string := "Este cambio aumentar\U{E1} los costos " + "mensuales estimados en "
  /** The bold markers and the dollar sign around the cost. */
  const CostOpen: string := "**$"
  const CostClose: string := "**."
  /** The resources heading ("añadidos" with U+00F1). */
  const ResourcesHeading: string := "**Recursos a\U{F1}adidos/modificados:**"

  /** Everything the template emits before the banner's line ends. */
  const Opening: string := "\n" + DashedRule + "\n" + Banner + "\n"

  /** What follows the last range action: a break, the rule and a final break. */
  const Footer: string := "\n" + DashedRule + "\n"

  // The report, as a function of the decoded document.

  /** The summary line, with the cost put in verbatim. */
  function SummaryLine(cost: string): string {
    SummaryWords + CostOpen + cost + CostClose
  }

  /** What the body of the inner range emits for one resource: a line break
      and its bullet. */
  function Bullet(r: ResourceDiff): (b: string)
    ensures |b| == 14 + |r.name| + |r.resourceType| + |r.monthlyCost|
    ensures b[..6] == "\n  - `" && b[6..6 + |r.name|] == r.name
    ensures b[|b| - |r.monthlyCost|..] == r.monthlyCost
  {
    var b := "\n  - `" + r.name + "` (" + r.resourceType + "): +$" + r.monthlyCost;
    assert b == "\n  - `" + r.name + ("` (" + r.resourceType + "): +$" + r.monthlyCost);
    b
  }

  /** The bullet line for one resource, without a line break. */
  function BulletLine(r: ResourceDiff): string {
    "  - `" + r.name + "` (" + r.resourceType + "): +$" + r.monthlyCost
  }

  /** The text of the template up to the first range action. */
  function Header(cost: string): (h: string)
    ensures |h| == |Opening| + 1 + |SummaryLine(cost)| + 2 + |ResourcesHeading|
    ensures h[..|Opening|] == Opening
    ensures h[|h| - |ResourcesHeading|..] == ResourcesHeading
  {
    var mid := "\n" + SummaryLine(cost) + "\n\n";
    AppendAssociative(Opening, "\n" + SummaryLine(cost), "\n\n");
    AppendAssociative(Opening, "\n", SummaryLine(cost));
    Framed(Opening, mid, ResourcesHeading);
    Opening + "\n" + SummaryLine(cost) + "\n\n" + ResourcesHeading
  }

  /** What the inner range (over one project's resources) emits. */
  function ResourcesText(rs: seq<ResourceDiff>): (t: string)
    ensures t == "" <==> rs == []
    ensures rs != [] ==> t[0] == '\n'
    ensures |t| >= 14 * |rs|
  {
    if rs == [] then "" else Bullet(rs[0]) + ResourcesText(rs[1..])
  }

  /** What the outer range (over the projects) emits. */
  function ProjectsText(ps: seq<Project>): (t: string)
    ensures t == "" <==> forall i :: 0 <= i < |ps| ==> ps[i].diff.resources == []
    ensures t != "" ==> t[0] == '\n'
  {
    if ps == [] then "" else ResourcesText(ps[0].diff.resources) + ProjectsText(ps[1..])
  }

  /** The text GenerateReport returns for `o`. */
  function Report(o: InfracostOutput): (rep: string)
    ensures Header(o.diffTotalMonthlyCost) <= rep
    ensures rep[|rep| - |Footer|..] == Footer
    ensures rep == Header(o.diffTotalMonthlyCost) + Footer
        <==> forall i :: 0 <= i < |o.projects| ==> o.projects[i].diff.resources == []
  {
    var h := Header(o.diffTotalMonthlyCost);
    Framed(h, ProjectsText(o.projects), Footer);
    PrefixOfAppend(h, ProjectsText(o.projects) + Footer);
    AppendAssociative(h, ProjectsText(o.projects), Footer);
    h + ProjectsText(o.projects) + Footer
  }

  // Independent reference views of the report.

  /** Every resource of every project, in project order and then resource order. */
  function AllResources(ps: seq<Project>): seq<ResourceDiff> {
    if ps == [] then [] else ps[0].diff.resources + AllResources(ps[1..])
  }

  /** One bullet line per resource, in order. */
  function BulletLines(rs: seq<ResourceDiff>): (ls: seq<string>)
    ensures |ls| == |rs|
    ensures forall k :: 0 <= k < |rs| ==> ls[k] == BulletLine(rs[k])
  {
    if rs == [] then [] else [BulletLine(rs[0])] + BulletLines(rs[1..])
  }

  /** The report's lines, read off the template one line at a time, with one
      bullet line per resource. */
  function ExpectedLines(o: InfracostOutput): seq<string> {
    ["", DashedRule, Banner, "", SummaryLine(o.diffTotalMonthlyCost), "", ResourcesHeading]
      + BulletLines(AllResources(o.projects))
      + [DashedRule, ""]
  }

  /** The fields the report shows hold no line break. */
  predicate SingleLineFields(o: InfracostOutput) {
    var rs := AllResources(o.projects);
    && SingleLine(o.diffTotalMonthlyCost)
    && forall k :: 0 <= k < |rs| ==>
         SingleLine(rs[k].name) && SingleLine(rs[k].resourceType) && SingleLine(rs[k].monthlyCost)
  }

  // The renderer.

  /** GenerateReport: parse the fixed template and execute it over `output`
      into a buffer. The template is well formed and every field it names
      exists, so neither error return is ever taken. */
  method GenerateReport(output: InfracostOutput) returns (result: Result<string>)
    ensures result == Ok(Report(output))
  {
    var cost := output.diffTotalMonthlyCost;
    var report := Opening + "\n";
    report := report + (SummaryWords + CostOpen + cost + CostClose);
    report := report + "\n\n" + ResourcesHeading;
    ghost var header := report;
    assert header == Header(cost);
    var i := 0;
    while i < |output.projects|
      invariant i <= |output.projects|
      invariant report == header + ProjectsText(output.projects[..i])
    {
      var resources := output.projects[i].diff.resources;
      ghost var done := report;
      var j := 0;
      while j < |resources|
        invariant j <= |resources|
        invariant report == done + ResourcesText(resources[..j])
      {
        var r := resources[j];
        var bullet := "\n  - `" + r.name + "` (" + r.resourceType + "): +$" + r.monthlyCost;
        ResourcesTextSnoc(resources, j);
        AppendAssociative(done, ResourcesText(resources[..j]), bullet);
        report := report + bullet;
        j := j + 1;
      }
      assert resources[..j] == resources;
      ProjectsTextSnoc(output.projects, i);
      AppendAssociative(header, ProjectsText(output.projects[..i]), ResourcesText(resources));
      i := i + 1;
    }
    assert output.projects[..i] == output.projects;
    report := report + Footer;
    result := Ok(report);
  }

  // Properties of the report.

  /** The inner range over `a + b` emits a's bullets, then b's. */
  lemma {:induction false} ResourcesTextAppend(a: seq<ResourceDiff>, b: seq<ResourceDiff>)
    ensures ResourcesText(a + b) == ResourcesText(a) + ResourcesText(b)
  {
    if a != [] {
      assert (a + b)[0] == a[0] && (a + b)[1..] == a[1..] + b;
      ResourcesTextAppend(a[1..], b);
    } else {
      assert a + b == b;
    }
  }

  /** The outer range over `p1 + p2` emits p1's bullets, then p2's. */
  lemma {:induction false} ProjectsTextAppend(p1: seq<Project>, p2: seq<Project>)
    ensures ProjectsText(p1 + p2) == ProjectsText(p1) + ProjectsText(p2)
  {
    if p1 != [] {
      assert (p1 + p2)[0] == p1[0] && (p1 + p2)[1..] == p1[1..] + p2;
      ProjectsTextAppend(p1[1..], p2);
    } else {
      assert p1 + p2 == p2;
    }
  }

  lemma ResourcesTextSnoc(rs: seq<ResourceDiff>, j: nat)
    requires j < |rs|
    ensures ResourcesText(rs[..j + 1]) == ResourcesText(rs[..j]) + Bullet(rs[j])
  {
    ResourcesTextAppend(rs[..j], [rs[j]]);
    assert rs[..j + 1] == rs[..j] + [rs[j]];
    assert ResourcesText([rs[j]]) == Bullet(rs[j]) + "";
  }

  lemma ProjectsTextSnoc(ps: seq<Project>, i: nat)
    requires i < |ps|
    ensures ProjectsText(ps[..i + 1]) == ProjectsText(ps[..i]) + ResourcesText(ps[i].diff.resources)
  {
    ProjectsTextAppend(ps[..i], [ps[i]]);
    assert ps[..i + 1] == ps[..i] + [ps[i]];
    assert ProjectsText([ps[i]]) == ResourcesText(ps[i].diff.resources) + "";
  }

  /** Rendering composes over the project list. */
  lemma {:induction false} ReportOfJoinedProjects(o: InfracostOutput, p1: seq<Project>, p2: seq<Project>)
    requires o.projects == p1 + p2
    ensures Report(o) == Header(o.diffTotalMonthlyCost) + (ProjectsText(p1) + ProjectsText(p2)) + Footer
  {
    ProjectsTextAppend(p1, p2);
  }

  lemma {:induction false} AllResourcesAppend(p1: seq<Project>, p2: seq<Project>)
    ensures AllResources(p1 + p2) == AllResources(p1) + AllResources(p2)
  {
    if p1 != [] {
      assert (p1 + p2)[0] == p1[0] && (p1 + p2)[1..] == p1[1..] + p2;
      AllResourcesAppend(p1[1..], p2);
    } else {
      assert p1 + p2 == p2;
    }
  }

  /** The nested ranges emit the same text as one range over all resources. */
  lemma {:induction false} ProjectsTextIsFlat(ps: seq<Project>)
    ensures ProjectsText(ps) == ResourcesText(AllResources(ps))
  {
    if ps != [] {
      ProjectsTextIsFlat(ps[1..]);
      ResourcesTextAppend(ps[0].diff.resources, AllResources(ps[1..]));
    }
  }

  /** Resource j of project i is bullet number |AllResources(ps[..i])| + j:
      bullets follow project order, then resource order. */
  lemma {:induction false} BulletOrder(ps: seq<Project>, i: nat, j: nat)
    requires i < |ps| && j < |ps[i].diff.resources|
    ensures |AllResources(ps[..i])| + j < |AllResources(ps)|
    ensures AllResources(ps)[|AllResources(ps[..i])| + j] == ps[i].diff.resources[j]
  {
    assert ps == ps[..i] + ps[i..];
    AllResourcesAppend(ps[..i], ps[i..]);
    assert ps[i..][0] == ps[i];
  }

  lemma BulletIsBreakThenLine(r: ResourceDiff)
    ensures Bullet(r) == "\n" + BulletLine(r)
  {
  }

  /** A line followed by the bullet lines of `rs` and then `tail` joins to
      that line, the bullets as the inner range emits them, a break and the
      joined tail. */
  lemma {:induction false} LineThenBullets(h: string, rs: seq<ResourceDiff>, tail: seq<string>)
    requires |tail| >= 1
    ensures JoinLines([h] + BulletLines(rs) + tail) == h + ResourcesText(rs) + "\n" + JoinLines(tail)
    decreases rs
  {
    var ls := [h] + BulletLines(rs) + tail;
    if rs == [] {
      assert ls[1..] == tail;
    } else {
      var l := BulletLine(rs[0]);
      assert ls[1..] == [l] + BulletLines(rs[1..]) + tail;
      LineThenBullets(l, rs[1..], tail);
      BulletIsBreakThenLine(rs[0]);
      assert ResourcesText(rs) == ("\n" + l) + ResourcesText(rs[1..]);
      RegroupBullet(h, l, ResourcesText(rs[1..]), JoinLines(tail));
    }
  }

  // RegroupBullet and RegroupTemplate each state one re-bracketing over
  // opaque strings. Stated apart, the step does not see the concrete text,
  // and the lemmas that use it stay within the solver's resource limit.
  lemma RegroupBullet(h: string, l: string, rest: string, t: string)
    ensures h + (("\n" + l) + rest) + "\n" + t == h + "\n" + (l + rest + "\n" + t)
  {
  }

  /** The six lines before the heading join to the opening, the summary line
      and the blank line after it. */
  lemma JoinTopLines(rule: string, banner: string, summary: string)
    ensures JoinLines(["", rule, banner, "", summary, ""]) == ("\n" + rule + "\n" + banner + "\n") + "\n" + summary + "\n"
  {
    var ls := ["", rule, banner, "", summary, ""];
    assert ls[1..][1..][1..][1..][1..] == [""];
    assert JoinLines(ls[1..][1..][1..][1..]) == summary + "\n";
    assert JoinLines(ls[1..][1..][1..]) == "\n" + summary + "\n";
    assert JoinLines(ls[1..][1..]) == banner + "\n" + "\n" + summary + "\n";
  }

  /** The heading, the bullet lines and the closing rule join to the text
      from the heading to the end of the report. */
  lemma JoinBottomLines(heading: string, rs: seq<ResourceDiff>, rule: string)
    ensures JoinLines([heading] + BulletLines(rs) + [rule, ""]) == heading + ResourcesText(rs) + ("\n" + rule + "\n")
  {
    LineThenBullets(heading, rs, [rule, ""]);
    assert [rule, ""][1..] == [""];
    assert JoinLines([rule, ""]) == rule + "\n";
    AppendAssociative(heading + ResourcesText(rs), "\n", rule + "\n");
    AppendAssociative("\n", rule, "\n");
  }

  /** The line layout of the template, for any text of its fixed pieces. */
  lemma JoinTemplateLines(rule: string, banner: string, summary: string, heading: string, rs: seq<ResourceDiff>)
    ensures JoinLines(["", rule, banner, "", summary, "", heading] + BulletLines(rs) + [rule, ""])
         == ("\n" + rule + "\n" + banner + "\n") + "\n" + summary + "\n\n" + heading + ResourcesText(rs) + ("\n" + rule + "\n")
  {
    var top := ["", rule, banner, "", summary, ""];
    var rest := [heading] + BulletLines(rs) + [rule, ""];
    assert ["", rule, banner, "", summary, "", heading] + BulletLines(rs) + [rule, ""] == top + rest;
    JoinLinesAppend(top, rest);
    JoinTopLines(rule, banner, summary);
    JoinBottomLines(heading, rs, rule);
    RegroupTemplate("\n" + rule + "\n" + banner + "\n", summary, heading, ResourcesText(rs), "\n" + rule + "\n");
  }

  lemma RegroupTemplate(opening: string, summary: string, heading: string, body: string, footer: string)
    ensures (opening + "\n" + summary + "\n") + "\n" + (heading + body + footer)
         == opening + "\n" + summary + "\n\n" + heading + body + footer
  {
  }

  /** The report, line by line: the fixed lines of the template with one
      bullet line per resource in between. */
  lemma {:induction false} ReportAsLines(o: InfracostOutput)
    ensures Report(o) == JoinLines(ExpectedLines(o))
  {
    ProjectsTextIsFlat(o.projects);
    var summary := SummaryLine(o.diffTotalMonthlyCost);
    JoinTemplateLines(DashedRule, Banner, summary, ResourcesHeading, AllResources(o.projects));
  }

  lemma RuleIsSingleLine()
    ensures SingleLine(DashedRule)
  {
  }

  lemma BannerIsSingleLine()
    ensures SingleLine(Banner)
  {
  }

  lemma HeadingIsSingleLine()
    ensures SingleLine(ResourcesHeading)
  {
  }

  lemma SummaryTextIsSingleLine()
    ensures SingleLine(SummaryWords) && SingleLine(CostOpen) && SingleLine(CostClose)
  {
  }

  /** When no shown field holds a line break, splitting the report at its
      line breaks gives exactly the expected lines: the opening blank line,
      the rule, the banner, a blank line, the summary, a blank line, the
      heading, one bullet per resource in order, the rule and a final empty
      line. */
  lemma {:induction false} ReportLines(o: InfracostOutput)
    requires SingleLineFields(o)
    ensures Lines(Report(o)) == ExpectedLines(o)
    ensures |Lines(Report(o))| == 9 + |AllResources(o.projects)|
  {
    ReportAsLines(o);
    RuleIsSingleLine();
    BannerIsSingleLine();
    HeadingIsSingleLine();
    SummaryTextIsSingleLine();
    var ls := ExpectedLines(o);
    var rs := AllResources(o.projects);
    forall i | 0 <= i < |ls| ensures SingleLine(ls[i]) {
      if 7 <= i < 7 + |rs| {
        assert ls[i] == BulletLine(rs[i - 7]);
      }
    }
    LinesOfJoin(ls);
  }

  /** The report opens with a line break, the rule and the banner, each
      followed by a line break. */
  lemma ReportOpening(o: InfracostOutput)
    ensures |Opening| <= |Report(o)| && Report(o)[..|Opening|] == Opening
    ensures Opening == "\n" + DashedRule + "\n" + BarChart + " **Reporte de FinOps Guardian** " + ChartUp + "\n"
  {
    assert Report(o) == Opening + (Report(o)[|Opening|..]);
  }

  /** The cost appears verbatim between "**$" and "**."; it is neither
      escaped nor interpreted. */
  lemma CostVerbatim(o: InfracostOutput)
    ensures var k := |Opening| + 1 + |SummaryWords| + |CostOpen|;
      var c := o.diffTotalMonthlyCost;
      && k + |c| + 3 <= |Report(o)|
      && Report(o)[k - 3..k] == "**$"
      && Report(o)[k..k + |c|] == c
      && Report(o)[k + |c|..k + |c| + 3] == "**."
  {
    SummaryIsPrefix(o);
    PiecesInPrefix(Report(o), Opening + "\n" + SummaryWords, CostOpen, o.diffTotalMonthlyCost, CostClose);
  }

  lemma SummaryIsPrefix(o: InfracostOutput)
    ensures Opening + "\n" + SummaryWords + CostOpen + o.diffTotalMonthlyCost + CostClose <= Report(o)
  {
    var line := Opening + "\n" + SummaryWords + CostOpen + o.diffTotalMonthlyCost + CostClose;
    var header := Header(o.diffTotalMonthlyCost);
    assert header == line + "\n\n" + ResourcesHeading;
    PrefixOfAppend(line + "\n\n", ResourcesHeading);
    PrefixOfAppend(line, "\n\n");
    PrefixOfAppend(header, ProjectsText(o.projects));
    PrefixOfAppend(header + ProjectsText(o.projects), Footer);
  }

  lemma PrefixOfAppend(a: string, b: string)
    ensures a <= a + b
  {
    assert (a + b)[..|a|] == a;
  }

  /** Where the pieces of a prefix sit in the whole text. */
  lemma PiecesInPrefix(x: string, a: string, b: string, c: string, d: string)
    requires a + b + c + d <= x
    ensures |a| + |b| + |c| + |d| <= |x|
    ensures x[|a|..|a| + |b|] == b
    ensures x[|a| + |b|..|a| + |b| + |c|] == c
    ensures x[|a| + |b| + |c|..|a| + |b| + |c| + |d|] == d
  {
    var p := a + b + c + d;
    assert x[..|p|] == p;
    assert x[|a|..|a| + |b|] == p[|a|..|a| + |b|];
    assert x[|a| + |b|..|a| + |b| + |c|] == p[|a| + |b|..|a| + |b| + |c|];
    assert x[|a| + |b| + |c|..|p|] == p[|a| + |b| + |c|..];
  }

  /** An empty cost leaves the bare "**$**." in the summary. */
  lemma EmptyCostShowsBareDollar(o: InfracostOutput)
    requires o.diffTotalMonthlyCost == ""
    ensures var k := |Opening| + 1 + |SummaryWords| + |CostOpen|;
      k + 3 <= |Report(o)| && Report(o)[k - 3..k + 3] == "**$**."
  {
    CostVerbatim(o);
  }

  /** A project without resources adds nothing, wherever it stands. */
  lemma {:induction false} EmptyProjectAddsNothing(p1: seq<Project>, p: Project, p2: seq<Project>)
    requires p.diff.resources == []
    ensures ProjectsText(p1 + [p] + p2) == ProjectsText(p1 + p2)
  {
    ProjectsTextAppend(p1 + [p], p2);
    ProjectsTextAppend(p1, [p]);
    ProjectsTextAppend(p1, p2);
  }

  /** With no resources in any project (or no projects), the heading is
      followed directly by the closing rule. */
  lemma ReportWithoutResources(o: InfracostOutput)
    requires forall i :: 0 <= i < |o.projects| ==> o.projects[i].diff.resources == []
    ensures Report(o) == Header(o.diffTotalMonthlyCost) + "\n" + DashedRule + "\n"
  {
  }

  /** The report depends only on the summary cost and on the sequence of all
      resources: how they are grouped into projects, and the projects' names
      and totals, never show. */
  lemma {:induction false} ReportDependsOnlyOnResources(o1: InfracostOutput, o2: InfracostOutput)
    requires o1.diffTotalMonthlyCost == o2.diffTotalMonthlyCost
    requires AllResources(o1.projects) == AllResources(o2.projects)
    ensures Report(o1) == Report(o2)
  {
    ProjectsTextIsFlat(o1.projects);
    ProjectsTextIsFlat(o2.projects);
  }

  /** Changing one project's name and total does not change the report. */
  lemma {:induction false} ProjectNameAndTotalIgnored(o: InfracostOutput, i: nat, name: string, total: string)
    requires i < |o.projects|
    ensures Report(o.(projects := o.projects[i := Project(name, DiffDetail(total, o.projects[i].diff.resources))]))
         == Report(o)
  {
    var ps := o.projects;
    var qs := ps[i := Project(name, DiffDetail(total, ps[i].diff.resources))];
    assert ps == ps[..i] + [ps[i]] + ps[i + 1..];
    assert qs == ps[..i] + [qs[i]] + ps[i + 1..];
    ProjectsTextAppend(ps[..i] + [ps[i]], ps[i + 1..]);
    ProjectsTextAppend(ps[..i], [ps[i]]);
    ProjectsTextAppend(ps[..i] + [qs[i]], ps[i + 1..]);
    ProjectsTextAppend(ps[..i], [qs[i]]);
  }

  /** One project with one resource costing 120.50: the summary line and the
      bullet line show the strings as given. The expected bullet is written
      as two literals: compared with one long literal, the proof runs out of
      resources on some solver seeds. */
  lemma SingleResourceExample(o: InfracostOutput, r: ResourceDiff)
    requires r == ResourceDiff("aws_instance.web", "aws_instance", "120.50")
    requires o == InfracostOutput("120.50", [Project("p1", DiffDetail("120.50", [r]))])
    ensures |Lines(Report(o))| == 10
    ensures Lines(Report(o))[4] == SummaryWords + "**$120.50**."
    ensures Lines(Report(o))[7] == "  - `aws_instance.web` (" + "aws_instance): +$120.50"
  {
    ExampleIsSingleLine(o, r);
    ReportLines(o);
    assert AllResources(o.projects) == [r];
    ExampleBullet(r);
    ExampleSummary(o.diffTotalMonthlyCost);
  }

  lemma ExampleIsSingleLine(o: InfracostOutput, r: ResourceDiff)
    requires r == ResourceDiff("aws_instance.web", "aws_instance", "120.50")
    requires o == InfracostOutput("120.50", [Project("p1", DiffDetail("120.50", [r]))])
    ensures SingleLineFields(o)
  {
    assert AllResources(o.projects) == [r];
  }

  lemma ExampleSummary(cost: string)
    requires cost == "120.50"
    ensures SummaryLine(cost) == SummaryWords + "**$120.50**."
  {
    assert CostOpen + cost + CostClose == "**$120.50**.";
  }

  lemma ExampleBullet(r: ResourceDiff)
    requires r == ResourceDiff("aws_instance.web", "aws_instance", "120.50")
    ensures BulletLine(r) == "  - `aws_instance.web` (" + "aws_instance): +$120.50"
  {
    var front := "  - `" + r.name + "` (";
    AppendAssociative(front, r.resourceType, "): +$");
    AppendAssociative(front, r.resourceType + "): +$", r.monthlyCost);
    assert front == "  - `aws_instance.web` (";
    assert r.resourceType + "): +$" + r.monthlyCost == "aws_instance): +$120.50";
  }
}
