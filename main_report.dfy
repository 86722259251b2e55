/** The report renderer of main.go: generateReport, which declares its own
    copies of the record types and of the report template and executes it
    into a buffer exactly as GenerateReport in internal/infracost/parser.go
    does. The records are structurally the same, so they are the parser's
    datatypes under the main package's names. */
module MainReport {
  import Infracost
  import TextLines

  type ResourceDiff = Infracost.ResourceDiff
  type DiffDetail = Infracost.DiffDetail
  type Project = Infracost.Project
  type InfracostOutput = Infracost.InfracostOutput

  // main.go's own copy of the template text, piece by piece, with the rule
  // and the summary split as in the parser's model.

  const Rule: string := "-------------------------" + "-------------------------"
  const Banner: string := "\U{1F4CA}" + " **Reporte de FinOps Guardian** " + "\U{1F4C8}"
  const SummaryWords: string := "Este cambio aumentar\U{E1} los costos " + "mensuales estimados en "
  const Heading: string := "**Recursos a\U{F1}adidos/modificados:**"

  /** main.go's template text is the parser's, character for character. */
  lemma TemplatesAgree()
    ensures Rule == Infracost.DashedRule
    ensures Banner == Infracost.Banner
    ensures SummaryWords == Infracost.SummaryWords
    ensures Heading == Infracost.ResourcesHeading
  {
  }

  /** The text main.go's template emits before its first range action is the
      parser's. */
  lemma HeaderAgrees(cost: string)
    ensures "\n" + Rule + "\n" + Banner + "\n" + "\n" + SummaryWords + "**$" + cost + "**." + "\n\n" + Heading
         == Infracost.Header(cost)
  {
    TemplatesAgree();
  }

  /** generateReport: the template parse error is a programmer error that
      the fixed template never raises, and every field the template names
      exists, so the call always succeeds with the parser's report. */
  method GenerateReport(output: InfracostOutput) returns (result: Infracost.Result<string>)
    ensures result == Infracost.Ok(Infracost.Report(output))
  {
    var cost := output.diffTotalMonthlyCost;
    var report := "\n" + Rule + "\n" + Banner + "\n" + "\n" + SummaryWords + "**$";
    report := report + cost;
    report := report + "**." + "\n\n" + Heading;
    ghost var header := report;
    HeaderAgrees(cost);
    var i := 0;
    while i < |output.projects|
      invariant i <= |output.projects|
      invariant report == header + Infracost.ProjectsText(output.projects[..i])
    {
      var resources := output.projects[i].diff.resources;
      ghost var done := report;
      var j := 0;
      while j < |resources|
        invariant j <= |resources|
        invariant report == done + Infracost.ResourcesText(resources[..j])
      {
        var r := resources[j];
        var bullet := "\n  - `" + r.name + "` (" + r.resourceType + "): +$" + r.monthlyCost;
        Infracost.ResourcesTextSnoc(resources, j);
        TextLines.AppendAssociative(done, Infracost.ResourcesText(resources[..j]), bullet);
        report := report + bullet;
        j := j + 1;
      }
      assert resources[..j] == resources;
      Infracost.ProjectsTextSnoc(output.projects, i);
      TextLines.AppendAssociative(header, Infracost.ProjectsText(output.projects[..i]), Infracost.ResourcesText(resources));
      i := i + 1;
    }
    assert output.projects[..i] == output.projects;
    TemplatesAgree();
    report := report + ("\n" + Rule + "\n");
    result := Infracost.Ok(report);
  }
}
