/** The report centre of `src/routes/Reports.tsx`: generating a report from
    a template, and the time-of-day greeting. */
module Reports {
  import opened Js

  datatype ReportType = Portfolio | Financial | Performance | RiskReport
  datatype ReportStatus = Completed | Generating | Scheduled
  datatype ReportFormat = Pdf | Excel | PowerPoint

  datatype Report = Report(
    id: string, name: string, kind: ReportType, status: ReportStatus,
    lastGenerated: string, format: ReportFormat, size: string, description: string)

  datatype Template = Template(id: string, name: string, description: string)

  const Templates: seq<Template> := [
    Template("monthly", "Báo Cáo Tháng", "Báo cáo hiệu suất và hoạt động hàng tháng"),
    Template("quarterly", "Báo Cáo Quý", "Phân tích toàn diện hiệu suất quý"),
    Template("annual", "Báo Cáo Năm", "Tổng kết và đánh giá hiệu suất cả năm"),
    Template("custom", "Báo Cáo Tùy Chỉnh", "Tạo báo cáo theo yêu cầu riêng")
  ]

  const FallbackName := "Báo Cáo Mới"
  const FallbackDescription := "Báo cáo được tạo tự động"

  /** `reportTemplates.find(t => t.id === id)`: the first template with that id. */
  function FindTemplate(ts: seq<Template>, id: string): (r: Option<Template>)
    ensures r.Some? ==> r.value in ts && r.value.id == id
    ensures r.None? <==> forall i :: 0 <= i < |ts| ==> ts[i].id != id
    decreases |ts|
  {
    if ts == [] then None
    else if ts[0].id == id then Some(ts[0])
    else FindTemplate(ts[1..], id)
  }

  /** `a || b` on strings: the first unless it is empty. */
  function OrElse(a: Option<string>, b: string): string {
    if Truthy(a) then a.value else b
  }

  /** The report built after the delay; the id (`Date.now()`) and the date
      are supplied by the caller. */
  function NewReport(templateId: string, id: string, date: string): Report {
    var t := FindTemplate(Templates, templateId);
    Report(id,
      OrElse(if t.Some? then Some(t.value.name) else None, FallbackName),
      Portfolio, Completed, date, Pdf, "2.1 MB",
      OrElse(if t.Some? then Some(t.value.description) else None, FallbackDescription))
  }

  /** Type, status, format and size are the same for every new report. */
  lemma NewReportFixedFields(templateId: string, id: string, date: string)
    ensures var r := NewReport(templateId, id, date);
      r.id == id && r.lastGenerated == date &&
      r.kind == Portfolio && r.status == Completed && r.format == Pdf && r.size == "2.1 MB"
  {
  }

  /** The template ids are distinct. */
  lemma TemplateIdsDistinct()
    ensures forall j, k :: 0 <= j < k < |Templates| ==> Templates[j].id != Templates[k].id
  {
  }

  /** A known template gives its name and description. */
  lemma NewReportFromTemplate(k: int, id: string, date: string)
    requires 0 <= k < |Templates|
    ensures NewReport(Templates[k].id, id, date).name == Templates[k].name
    ensures NewReport(Templates[k].id, id, date).description == Templates[k].description
  {
    var t := FindTemplate(Templates, Templates[k].id);
    TemplateIdsDistinct();
    assert t.Some?;
    var j :| 0 <= j < |Templates| && Templates[j] == t.value;
    assert j == k;
  }

  /** Any other id gives the fallbacks. */
  lemma NewReportFallback(templateId: string, id: string, date: string)
    requires forall k :: 0 <= k < |Templates| ==> Templates[k].id != templateId
    ensures NewReport(templateId, id, date).name == FallbackName
    ensures NewReport(templateId, id, date).description == FallbackDescription
  {
  }

  lemma QuarterlyReport(id: string, date: string)
    ensures NewReport("quarterly", id, date).name == "Báo Cáo Quý"
  {
    NewReportFromTemplate(1, id, date);
  }

  /** The page's report list and generation flags. */
  class ReportsPage {
    var reports: seq<Report>
    var isGenerating: bool
    var selectedTemplate: Option<string>

    constructor (initial: seq<Report>)
      ensures reports == initial && !isGenerating && selectedTemplate == None
    {
      reports := initial;
      isGenerating := false;
      selectedTemplate := None;
    }

    /** `generateReport` before its delay. */
    method BeginGenerate(templateId: string)
      modifies this
      ensures isGenerating && selectedTemplate == Some(templateId)
      ensures reports == old(reports)
    {
      isGenerating := true;
      selectedTemplate := Some(templateId);
    }

    /** `generateReport` after its delay: the new report goes first. */
    method FinishGenerate(templateId: string, id: string, date: string)
      modifies this
      ensures reports == [NewReport(templateId, id, date)] + old(reports)
      ensures !isGenerating && selectedTemplate == None
    {
      reports := [NewReport(templateId, id, date)] + reports;
      isGenerating := false;
      selectedTemplate := None;
    }

    /** The whole of `generateReport`: exactly one report is prepended and the
      earlier ones follow unchanged. */
    method GenerateReport(templateId: string, id: string, date: string)
      modifies this
      ensures |reports| == |old(reports)| + 1
      ensures reports[0] == NewReport(templateId, id, date) && reports[1..] == old(reports)
      ensures !isGenerating && selectedTemplate == None
    {
      BeginGenerate(templateId);
      FinishGenerate(templateId, id, date);
    }
  }

  // ---------------------------------------------------------------- greeting

  datatype Greeting = Morning | Afternoon | Evening

  /** `getGreeting` for the clock's hour. */
  function GreetingFor(hour: int): Greeting {
    if hour < 12 then Morning else if hour < 18 then Afternoon else Evening
  }

  function GreetingText(g: Greeting): string {
    match g
    case Morning => "Chào Buổi Sáng! ☀️"
    case Afternoon => "Chào Buổi Chiều! 🌤️"
    case Evening => "Chào Buổi Tối! 🌙"
  }

  /** Over the hours of a day: 0–11 morning, 12–17 afternoon, 18–23 evening. */
  lemma GreetingHours(hour: int)
    requires 0 <= hour <= 23
    ensures GreetingFor(hour) == Morning <==> hour <= 11
    ensures GreetingFor(hour) == Afternoon <==> 12 <= hour <= 17
    ensures GreetingFor(hour) == Evening <==> hour >= 18
  {
  }
}
