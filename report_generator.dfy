/** The report generator: the selected report type and period, a generated report built
    from the report data and the clock, and a share button guarded by the owner's phone
    and by the presence of a report. The report data (fixed sample data in the screen)
    and the clock are parameters. */
module ReportGenerator {
  import opened Wrappers
  import opened Text
  import opened Entities
  import WhatsAppShare

  const DefaultType := "daily"
  const DefaultPeriod := "today"
  const PhoneMissing := "Please enter the owner's phone number in the Scheduled Reports section"
  const NoReport := "Please generate a report first"
  const Generated := "Report generated successfully"
  const NoPendingJobs := "No pending jobs"
  const NoJobsCompletedToday := "No jobs completed today"

  datatype GeneratedReport = GeneratedReport(reportType: string, period: string, data: ReportData, generatedAt: int)

  /** `handleShareReport`'s guards in their order: a missing phone first, then a missing
      report; None when both are present. */
  function ShareGuard(ownerPhoneNumber: string, report: Option<GeneratedReport>): (r: Option<string>)
    ensures r.None? <==> ownerPhoneNumber != "" && report.Some?
    ensures ownerPhoneNumber == "" ==> r == Some(PhoneMissing)
    ensures ownerPhoneNumber != "" && report.None? ==> r == Some(NoReport)
  {
    if ownerPhoneNumber == "" then Some(PhoneMissing)
    else if report.None? then Some(NoReport)
    else None
  }

  /** The card heading, "<Type> Report - <Period>", from the current selection. */
  function Heading(reportType: string, period: string): string {
    Capitalize(reportType) + " Report - " + Capitalize(period)
  }

  lemma HeadingShape(reportType: string, period: string)
    requires |reportType| > 0 && |period| > 0
    ensures var h := Heading(reportType, period);
            |h| == |reportType| + 10 + |period|
            && h[0] == UpperChar(reportType[0]) && h[1..|reportType|] == reportType[1..]
            && h[|reportType|..|reportType| + 10] == " Report - "
            && h[|reportType| + 10] == UpperChar(period[0]) && h[|reportType| + 11..] == period[1..]
  {
    var a, b := Capitalize(reportType), Capitalize(period);
    var h := a + " Report - " + b;
    assert h[..|a|] == a;
    assert h[|a|..|a| + 10] == " Report - ";
    assert h[|a| + 10..] == b;
  }

  /** With the initial selection the heading reads "Daily Report - Today". */
  lemma DefaultHeading()
    ensures Heading(DefaultType, DefaultPeriod) == "Daily Report - Today"
  {
    assert Capitalize("daily") == "Daily";
    assert Capitalize("today") == "Today";
    assert "Daily" + " Report - " + "Today" == "Daily Report - Today";
  }

  /** The note under a section: the fixed sentence exactly when the section is empty. */
  function EmptyNote(count: nat, sentence: string): (r: Option<string>)
    ensures r.Some? <==> count == 0
    ensures r.Some? ==> r.value == sentence
  {
    if count == 0 then Some(sentence) else None
  }

  /** What the report card shows: nothing without a report; otherwise the heading, the
      pending and completed-today counts with their empty notes, and the summary. */
  datatype Card = NoCard | ReportCard(
    heading: string,
    pendingCount: nat, pendingNote: Option<string>,
    completedCount: nat, completedNote: Option<string>,
    summary: MonthlySummary)

  function RenderCard(reportType: string, period: string, report: Option<GeneratedReport>): (r: Card)
    ensures r.NoCard? <==> report.None?
    ensures r.ReportCard? ==>
              r.heading == Heading(reportType, period)
              && r.pendingCount == |report.value.data.pendingJobs|
              && (r.pendingNote == Some(NoPendingJobs) <==> report.value.data.pendingJobs == [])
              && r.completedCount == |report.value.data.completedToday|
              && (r.completedNote == Some(NoJobsCompletedToday) <==> report.value.data.completedToday == [])
              && r.summary == report.value.data.monthlySummary
  {
    if report.None? then NoCard
    else
      var d := report.value.data;
      ReportCard(Heading(reportType, period),
                 |d.pendingJobs|, EmptyNote(|d.pendingJobs|, NoPendingJobs),
                 |d.completedToday|, EmptyNote(|d.completedToday|, NoJobsCompletedToday),
                 d.monthlySummary)
  }

  class ReportGeneratorPanel {
    var reportType: string
    var reportPeriod: string
    var generatedReport: Option<GeneratedReport>
    var showWhatsAppShare: bool
    const ownerPhoneNumber: string

    constructor(ownerPhoneNumber: string)
      ensures reportType == DefaultType && reportPeriod == DefaultPeriod
      ensures generatedReport.None? && !showWhatsAppShare
      ensures this.ownerPhoneNumber == ownerPhoneNumber
    {
      reportType := DefaultType;
      reportPeriod := DefaultPeriod;
      generatedReport := None;
      showWhatsAppShare := false;
      this.ownerPhoneNumber := ownerPhoneNumber;
    }

    method SetReportType(t: string)
      modifies this
      ensures reportType == t && reportPeriod == old(reportPeriod)
      ensures generatedReport == old(generatedReport) && showWhatsAppShare == old(showWhatsAppShare)
    {
      reportType := t;
    }

    method SetReportPeriod(p: string)
      modifies this
      ensures reportPeriod == p && reportType == old(reportType)
      ensures generatedReport == old(generatedReport) && showWhatsAppShare == old(showWhatsAppShare)
    {
      reportPeriod := p;
    }

    /** `generateReport`: store a report of the selected type and period, with the data
        and the time of generation. */
    method Generate(data: ReportData, now: int) returns (toast: string)
      modifies this
      ensures generatedReport == Some(GeneratedReport(reportType, reportPeriod, data, now))
      ensures toast == Generated
      ensures reportType == old(reportType) && reportPeriod == old(reportPeriod)
      ensures showWhatsAppShare == old(showWhatsAppShare)
    {
      generatedReport := Some(GeneratedReport(reportType, reportPeriod, data, now));
      toast := Generated;
    }

    /** `handleShareReport`: the first failing guard's error, and no dialog; with both a
        phone and a report, the dialog opens. */
    method ShareReport() returns (error: Option<string>)
      modifies this
      ensures error == ShareGuard(ownerPhoneNumber, generatedReport)
      ensures showWhatsAppShare == (if error.None? then true else old(showWhatsAppShare))
      ensures reportType == old(reportType) && reportPeriod == old(reportPeriod)
      ensures generatedReport == old(generatedReport)
    {
      if ownerPhoneNumber == "" {
        return Some(PhoneMissing);
      }
      if generatedReport.None? {
        return Some(NoReport);
      }
      error := None;
      showWhatsAppShare := true;
    }

    function Card(): Card
      reads this
    {
      RenderCard(reportType, reportPeriod, generatedReport)
    }
  }

  /** The dialog the button opens is in daily-report mode with the generated report's
      data, so it carries the report message of that data. */
  lemma SharedMessageIsReport(report: GeneratedReport, fmt: int -> string, ts: string)
    ensures WhatsAppShare.MessageTemplate("dailyReport", Some(report.data), None, fmt, ts)
            == WhatsAppShare.ReportMessage(report.data, fmt, ts)
  {
    WhatsAppShare.TemplateChoice("dailyReport", Some(report.data), None, fmt, ts);
  }

  /** A panel that has just opened refuses to share: with an empty phone for the missing
      phone, otherwise because no report is generated yet. Generating and then sharing
      opens the dialog exactly when the phone is set. */
  method GenerateThenShare(ownerPhoneNumber: string, data: ReportData, now: int)
    returns (before: Option<string>, after: Option<string>, dialogOpen: bool)
    ensures before.Some? && after.None? <==> ownerPhoneNumber != ""
    ensures before == Some(if ownerPhoneNumber == "" then PhoneMissing else NoReport)
    ensures dialogOpen <==> ownerPhoneNumber != ""
  {
    var panel := new ReportGeneratorPanel(ownerPhoneNumber);
    before := panel.ShareReport();
    var _ := panel.Generate(data, now);
    after := panel.ShareReport();
    dialogOpen := panel.showWhatsAppShare;
  }
}
