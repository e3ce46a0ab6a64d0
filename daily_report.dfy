/** The daily report panel: the job-card buckets and monthly sums, the plain-text report,
    the preview lists, and the owner-phone guard in front of the share dialog.
    The clock enters as a Clock value: the millisecond timestamps of today's and
    yesterday's midnight, today's month and year, and the month/year of a timestamp. */
module DailyReport {
  import opened Wrappers
  import opened Text
  import opened Collections
  import opened Entities
  import WhatsAppShare

  datatype Clock = Clock(
    today: int,
    yesterday: int,
    month: int,
    year: int,
    monthOf: int -> int,
    yearOf: int -> int)

  // ---------------------------------------------------------------- buckets

  predicate IsPending(j: JobCard) {
    j.status == "pending" || j.status == "in-progress"
  }

  predicate IsCompletedToday(j: JobCard, c: Clock) {
    j.status == "completed" && j.updatedAt >= c.today
  }

  predicate IsCompletedYesterday(j: JobCard, c: Clock) {
    j.status == "completed" && j.updatedAt >= c.yesterday && j.updatedAt < c.today
  }

  predicate IsPaymentPending(j: JobCard) {
    j.paymentStatus == "unpaid" || j.paymentStatus == "partially-paid"
  }

  predicate InMonth(j: JobCard, c: Clock) {
    c.monthOf(j.dateOfService) == c.month && c.yearOf(j.dateOfService) == c.year
  }

  function PaidAmount(j: JobCard): int {
    if j.paymentStatus == "paid" then j.totalAmount else 0
  }

  function UnpaidAmount(j: JobCard): int {
    if j.paymentStatus != "paid" then j.totalAmount else 0
  }

  function Amount(j: JobCard): int { j.totalAmount }

  predicate IsPaid(j: JobCard) { j.paymentStatus == "paid" }

  /** What the panel computes from the job cards on every render. */
  datatype Buckets = Buckets(
    pending: seq<JobCard>,
    completedToday: seq<JobCard>,
    completedYesterday: seq<JobCard>,
    paymentPending: seq<JobCard>,
    thisMonth: seq<JobCard>,
    totalRevenue: int,
    pendingPayments: int)

  /** Five independent filter passes over the same list, and two sums over the month.
      Each bucket is a `filter` of the input, so it keeps the input's order. */
  function ComputeBuckets(jobs: seq<JobCard>, c: Clock): (b: Buckets)
    ensures b.pending == Filter(jobs, IsPending)
    ensures b.completedToday == Filter(jobs, j => IsCompletedToday(j, c))
    ensures b.completedYesterday == Filter(jobs, j => IsCompletedYesterday(j, c))
    ensures b.paymentPending == Filter(jobs, IsPaymentPending)
    ensures b.thisMonth == Filter(jobs, j => InMonth(j, c))
    ensures forall j :: j in b.pending <==> j in jobs && IsPending(j)
    ensures forall j :: j in b.completedToday <==> j in jobs && IsCompletedToday(j, c)
    ensures forall j :: j in b.completedYesterday <==> j in jobs && IsCompletedYesterday(j, c)
    ensures forall j :: j in b.paymentPending <==> j in jobs && IsPaymentPending(j)
    ensures forall j :: j in b.thisMonth <==> j in jobs && InMonth(j, c)
  {
    var month := Filter(jobs, j => InMonth(j, c));
    Buckets(
      Filter(jobs, IsPending),
      Filter(jobs, j => IsCompletedToday(j, c)),
      Filter(jobs, j => IsCompletedYesterday(j, c)),
      Filter(jobs, IsPaymentPending),
      month,
      SumOf(month, PaidAmount),
      SumOf(month, UnpaidAmount))
  }

  /** Both completed buckets hold only completed jobs, and no job is completed both
      today and yesterday. */
  lemma CompletedBucketsDisjoint(jobs: seq<JobCard>, c: Clock)
    ensures var b := ComputeBuckets(jobs, c);
            (forall j :: j in b.completedToday ==> j.status == "completed")
            && (forall j :: j in b.completedYesterday ==> j.status == "completed")
            && (forall j :: !(j in b.completedToday && j in b.completedYesterday))
  {
  }

  /** The payment bucket ignores the job status, so a job can be pending work and
      pending payment at once. */
  lemma PaymentPendingOverlapsPending()
    ensures exists jobs: seq<JobCard>, c: Clock, j ::
              j in ComputeBuckets(jobs, c).pending && j in ComputeBuckets(jobs, c).paymentPending
  {
    var j := JobCard("JC1", "C1", "A", "V1", "Honda", "City", "KA01", "pending", "unpaid",
                     100, "", 0, 0, "", None);
    var c := Clock(0, 0, 0, 0, t => 0, t => 0);
    var b := ComputeBuckets([j], c);
    assert j in b.pending && j in b.paymentPending;
  }

  /** Revenue and pending payments split the month's total between them: a paid job
      counts toward revenue only, any other job toward pending payments only. */
  lemma MonthlySums(jobs: seq<JobCard>, c: Clock)
    ensures var b := ComputeBuckets(jobs, c);
            b.totalRevenue + b.pendingPayments == SumOf(b.thisMonth, Amount)
            && b.totalRevenue == SumOf(Filter(b.thisMonth, IsPaid), Amount)
            && b.pendingPayments == SumOf(Filter(b.thisMonth, j => !IsPaid(j)), Amount)
  {
    var b := ComputeBuckets(jobs, c);
    SumOfSplit(b.thisMonth, PaidAmount, UnpaidAmount, Amount);
    SumOfFilter(b.thisMonth, IsPaid, Amount, PaidAmount);
    SumOfFilter(b.thisMonth, j => !IsPaid(j), Amount, UnpaidAmount);
  }

  /** With no job cards every bucket is empty and both sums are 0. */
  lemma NoJobsEmptyReport(c: Clock)
    ensures ComputeBuckets([], c) == Buckets([], [], [], [], [], 0, 0)
  {
  }

  // ---------------------------------------------------------------- report text

  const TextTitle := "GARAGE SERVICE PRO - DAILY REPORT"
  const SummaryTitle := "MONTHLY SUMMARY:"
  const ItemMark := "- #"

  /** "LABEL (N):" */
  function SectionHeader(title: string, n: nat): string {
    title + " (" + NatToString(n) + "):"
  }

  function PendingLine(j: JobCard): string {
    Concat([ItemMark, j.id, " | ", j.customerName, " | ", j.vehicleReg, " | ", j.status])
  }

  function CompletedLine(j: JobCard, fmt: int -> string): string {
    Concat([ItemMark, j.id, " | ", j.customerName, " | ", j.vehicleReg, " | ", fmt(j.totalAmount)])
  }

  function DueLine(j: JobCard, fmt: int -> string): string {
    Concat([ItemMark, j.id, " | ", j.customerName, " | ", fmt(j.totalAmount)])
  }

  /** One line per job, in bucket order (the entries lemmas below: each line is its
      job's, and starts with "- #"). */
  function PendingLines(s: seq<JobCard>): (r: seq<string>)
    ensures |r| == |s|
  {
    Map(s, PendingLine)
  }

  function CompletedLines(s: seq<JobCard>, fmt: int -> string): (r: seq<string>)
    ensures |r| == |s|
  {
    Map(s, j => CompletedLine(j, fmt))
  }

  function DueLines(s: seq<JobCard>, fmt: int -> string): (r: seq<string>)
    ensures |r| == |s|
  {
    Map(s, j => DueLine(j, fmt))
  }

  lemma {:induction false} PendingLinesEntries(s: seq<JobCard>)
    ensures forall k :: 0 <= k < |s| ==> PendingLines(s)[k] == PendingLine(s[k]) && StartsWith(PendingLines(s)[k], ItemMark)
  {
    forall k | 0 <= k < |s| ensures PendingLines(s)[k] == PendingLine(s[k]) && StartsWith(PendingLines(s)[k], ItemMark) {
      var j := s[k];
      ConcatStartsWith([ItemMark, j.id, " | ", j.customerName, " | ", j.vehicleReg, " | ", j.status]);
    }
  }

  lemma {:induction false} CompletedLinesEntries(s: seq<JobCard>, fmt: int -> string)
    ensures forall k :: 0 <= k < |s| ==> CompletedLines(s, fmt)[k] == CompletedLine(s[k], fmt) && StartsWith(CompletedLines(s, fmt)[k], ItemMark)
  {
    forall k | 0 <= k < |s| ensures CompletedLines(s, fmt)[k] == CompletedLine(s[k], fmt) && StartsWith(CompletedLines(s, fmt)[k], ItemMark) {
      var j := s[k];
      ConcatStartsWith([ItemMark, j.id, " | ", j.customerName, " | ", j.vehicleReg, " | ", fmt(j.totalAmount)]);
    }
  }

  lemma {:induction false} DueLinesEntries(s: seq<JobCard>, fmt: int -> string)
    ensures forall k :: 0 <= k < |s| ==> DueLines(s, fmt)[k] == DueLine(s[k], fmt) && StartsWith(DueLines(s, fmt)[k], ItemMark)
  {
    forall k | 0 <= k < |s| ensures DueLines(s, fmt)[k] == DueLine(s[k], fmt) && StartsWith(DueLines(s, fmt)[k], ItemMark) {
      var j := s[k];
      ConcatStartsWith([ItemMark, j.id, " | ", j.customerName, " | ", fmt(j.totalAmount)]);
    }
  }

  function SummaryBlock(b: Buckets, fmt: int -> string): seq<string> {
    ["", SummaryTitle,
     "- Total Jobs: " + NatToString(|b.thisMonth|),
     "- Total Revenue: " + fmt(b.totalRevenue),
     "- Pending Payments: " + fmt(b.pendingPayments)]
  }

  /** `generateReportText`, line by line; every line, the last included, ends in '\n'. */
  function ReportTextLines(b: Buckets, date: string, fmt: int -> string): seq<string> {
    Assemble(TextTitle, "Date: " + date,
             SectionHeader("PENDING JOBS", |b.pending|), PendingLines(b.pending),
             SectionHeader("COMPLETED TODAY", |b.completedToday|), CompletedLines(b.completedToday, fmt),
             SectionHeader("COMPLETED YESTERDAY", |b.completedYesterday|),
             CompletedLines(b.completedYesterday, fmt),
             SummaryBlock(b, fmt),
             SectionHeader("PAYMENT PENDING JOBS", |b.paymentPending|), DueLines(b.paymentPending, fmt))
  }

  /** The report text's lines from its pieces: title, date, a blank line, then each
      section's header and lines, the summary block before the last section. */
  function Assemble(t: string, d: string, h1: string, p: seq<string>, h2: string, c: seq<string>,
                    h3: string, y: seq<string>, s: seq<string>, h4: string, q: seq<string>): seq<string> {
    [t, d, "", h1] + p + ["", h2] + c + ["", h3] + y + s + ["", h4] + q
  }

  /** `generateReportText`: the text grows by `+=`, one line per job in each section.
      `date` is the formatted current date. */
  method GenerateReportText(b: Buckets, date: string, fmt: int -> string) returns (text: string)
    ensures text == UnLines(ReportTextLines(b, date, fmt))
  {
    text := TextTitle + "\n";
    ghost var lines: seq<string> := [TextTitle];
    UnLinesOne(TextTitle);
    AddLine(text, lines, "Date: " + date);
    text, lines := text + ("Date: " + date) + "\n", lines + ["Date: " + date];
    AddLine(text, lines, "");
    text, lines := text + "\n", lines + [""];
    AddLine(text, lines, SectionHeader("PENDING JOBS", |b.pending|));
    text := text + SectionHeader("PENDING JOBS", |b.pending|) + "\n";
    lines := lines + [SectionHeader("PENDING JOBS", |b.pending|)];
    text := AppendLines(text, b.pending, PendingLine);
    UnLinesAppend(lines, PendingLines(b.pending));
    lines := lines + PendingLines(b.pending);

    AddBlankAndLine(text, lines, SectionHeader("COMPLETED TODAY", |b.completedToday|));
    text := text + "\n" + SectionHeader("COMPLETED TODAY", |b.completedToday|) + "\n";
    lines := lines + ["", SectionHeader("COMPLETED TODAY", |b.completedToday|)];
    text := AppendLines(text, b.completedToday, j => CompletedLine(j, fmt));
    UnLinesAppend(lines, CompletedLines(b.completedToday, fmt));
    lines := lines + CompletedLines(b.completedToday, fmt);

    AddBlankAndLine(text, lines, SectionHeader("COMPLETED YESTERDAY", |b.completedYesterday|));
    text := text + "\n" + SectionHeader("COMPLETED YESTERDAY", |b.completedYesterday|) + "\n";
    lines := lines + ["", SectionHeader("COMPLETED YESTERDAY", |b.completedYesterday|)];
    text := AppendLines(text, b.completedYesterday, j => CompletedLine(j, fmt));
    UnLinesAppend(lines, CompletedLines(b.completedYesterday, fmt));
    lines := lines + CompletedLines(b.completedYesterday, fmt);

    var s := SummaryBlock(b, fmt);
    AddBlankAndLine(text, lines, SummaryTitle);
    text, lines := text + "\n" + SummaryTitle + "\n", lines + ["", SummaryTitle];
    AddLine(text, lines, s[2]);
    text, lines := text + s[2] + "\n", lines + [s[2]];
    AddLine(text, lines, s[3]);
    text, lines := text + s[3] + "\n", lines + [s[3]];
    AddLine(text, lines, s[4]);
    text, lines := text + s[4] + "\n", lines + [s[4]];

    AddBlankAndLine(text, lines, SectionHeader("PAYMENT PENDING JOBS", |b.paymentPending|));
    text := text + "\n" + SectionHeader("PAYMENT PENDING JOBS", |b.paymentPending|) + "\n";
    lines := lines + ["", SectionHeader("PAYMENT PENDING JOBS", |b.paymentPending|)];
    text := AppendLines(text, b.paymentPending, j => DueLine(j, fmt));
    UnLinesAppend(lines, DueLines(b.paymentPending, fmt));
    lines := lines + DueLines(b.paymentPending, fmt);
    TextLinesRegroup(b, date, fmt, lines);
  }

  lemma TextLinesRegroup(b: Buckets, date: string, fmt: int -> string, lines: seq<string>)
    requires var s := SummaryBlock(b, fmt);
             lines == [TextTitle] + ["Date: " + date] + [""]
                      + [SectionHeader("PENDING JOBS", |b.pending|)]
                      + PendingLines(b.pending)
                      + ["", SectionHeader("COMPLETED TODAY", |b.completedToday|)]
                      + CompletedLines(b.completedToday, fmt)
                      + ["", SectionHeader("COMPLETED YESTERDAY", |b.completedYesterday|)]
                      + CompletedLines(b.completedYesterday, fmt)
                      + ["", SummaryTitle] + [s[2]] + [s[3]] + [s[4]]
                      + ["", SectionHeader("PAYMENT PENDING JOBS", |b.paymentPending|)]
                      + DueLines(b.paymentPending, fmt)
    ensures lines == ReportTextLines(b, date, fmt)
  {
    var s := SummaryBlock(b, fmt);
    Regroup(TextTitle, "Date: " + date, SectionHeader("PENDING JOBS", |b.pending|), PendingLines(b.pending),
            SectionHeader("COMPLETED TODAY", |b.completedToday|), CompletedLines(b.completedToday, fmt),
            SectionHeader("COMPLETED YESTERDAY", |b.completedYesterday|), CompletedLines(b.completedYesterday, fmt),
            s[2], s[3], s[4],
            SectionHeader("PAYMENT PENDING JOBS", |b.paymentPending|), DueLines(b.paymentPending, fmt));
  }

  lemma Regroup(t: string, d: string, h1: string, p: seq<string>, h2: string, c: seq<string>,
                h3: string, y: seq<string>, s2: string, s3: string, s4: string, h4: string, q: seq<string>)
    ensures [t] + [d] + [""] + [h1] + p + ["", h2] + c + ["", h3] + y
            + ["", SummaryTitle] + [s2] + [s3] + [s4] + ["", h4] + q
            == Assemble(t, d, h1, p, h2, c, h3, y, ["", SummaryTitle, s2, s3, s4], h4, q)
  {
  }

  /** A section: a header whose count is the number of lines that follow it (each of
      PendingLines, CompletedLines and DueLines promises its lines start with "- #"). */
  ghost predicate SectionAt(lines: seq<string>, at: nat, title: string, items: seq<string>) {
    at + 1 + |items| <= |lines|
    && lines[at..at + 1 + |items|] == [SectionHeader(title, |items|)] + items
  }

  /** The fixed lines of the report text: the title, the date, the blank line before each
      section and the five-line summary block. */
  lemma ReportTextLayout(b: Buckets, date: string, fmt: int -> string)
    ensures var L := ReportTextLines(b, date, fmt);
            var p := |b.pending|;
            var t := |b.completedToday|;
            var y := |b.completedYesterday|;
            var q := |b.paymentPending|;
            |L| == 15 + p + t + y + q
            && L[0] == TextTitle && L[1] == "Date: " + date && L[2] == ""
            && L[4 + p] == ""
            && L[6 + p + t] == ""
            && L[8 + p + t + y..13 + p + t + y] == SummaryBlock(b, fmt)
            && L[13 + p + t + y] == ""
  {
    TextShape(TextTitle, "Date: " + date,
              SectionHeader("PENDING JOBS", |b.pending|), PendingLines(b.pending),
              SectionHeader("COMPLETED TODAY", |b.completedToday|), CompletedLines(b.completedToday, fmt),
              SectionHeader("COMPLETED YESTERDAY", |b.completedYesterday|), CompletedLines(b.completedYesterday, fmt),
              SummaryBlock(b, fmt),
              SectionHeader("PAYMENT PENDING JOBS", |b.paymentPending|), DueLines(b.paymentPending, fmt));
  }

  // Each "(N)" header of the report text counts exactly the "- #" lines that follow
  // it: one per job of its bucket, in bucket order.

  /** The pending jobs, right after the date and a blank line. */
  lemma PendingSection(b: Buckets, date: string, fmt: int -> string)
    ensures SectionAt(ReportTextLines(b, date, fmt), 3, "PENDING JOBS", PendingLines(b.pending))
  {
    FirstSection(TextTitle, "Date: " + date,
                      "PENDING JOBS", PendingLines(b.pending),
                      "COMPLETED TODAY", CompletedLines(b.completedToday, fmt),
                      "COMPLETED YESTERDAY", CompletedLines(b.completedYesterday, fmt),
                      SummaryBlock(b, fmt), "PAYMENT PENDING JOBS", DueLines(b.paymentPending, fmt));
  }

  /** The jobs completed today, after the pending ones and a blank line. */
  lemma CompletedTodaySection(b: Buckets, date: string, fmt: int -> string)
    ensures SectionAt(ReportTextLines(b, date, fmt), 5 + |b.pending|,
                      "COMPLETED TODAY", CompletedLines(b.completedToday, fmt))
  {
    SecondSection(TextTitle, "Date: " + date,
                      "PENDING JOBS", PendingLines(b.pending),
                      "COMPLETED TODAY", CompletedLines(b.completedToday, fmt),
                      "COMPLETED YESTERDAY", CompletedLines(b.completedYesterday, fmt),
                      SummaryBlock(b, fmt), "PAYMENT PENDING JOBS", DueLines(b.paymentPending, fmt));
  }

  /** The jobs completed yesterday, after today's and a blank line. */
  lemma CompletedYesterdaySection(b: Buckets, date: string, fmt: int -> string)
    ensures SectionAt(ReportTextLines(b, date, fmt), 7 + |b.pending| + |b.completedToday|,
                      "COMPLETED YESTERDAY", CompletedLines(b.completedYesterday, fmt))
  {
    ThirdSection(TextTitle, "Date: " + date,
                      "PENDING JOBS", PendingLines(b.pending),
                      "COMPLETED TODAY", CompletedLines(b.completedToday, fmt),
                      "COMPLETED YESTERDAY", CompletedLines(b.completedYesterday, fmt),
                      SummaryBlock(b, fmt), "PAYMENT PENDING JOBS", DueLines(b.paymentPending, fmt));
  }

  /** The jobs awaiting payment, after the summary block and a blank line. */
  lemma PaymentPendingSection(b: Buckets, date: string, fmt: int -> string)
    ensures SectionAt(ReportTextLines(b, date, fmt), 14 + |b.pending| + |b.completedToday| + |b.completedYesterday|,
                      "PAYMENT PENDING JOBS", DueLines(b.paymentPending, fmt))
  {
    FourthSection(TextTitle, "Date: " + date,
                      "PENDING JOBS", PendingLines(b.pending),
                      "COMPLETED TODAY", CompletedLines(b.completedToday, fmt),
                      "COMPLETED YESTERDAY", CompletedLines(b.completedYesterday, fmt),
                      SummaryBlock(b, fmt), "PAYMENT PENDING JOBS", DueLines(b.paymentPending, fmt));
  }

  /** The four sections of assembled lines, over generic titles and item lines. */
  lemma AssembledSections(t: string, d: string, T1: string, p: seq<string>, T2: string, c: seq<string>,
                          T3: string, y: seq<string>, s: seq<string>, T4: string, q: seq<string>)
    requires |s| == 5
    ensures var L := Assemble(t, d, SectionHeader(T1, |p|), p, SectionHeader(T2, |c|), c,
                              SectionHeader(T3, |y|), y, s, SectionHeader(T4, |q|), q);
            SectionAt(L, 3, T1, p)
            && SectionAt(L, 5 + |p|, T2, c)
            && SectionAt(L, 7 + |p| + |c|, T3, y)
            && SectionAt(L, 14 + |p| + |c| + |y|, T4, q)
  {
    var L := Assemble(t, d, SectionHeader(T1, |p|), p, SectionHeader(T2, |c|), c,
                      SectionHeader(T3, |y|), y, s, SectionHeader(T4, |q|), q);
    TextShape(t, d, SectionHeader(T1, |p|), p, SectionHeader(T2, |c|), c,
              SectionHeader(T3, |y|), y, s, SectionHeader(T4, |q|), q);
    HeaderThen(L, 3, SectionHeader(T1, |p|), p);
    HeaderThen(L, 5 + |p|, SectionHeader(T2, |c|), c);
    HeaderThen(L, 7 + |p| + |c|, SectionHeader(T3, |y|), y);
    HeaderThen(L, 14 + |p| + |c| + |y|, SectionHeader(T4, |q|), q);
  }

  // One section at a time, so that each caller sees only the section it states.

  lemma FirstSection(t: string, d: string, T1: string, p: seq<string>, T2: string, c: seq<string>,
                  T3: string, y: seq<string>, s: seq<string>, T4: string, q: seq<string>)
    requires |s| == 5
    ensures var L := Assemble(t, d, SectionHeader(T1, |p|), p, SectionHeader(T2, |c|), c,
                              SectionHeader(T3, |y|), y, s, SectionHeader(T4, |q|), q);
            SectionAt(L, 3, T1, p)
  {
    AssembledSections(t, d, T1, p, T2, c, T3, y, s, T4, q);
  }

  lemma SecondSection(t: string, d: string, T1: string, p: seq<string>, T2: string, c: seq<string>,
                  T3: string, y: seq<string>, s: seq<string>, T4: string, q: seq<string>)
    requires |s| == 5
    ensures var L := Assemble(t, d, SectionHeader(T1, |p|), p, SectionHeader(T2, |c|), c,
                              SectionHeader(T3, |y|), y, s, SectionHeader(T4, |q|), q);
            SectionAt(L, 5 + |p|, T2, c)
  {
    AssembledSections(t, d, T1, p, T2, c, T3, y, s, T4, q);
  }

  lemma ThirdSection(t: string, d: string, T1: string, p: seq<string>, T2: string, c: seq<string>,
                  T3: string, y: seq<string>, s: seq<string>, T4: string, q: seq<string>)
    requires |s| == 5
    ensures var L := Assemble(t, d, SectionHeader(T1, |p|), p, SectionHeader(T2, |c|), c,
                              SectionHeader(T3, |y|), y, s, SectionHeader(T4, |q|), q);
            SectionAt(L, 7 + |p| + |c|, T3, y)
  {
    AssembledSections(t, d, T1, p, T2, c, T3, y, s, T4, q);
  }

  lemma FourthSection(t: string, d: string, T1: string, p: seq<string>, T2: string, c: seq<string>,
                  T3: string, y: seq<string>, s: seq<string>, T4: string, q: seq<string>)
    requires |s| == 5
    ensures var L := Assemble(t, d, SectionHeader(T1, |p|), p, SectionHeader(T2, |c|), c,
                              SectionHeader(T3, |y|), y, s, SectionHeader(T4, |q|), q);
            SectionAt(L, 14 + |p| + |c| + |y|, T4, q)
  {
    AssembledSections(t, d, T1, p, T2, c, T3, y, s, T4, q);
  }

  lemma HeaderThen(L: seq<string>, at: nat, h: string, items: seq<string>)
    requires at + 1 + |items| <= |L| && L[at] == h && L[at + 1..at + 1 + |items|] == items
    ensures L[at..at + 1 + |items|] == [h] + items
  {
    assert L[at..at + 1 + |items|] == [L[at]] + L[at + 1..at + 1 + |items|];
  }

  /** The layout of the report text, over its pieces. */
  lemma TextShape(t: string, d: string, h1: string, p: seq<string>, h2: string, c: seq<string>,
                  h3: string, y: seq<string>, s: seq<string>, h4: string, q: seq<string>)
    ensures var L := Assemble(t, d, h1, p, h2, c, h3, y, s, h4, q);
            var P, C, Y, S := |p|, |c|, |y|, |s|;
            |L| == 10 + P + C + Y + S + |q|
            && L[0] == t && L[1] == d && L[2] == "" && L[3] == h1
            && L[4..4 + P] == p
            && L[4 + P] == "" && L[5 + P] == h2
            && L[6 + P..6 + P + C] == c
            && L[6 + P + C] == "" && L[7 + P + C] == h3
            && L[8 + P + C..8 + P + C + Y] == y
            && L[8 + P + C + Y..8 + P + C + Y + S] == s
            && L[8 + P + C + Y + S] == "" && L[9 + P + C + Y + S] == h4
            && L[10 + P + C + Y + S..] == q
  {
    var h0: seq<string> := [t, d, "", h1];
    var g1: seq<string> := ["", h2];
    var g2: seq<string> := ["", h3];
    var g3: seq<string> := ["", h4];
    NinePieces(h0, p, g1, c, g2, y, s, g3, q);
    var L := h0 + p + g1 + c + g2 + y + s + g3 + q;
    var P, C, Y, S := |p|, |c|, |y|, |s|;
    assert L[..4] == h0;
    assert L[0] == h0[0] && L[1] == h0[1] && L[2] == h0[2] && L[3] == h0[3];
    assert L[4 + P..6 + P] == g1;
    assert L[4 + P] == g1[0] && L[5 + P] == g1[1];
    assert L[6 + P + C..8 + P + C] == g2;
    assert L[6 + P + C] == g2[0] && L[7 + P + C] == g2[1];
    assert L[8 + P + C + Y + S..10 + P + C + Y + S] == g3;
    assert L[8 + P + C + Y + S] == g3[0] && L[9 + P + C + Y + S] == g3[1];
  }

  // ---------------------------------------------------------------- preview

  /** A preview section: the fixed sentence when the bucket is empty, otherwise its
      first three jobs and, past three, the count of the rest. */
  datatype Preview = NoneToShow(text: string) | Shown(jobs: seq<JobCard>, more: Option<string>)

  function MoreJobsNote(n: nat): string {
    Concat(["+ ", NatToString(n), " more jobs"])
  }

  function SectionPreview(s: seq<JobCard>, emptyText: string): (r: Preview)
    ensures r.NoneToShow? <==> s == []
    ensures r.NoneToShow? ==> r.text == emptyText
    ensures r.Shown? ==> |r.jobs| == (if |s| < 3 then |s| else 3) && r.jobs == s[..|r.jobs|]
    ensures r.Shown? ==> (r.more.Some? <==> |s| > 3)
    ensures r.Shown? && r.more.Some? ==> r.more.value == MoreJobsNote(|s| - 3)
  {
    if |s| > 0 then
      Shown(if |s| < 3 then s else s[..3], if |s| > 3 then Some(MoreJobsNote(|s| - 3)) else None)
    else NoneToShow(emptyText)
  }

  function PendingPreview(b: Buckets): Preview { SectionPreview(b.pending, "No pending jobs") }

  function CompletedPreview(b: Buckets): Preview {
    SectionPreview(b.completedToday, "No completed jobs today")
  }

  /** The shown jobs and the "+ k more" count together account for the whole bucket. */
  lemma PreviewAccountsForAll(s: seq<JobCard>, emptyText: string)
    requires |s| > 3
    ensures var r := SectionPreview(s, emptyText);
            r.Shown? && r.more == Some(MoreJobsNote(|s| - |r.jobs|))
  {
  }

  // ---------------------------------------------------------------- panel state

  const OwnerPhoneMissing := "Please enter the owner's phone number"

  class DailyReportPanel {
    var reportTime: string
    var reportPeriod: string
    var showShareDialog: bool
    var ownerPhoneNumber: string

    constructor()
      ensures reportTime == "18:00" && reportPeriod == "today"
      ensures !showShareDialog && ownerPhoneNumber == ""
    {
      reportTime := "18:00";
      reportPeriod := "today";
      showShareDialog := false;
      ownerPhoneNumber := "";
    }

    method SetOwnerPhoneNumber(p: string)
      modifies this
      ensures ownerPhoneNumber == p
      ensures reportTime == old(reportTime) && reportPeriod == old(reportPeriod)
      ensures showShareDialog == old(showShareDialog)
    {
      ownerPhoneNumber := p;
    }

    /** `handleGenerateReport`: an empty owner number is an error and leaves the dialog as
        it was; any other number opens the share dialog. */
    method GenerateReport() returns (error: Option<string>)
      modifies this
      ensures ownerPhoneNumber == old(ownerPhoneNumber)
      ensures reportTime == old(reportTime) && reportPeriod == old(reportPeriod)
      ensures ownerPhoneNumber == "" ==> error == Some(OwnerPhoneMissing) && showShareDialog == old(showShareDialog)
      ensures ownerPhoneNumber != "" ==> error == None && showShareDialog
    {
      if ownerPhoneNumber == "" {
        return Some(OwnerPhoneMissing);
      }
      showShareDialog := true;
      return None;
    }
  }

  /** The share dialog below the panel is given the owner's number and the daily-report
      mode but neither report data nor a job card, so the message it sends is empty. */
  function PanelShareMessage(fmt: int -> string, ts: string): (r: string)
    ensures r == ""
  {
    WhatsAppShare.MessageTemplate("dailyReport", None, None, fmt, ts)
  }
}
