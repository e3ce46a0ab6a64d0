/** The WhatsApp share dialog: the daily-report message, the per-mode message templates,
    the phone-number guard, the wa.me link and the dialog title.
    Currency formatting, `encodeURIComponent` and the "Generated on" timestamp are
    parameters (`fmt`, `enc`, `ts`). */
module WhatsAppShare {
  import opened Wrappers
  import opened Text
  import opened Entities
  import opened Collections

  // ---------------------------------------------------------------- phone guard and link

  const InvalidPhone := "Please enter a valid phone number"
  const LinkPrefix := "https://wa.me/"
  const TextParam := "?text="

  /** The guard every share handler applies: a non-empty number of at least 10 characters.
      The length is that of the raw input, separators included. */
  predicate PhoneAccepted(phone: string) {
    !(phone == "" || |phone| < 10)
  }

  /** The link a share handler opens: `https://wa.me/<digits>?text=<enc(message)>`,
      or the invalid-number error. */
  function ShareLink(phone: string, message: string, enc: string -> string): (r: Result<string>)
    ensures r.Ok? <==> |phone| >= 10
    ensures r.Err? ==> r.message == InvalidPhone
    ensures r.Ok? ==> StartsWith(r.value, LinkPrefix + DigitsOnly(phone) + TextParam)
  {
    if !PhoneAccepted(phone) then Err(InvalidPhone)
    else
      var url := LinkPrefix + DigitsOnly(phone) + TextParam + enc(message);
      StartsWithAppend(LinkPrefix + DigitsOnly(phone) + TextParam, enc(message));
      Ok(url)
  }

  /** Reads a wa.me link back into the number and the text parameter. */
  function LinkParts(url: string): Option<(string, string)> {
    if !StartsWith(url, LinkPrefix) then None
    else
      match SplitAtFirst(url[|LinkPrefix|..], '?')
      case None => None
      case Some((number, rest)) =>
        if StartsWith(rest, "text=") then Some((number, rest[5..])) else None
  }

  /** The link carries exactly the digits of the number and the encoded message:
      a digit string never holds the '?' that starts the query. */
  lemma ShareLinkRoundTrip(phone: string, message: string, enc: string -> string)
    requires PhoneAccepted(phone)
    ensures LinkParts(ShareLink(phone, message, enc).value) == Some((DigitsOnly(phone), enc(message)))
  {
    var d := DigitsOnly(phone);
    var e := enc(message);
    var url := ShareLink(phone, message, enc).value;
    assert url == LinkPrefix + (d + "?" + ("text=" + e));
    StartsWithAppend(LinkPrefix, d + "?" + ("text=" + e));
    assert url[|LinkPrefix|..] == d + ['?'] + ("text=" + e);
    SplitAtFirstAppend(d, '?', "text=" + e);
    StartsWithAppend("text=", e);
    assert ("text=" + e)[5..] == e;
  }

  // ---------------------------------------------------------------- daily report message

  const ReportTitle := "*GARAGE SERVICE PRO - DAILY REPORT*"
  const PendingHeader := "*📋 PENDING JOBS*"
  const CompletedHeader := "*✅ COMPLETED TODAY*"
  const SummaryHeader := "*📊 MONTHLY SUMMARY*"
  const DueHeader := "*💰 PAYMENT PENDING JOBS*"
  const NoPending := "No pending jobs."
  const NoCompleted := "No jobs completed today."
  const NoDue := "No pending payments."

  /** The number in front of entry k of a list: "k+1. ". */
  function Numbered(k: nat): string { NatToString(k + 1) + ". " }

  /** The two lines of entry k of each list. */
  function PendingFirst(k: nat, e: PendingEntry): string {
    Concat([Numbered(k), e.id, " - ", e.customerName, " (", e.vehicleReg, ")"])
  }
  function PendingSecond(e: PendingEntry): string {
    Concat(["   Status: ", e.status, ", Mechanic: ", e.mechanicName])
  }
  function CompletedFirst(k: nat, e: CompletedEntry): string {
    Concat([Numbered(k), e.id, " - ", e.customerName, " (", e.vehicleReg, ")"])
  }
  function CompletedSecond(e: CompletedEntry, fmt: int -> string): string {
    Concat(["   Amount: ", fmt(e.totalAmount)])
  }
  function DueFirst(k: nat, e: DueEntry): string {
    Concat([Numbered(k), e.id, " - ", e.customerName])
  }
  function DueSecond(e: DueEntry, fmt: int -> string): string {
    Concat(["   Amount Due: ", fmt(e.amountDue)])
  }

  /** Two lines per pending job, in input order, entry k numbered k + 1. */
  function PendingItems(s: seq<PendingEntry>): (r: seq<string>)
    ensures |r| == 2 * |s|
    decreases |s|
  {
    if s == [] then []
    else PendingItems(s[..|s| - 1]) + [PendingFirst(|s| - 1, s[|s| - 1]), PendingSecond(s[|s| - 1])]
  }

  function CompletedItems(s: seq<CompletedEntry>, fmt: int -> string): (r: seq<string>)
    ensures |r| == 2 * |s|
    decreases |s|
  {
    if s == [] then []
    else CompletedItems(s[..|s| - 1], fmt) + [CompletedFirst(|s| - 1, s[|s| - 1]), CompletedSecond(s[|s| - 1], fmt)]
  }

  function DueItems(s: seq<DueEntry>, fmt: int -> string): (r: seq<string>)
    ensures |r| == 2 * |s|
    decreases |s|
  {
    if s == [] then []
    else DueItems(s[..|s| - 1], fmt) + [DueFirst(|s| - 1, s[|s| - 1]), DueSecond(s[|s| - 1], fmt)]
  }

  /** Entry k of the list is lines 2k and 2k + 1. */
  lemma {:induction false} PendingItemsEntries(s: seq<PendingEntry>)
    ensures forall k :: 0 <= k < |s| ==> PendingItems(s)[2 * k] == PendingFirst(k, s[k])
    ensures forall k :: 0 <= k < |s| ==> PendingItems(s)[2 * k + 1] == PendingSecond(s[k])
    decreases |s|
  {
    if s != [] {
      var n := |s| - 1;
      PendingItemsEntries(s[..n]);
      assert s[..n] + [s[n]] == s;
      forall k | 0 <= k < n ensures PendingItems(s)[2 * k] == PendingFirst(k, s[k]) && PendingItems(s)[2 * k + 1] == PendingSecond(s[k]) {
        assert s[..n][k] == s[k];
      }
    }
  }

  /** Entry k of the list is lines 2k and 2k + 1. */
  lemma {:induction false} CompletedItemsEntries(s: seq<CompletedEntry>, fmt: int -> string)
    ensures forall k :: 0 <= k < |s| ==> CompletedItems(s, fmt)[2 * k] == CompletedFirst(k, s[k])
    ensures forall k :: 0 <= k < |s| ==> CompletedItems(s, fmt)[2 * k + 1] == CompletedSecond(s[k], fmt)
    decreases |s|
  {
    if s != [] {
      var n := |s| - 1;
      CompletedItemsEntries(s[..n], fmt);
      assert s[..n] + [s[n]] == s;
      forall k | 0 <= k < n ensures CompletedItems(s, fmt)[2 * k] == CompletedFirst(k, s[k]) && CompletedItems(s, fmt)[2 * k + 1] == CompletedSecond(s[k], fmt) {
        assert s[..n][k] == s[k];
      }
    }
  }

  /** Entry k of the list is lines 2k and 2k + 1. */
  lemma {:induction false} DueItemsEntries(s: seq<DueEntry>, fmt: int -> string)
    ensures forall k :: 0 <= k < |s| ==> DueItems(s, fmt)[2 * k] == DueFirst(k, s[k])
    ensures forall k :: 0 <= k < |s| ==> DueItems(s, fmt)[2 * k + 1] == DueSecond(s[k], fmt)
    decreases |s|
  {
    if s != [] {
      var n := |s| - 1;
      DueItemsEntries(s[..n], fmt);
      assert s[..n] + [s[n]] == s;
      forall k | 0 <= k < n ensures DueItems(s, fmt)[2 * k] == DueFirst(k, s[k]) && DueItems(s, fmt)[2 * k + 1] == DueSecond(s[k], fmt) {
        assert s[..n][k] == s[k];
      }
    }
  }

  /** A list section: the numbered entries, or the fixed sentence when there are none. */
  function PendingBlock(s: seq<PendingEntry>): seq<string> {
    if |s| > 0 then PendingItems(s) else [NoPending]
  }
  function CompletedBlock(s: seq<CompletedEntry>, fmt: int -> string): seq<string> {
    if |s| > 0 then CompletedItems(s, fmt) else [NoCompleted]
  }
  function DueBlock(s: seq<DueEntry>, fmt: int -> string): seq<string> {
    if |s| > 0 then DueItems(s, fmt) else [NoDue]
  }

  function SummaryLines(m: MonthlySummary, fmt: int -> string): seq<string> {
    ["Total Jobs: " + IntToString(m.totalJobs),
     "Total Revenue: " + fmt(m.totalRevenue),
     "Pending Payments: " + fmt(m.pendingPayments)]
  }

  /** The report message, line by line, every line ended by '\n'; the timestamp line follows. */
  function ReportLines(d: ReportData, fmt: int -> string): seq<string> {
    AssembleReport(PendingBlock(d.pendingJobs), CompletedBlock(d.completedToday, fmt),
                   SummaryLines(d.monthlySummary, fmt), DueBlock(d.pendingPayments, fmt))
  }

  /** The report's lines around its four blocks: the title, a header after a blank line
      before each block, and a closing blank line. */
  function AssembleReport(pb: seq<string>, cb: seq<string>, s: seq<string>, db: seq<string>): seq<string> {
    [ReportTitle, "", PendingHeader] + pb
    + ["", CompletedHeader] + cb
    + ["", SummaryHeader] + s
    + ["", DueHeader] + db
    + [""]
  }

  function TimestampLine(ts: string): string { "Generated on: " + ts }

  /** `formatReportForWhatsApp` as a value. */
  function ReportMessage(d: ReportData, fmt: int -> string, ts: string): string {
    UnLines(ReportLines(d, fmt)) + TimestampLine(ts)
  }

  /** `formatReportForWhatsApp`: the message is built by appending to it, section by
      section and entry by entry; `lines` records the lines written so far. */
  method FormatReportForWhatsApp(d: ReportData, fmt: int -> string, ts: string) returns (message: string)
    ensures message == ReportMessage(d, fmt, ts)
  {
    message := ReportTitle + "\n" + "\n";
    ghost var lines: seq<string> := [ReportTitle, ""];
    UnLinesTwo(ReportTitle, "");
    AddLine(message, lines, PendingHeader);
    message, lines := message + PendingHeader + "\n", lines + [PendingHeader];
    var next := AppendPending(message, d.pendingJobs);
    UnLinesAppend(lines, PendingBlock(d.pendingJobs));
    message, lines := next, lines + PendingBlock(d.pendingJobs);
    AddLine(message, lines, "");
    message, lines := message + "\n", lines + [""];
    AddLine(message, lines, CompletedHeader);
    message, lines := message + CompletedHeader + "\n", lines + [CompletedHeader];
    next := AppendCompleted(message, d.completedToday, fmt);
    UnLinesAppend(lines, CompletedBlock(d.completedToday, fmt));
    message, lines := next, lines + CompletedBlock(d.completedToday, fmt);
    AddLine(message, lines, "");
    message, lines := message + "\n", lines + [""];

    var m := d.monthlySummary;
    AddLine(message, lines, SummaryHeader);
    message, lines := message + SummaryHeader + "\n", lines + [SummaryHeader];
    var jobsLine := "Total Jobs: " + IntToString(m.totalJobs);
    AddLine(message, lines, jobsLine);
    message, lines := message + jobsLine + "\n", lines + [jobsLine];
    var revenueLine := "Total Revenue: " + fmt(m.totalRevenue);
    AddLine(message, lines, revenueLine);
    message, lines := message + revenueLine + "\n", lines + [revenueLine];
    var dueLine := "Pending Payments: " + fmt(m.pendingPayments);
    AddLine(message, lines, dueLine);
    message, lines := message + dueLine + "\n", lines + [dueLine];
    AddLine(message, lines, "");
    message, lines := message + "\n", lines + [""];

    AddLine(message, lines, DueHeader);
    message, lines := message + DueHeader + "\n", lines + [DueHeader];
    next := AppendDue(message, d.pendingPayments, fmt);
    UnLinesAppend(lines, DueBlock(d.pendingPayments, fmt));
    message, lines := next, lines + DueBlock(d.pendingPayments, fmt);
    AddLine(message, lines, "");
    message, lines := message + "\n", lines + [""];
    LinesRegroup(PendingBlock(d.pendingJobs), CompletedBlock(d.completedToday, fmt),
                 jobsLine, revenueLine, dueLine, DueBlock(d.pendingPayments, fmt));
    message := message + TimestampLine(ts);
  }

  /** The lines in the order the method writes them are the report lines. */
  lemma LinesRegroup(pb: seq<string>, cb: seq<string>, j: string, r: string, p: string, db: seq<string>)
    ensures [ReportTitle, ""] + [PendingHeader] + pb + [""] + [CompletedHeader] + cb + [""]
            + [SummaryHeader] + [j] + [r] + [p] + [""] + [DueHeader] + db + [""]
            == [ReportTitle, "", PendingHeader] + pb + ["", CompletedHeader] + cb
               + ["", SummaryHeader] + [j, r, p] + ["", DueHeader] + db + [""]
  {
  }

  /** One list section of the report: every entry's two lines, or the fixed sentence. */
  method AppendPending(message: string, p: seq<PendingEntry>) returns (r: string)
    ensures r == message + UnLines(PendingBlock(p))
  {
    r := message;
    if |p| > 0 {
      var i := 0;
      assert PendingItems(p[..0]) == [];
      while i < |p|
        invariant 0 <= i <= |p|
        invariant r == message + UnLines(PendingItems(p[..i]))
      {
        assert p[..i + 1][..i] == p[..i];
        var first := PendingFirst(i, p[i]);
        var second := PendingSecond(p[i]);
        var entry := first + "\n" + second + "\n";
        assert PendingItems(p[..i + 1]) == PendingItems(p[..i]) + [first, second];
        UnLinesAppend(PendingItems(p[..i]), [first, second]);
        UnLinesTwo(first, second);
        AppendAssoc(message, UnLines(PendingItems(p[..i])), entry);
        r := r + entry;
        i := i + 1;
      }
      assert p[..|p|] == p;
    } else {
      UnLinesOne(NoPending);
      r := r + NoPending + "\n";
    }
  }

  method AppendCompleted(message: string, c: seq<CompletedEntry>, fmt: int -> string) returns (r: string)
    ensures r == message + UnLines(CompletedBlock(c, fmt))
  {
    r := message;
    if |c| > 0 {
      var i := 0;
      assert CompletedItems(c[..0], fmt) == [];
      while i < |c|
        invariant 0 <= i <= |c|
        invariant r == message + UnLines(CompletedItems(c[..i], fmt))
      {
        assert c[..i + 1][..i] == c[..i];
        var first := CompletedFirst(i, c[i]);
        var second := CompletedSecond(c[i], fmt);
        var entry := first + "\n" + second + "\n";
        assert CompletedItems(c[..i + 1], fmt) == CompletedItems(c[..i], fmt) + [first, second];
        UnLinesAppend(CompletedItems(c[..i], fmt), [first, second]);
        UnLinesTwo(first, second);
        AppendAssoc(message, UnLines(CompletedItems(c[..i], fmt)), entry);
        r := r + entry;
        i := i + 1;
      }
      assert c[..|c|] == c;
    } else {
      UnLinesOne(NoCompleted);
      r := r + NoCompleted + "\n";
    }
  }

  method AppendDue(message: string, q: seq<DueEntry>, fmt: int -> string) returns (r: string)
    ensures r == message + UnLines(DueBlock(q, fmt))
  {
    r := message;
    if |q| > 0 {
      var i := 0;
      assert DueItems(q[..0], fmt) == [];
      while i < |q|
        invariant 0 <= i <= |q|
        invariant r == message + UnLines(DueItems(q[..i], fmt))
      {
        assert q[..i + 1][..i] == q[..i];
        var first := DueFirst(i, q[i]);
        var second := DueSecond(q[i], fmt);
        var entry := first + "\n" + second + "\n";
        assert DueItems(q[..i + 1], fmt) == DueItems(q[..i], fmt) + [first, second];
        UnLinesAppend(DueItems(q[..i], fmt), [first, second]);
        UnLinesTwo(first, second);
        AppendAssoc(message, UnLines(DueItems(q[..i], fmt)), entry);
        r := r + entry;
        i := i + 1;
      }
      assert q[..|q|] == q;
    } else {
      UnLinesOne(NoDue);
      r := r + NoDue + "\n";
    }
  }

  /** The message's length, its opening lines (the title, a blank line, the first header)
      and its closing blank line. */
  lemma ReportLayout(d: ReportData, fmt: int -> string)
    ensures var L := ReportLines(d, fmt);
            var P := |PendingBlock(d.pendingJobs)|;
            var C := |CompletedBlock(d.completedToday, fmt)|;
            var D := |DueBlock(d.pendingPayments, fmt)|;
            |L| == 13 + P + C + D
            && L[0..3] == [ReportTitle, "", PendingHeader]
            && L[12 + P + C + D..] == [""]
  {
    AssembledEnds(PendingBlock(d.pendingJobs), CompletedBlock(d.completedToday, fmt),
                   SummaryLines(d.monthlySummary, fmt), DueBlock(d.pendingPayments, fmt));
  }

  /** The other three headers, each after a blank line: COMPLETED TODAY after the pending
      block, MONTHLY SUMMARY after today's block, PAYMENT PENDING JOBS after the summary. */
  lemma ReportHeaders(d: ReportData, fmt: int -> string)
    ensures var L := ReportLines(d, fmt);
            var P := |PendingBlock(d.pendingJobs)|;
            var C := |CompletedBlock(d.completedToday, fmt)|;
            var D := |DueBlock(d.pendingPayments, fmt)|;
            13 + P + C + D <= |L|
            && L[3 + P..5 + P] == ["", CompletedHeader]
            && L[5 + P + C..7 + P + C] == ["", SummaryHeader]
            && L[10 + P + C..12 + P + C] == ["", DueHeader]
  {
    AssembledHeaders(PendingBlock(d.pendingJobs), CompletedBlock(d.completedToday, fmt),
                   SummaryLines(d.monthlySummary, fmt), DueBlock(d.pendingPayments, fmt));
  }

  /** Under each header comes its block: the pending list, today's completed list, the
      three summary lines and the unpaid list, in that order. */
  lemma ReportBlocks(d: ReportData, fmt: int -> string)
    ensures var L := ReportLines(d, fmt);
            var P := |PendingBlock(d.pendingJobs)|;
            var C := |CompletedBlock(d.completedToday, fmt)|;
            var D := |DueBlock(d.pendingPayments, fmt)|;
            13 + P + C + D <= |L|
            && L[3..3 + P] == PendingBlock(d.pendingJobs)
            && L[5 + P..5 + P + C] == CompletedBlock(d.completedToday, fmt)
            && L[7 + P + C..10 + P + C] == SummaryLines(d.monthlySummary, fmt)
            && L[12 + P + C..12 + P + C + D] == DueBlock(d.pendingPayments, fmt)
  {
    AssembledBlocks(PendingBlock(d.pendingJobs), CompletedBlock(d.completedToday, fmt),
                    SummaryLines(d.monthlySummary, fmt), DueBlock(d.pendingPayments, fmt));
  }

  /** The length and the ends, over generic blocks. */
  lemma AssembledEnds(pb: seq<string>, cb: seq<string>, s: seq<string>, db: seq<string>)
    requires |s| == 3
    ensures var L := AssembleReport(pb, cb, s, db);
            var P := |pb|;
            var C := |cb|;
            var D := |db|;
            |L| == 13 + P + C + D
            && L[0..3] == [ReportTitle, "", PendingHeader]
            && L[12 + P + C + D..] == [""]
  {
    NinePieces([ReportTitle, "", PendingHeader], pb, ["", CompletedHeader], cb, ["", SummaryHeader], s,
               ["", DueHeader], db, [""]);
  }

  /** The headers, over generic blocks. */
  lemma AssembledHeaders(pb: seq<string>, cb: seq<string>, s: seq<string>, db: seq<string>)
    requires |s| == 3
    ensures var L := AssembleReport(pb, cb, s, db);
            var P := |pb|;
            var C := |cb|;
            var D := |db|;
            13 + P + C + D <= |L|
            && L[3 + P..5 + P] == ["", CompletedHeader]
            && L[5 + P + C..7 + P + C] == ["", SummaryHeader]
            && L[10 + P + C..12 + P + C] == ["", DueHeader]
  {
    NinePieces([ReportTitle, "", PendingHeader], pb, ["", CompletedHeader], cb, ["", SummaryHeader], s,
               ["", DueHeader], db, [""]);
  }

  /** The blocks, over generic blocks. */
  lemma AssembledBlocks(pb: seq<string>, cb: seq<string>, s: seq<string>, db: seq<string>)
    requires |s| == 3
    ensures var L := AssembleReport(pb, cb, s, db);
            var P := |pb|;
            var C := |cb|;
            var D := |db|;
            13 + P + C + D <= |L|
            && L[3..3 + P] == pb
            && L[5 + P..5 + P + C] == cb
            && L[7 + P + C..10 + P + C] == s
            && L[12 + P + C..12 + P + C + D] == db
  {
    NinePieces([ReportTitle, "", PendingHeader], pb, ["", CompletedHeader], cb, ["", SummaryHeader], s,
               ["", DueHeader], db, [""]);
  }

  /** An empty list section is the single fixed sentence; a non-empty one has two lines
      per entry, entry k beginning with the number k + 1. */
  lemma BlockShape(d: ReportData, fmt: int -> string)
    ensures |d.pendingJobs| == 0 <==> PendingBlock(d.pendingJobs) == [NoPending]
    ensures |d.completedToday| == 0 <==> CompletedBlock(d.completedToday, fmt) == [NoCompleted]
    ensures |d.pendingPayments| == 0 <==> DueBlock(d.pendingPayments, fmt) == [NoDue]
    ensures forall k :: 0 <= k < |d.pendingJobs| ==>
              StartsWith(PendingBlock(d.pendingJobs)[2 * k], Numbered(k))
    ensures forall k :: 0 <= k < |d.completedToday| ==>
              StartsWith(CompletedBlock(d.completedToday, fmt)[2 * k], Numbered(k))
    ensures forall k :: 0 <= k < |d.pendingPayments| ==>
              StartsWith(DueBlock(d.pendingPayments, fmt)[2 * k], Numbered(k))
  {
    var p := d.pendingJobs;
    var c := d.completedToday;
    var q := d.pendingPayments;
    PendingItemsEntries(p);
    CompletedItemsEntries(c, fmt);
    DueItemsEntries(q, fmt);
    forall k | 0 <= k < |p| ensures StartsWith(PendingBlock(p)[2 * k], Numbered(k)) {
      ConcatStartsWith([Numbered(k), p[k].id, " - ", p[k].customerName, " (", p[k].vehicleReg, ")"]);
    }
    forall k | 0 <= k < |c| ensures StartsWith(CompletedBlock(c, fmt)[2 * k], Numbered(k)) {
      ConcatStartsWith([Numbered(k), c[k].id, " - ", c[k].customerName, " (", c[k].vehicleReg, ")"]);
    }
    forall k | 0 <= k < |q| ensures StartsWith(DueBlock(q, fmt)[2 * k], Numbered(k)) {
      ConcatStartsWith([Numbered(k), q[k].id, " - ", q[k].customerName]);
    }
  }

  /** The fields of an entry hold no line break. */
  predicate PendingOneLine(e: PendingEntry) {
    NoNewline(e.id) && NoNewline(e.customerName) && NoNewline(e.vehicleReg)
    && NoNewline(e.status) && NoNewline(e.mechanicName)
  }
  predicate CompletedOneLine(e: CompletedEntry) {
    NoNewline(e.id) && NoNewline(e.customerName) && NoNewline(e.vehicleReg)
  }
  predicate DueOneLine(e: DueEntry) {
    NoNewline(e.id) && NoNewline(e.customerName)
  }

  /** No text written into the report holds a line break. */
  ghost predicate OneLineReport(d: ReportData, fmt: int -> string) {
    (forall k :: 0 <= k < |d.pendingJobs| ==> PendingOneLine(d.pendingJobs[k]))
    && (forall k :: 0 <= k < |d.completedToday| ==> CompletedOneLine(d.completedToday[k]))
    && (forall k :: 0 <= k < |d.pendingPayments| ==> DueOneLine(d.pendingPayments[k]))
    && (forall x :: NoNewline(fmt(x)))
  }

  lemma NumberedOneLine(k: nat)
    ensures NoNewline(Numbered(k))
  {
    DigitsNoNewline(NatToString(k + 1));
    NoNewlineAppend(NatToString(k + 1), ". ");
  }

  lemma {:induction false} PendingItemsOneLine(s: seq<PendingEntry>)
    requires forall k :: 0 <= k < |s| ==> PendingOneLine(s[k])
    ensures AllOneLine(PendingItems(s))
    decreases |s|
  {
    if s != [] {
      var n := |s| - 1;
      var e := s[n];
      PendingItemsOneLine(s[..n]);
      NumberedOneLine(n);
      ConcatNoNewline([Numbered(n), e.id, " - ", e.customerName, " (", e.vehicleReg, ")"]);
      ConcatNoNewline(["   Status: ", e.status, ", Mechanic: ", e.mechanicName]);
      AllOneLineAppend(PendingItems(s[..n]), [PendingFirst(n, e), PendingSecond(e)]);
    }
  }

  lemma {:induction false} CompletedItemsOneLine(s: seq<CompletedEntry>, fmt: int -> string)
    requires forall k :: 0 <= k < |s| ==> CompletedOneLine(s[k])
    requires forall x :: NoNewline(fmt(x))
    ensures AllOneLine(CompletedItems(s, fmt))
    decreases |s|
  {
    if s != [] {
      var n := |s| - 1;
      var e := s[n];
      CompletedItemsOneLine(s[..n], fmt);
      NumberedOneLine(n);
      ConcatNoNewline([Numbered(n), e.id, " - ", e.customerName, " (", e.vehicleReg, ")"]);
      ConcatNoNewline(["   Amount: ", fmt(e.totalAmount)]);
      AllOneLineAppend(CompletedItems(s[..n], fmt), [CompletedFirst(n, e), CompletedSecond(e, fmt)]);
    }
  }

  lemma {:induction false} DueItemsOneLine(s: seq<DueEntry>, fmt: int -> string)
    requires forall k :: 0 <= k < |s| ==> DueOneLine(s[k])
    requires forall x :: NoNewline(fmt(x))
    ensures AllOneLine(DueItems(s, fmt))
    decreases |s|
  {
    if s != [] {
      var n := |s| - 1;
      var e := s[n];
      DueItemsOneLine(s[..n], fmt);
      NumberedOneLine(n);
      ConcatNoNewline([Numbered(n), e.id, " - ", e.customerName]);
      ConcatNoNewline(["   Amount Due: ", fmt(e.amountDue)]);
      AllOneLineAppend(DueItems(s[..n], fmt), [DueFirst(n, e), DueSecond(e, fmt)]);
    }
  }

  lemma HeadersOneLine()
    ensures AllOneLine([ReportTitle, "", PendingHeader])
    ensures AllOneLine(["", CompletedHeader]) && AllOneLine(["", SummaryHeader])
    ensures AllOneLine(["", DueHeader]) && AllOneLine([""])
  {
  }

  lemma PendingBlockOneLine(s: seq<PendingEntry>)
    requires forall k :: 0 <= k < |s| ==> PendingOneLine(s[k])
    ensures AllOneLine(PendingBlock(s))
  {
    if |s| > 0 {
      PendingItemsOneLine(s);
    }
  }

  lemma CompletedBlockOneLine(s: seq<CompletedEntry>, fmt: int -> string)
    requires forall k :: 0 <= k < |s| ==> CompletedOneLine(s[k])
    requires forall x :: NoNewline(fmt(x))
    ensures AllOneLine(CompletedBlock(s, fmt))
  {
    if |s| > 0 {
      CompletedItemsOneLine(s, fmt);
    }
  }

  lemma DueBlockOneLine(s: seq<DueEntry>, fmt: int -> string)
    requires forall k :: 0 <= k < |s| ==> DueOneLine(s[k])
    requires forall x :: NoNewline(fmt(x))
    ensures AllOneLine(DueBlock(s, fmt))
  {
    if |s| > 0 {
      DueItemsOneLine(s, fmt);
    }
  }

  lemma SummaryOneLine(m: MonthlySummary, fmt: int -> string)
    requires forall x :: NoNewline(fmt(x))
    ensures AllOneLine(SummaryLines(m, fmt))
  {
    IntToStringNoNewline(m.totalJobs);
    NoNewlineAppend("Total Jobs: ", IntToString(m.totalJobs));
    NoNewlineAppend("Total Revenue: ", fmt(m.totalRevenue));
    NoNewlineAppend("Pending Payments: ", fmt(m.pendingPayments));
  }

  /** No report line holds a line break when no field does. */
  lemma ReportLinesOneLine(d: ReportData, fmt: int -> string)
    requires OneLineReport(d, fmt)
    ensures AllOneLine(ReportLines(d, fmt))
  {
    HeadersOneLine();
    PendingBlockOneLine(d.pendingJobs);
    CompletedBlockOneLine(d.completedToday, fmt);
    SummaryOneLine(d.monthlySummary, fmt);
    DueBlockOneLine(d.pendingPayments, fmt);
    var A0: seq<string> := [ReportTitle, "", PendingHeader];
    var A1 := A0 + PendingBlock(d.pendingJobs);
    var A2 := A1 + ["", CompletedHeader];
    var A3 := A2 + CompletedBlock(d.completedToday, fmt);
    var A4 := A3 + ["", SummaryHeader];
    var A5 := A4 + SummaryLines(d.monthlySummary, fmt);
    var A6 := A5 + ["", DueHeader];
    var A7 := A6 + DueBlock(d.pendingPayments, fmt);
    AllOneLineAppend(A0, PendingBlock(d.pendingJobs));
    AllOneLineAppend(A1, ["", CompletedHeader]);
    AllOneLineAppend(A2, CompletedBlock(d.completedToday, fmt));
    AllOneLineAppend(A3, ["", SummaryHeader]);
    AllOneLineAppend(A4, SummaryLines(d.monthlySummary, fmt));
    AllOneLineAppend(A5, ["", DueHeader]);
    AllOneLineAppend(A6, DueBlock(d.pendingPayments, fmt));
    AllOneLineAppend(A7, [""]);
    assert A7 + [""] == ReportLines(d, fmt);
  }

  /** Cutting the message at its line breaks gives back the report lines and the
      timestamp line, when no field holds a line break. */
  lemma ReportMessageLines(d: ReportData, fmt: int -> string, ts: string)
    requires OneLineReport(d, fmt)
    requires NoNewline(ts)
    ensures SplitLines(ReportMessage(d, fmt, ts)) == ReportLines(d, fmt) + [TimestampLine(ts)]
  {
    ReportLinesOneLine(d, fmt);
    NoNewlineAppend("Generated on: ", ts);
    SplitUnLinesThen(ReportLines(d, fmt), TimestampLine(ts));
  }

  // ---------------------------------------------------------------- templates

  /** The completion notice, piece by piece. */
  function CompletionPieces(j: JobCard, fmt: int -> string): seq<string> {
    ["Dear ", j.customerName, ",\n\n",
     "Your vehicle (", j.vehicleReg, ") service is complete. Total bill: ", fmt(j.totalAmount), ". ",
     "Please visit the garage for pickup.\n\n",
     "Thank you for choosing our service.\n",
     "Garage Service Pro"]
  }
  function CompletionMessage(j: JobCard, fmt: int -> string): string {
    Concat(CompletionPieces(j, fmt))
  }

  /** The payment reminder, piece by piece. */
  function PaymentReminderPieces(j: JobCard, fmt: int -> string): seq<string> {
    ["Dear ", j.customerName, ",\n\n",
     "Your payment of ", fmt(j.totalAmount), " is pending for job ", "#" + j.id, ". ",
     "Please complete the payment at your earliest convenience.\n\n",
     "Thank you for your business.\n",
     "Garage Service Pro"]
  }
  function PaymentReminderMessage(j: JobCard, fmt: int -> string): string {
    Concat(PaymentReminderPieces(j, fmt))
  }

  /** The job update, piece by piece. */
  function JobUpdatePieces(j: JobCard, fmt: int -> string): seq<string> {
    ["Job Card Update #", j.id, "\n\n",
     "Customer: ", j.customerName, "\n",
     "Vehicle: ", j.vehicleMake, " ", j.vehicleModel, " (", j.vehicleReg, ")\n",
     "Status: ", j.status, "\n",
     "Total Amount: ", fmt(j.totalAmount), "\n\n",
     "Thank you for choosing Garage Service Pro."]
  }
  function JobUpdateMessage(j: JobCard, fmt: int -> string): string {
    Concat(JobUpdatePieces(j, fmt))
  }

  /** `getMessageTemplate`: the report when in daily-report mode with data; otherwise
      nothing without a job card; otherwise the template of the mode, the job-update
      template for any mode it does not name. */
  function MessageTemplate(mode: string, reportData: Option<ReportData>, jobCard: Option<JobCard>,
                           fmt: int -> string, ts: string): (r: string)
    ensures r == "" <==> !(mode == "dailyReport" && reportData.Some?) && jobCard.None?
  {
    if mode == "dailyReport" && reportData.Some? then
      ReportMessageNonEmpty(reportData.value, fmt, ts);
      ReportMessage(reportData.value, fmt, ts)
    else if jobCard.None? then ""
    else
      var j := jobCard.value;
      NoticesNonEmpty(j, fmt);
      match mode
      case "completion" => CompletionMessage(j, fmt)
      case "paymentReminder" => PaymentReminderMessage(j, fmt)
      case _ => JobUpdateMessage(j, fmt)
  }

  lemma ReportMessageNonEmpty(d: ReportData, fmt: int -> string, ts: string)
    ensures ReportMessage(d, fmt, ts) != ""
  {
    assert |TimestampLine(ts)| > 0;
  }

  /** Each notice starts with a fixed, non-empty greeting or title. */
  lemma NoticesNonEmpty(j: JobCard, fmt: int -> string)
    ensures CompletionMessage(j, fmt) != ""
    ensures PaymentReminderMessage(j, fmt) != ""
    ensures JobUpdateMessage(j, fmt) != ""
  {
    var c, p, u := CompletionPieces(j, fmt), PaymentReminderPieces(j, fmt), JobUpdatePieces(j, fmt);
    ConcatStartsWith(c);
    ConcatStartsWith(p);
    ConcatStartsWith(u);
    assert |c[0]| > 0 && |p[0]| > 0 && |u[0]| > 0;
  }

  /** Which template a mode selects, for every combination of mode and inputs. */
  lemma TemplateChoice(mode: string, reportData: Option<ReportData>, jobCard: Option<JobCard>,
                       fmt: int -> string, ts: string)
    ensures var r := MessageTemplate(mode, reportData, jobCard, fmt, ts);
            (mode == "dailyReport" && reportData.Some? ==> r == ReportMessage(reportData.value, fmt, ts))
            && (!(mode == "dailyReport" && reportData.Some?) && jobCard.Some? ==>
                  r == (if mode == "completion" then CompletionMessage(jobCard.value, fmt)
                        else if mode == "paymentReminder" then PaymentReminderMessage(jobCard.value, fmt)
                        else JobUpdateMessage(jobCard.value, fmt)))
  {
  }

  /** The completion notice names the customer, the registration and the formatted bill. */
  lemma CompletionMentions(j: JobCard, fmt: int -> string)
    ensures StartsWith(CompletionMessage(j, fmt), "Dear ")
    ensures Includes(CompletionMessage(j, fmt), j.customerName)
    ensures Includes(CompletionMessage(j, fmt), j.vehicleReg)
    ensures Includes(CompletionMessage(j, fmt), fmt(j.totalAmount))
  {
    var ps := CompletionPieces(j, fmt);
    ConcatStartsWith(ps);
    ConcatIncludes(ps, 1);
    ConcatIncludes(ps, 4);
    ConcatIncludes(ps, 6);
  }

  /** The payment reminder names the customer, the formatted amount and "#" followed by
      the job id. */
  lemma PaymentReminderMentions(j: JobCard, fmt: int -> string)
    ensures StartsWith(PaymentReminderMessage(j, fmt), "Dear ")
    ensures Includes(PaymentReminderMessage(j, fmt), j.customerName)
    ensures Includes(PaymentReminderMessage(j, fmt), fmt(j.totalAmount))
    ensures Includes(PaymentReminderMessage(j, fmt), "#" + j.id)
  {
    var ps := PaymentReminderPieces(j, fmt);
    ConcatStartsWith(ps);
    ConcatIncludes(ps, 1);
    ConcatIncludes(ps, 4);
    ConcatIncludes(ps, 6);
  }

  /** The job update starts with the card number and names the customer, the vehicle,
      the status and the formatted total. */
  lemma JobUpdateMentions(j: JobCard, fmt: int -> string)
    ensures StartsWith(JobUpdateMessage(j, fmt), "Job Card Update #")
    ensures Includes(JobUpdateMessage(j, fmt), j.id)
    ensures Includes(JobUpdateMessage(j, fmt), j.customerName)
    ensures Includes(JobUpdateMessage(j, fmt), j.vehicleMake)
    ensures Includes(JobUpdateMessage(j, fmt), j.vehicleModel)
    ensures Includes(JobUpdateMessage(j, fmt), j.vehicleReg)
    ensures Includes(JobUpdateMessage(j, fmt), j.status)
    ensures Includes(JobUpdateMessage(j, fmt), fmt(j.totalAmount))
  {
    var ps := JobUpdatePieces(j, fmt);
    ConcatStartsWith(ps);
    ConcatIncludes(ps, 1);
    ConcatIncludes(ps, 4);
    ConcatIncludes(ps, 7);
    ConcatIncludes(ps, 9);
    ConcatIncludes(ps, 11);
    ConcatIncludes(ps, 14);
    ConcatIncludes(ps, 17);
  }

  // ---------------------------------------------------------------- title and dialog

  /** `getDialogTitle` */
  function DialogTitle(mode: string): (r: string)
    ensures r == "Share via WhatsApp" <==> mode !in {"completion", "paymentReminder", "dailyReport"}
    ensures mode == "completion" ==> r == "Share Completion Notice"
    ensures mode == "paymentReminder" ==> r == "Send Payment Reminder"
    ensures mode == "dailyReport" ==> r == "Share Daily Report"
  {
    match mode
    case "completion" => "Share Completion Notice"
    case "paymentReminder" => "Send Payment Reminder"
    case "dailyReport" => "Share Daily Report"
    case _ => "Share via WhatsApp"
  }

  /** The dialog's inputs and its one state field, the phone number being typed.
      `open` stands for the parent's flag that `onOpenChange` sets. */
  class ShareDialog {
    var phoneNumber: string
    var open: bool
    const mode: string
    const jobCard: Option<JobCard>
    const reportData: Option<ReportData>

    /** `useState(initialPhoneNumber || '')`; the mode defaults to 'jobUpdate'. */
    constructor(initialPhoneNumber: Option<string>, mode: Option<string>, jobCard: Option<JobCard>,
                reportData: Option<ReportData>, open: bool)
      ensures phoneNumber == initialPhoneNumber.GetOr("")
      ensures this.mode == mode.GetOr("jobUpdate")
      ensures this.jobCard == jobCard && this.reportData == reportData && this.open == open
    {
      phoneNumber := initialPhoneNumber.GetOr("");
      this.mode := mode.GetOr("jobUpdate");
      this.jobCard := jobCard;
      this.reportData := reportData;
      this.open := open;
    }

    method SetPhoneNumber(p: string)
      modifies this
      ensures phoneNumber == p && open == old(open)
    {
      phoneNumber := p;
    }

    /** `handleShareViaWhatsApp`: refuse a short number; otherwise build the link from the
        digits and the template, and close the dialog. Returns the link opened, or the
        error shown. */
    method Share(fmt: int -> string, enc: string -> string, ts: string) returns (outcome: Result<string>)
      modifies this
      ensures outcome == ShareLink(phoneNumber, MessageTemplate(mode, reportData, jobCard, fmt, ts), enc)
      ensures phoneNumber == old(phoneNumber)
      ensures open == (if outcome.Ok? then false else old(open))
    {
      if phoneNumber == "" || |phoneNumber| < 10 {
        outcome := Err(InvalidPhone);
        return;
      }
      var formattedNumber := DigitsOnly(phoneNumber);
      var message;
      if mode == "dailyReport" && reportData.Some? {
        message := FormatReportForWhatsApp(reportData.value, fmt, ts);
      } else {
        message := MessageTemplate(mode, reportData, jobCard, fmt, ts);
      }
      outcome := Ok(LinkPrefix + formattedNumber + TextParam + enc(message));
      open := false;
    }
  }
}
