/** The job-card share dialog opened from the actions menu: the phone guard, a message
    with one line per service, and the wa.me link. `encodeURIComponent` is the
    parameter `enc`. Prices and the total are whole rupees rendered as decimal text. */
module WhatsAppShareDialog {
  import opened Wrappers
  import opened Text
  import opened Collections
  import WhatsAppShare

  /** A service as the actions menu passes it: a display name and a price. */
  datatype ServiceLine = ServiceLine(name: string, price: int)

  /** `jobCardData` */
  datatype ShareData = ShareData(
    jobCardId: string,
    customerName: string,
    vehicleInfo: string,
    services: seq<ServiceLine>,
    totalAmount: int)

  const ServicesTitle := "Services:"
  const TotalPrefix := "Total Amount: ₹"

  function TitleLine(d: ShareData): string {
    "Job Card #" + d.jobCardId + " - " + d.customerName
  }

  function VehicleLine(d: ShareData): string { "Vehicle: " + d.vehicleInfo }

  /** "- name: ₹price" */
  function ServiceText(s: ServiceLine): string {
    Concat(["- ", s.name, ": ₹", IntToString(s.price)])
  }

  function TotalLine(d: ShareData): string { TotalPrefix + IntToString(d.totalAmount) }

  /** The lines before the services: title, vehicle, a blank line, "Services:". */
  function HeadLines(d: ShareData): seq<string> {
    [TitleLine(d), VehicleLine(d), "", ServicesTitle]
  }

  /** The message: every line up to the blank one before the total ends in '\n'; the
      total line does not. */
  function DialogMessage(d: ShareData): string {
    UnLines(HeadLines(d) + Map(d.services, ServiceText) + [""]) + TotalLine(d)
  }

  /** The message as the handler writes it: the head, `+=` of one line per service, then
      the total. */
  method BuildMessage(d: ShareData) returns (message: string)
    ensures message == DialogMessage(d)
  {
    message := TitleLine(d) + "\n" + VehicleLine(d) + "\n\n" + ServicesTitle + "\n";
    assert HeadLines(d) == [TitleLine(d), VehicleLine(d), "", ServicesTitle];
    HeadText(TitleLine(d), VehicleLine(d));
    message := AppendLines(message, d.services, ServiceText);
    UnLinesAppend(HeadLines(d), Map(d.services, ServiceText));
    AddLine(message, HeadLines(d) + Map(d.services, ServiceText), "");
    message := message + "\n" + TotalLine(d);
  }

  lemma HeadText(a: string, b: string)
    ensures a + "\n" + b + "\n\n" + ServicesTitle + "\n" == UnLines([a, b, "", ServicesTitle])
  {
    AddLine("", [], a);
    AddLine(a + "\n", [a], b);
    AddLine(a + "\n" + b + "\n", [a, b], "");
    AddLine(a + "\n" + b + "\n" + "\n", [a, b, ""], ServicesTitle);
    assert [] + [a] == [a];
    assert [a] + [b] == [a, b];
    assert [a, b] + [""] == [a, b, ""];
    assert [a, b, ""] + [ServicesTitle] == [a, b, "", ServicesTitle];
  }

  /** Every piece of the message stays on one line. */
  ghost predicate OneLineData(d: ShareData) {
    NoNewline(d.jobCardId) && NoNewline(d.customerName) && NoNewline(d.vehicleInfo)
    && forall k :: 0 <= k < |d.services| ==> NoNewline(d.services[k].name)
  }

  lemma ServiceTextOneLine(s: ServiceLine)
    requires NoNewline(s.name)
    ensures NoNewline(ServiceText(s))
  {
    IntToStringNoNewline(s.price);
    ConcatNoNewline(["- ", s.name, ": ₹", IntToString(s.price)]);
  }

  /** Read back line by line, the message is: the title "Job Card #id - name", the
      vehicle, a blank line, "Services:", exactly one line per service in order, a blank
      line, and the total. */
  lemma DialogMessageLines(d: ShareData)
    requires OneLineData(d)
    ensures SplitLines(DialogMessage(d))
            == HeadLines(d) + Map(d.services, ServiceText) + ["", TotalLine(d)]
  {
    var ls := HeadLines(d) + Map(d.services, ServiceText) + [""];
    NoNewlineAppend("Job Card #", d.jobCardId);
    NoNewlineAppend("Job Card #" + d.jobCardId, " - ");
    NoNewlineAppend("Job Card #" + d.jobCardId + " - ", d.customerName);
    NoNewlineAppend("Vehicle: ", d.vehicleInfo);
    IntToStringNoNewline(d.totalAmount);
    NoNewlineAppend(TotalPrefix, IntToString(d.totalAmount));
    forall k | 0 <= k < |d.services| ensures NoNewline(ServiceText(d.services[k])) {
      ServiceTextOneLine(d.services[k]);
    }
    assert AllOneLine(HeadLines(d));
    assert AllOneLine(Map(d.services, ServiceText));
    AllOneLineAppend(HeadLines(d), Map(d.services, ServiceText));
    AllOneLineAppend(HeadLines(d) + Map(d.services, ServiceText), [""]);
    SplitUnLinesThen(ls, TotalLine(d));
    assert ls + [TotalLine(d)] == HeadLines(d) + Map(d.services, ServiceText) + ["", TotalLine(d)];
  }

  /** The message starts with the job card number and the customer, and ends with the
      total. */
  lemma DialogMessageEnds(d: ShareData)
    ensures StartsWith(DialogMessage(d), "Job Card #" + d.jobCardId + " - " + d.customerName)
    ensures var m := DialogMessage(d);
            |m| >= |TotalLine(d)| && m[|m| - |TotalLine(d)|..] == TotalLine(d)
  {
    var ls := HeadLines(d) + Map(d.services, ServiceText) + [""];
    assert ls[0] == TitleLine(d);
    assert UnLines(ls) == TitleLine(d) + "\n" + UnLines(ls[1..]);
    StartsWithAppend(TitleLine(d), "\n" + UnLines(ls[1..]) + TotalLine(d));
    AppendAssoc(TitleLine(d) + "\n", UnLines(ls[1..]), TotalLine(d));
  }

  /** The dialog's state: the number being typed and the parent's open flag. */
  class JobCardShareDialog {
    var phoneNumber: string
    var open: bool
    const jobCardData: ShareData

    /** `useState('')` */
    constructor(open: bool, jobCardData: ShareData)
      ensures phoneNumber == "" && this.open == open && this.jobCardData == jobCardData
    {
      phoneNumber := "";
      this.open := open;
      this.jobCardData := jobCardData;
    }

    method SetPhoneNumber(p: string)
      modifies this
      ensures phoneNumber == p && open == old(open)
    {
      phoneNumber := p;
    }

    /** `handleShareViaWhatsApp`: refuse a short number; otherwise open the link to the
        digits of the number with the message, and close the dialog. */
    method Share(enc: string -> string) returns (outcome: Result<string>)
      modifies this
      ensures outcome == WhatsAppShare.ShareLink(phoneNumber, DialogMessage(jobCardData), enc)
      ensures phoneNumber == old(phoneNumber)
      ensures open == (if outcome.Ok? then false else old(open))
    {
      if phoneNumber == "" || |phoneNumber| < 10 {
        outcome := Err(WhatsAppShare.InvalidPhone);
        return;
      }
      var formattedNumber := DigitsOnly(phoneNumber);
      var message := BuildMessage(jobCardData);
      outcome := Ok(WhatsAppShare.LinkPrefix + formattedNumber + WhatsAppShare.TextParam + enc(message));
      open := false;
    }
  }
}
