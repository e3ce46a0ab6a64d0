/** The job-card details page: the card lookup and the mechanic's name, the status and
    general updates, the page's own WhatsApp message, and the service list handed to the
    actions menu. The update time is the parameter `now`; `toLocaleDateString`,
    `toFixed(2)` and `encodeURIComponent` are the parameters `dateText`, `money`, `enc`. */
module JobCardDetails {
  import opened Wrappers
  import opened Text
  import opened Collections
  import opened Entities
  import Utils
  import WhatsAppShare
  import QuickUpdate
  import WhatsAppShareDialog

  // ---------------------------------------------------------------- mechanic name

  const NotAssigned := "Not assigned"
  const UnknownMechanic := "Unknown Mechanic"

  /** The name shown for an assigned mechanic id: "Not assigned" for no id, the first
      mechanic with that id, or "Unknown Mechanic" when there is none. */
  function MechanicLabel(assignedId: string, mechanics: seq<Mechanic>): (r: string)
    ensures assignedId == "" ==> r == NotAssigned
    ensures assignedId != "" && HasKey(mechanics, MechanicId, assignedId) ==>
              exists i :: 0 <= i < |mechanics| && mechanics[i].id == assignedId && r == mechanics[i].name
                          && forall k :: 0 <= k < i ==> mechanics[k].id != assignedId
    ensures assignedId != "" && !HasKey(mechanics, MechanicId, assignedId) ==> r == UnknownMechanic
  {
    if assignedId == "" then NotAssigned
    else
      match FindFirst(mechanics, (m: Mechanic) => m.id == assignedId)
      case Some(m) => m.name
      case None => UnknownMechanic
  }

  // ---------------------------------------------------------------- updates

  /** The fields a general update may carry; `None` leaves the card's value. */
  datatype Patch = Patch(
    status: Option<string>,
    serviceNotes: Option<string>,
    paymentStatus: Option<string>,
    totalAmount: Option<int>,
    assignedMechanicId: Option<string>,
    updatedAt: Option<int>)

  const EmptyPatch := Patch(None, None, None, None, None, None)

  /** `{ ...card, ...patch, updatedAt: now }`: the patch's fields win over the card's,
      and the time stamp is written last, over the patch's own. */
  function Merge(card: JobCard, p: Patch, now: int): (r: JobCard)
    ensures r.status == p.status.GetOr(card.status)
    ensures r.serviceNotes == p.serviceNotes.GetOr(card.serviceNotes)
    ensures r.paymentStatus == p.paymentStatus.GetOr(card.paymentStatus)
    ensures r.totalAmount == p.totalAmount.GetOr(card.totalAmount)
    ensures r.assignedMechanicId == p.assignedMechanicId.GetOr(card.assignedMechanicId)
    ensures r.updatedAt == now
    ensures r.(status := card.status, serviceNotes := card.serviceNotes,
               paymentStatus := card.paymentStatus, totalAmount := card.totalAmount,
               assignedMechanicId := card.assignedMechanicId, updatedAt := card.updatedAt) == card
  {
    card.(status := p.status.GetOr(card.status),
          serviceNotes := p.serviceNotes.GetOr(card.serviceNotes),
          paymentStatus := p.paymentStatus.GetOr(card.paymentStatus),
          totalAmount := p.totalAmount.GetOr(card.totalAmount),
          assignedMechanicId := p.assignedMechanicId.GetOr(card.assignedMechanicId),
          updatedAt := now)
  }

  /** Later patch over earlier: a field of q wins, otherwise the field of p. */
  function Over(p: Patch, q: Patch): Patch {
    Patch(if q.status.Some? then q.status else p.status,
          if q.serviceNotes.Some? then q.serviceNotes else p.serviceNotes,
          if q.paymentStatus.Some? then q.paymentStatus else p.paymentStatus,
          if q.totalAmount.Some? then q.totalAmount else p.totalAmount,
          if q.assignedMechanicId.Some? then q.assignedMechanicId else p.assignedMechanicId,
          if q.updatedAt.Some? then q.updatedAt else p.updatedAt)
  }

  /** An empty patch only moves the time stamp. */
  lemma MergeEmpty(card: JobCard, now: int)
    ensures Merge(card, EmptyPatch, now) == card.(updatedAt := now)
  {
  }

  /** Two updates in a row are one update with the later patch over the earlier. */
  lemma MergeTwice(card: JobCard, p: Patch, q: Patch, t1: int, t2: int)
    ensures Merge(Merge(card, p, t1), q, t2) == Merge(card, Over(p, q), t2)
  {
  }

  /** Applying the same patch again changes nothing but the time stamp. */
  lemma MergeIdempotent(card: JobCard, p: Patch, t1: int, t2: int)
    ensures Merge(Merge(card, p, t1), p, t2) == Merge(card, p, t2)
  {
    MergeTwice(card, p, p, t1, t2);
    assert Over(p, p) == p;
  }

  /** `handleUpdateStatus`'s new card: only the status and the time stamp change. */
  function WithStatus(card: JobCard, newStatus: string, now: int): (r: JobCard)
    ensures r == Merge(card, EmptyPatch.(status := Some(newStatus)), now)
    ensures r.(status := card.status, updatedAt := card.updatedAt) == card
  {
    card.(status := newStatus, updatedAt := now)
  }

  /** The patch the quick-update dialog saves, as a general patch. */
  function FromQuickUpdate(s: QuickUpdate.StatusPatch): Patch {
    Patch(Some(s.status), Some(s.serviceNotes), Some(s.paymentStatus), None, None, Some(s.updatedAt))
  }

  /** A quick update saved without edits changes only the time stamp: the dialog's
      fields were copied from this card. */
  lemma QuickUpdateUnedited(card: JobCard, saved: int, now: int)
    ensures Merge(card, FromQuickUpdate(QuickUpdate.StatusPatch(card.status, card.serviceNotes,
                                                                 card.paymentStatus, saved)), now)
            == card.(updatedAt := now)
  {
  }

  // ---------------------------------------------------------------- the page's message

  /** `handleConfirmWhatsAppShare`'s message lines; the last is not followed by '\n'. */
  function ShareHeadLines(j: JobCard, dateText: int -> string, money: int -> string): seq<string> {
    ["Job Card #" + j.id + " - " + j.customerName,
     "Vehicle: " + j.vehicleMake + " " + j.vehicleModel + " (" + j.vehicleReg + ")",
     "Status: " + Utils.StatusLabel(j.status),
     "Date: " + dateText(j.dateOfService),
     "Service Notes: " + (if j.serviceNotes != "" then j.serviceNotes else "N/A"),
     "Amount: $" + money(j.totalAmount)]
  }

  /** The payment status split at '-', each word capitalised, joined with spaces. */
  function PaymentLine(j: JobCard): string {
    "Payment Status: " + Utils.PaymentStatusLabel(j.paymentStatus)
  }

  /** The message, or "" without a card. */
  function ShareMessage(card: Option<JobCard>, dateText: int -> string, money: int -> string): string {
    if card.None? then ""
    else UnLines(ShareHeadLines(card.value, dateText, money)) + PaymentLine(card.value)
  }

  /** Every field the message shows stays on one line. */
  ghost predicate OneLineCard(j: JobCard, dateText: int -> string, money: int -> string) {
    NoNewline(j.id) && NoNewline(j.customerName) && NoNewline(j.vehicleMake)
    && NoNewline(j.vehicleModel) && NoNewline(j.vehicleReg) && NoNewline(j.status)
    && NoNewline(j.serviceNotes) && NoNewline(j.paymentStatus)
    && NoNewline(dateText(j.dateOfService)) && NoNewline(money(j.totalAmount))
  }

  lemma StatusLabelOneLine(s: string)
    requires NoNewline(s)
    ensures NoNewline(Utils.StatusLabel(s))
  {
    var r := Utils.StatusLabel(s);
    if s != "in-progress" && s != "awaiting-payment" && |s| > 0 {
      assert s[0] != '\n';
      assert r == [r[0]] + r[1..];
      assert forall c :: c in r ==> c == r[0] || c in s[1..];
      assert forall c :: c in s[1..] ==> c in s;
    }
  }

  lemma PaymentLabelOneLine(s: string)
    requires NoNewline(s)
    ensures NoNewline(Utils.PaymentStatusLabel(s))
  {
    var r := Utils.PaymentStatusLabel(s);
    forall i | 0 <= i < |r| ensures r[i] != '\n' {
      assert s[i] != '\n';
    }
  }

  lemma HeadLinesOneLine(j: JobCard, dateText: int -> string, money: int -> string)
    requires OneLineCard(j, dateText, money)
    ensures AllOneLine(ShareHeadLines(j, dateText, money))
  {
    NoNewlineAppend("Job Card #", j.id);
    NoNewlineAppend("Job Card #" + j.id, " - ");
    NoNewlineAppend("Job Card #" + j.id + " - ", j.customerName);
    NoNewlineAppend("Vehicle: ", j.vehicleMake);
    NoNewlineAppend("Vehicle: " + j.vehicleMake, " ");
    NoNewlineAppend("Vehicle: " + j.vehicleMake + " ", j.vehicleModel);
    NoNewlineAppend("Vehicle: " + j.vehicleMake + " " + j.vehicleModel, " (");
    NoNewlineAppend("Vehicle: " + j.vehicleMake + " " + j.vehicleModel + " (", j.vehicleReg);
    NoNewlineAppend("Vehicle: " + j.vehicleMake + " " + j.vehicleModel + " (" + j.vehicleReg, ")");
    StatusLabelOneLine(j.status);
    NoNewlineAppend("Status: ", Utils.StatusLabel(j.status));
    NoNewlineAppend("Date: ", dateText(j.dateOfService));
    NoNewlineAppend("Service Notes: ", if j.serviceNotes != "" then j.serviceNotes else "N/A");
    NoNewlineAppend("Amount: $", money(j.totalAmount));
  }

  /** With a card, the message reads back as exactly seven lines: card and customer,
      vehicle, status label, date, notes ("N/A" when there are none), amount, and the
      payment status label. */
  lemma ShareMessageLines(j: JobCard, dateText: int -> string, money: int -> string)
    requires OneLineCard(j, dateText, money)
    ensures SplitLines(ShareMessage(Some(j), dateText, money))
            == ShareHeadLines(j, dateText, money) + [PaymentLine(j)]
  {
    HeadLinesOneLine(j, dateText, money);
    PaymentLabelOneLine(j.paymentStatus);
    NoNewlineAppend("Payment Status: ", Utils.PaymentStatusLabel(j.paymentStatus));
    SplitUnLinesThen(ShareHeadLines(j, dateText, money), PaymentLine(j));
  }

  // ---------------------------------------------------------------- actions-menu data

  /** A stored service as the actions menu lists it: the custom name, else the
      description, else "Service"; the cost, else 0. */
  function MenuService(s: JobService): (r: WhatsAppShareDialog.ServiceLine)
    ensures s.customServiceName != "" ==> r.name == s.customServiceName
    ensures s.customServiceName == "" && s.serviceDescription != "" ==> r.name == s.serviceDescription
    ensures s.customServiceName == "" && s.serviceDescription == "" ==> r.name == "Service"
    ensures r.price == s.serviceCost.GetOr(0)
  {
    WhatsAppShareDialog.ServiceLine(
      if s.customServiceName != "" then s.customServiceName
      else if s.serviceDescription != "" then s.serviceDescription
      else "Service",
      s.serviceCost.GetOr(0))
  }

  /** `formattedServices`: one entry per stored service, in order; none without a list. */
  function FormattedServices(card: JobCard): (r: seq<WhatsAppShareDialog.ServiceLine>)
    ensures card.services.None? ==> r == []
    ensures card.services.Some? ==>
              |r| == |card.services.value|
              && forall k :: 0 <= k < |r| ==> r[k] == MenuService(card.services.value[k])
  {
    if card.services.None? then [] else Map(card.services.value, MenuService)
  }

  /** The data the page hands to the actions menu and so to its share dialog. */
  function MenuData(card: JobCard): (r: WhatsAppShareDialog.ShareData)
    ensures r.jobCardId == card.id && r.customerName == card.customerName
    ensures r.totalAmount == card.totalAmount && r.services == FormattedServices(card)
  {
    WhatsAppShareDialog.ShareData(
      card.id, card.customerName,
      card.vehicleMake + " " + card.vehicleModel + " (" + card.vehicleReg + ")",
      FormattedServices(card), card.totalAmount)
  }

  // ---------------------------------------------------------------- the page

  class JobCardDetailsPage {
    var jobCard: Option<JobCard>
    var mechanicName: string
    var showShareDialog: bool
    var showQuickUpdate: bool
    var showWhatsAppShare: bool

    constructor()
      ensures jobCard.None? && mechanicName == NotAssigned
      ensures !showShareDialog && !showQuickUpdate && !showWhatsAppShare
    {
      jobCard := None;
      mechanicName := NotAssigned;
      showShareDialog := false;
      showQuickUpdate := false;
      showWhatsAppShare := false;
    }

    /** The effect on the route id: a found card replaces the shown one, and the name is
        looked up only when the card has a mechanic id. An unknown id, or a card without
        a mechanic, leaves the earlier state in place. */
    method Load(id: string, jobCards: seq<JobCard>, mechanics: seq<Mechanic>)
      modifies this
      ensures jobCard == (if HasKey(jobCards, JobCardId, id) then FindFirst(jobCards, (j: JobCard) => j.id == id)
                          else old(jobCard))
      ensures mechanicName == (if jobCard.Some? && HasKey(jobCards, JobCardId, id)
                                  && jobCard.value.assignedMechanicId != ""
                               then MechanicLabel(jobCard.value.assignedMechanicId, mechanics)
                               else old(mechanicName))
      ensures showShareDialog == old(showShareDialog) && showQuickUpdate == old(showQuickUpdate)
      ensures showWhatsAppShare == old(showWhatsAppShare)
    {
      var found := FindFirst(jobCards, (j: JobCard) => j.id == id);
      if found.Some? {
        jobCard := found;
        if found.value.assignedMechanicId != "" {
          mechanicName := MechanicLabel(found.value.assignedMechanicId, mechanics);
        }
      }
    }

    /** `handleUpdateStatus`: with a card, replace its status and stamp it, and announce
        the new status by its label. */
    method UpdateStatus(newStatus: string, now: int) returns (toast: Option<string>)
      modifies this
      ensures old(jobCard).None? ==> jobCard.None? && toast.None?
      ensures old(jobCard).Some? ==>
                jobCard == Some(WithStatus(old(jobCard).value, newStatus, now))
                && toast == Some("Job card status updated to " + Utils.StatusLabel(newStatus))
      ensures mechanicName == old(mechanicName) && showShareDialog == old(showShareDialog)
      ensures showQuickUpdate == old(showQuickUpdate) && showWhatsAppShare == old(showWhatsAppShare)
    {
      if jobCard.None? {
        return None;
      }
      jobCard := Some(jobCard.value.(status := newStatus, updatedAt := now));
      toast := Some("Job card status updated to " + Utils.StatusLabel(newStatus));
    }

    /** `handleUpdateJobCard`: with a card, merge the patch over it and stamp it. */
    method UpdateJobCard(p: Patch, now: int)
      modifies this
      ensures jobCard == (if old(jobCard).Some? then Some(Merge(old(jobCard).value, p, now)) else None)
      ensures mechanicName == old(mechanicName) && showShareDialog == old(showShareDialog)
      ensures showQuickUpdate == old(showQuickUpdate) && showWhatsAppShare == old(showWhatsAppShare)
    {
      if jobCard.Some? {
        jobCard := Some(Merge(jobCard.value, p, now));
      }
    }

    /** `handleShareViaWhatsApp`: opens the job-update dialog. */
    method OpenWhatsAppShare()
      modifies this
      ensures showWhatsAppShare && jobCard == old(jobCard) && mechanicName == old(mechanicName)
      ensures showShareDialog == old(showShareDialog) && showQuickUpdate == old(showQuickUpdate)
    {
      showWhatsAppShare := true;
    }

    /** `handleConfirmWhatsAppShare`: refuse a short number; otherwise the link to the
        digits of the number with the page's message, and the page's dialog closes. */
    method ConfirmShare(phoneNumber: string, dateText: int -> string, money: int -> string,
                        enc: string -> string) returns (outcome: Result<string>)
      modifies this
      ensures outcome == WhatsAppShare.ShareLink(phoneNumber, ShareMessage(jobCard, dateText, money), enc)
      ensures showShareDialog == (if outcome.Ok? then false else old(showShareDialog))
      ensures jobCard == old(jobCard) && mechanicName == old(mechanicName)
      ensures showQuickUpdate == old(showQuickUpdate) && showWhatsAppShare == old(showWhatsAppShare)
    {
      if phoneNumber == "" || |phoneNumber| < 10 {
        return Err(WhatsAppShare.InvalidPhone);
      }
      var formattedNumber := DigitsOnly(phoneNumber);
      var message := "";
      if jobCard.Some? {
        message := UnLines(ShareHeadLines(jobCard.value, dateText, money)) + PaymentLine(jobCard.value);
      }
      outcome := Ok(WhatsAppShare.LinkPrefix + formattedNumber + WhatsAppShare.TextParam + enc(message));
      showShareDialog := false;
    }
  }

  /** A page freshly opened on a card shows the mechanic's label for that card. */
  method OpenPage(id: string, jobCards: seq<JobCard>, mechanics: seq<Mechanic>)
    returns (card: Option<JobCard>, name: string)
    ensures card == FindFirst(jobCards, (j: JobCard) => j.id == id)
    ensures name == (if card.Some? then MechanicLabel(card.value.assignedMechanicId, mechanics)
                     else NotAssigned)
  {
    var page := new JobCardDetailsPage();
    page.Load(id, jobCards, mechanics);
    card, name := page.jobCard, page.mechanicName;
  }
}
