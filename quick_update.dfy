/** The quick-update dialog of a job card: three editable fields initialised from the
    card, a save that hands the parent a patch and may offer a WhatsApp notice, and a
    "Notify Customer" button. The save time is the parameter `now`. */
module QuickUpdate {
  import opened Wrappers
  import opened Entities

  /** What a save hands to `onUpdateJobCard`: exactly these four fields. */
  datatype StatusPatch = StatusPatch(status: string, serviceNotes: string, paymentStatus: string, updatedAt: int)

  /** The notice a save offers, given the card's status before and after the edit: a
      completion notice when the card has just become completed, otherwise a payment
      reminder when it has just started to await payment, otherwise none. */
  function SaveIntent(oldStatus: string, newStatus: string): (r: Option<string>)
    ensures r == Some("completion") <==> newStatus == "completed" && oldStatus != "completed"
    ensures r == Some("paymentReminder") <==>
              newStatus == "awaiting-payment" && oldStatus != "awaiting-payment"
    ensures r.None? <==> !(newStatus == "completed" && oldStatus != "completed")
                         && !(newStatus == "awaiting-payment" && oldStatus != "awaiting-payment")
  {
    if newStatus == "completed" && oldStatus != "completed" then Some("completion")
    else if newStatus == "awaiting-payment" && oldStatus != "awaiting-payment" then Some("paymentReminder")
    else None
  }

  /** Saving without changing the status offers nothing. */
  lemma UnchangedStatusNoIntent(s: string)
    ensures SaveIntent(s, s).None?
  {
  }

  /** Moving to any status other than completed or awaiting payment offers nothing. */
  lemma OtherStatusNoIntent(oldStatus: string, newStatus: string)
    requires newStatus != "completed" && newStatus != "awaiting-payment"
    ensures SaveIntent(oldStatus, newStatus).None?
  {
  }

  class QuickUpdateDialog {
    var status: string
    var notes: string
    var paymentStatus: string
    var showWhatsAppDialog: bool
    var whatsAppMode: string
    /** The parent's open flag, which `onOpenChange` sets. */
    var open: bool
    /** The `jobCard` prop. */
    var jobCard: Option<JobCard>

    /** The initial state, before the card is synchronised in. */
    constructor(jobCard: Option<JobCard>, open: bool)
      ensures status == "pending" && notes == "" && paymentStatus == "unpaid"
      ensures !showWhatsAppDialog && whatsAppMode == "jobUpdate"
      ensures this.jobCard == jobCard && this.open == open
    {
      status := "pending";
      notes := "";
      paymentStatus := "unpaid";
      showWhatsAppDialog := false;
      whatsAppMode := "jobUpdate";
      this.jobCard := jobCard;
      this.open := open;
    }

    /** The effect on a new `jobCard` prop: the three fields are copied from the card
        (notes "" when the card has none); without a card nothing changes. */
    method Sync(card: Option<JobCard>)
      modifies this
      ensures jobCard == card
      ensures card.Some? ==> status == card.value.status && notes == card.value.serviceNotes
                             && paymentStatus == card.value.paymentStatus
      ensures card.None? ==> status == old(status) && notes == old(notes)
                             && paymentStatus == old(paymentStatus)
      ensures showWhatsAppDialog == old(showWhatsAppDialog) && whatsAppMode == old(whatsAppMode)
      ensures open == old(open)
    {
      jobCard := card;
      if card.Some? {
        status := card.value.status;
        notes := card.value.serviceNotes;
        paymentStatus := card.value.paymentStatus;
      }
    }

    method SetStatus(s: string)
      modifies this
      ensures status == s && notes == old(notes) && paymentStatus == old(paymentStatus)
      ensures jobCard == old(jobCard) && open == old(open)
      ensures showWhatsAppDialog == old(showWhatsAppDialog) && whatsAppMode == old(whatsAppMode)
    {
      status := s;
    }

    method SetNotes(n: string)
      modifies this
      ensures notes == n && status == old(status) && paymentStatus == old(paymentStatus)
      ensures jobCard == old(jobCard) && open == old(open)
      ensures showWhatsAppDialog == old(showWhatsAppDialog) && whatsAppMode == old(whatsAppMode)
    {
      notes := n;
    }

    method SetPaymentStatus(p: string)
      modifies this
      ensures paymentStatus == p && status == old(status) && notes == old(notes)
      ensures jobCard == old(jobCard) && open == old(open)
      ensures showWhatsAppDialog == old(showWhatsAppDialog) && whatsAppMode == old(whatsAppMode)
    {
      paymentStatus := p;
    }

    /** `handleSave`: without a card nothing happens. Otherwise the patch of the three
        fields stamped `now` goes to the parent, the dialog closes, and the notice that
        SaveIntent picks, if any, is offered; with no notice the WhatsApp state is kept.
        The success toast names the card. */
    method Save(now: int) returns (patch: Option<StatusPatch>, toast: Option<string>)
      modifies this
      ensures jobCard.None? ==> patch.None? && toast.None? && open == old(open)
      ensures jobCard.Some? ==> patch == Some(StatusPatch(status, notes, paymentStatus, now)) && !open
      ensures jobCard.Some? ==> toast == Some("Job Card #" + jobCard.value.id + " has been updated")
      ensures var intent := if jobCard.Some? then SaveIntent(jobCard.value.status, status) else None;
              (intent.Some? ==> showWhatsAppDialog && whatsAppMode == intent.value)
              && (intent.None? ==> showWhatsAppDialog == old(showWhatsAppDialog)
                                   && whatsAppMode == old(whatsAppMode))
      ensures status == old(status) && notes == old(notes) && paymentStatus == old(paymentStatus)
      ensures jobCard == old(jobCard)
    {
      if jobCard.None? {
        return None, None;
      }
      patch := Some(StatusPatch(status, notes, paymentStatus, now));
      open := false;
      toast := Some("Job Card #" + jobCard.value.id + " has been updated");
      if status == "completed" && jobCard.value.status != "completed" {
        whatsAppMode := "completion";
        showWhatsAppDialog := true;
      } else if status == "awaiting-payment" && jobCard.value.status != "awaiting-payment" {
        whatsAppMode := "paymentReminder";
        showWhatsAppDialog := true;
      }
    }

    /** `handleNotifyCustomer`: with a card, always the job-update notice. */
    method NotifyCustomer()
      modifies this
      ensures jobCard.Some? ==> showWhatsAppDialog && whatsAppMode == "jobUpdate"
      ensures jobCard.None? ==> showWhatsAppDialog == old(showWhatsAppDialog)
                                && whatsAppMode == old(whatsAppMode)
      ensures status == old(status) && notes == old(notes) && paymentStatus == old(paymentStatus)
      ensures jobCard == old(jobCard) && open == old(open)
    {
      if jobCard.None? {
        return;
      }
      whatsAppMode := "jobUpdate";
      showWhatsAppDialog := true;
    }
  }
}
