/** The support page: badge lookups with defaults, the ticket form and its reset. */
module SupportPage {
  import opened Wrappers
  import opened Text
  import opened Ui

  const StatusStyles: map<string, string> := map[
    "open" := "bg-blue-100 text-blue-600",
    "in_progress" := "bg-amber-100 text-amber-600",
    "resolved" := "bg-green-100 text-green-600",
    "closed" := "bg-slate-100 text-slate-600"]

  const PriorityStyles: map<string, string> := map[
    "low" := "bg-green-100 text-green-600",
    "medium" := "bg-amber-100 text-amber-600",
    "high" := "bg-red-100 text-red-600"]

  /** `getStatusBadge`: an unknown status is styled as "open". */
  function StatusBadge(status: string): (r: string)
    ensures r in StatusStyles.Values
    ensures status !in StatusStyles ==> r == StatusStyles["open"]
    ensures status in StatusStyles ==> r == StatusStyles[status]
  {
    if status in StatusStyles then StatusStyles[status] else StatusStyles["open"]
  }

  /** `getPriorityBadge`: an unknown priority is styled as "medium". */
  function PriorityBadge(priority: string): (r: string)
    ensures r in PriorityStyles.Values
    ensures priority !in PriorityStyles ==> r == PriorityStyles["medium"]
    ensures priority in PriorityStyles ==> r == PriorityStyles[priority]
  {
    if priority in PriorityStyles then PriorityStyles[priority] else PriorityStyles["medium"]
  }

  /** `status.replace('_', ' ')`: only the first underscore becomes a space. */
  function StatusLabel(status: string): (r: string)
    ensures |r| == |status|
    ensures '_' in status ==> r[IndexOf(status, '_')] == ' '
    ensures forall i | 0 <= i < |status| && i != IndexOf(status, '_') :: r[i] == status[i]
  {
    ReplaceFirstAt(status, '_', ' ');
    ReplaceFirst(status, '_', ' ')
  }

  /** `responses?.length || 0`. */
  function ResponseCount(responses: Option<seq<string>>): (n: nat)
    ensures n == 0 <==> responses.None? || responses.value == []
    ensures responses.Some? ==> n == |responses.value|
  {
    if responses.Some? then |responses.value| else 0
  }

  datatype TicketForm = TicketForm(subject: string, description: string, category: string, priority: string)

  const EmptyForm := TicketForm("", "", "technical", "medium")

  class SupportPage {
    var newTicket: TicketForm
    var isCreateOpen: bool
    var notices: seq<Notice>

    constructor ()
      ensures newTicket == EmptyForm && !isCreateOpen && notices == []
    {
      newTicket := EmptyForm;
      isCreateOpen := false;
      notices := [];
    }

    method EditForm(form: TicketForm)
      modifies this
      ensures newTicket == form && isCreateOpen == old(isCreateOpen) && notices == old(notices)
    {
      newTicket := form;
    }

    /**
     * `handleCreateTicket`: `posted` is the form sent, `refetch` whether
     * the list is loaded again.  A failure keeps the form for a retry.
     */
    method HandleCreateTicket(succeeded: bool) returns (posted: TicketForm, refetch: bool)
      modifies this
      ensures posted == old(newTicket) && refetch == succeeded
      ensures succeeded ==>
        newTicket == EmptyForm && !isCreateOpen && notices == old(notices) + [SuccessNotice("Support ticket created")]
      ensures !succeeded ==>
        newTicket == old(newTicket) && isCreateOpen == old(isCreateOpen) &&
        notices == old(notices) + [ErrorNotice("Failed to create ticket")]
    {
      posted := newTicket;
      if succeeded {
        notices := notices + [SuccessNotice("Support ticket created")];
        isCreateOpen := false;
        newTicket := EmptyForm;
        refetch := true;
      } else {
        notices := notices + [ErrorNotice("Failed to create ticket")];
        refetch := false;
      }
    }
  }
}
