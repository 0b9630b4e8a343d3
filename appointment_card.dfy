/**
 * One appointment card on the professional's dashboard: the badge shown for
 * the stored status, the actions offered for it, and the single in-flight
 * action that disables every button until its callback returns.
 */
module AppointmentCard {
  import opened SalonTypes
  import opened Wrappers

  datatype Action = Confirm | Cancel | Delete

  datatype Badge = Badge(caption: string, variant: string)

  /** `statusConfig[status] || statusConfig.pending`, looked up by the stored string. */
  function BadgeFor(status: string): (b: Badge)
    ensures b.caption == "Pendente" <==> ParseStatus(status) == Pending || ParseStatus(status).Other?
    ensures b.caption == "Pendente" <==> b.variant == "outline"
    ensures b.variant == "destructive" <==> ParseStatus(status) == Cancelled
    ensures b.caption == "Concluído" <==> ParseStatus(status) == Completed
  {
    if status == "pending" then Badge("Pendente", "outline")
    else if status == "confirmed" then Badge("Confirmado", "default")
    else if status == "cancelled" then Badge("Cancelado", "destructive")
    else if status == "completed" then Badge("Concluído", "secondary")
    else Badge("Pendente", "outline")
  }

  /**
   * The four known statuses get four different badges, and every other
   * stored string falls back to the pending badge.
   */
  lemma BadgeRules(status: string)
    ensures BadgeFor(status) == BadgeFor("pending") <==> ParseStatus(status) == Pending || ParseStatus(status).Other?
    ensures ParseStatus(status) == Confirmed ==> BadgeFor(status).caption == "Confirmado"
    ensures ParseStatus(status) == Cancelled ==> BadgeFor(status).caption == "Cancelado"
    ensures ParseStatus(status) == Completed ==> BadgeFor(status).caption == "Concluído"
  {
  }

  /** The buttons rendered for a stored status, in screen order. */
  function OfferedActions(status: string): (r: seq<Action>)
    ensures r == [] <==> ParseStatus(status) == Cancelled
    ensures r != [] ==> |r| >= 2 && r[|r| - 2..] == [Cancel, Delete]
    ensures r != [] ==> (r[0] == Confirm <==> ParseStatus(status) == Pending)
    ensures |r| <= 3
  {
    if status == "cancelled" then []
    else (if status == "pending" then [Confirm] else []) + [Cancel, Delete]
  }

  /**
   * A cancelled appointment offers nothing; confirm is offered exactly for
   * pending ones; cancel and delete for every other status, completed and
   * unknown ones included.
   */
  lemma OfferedRules(status: string)
    ensures ParseStatus(status) == Cancelled ==> OfferedActions(status) == []
    ensures Confirm in OfferedActions(status) <==> ParseStatus(status) == Pending
    ensures Cancel in OfferedActions(status) <==> ParseStatus(status) != Cancelled
    ensures Delete in OfferedActions(status) <==> ParseStatus(status) != Cancelled
  {
  }

  /** A callback the card made: which handler, with which appointment id. */
  datatype Call = Call(action: Action, appointmentId: string)

  class CardState {
    const appointmentId: string
    const status: string
    var isLoading: Option<Action>
    /** The callbacks invoked so far, oldest first. */
    var calls: seq<Call>

    /** Every callback carried this card's id, and an action in flight is the last one called. */
    predicate Valid()
      reads this
    {
      (forall i :: 0 <= i < |calls| ==> calls[i].appointmentId == appointmentId) &&
      (isLoading.Some? ==> calls != [] && calls[|calls| - 1].action == isLoading.value)
    }

    constructor (appointmentId: string, status: string)
      ensures this.appointmentId == appointmentId && this.status == status
      ensures isLoading.None? && calls == []
      ensures Valid()
    {
      this.appointmentId := appointmentId;
      this.status := status;
      isLoading := None;
      calls := [];
    }

    /** The buttons are enabled only while nothing is in flight. */
    predicate Enabled()
      reads this
    {
      isLoading.None?
    }

    /**
     * A click on an action's button: nothing happens unless the button is
     * shown and enabled; otherwise loading is set to that action and its
     * callback is called with the card's id.
     */
    method Click(action: Action) returns (invoked: bool)
      requires Valid()
      modifies this
      ensures Valid()
      ensures invoked <==> old(isLoading).None? && action in OfferedActions(status)
      ensures invoked ==> calls == old(calls) + [Call(action, appointmentId)] && isLoading == Some(action)
      ensures !invoked ==> calls == old(calls) && isLoading == old(isLoading)
    {
      if isLoading.Some? || action !in OfferedActions(status) {
        return false;
      }
      Invoke(action);
      invoked := true;
    }

    /** Sets loading to the action and calls its callback with the card's id. */
    method Invoke(action: Action)
      requires Valid()
      modifies this
      ensures Valid()
      ensures calls == old(calls) + [Call(action, appointmentId)] && isLoading == Some(action)
    {
      isLoading := Some(action);
      calls := calls + [Call(action, appointmentId)];
    }

    /** The awaited callback returned: loading goes back to none and the buttons come back. */
    method Settle()
      requires Valid()
      modifies this
      ensures Valid() && Enabled()
      ensures calls == old(calls)
    {
      isLoading := None;
    }
  }
}
