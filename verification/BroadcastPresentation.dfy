/** What the viewer shows for a data broadcast page: the presentation state machine. */
module BroadcastPresentation {
  import opened Common

  datatype Shown = Opening | Presenting | Transitioning | Standby | Unavailable

  /** `available` is unknown until the programme and its components are known. */
  datatype Presentation = Presentation(
    state: Shown,
    loading: bool,
    invisible: bool,
    pending: bool,
    receiving: bool,
    available: Option<bool>,
    synchronized: bool)

  const Fresh := Presentation(Opening, true, true, true, false, None, false)

  function Reset(activate: bool): Presentation {
    Presentation(if activate then Opening else Standby, true, true, activate, false, None, false)
  }

  function Settle(p: Presentation): Presentation {
    if p.available == Some(false) then p.(state := Unavailable)
    else if p.loading || p.pending then p
    else p.(state := if p.invisible then Standby else Presenting)
  }

  function Open(p: Presentation): Presentation {
    Settle(p.(state := Opening, pending := true))
  }

  function Navigation(p: Presentation, loading: bool): Presentation {
    Settle(p.(loading := loading, state := if loading && p.state.Presenting? then Transitioning else p.state))
  }

  function Visibility(p: Presentation, invisible: bool): Presentation {
    Settle(p.(invisible := invisible))
  }

  function Reception(p: Presentation, receiving: bool): Presentation {
    p.(receiving := receiving)
  }

  function Availability(p: Presentation, available: Option<bool>): Presentation {
    Settle(p.(available := available, state := if p.state.Unavailable? then Opening else p.state))
  }

  predicate NeedsActivation(p: Presentation) {
    p.synchronized && p.available != Some(false) && p.pending && !p.loading && !p.receiving
  }

  function TakeActivation(p: Presentation): Presentation {
    if NeedsActivation(p) then Settle(p.(pending := false)) else p
  }

  // ---------- what the state means ----------

  /** The state agrees with the page, apart from a pending settlement. */
  ghost predicate Consistent(p: Presentation) {
    && (p.state.Unavailable? <==> p.available == Some(false))
    && (p.state.Presenting? ==> !p.loading && !p.invisible && !p.pending)
    && (p.state.Transitioning? ==> p.loading && !p.pending)
    && (p.state.Standby? ==> !p.pending && (p.loading || p.invisible))
  }

  /** Moreover, when there is a broadcast, the page is loaded and nothing is pending, the
      state follows visibility alone. */
  ghost predicate Settled(p: Presentation) {
    Consistent(p) &&
    (p.available != Some(false) && !p.loading && !p.pending ==> p.state == if p.invisible then Standby else Presenting)
  }

  datatype Event =
    | DoReset(activate: bool)
    | DoOpen
    | DoNavigation(loading: bool)
    | DoVisibility(invisible: bool)
    | DoReception(receiving: bool)
    | DoAvailability(available: Option<bool>)
    | DoSynchronize
    | DoTake
    | DoManualStart(available: Option<bool>)

  /** A manual-start service consumes the pending request just before availability is
      reported. */
  function Step(p: Presentation, e: Event): Presentation {
    match e
    case DoReset(activate) => Reset(activate)
    case DoOpen => Open(p)
    case DoNavigation(loading) => Navigation(p, loading)
    case DoVisibility(invisible) => Visibility(p, invisible)
    case DoReception(receiving) => Reception(p, receiving)
    case DoAvailability(available) => Availability(p, available)
    case DoSynchronize => p.(synchronized := true)
    case DoTake => TakeActivation(p)
    case DoManualStart(available) => Availability(p.(pending := false), available)
  }

  function Run(p: Presentation, es: seq<Event>): Presentation
    decreases |es|
  {
    if es == [] then p else Run(Step(p, es[0]), es[1..])
  }

  lemma StepSettles(p: Presentation, e: Event)
    requires Settled(p)
    ensures Settled(Step(p, e))
  {
  }

  /** Every event but those that only note a fact settles a consistent state. */
  lemma StepRepairs(p: Presentation, e: Event)
    requires Consistent(p)
    ensures Consistent(Step(p, e))
    ensures Settled(p) || !(e.DoReception? || e.DoSynchronize? || (e.DoTake? && !NeedsActivation(p))) ==> Settled(Step(p, e))
  {
  }

  lemma {:induction false} RunSettles(p: Presentation, es: seq<Event>)
    requires Settled(p)
    ensures Settled(Run(p, es))
    decreases |es|
  {
    if es != [] {
      StepSettles(p, es[0]);
      RunSettles(Step(p, es[0]), es[1..]);
    }
  }

  /** After every event of every run the state is settled. */
  lemma AlwaysSettled(es: seq<Event>)
    ensures Settled(Run(Fresh, es))
  {
    RunSettles(Fresh, es);
  }

  /** Dropping the pending request without settling, as happens when handling the message
      fails, leaves the state unsettled exactly when the request alone was holding it open;
      any settling event repairs it. */
  lemma UnsettledExactly(p: Presentation)
    requires Settled(p)
    ensures Consistent(p.(pending := false))
    ensures Settled(p.(pending := false)) <==> (!p.pending || p.loading || p.available == Some(false))
    ensures Settled(Settle(p.(pending := false)))
  {
  }

  /** A state that is consistent but not settled has nothing pending. */
  lemma UnsettledIs(p: Presentation)
    requires Consistent(p) && !Settled(p)
    ensures !p.pending && !p.loading && p.available != Some(false)
  {
  }

  /** What only notes a fact changes nothing about the shown state. */
  lemma NotedFact(p: Presentation, q: Presentation)
    requires Consistent(p) && q == p.(receiving := q.receiving, synchronized := q.synchronized)
    ensures Consistent(q) && (Settled(q) <==> Settled(p))
  {
  }

  lemma AvailabilitySettles(p: Presentation, available: Option<bool>)
    requires Consistent(p)
    ensures Settled(Availability(p, available))
  {
  }

  lemma DroppingKeepsConsistent(p: Presentation)
    requires Consistent(p)
    ensures Consistent(p.(pending := false))
  {
  }

  predicate Asks(e: Event) {
    e.DoOpen? || (e.DoReset? && e.activate)
  }

  lemma {:induction false} NothingPending(p: Presentation, es: seq<Event>)
    requires !p.pending && forall i :: 0 <= i < |es| ==> !Asks(es[i])
    ensures !Run(p, es).pending
    decreases |es|
  {
    if es != [] {
      NothingPending(Step(p, es[0]), es[1..]);
    }
  }

  /** A request that could be taken is taken once: whatever follows, none can be taken again
      until one is made. */
  lemma RequestTakenOnce(p: Presentation, es: seq<Event>)
    requires NeedsActivation(p) && forall i :: 0 <= i < |es| ==> !Asks(es[i])
    ensures !NeedsActivation(Run(TakeActivation(p), es))
  {
    NothingPending(TakeActivation(p), es);
  }

  /** A request still pending shows as opening unless there is no broadcast. */
  lemma PendingShowsOpening(p: Presentation)
    requires Consistent(p) && p.pending
    ensures p.state == if p.available == Some(false) then Unavailable else Opening
  {
  }

  // ---------- the facts the state is built on ----------

  datatype Facts = Facts(
    loading: bool, invisible: bool, receiving: bool, available: Option<bool>, synchronized: bool, pending: bool)

  function FactsOf(p: Presentation): Facts {
    Facts(p.loading, p.invisible, p.receiving, p.available, p.synchronized, p.pending)
  }

  /** A reset page knows nothing, and its document is still to be loaded and shown. */
  function NothingKnown(activate: bool): Facts {
    Facts(true, true, false, None, false, activate)
  }

  /** What an event reports. A request is pending from when it was made until it is taken: by a
      manual start, or when it can be delivered to a synchronized, loaded document that is not
      receiving anything, unless there is no broadcast. */
  function Noticed(f: Facts, e: Event): Facts {
    match e
    case DoReset(activate) => NothingKnown(activate)
    case DoOpen => f.(pending := true)
    case DoNavigation(loading) => f.(loading := loading)
    case DoVisibility(invisible) => f.(invisible := invisible)
    case DoReception(receiving) => f.(receiving := receiving)
    case DoAvailability(available) => f.(available := available)
    case DoSynchronize => f.(synchronized := true)
    case DoTake => f.(pending := f.pending && (!f.synchronized || f.available == Some(false) || f.loading || f.receiving))
    case DoManualStart(available) => f.(available := available, pending := false)
  }

  function NoticedAll(f: Facts, es: seq<Event>): Facts
    decreases |es|
  {
    if es == [] then f else NoticedAll(Noticed(f, es[0]), es[1..])
  }

  lemma ShowingNotices(p: Presentation, e: Event)
    requires e.DoNavigation? || e.DoVisibility? || e.DoAvailability? || e.DoManualStart?
    ensures FactsOf(Step(p, e)) == Noticed(FactsOf(p), e)
  {
  }

  lemma StepNotices(p: Presentation, e: Event)
    ensures FactsOf(Step(p, e)) == Noticed(FactsOf(p), e)
  {
    if e.DoNavigation? || e.DoVisibility? || e.DoAvailability? || e.DoManualStart? {
      ShowingNotices(p, e);
    }
  }

  lemma {:induction false} RunNotices(p: Presentation, es: seq<Event>)
    ensures FactsOf(Run(p, es)) == NoticedAll(FactsOf(p), es)
    decreases |es|
  {
    if es != [] {
      StepNotices(p, es[0]);
      RunNotices(Step(p, es[0]), es[1..]);
    }
  }

  /** At any moment the state is built on exactly what was last reported of each fact. */
  lemma FactsFollow(es: seq<Event>)
    ensures FactsOf(Run(Fresh, es)) == NoticedAll(NothingKnown(true), es)
  {
    RunNotices(Fresh, es);
  }

  /** A request can be taken exactly by a synchronized, loaded document that is not receiving
      anything and not known to have no broadcast. */
  lemma TakenExactly(p: Presentation)
    ensures TakeActivation(p) != p <==>
      p.pending && p.synchronized && !p.loading && !p.receiving && p.available != Some(false)
    ensures TakeActivation(p) != p ==> !TakeActivation(p).pending
  {
  }

  /** While a document loads with nothing pending, it keeps what it showed, except that what was
      presented is in transition, and what was unavailable and no longer is opens. */
  lemma LoadingKeepsShown(p: Presentation, e: Event)
    requires Settled(p) && !e.DoReset?
    ensures
      var q := Step(p, e);
      q.loading && !q.pending && q.available != Some(false) ==>
        q.state == (if p.state.Presenting? then Transitioning else if p.state.Unavailable? then Opening else p.state)
  {
  }

  /** A reset page opens if it is to be activated and otherwise stands by. */
  lemma ResetShows(p: Presentation, activate: bool)
    ensures Step(p, DoReset(activate)).state == if activate then Opening else Standby
  {
  }

  // ---------- the object ----------

  class PresentationState {
    var state: Shown
    var loading: bool
    var invisible: bool
    var activationPending: bool
    var receiving: bool
    var available: Option<bool>
    var synchronized: bool

    ghost function Now(): Presentation
      reads this
    {
      Presentation(state, loading, invisible, activationPending, receiving, available, synchronized)
    }

    constructor ()
      ensures Now() == Fresh
    {
      state, loading, invisible, activationPending := Opening, true, true, true;
      receiving, available, synchronized := false, None, false;
    }

    method ResetPage(activate: bool)
      modifies this
      ensures Now() == Reset(activate)
    {
      state := if activate then Opening else Standby;
      loading := true;
      invisible := true;
      activationPending := activate;
      receiving := false;
      available := None;
      synchronized := false;
    }

    method SettleState()
      modifies this`state
      ensures Now() == Settle(old(Now()))
    {
      if available == Some(false) {
        state := Unavailable;
        return;
      }
      if loading || activationPending {
        return;
      }
      if !invisible {
        state := Presenting;
      } else {
        state := Standby;
      }
    }

    method OpenRequest()
      modifies this`state, this`activationPending
      ensures Now() == Open(old(Now()))
    {
      state := Opening;
      activationPending := true;
      SettleState();
    }

    method Navigate(busy: bool)
      modifies this`state, this`loading
      ensures Now() == Navigation(old(Now()), busy)
    {
      loading := busy;
      if busy && state.Presenting? {
        state := Transitioning;
      }
      SettleState();
    }

    method SetInvisible(hidden: bool)
      modifies this`state, this`invisible
      ensures Now() == Visibility(old(Now()), hidden)
    {
      invisible := hidden;
      SettleState();
    }

    method SetReceiving(busy: bool)
      modifies this`receiving
      ensures Now() == Reception(old(Now()), busy)
    {
      receiving := busy;
    }

    method SetAvailable(known: Option<bool>)
      modifies this`state, this`available
      ensures Now() == Availability(old(Now()), known)
    {
      available := known;
      if state.Unavailable? {
        state := Opening;
      }
      SettleState();
    }

    function NeedsActivationNow(): (r: bool)
      reads this
      ensures r == NeedsActivation(Now())
    {
      synchronized && available != Some(false) && activationPending && !loading && !receiving
    }

    method Take() returns (taken: bool)
      modifies this`state, this`activationPending
      ensures taken == NeedsActivation(old(Now()))
      ensures Now() == TakeActivation(old(Now()))
    {
      if !NeedsActivationNow() {
        return false;
      }
      activationPending := false;
      SettleState();
      return true;
    }
  }
}
