/**
 The data-broadcast page: what user, document, timer, socket and session do to it.
 */
module BroadcastPage {
  import opened Common
  import opened BroadcastOwner
  import P = BroadcastPresentation
  import S = BroadcastSession
  import T = BroadcastTimer

  const RETRY_MS: nat := 1000

  datatype Component = Component(streamType: nat, componentId: nat, entryPoint: Option<bool>)

  /** A programme map, programme information, or anything else for the browser. An entry point
      says whether its service starts by itself. */
  datatype Message = Pmt(components: seq<Component>) | ProgramInfo(known: bool) | Other

  type Frame = S.Frame<Message>

  /** What belongs to one connection: its session, whether it has failed, whether its first
      entry point is still to come, and what is known of the programme. */
  datatype Link = Link(session: S.Session, faulted: bool, startup: bool, programKnown: bool, entryAvailable: bool)

  const NewLink := Link(S.Unopened, false, true, false, false)

  datatype Page = Page(
    pres: P.Presentation,
    task: Option<T.Task>,
    connected: bool,
    restarting: bool,
    retry: Option<nat>,
    link: Link,
    revision: nat)

  const FreshPage := Page(P.Fresh, None, false, false, None, NewLink, 0)

  // ---------- the timer ----------

  /** Whether a request is waiting that the page could take now. */
  predicate Pending(p: Page) {
    p.connected && !p.restarting && P.NeedsActivation(p.pres)
  }

  function CancelTask(p: Page): Page {
    p.(task := None)
  }

  function Updated(p: Page, now: nat): Page {
    p.(task := T.Refreshed(p.task, Pending(p), now))
  }

  predicate Delivers(p: Page, now: nat, subscribed: bool) {
    p.task.Some? && p.task.value.due <= now && T.FiringDelivers(p.task.value, Pending(p), subscribed)
  }

  /** The timer fires: poll until the document listens, let it settle, then deliver. */
  function Fired(p: Page, now: nat, subscribed: bool): Page {
    if p.task.None? || now < p.task.value.due then p
    else if Delivers(p, now, subscribed) then Updated(CancelTask(p).(pres := P.TakeActivation(p.pres)), now)
    else p.(task := T.Rescheduled(p.task.value, Pending(p), subscribed, now))
  }

  /** What the page needs to take its request. */
  predicate CouldTake(p: Page) {
    && p.connected && !p.restarting
    && p.pres.pending && p.pres.synchronized && !p.pres.loading && !p.pres.receiving && p.pres.available != Some(false)
  }

  /** A firing delivers exactly if the page could take its request, a settled task is due, and
      the document listens. */
  lemma DeliversExactly(p: Page, now: nat, subscribed: bool)
    ensures Delivers(p, now, subscribed) <==>
      CouldTake(p) && subscribed && p.task.Some? && p.task.value.settled && p.task.value.due <= now
  {
  }

  /** The timer fires at once when a request can be taken, then every 100 milliseconds until the
      document listens, and then once more after a second. */
  lemma TimerExactly(p: Page, now: nat, subscribed: bool)
    requires CouldTake(p)
    ensures p.task.None? ==> Updated(p, now).task == Some(T.Task(false, now))
    ensures p.task.Some? && p.task.value.due <= now ==>
      && (!subscribed ==> Fired(p, now, subscribed) == p.(task := Some(T.Task(false, now + 100))))
      && (subscribed && !p.task.value.settled ==>
           Fired(p, now, subscribed) == p.(task := Some(T.Task(true, now + 1000))))
      && (subscribed && p.task.value.settled ==>
           Fired(p, now, subscribed).task == None && !Fired(p, now, subscribed).pres.pending)
  {
  }

  // ---------- the page ----------

  function Shown(p: Page, pres: P.Presentation, now: nat): Page {
    Updated(p.(pres := pres), now)
  }

  function Activated(p: Page, revision: nat, now: nat): Page {
    Shown(p.(revision := revision), P.Open(p.pres), now)
  }

  /** Whether the data button asks for an activation rather than sending the key itself. */
  predicate ButtonActivates(p: Page) {
    !p.pres.synchronized || p.pres.loading || p.pres.pending
  }

  function Pressed(p: Page, now: nat): Page {
    if ButtonActivates(p) then Activated(p, p.revision, now) else p
  }

  /** The button's key goes straight to the document exactly if that is loaded and synchronized
      and no request is pending; otherwise a request is pending afterwards. */
  lemma ButtonExactly(p: Page, now: nat)
    ensures !ButtonActivates(p) <==> p.pres.synchronized && !p.pres.loading && !p.pres.pending
    ensures if ButtonActivates(p) then Pressed(p, now).pres.pending else Pressed(p, now) == p
  {
  }

  function Connected(p: Page, revision: nat, activate: bool, now: nat): Page {
    Shown(CancelTask(p).(retry := None, link := NewLink, revision := revision), P.Reset(activate), now).(connected := true)
  }

  predicate DataStream(c: Component) {
    c.streamType == 0x0d && (c.componentId == 0x40 || c.componentId == 0x80)
  }

  predicate CarriesData(components: seq<Component>) {
    exists i :: 0 <= i < |components| && DataStream(components[i])
  }

  function Entry(components: seq<Component>): Option<bool> {
    if components == [] then None
    else if components[0].entryPoint.Some? then components[0].entryPoint
    else Entry(components[1..])
  }

  /** What a message changes before the browser sees it. A manual-start service takes the
      first request as the one that starts it. */
  function Noted(p: Page, m: Message): Page {
    match m
    case Pmt(components) =>
      var entry := Entry(components);
      p.(pres := if p.link.startup && entry == Some(false) then p.pres.(pending := false) else p.pres,
         link := p.link.(entryAvailable := CarriesData(components), startup := p.link.startup && entry.None?))
    case ProgramInfo(known) => p.(link := p.link.(programKnown := known))
    case Other => p
  }

  function WithSession(p: Page, session: S.Session): Page {
    p.(link := p.link.(session := session))
  }

  function Failed(p: Page): Page {
    CancelTask(p).(link := p.link.(faulted := true))
  }

  /** Whether there is a broadcast, unknown until the programme is known. */
  function Availability(p: Page): Option<bool> {
    if p.link.programKnown then Some(p.link.entryAvailable) else None
  }

  /** `handled` tells whether the browser took the message without an exception. */
  function Received(p: Page, m: Message, handled: bool, now: nat): Page {
    var p := Noted(p, m);
    if !handled then Failed(p)
    else if m.Other? then p
    else Shown(p, P.Availability(p.pres, Availability(p)), now)
  }

  /** Asks the owner for a fresh page. */
  function Restarting(p: Page): Page {
    if p.restarting then p else CancelTask(p).(restarting := true, retry := None)
  }

  function Framed(p: Page, f: Frame, handled: bool, now: nat): Page {
    if !p.connected || p.restarting then p else
    var (session, effect) := S.Receive(p.link.session, f);
    Acted(WithSession(p, session), effect, handled, now)
  }

  /** What the page does when its session calls it, or throws. */
  function Acted(p: Page, effect: S.Effect<Message>, handled: bool, now: nat): Page {
    match effect
    case Nothing => p
    case Fault => Failed(p)
    case Restart => Restarting(p)
    case Update(message) => Received(p, message, handled, now)
    case Ready => Shown(p, p.pres.(synchronized := true), now)
    case Throw => Failed(p)
  }

  function Closed(p: Page, now: nat): Page {
    if !p.connected then p else
    var p := CancelTask(p).(connected := false);
    if p.link.faulted || p.restarting then p else p.(retry := Some(now + RETRY_MS))
  }

  function Retried(p: Page, now: nat): Page {
    if p.retry.Some? && p.retry.value <= now then Restarting(p) else p
  }

  /** A new connection keeps nothing of what was before it, but that the page is restarting. */
  lemma ConnectForgets(p: Page, q: Page, revision: nat, activate: bool, now: nat)
    requires p.restarting == q.restarting
    ensures Connected(p, revision, activate, now) == Connected(q, revision, activate, now)
    ensures Connected(p, revision, activate, now).task.None? && Connected(p, revision, activate, now).retry.None?
  {
  }

  /** A fault, a frame out of place and a message that fails all stop the timer, and the
      connection is not retried once its socket closes. */
  lemma FaultStops(p: Page, f: Frame, handled: bool, now: nat, later: nat)
    requires p.connected && !p.restarting
    requires
      var effect := S.Receive(p.link.session, f).1;
      effect.Fault? || effect.Throw? || (effect.Update? && !handled)
    ensures
      var q := Framed(p, f, handled, now);
      q.task.None? && q.connected && !q.restarting && !Closed(q, later).connected && Closed(q, later).retry == p.retry
  {
  }

  // ---------- what an event may change ----------

  /** The timer runs exactly while a request is pending, unless the connection has failed. */
  ghost predicate TimerPending(p: Page) {
    (p.task.Some? ==> Pending(p)) && (Pending(p) && !p.link.faulted ==> p.task.Some?)
  }

  /** The same connection, and no request that was not there before. */
  ghost predicate NoNewRequest(p: Page, q: Page) {
    && q.connected == p.connected && q.restarting == p.restarting && q.retry == p.retry && q.revision == p.revision
    && (q.pres.pending ==> p.pres.pending)
  }

  lemma NotedMakesNoRequest(p: Page, m: Message)
    ensures NoNewRequest(p, Noted(p, m)) && Noted(p, m).task == p.task
    ensures m.Other? ==> Noted(p, m) == p
  {
  }

  lemma ActedMakesNoRequest(p: Page, effect: S.Effect<Message>, handled: bool, now: nat)
    requires TimerPending(p) && !effect.Restart?
    ensures NoNewRequest(p, Acted(p, effect, handled, now)) && TimerPending(Acted(p, effect, handled, now))
  {
    if effect.Update? {
      NotedMakesNoRequest(p, effect.message);
    }
  }

  /** The timer has not been set to settle. */
  ghost predicate NotArmed(before: Option<T.Task>, after: Option<T.Task>) {
    after.Some? && after.value.settled ==> after == before
  }

  lemma FramedNotArmed(p: Page, f: Frame, handled: bool, now: nat)
    ensures NotArmed(p.task, Framed(p, f, handled, now).task)
  {
    if p.connected && !p.restarting {
      var (session, effect) := S.Receive(p.link.session, f);
      ActedNotArmed(WithSession(p, session), effect, handled, now);
    }
  }

  lemma ActedNotArmed(p: Page, effect: S.Effect<Message>, handled: bool, now: nat)
    ensures NotArmed(p.task, Acted(p, effect, handled, now).task)
  {
    if effect.Update? {
      NotedMakesNoRequest(p, effect.message);
    }
  }

  /** A message takes a request only as the first entry point of its connection, and only once:
      afterwards the connection is past its startup. */
  lemma ManualStartOnce(p: Page, m: Message, later: Message)
    requires Noted(p, m).pres != p.pres
    ensures p.pres.pending && Noted(p, m).pres == p.pres.(pending := false) && !Noted(p, m).link.startup
    ensures Noted(Noted(p, m), later).pres == Noted(p, m).pres
  {
  }

  // ---------- when the shown state is left unsettled ----------

  /** Whether a failing message takes a request that was holding a settled state open: the first
      map of a manual-start service, on a loaded page with a broadcast. */
  predicate Unsettling(p: Page, m: Message, handled: bool) {
    && !handled && m.Pmt? && p.link.startup && Entry(m.components) == Some(false)
    && p.pres.pending && !p.pres.loading && p.pres.available != Some(false)
  }

  lemma NotedPresentation(p: Page, m: Message)
    ensures Noted(p, m).pres ==
      if m.Pmt? && p.link.startup && Entry(m.components) == Some(false) then p.pres.(pending := false) else p.pres
  {
  }

  lemma HandledPresentation(p: Page, m: Message, now: nat)
    requires !m.Other?
    ensures Received(p, m, true, now).pres == P.Availability(Noted(p, m).pres, Availability(Noted(p, m)))
  {
  }

  lemma HandledSettles(p: Page, m: Message, now: nat)
    requires P.Consistent(p.pres) && !m.Other?
    ensures P.Settled(Received(p, m, true, now).pres)
  {
    HandledPresentation(p, m, now);
    NotedPresentation(p, m);
    P.DroppingKeepsConsistent(p.pres);
    P.AvailabilitySettles(Noted(p, m).pres, Availability(Noted(p, m)));
  }

  lemma UnhandledPresentation(p: Page, m: Message, handled: bool, now: nat)
    requires !handled || m.Other?
    ensures Received(p, m, handled, now).pres == Noted(p, m).pres
  {
  }

  /** A message leaves a settled page unsettled exactly in that case. */
  lemma ReceivedUnsettles(p: Page, m: Message, handled: bool, now: nat)
    requires P.Settled(p.pres)
    ensures P.Consistent(Received(p, m, handled, now).pres)
    ensures !P.Settled(Received(p, m, handled, now).pres) <==> Unsettling(p, m, handled)
  {
    if handled && !m.Other? {
      HandledSettles(p, m, now);
    } else {
      UnhandledPresentation(p, m, handled, now);
      NotedPresentation(p, m);
      P.UnsettledExactly(p.pres);
    }
  }

  /** An unsettled page is settled again by the next message about the programme that is
      handled, and by no other message. */
  lemma ReceivedResettles(p: Page, m: Message, handled: bool, now: nat)
    requires P.Consistent(p.pres) && !P.Settled(p.pres)
    ensures P.Consistent(Received(p, m, handled, now).pres)
    ensures P.Settled(Received(p, m, handled, now).pres) <==> handled && !m.Other?
  {
    P.UnsettledIs(p.pres);
    if handled && !m.Other? {
      HandledSettles(p, m, now);
    } else {
      UnhandledPresentation(p, m, handled, now);
      NotedPresentation(p, m);
      assert p.pres.(pending := false) == p.pres;
    }
  }

  /** A frame that brings such a failing message. */
  predicate FrameUnsettles(p: Page, f: Frame, handled: bool) {
    p.connected && !p.restarting &&
    var effect := S.Receive(p.link.session, f).1;
    effect.Update? && Unsettling(p, effect.message, handled)
  }

  /** A frame that brings a message about the programme, which is handled. */
  predicate FrameSettles(p: Page, f: Frame, handled: bool) {
    p.connected && !p.restarting && handled &&
    var effect := S.Receive(p.link.session, f).1;
    effect.Update? && !effect.message.Other?
  }

  lemma FramedSettling(p: Page, f: Frame, handled: bool, now: nat)
    requires P.Consistent(p.pres)
    ensures P.Consistent(Framed(p, f, handled, now).pres)
    ensures P.Settled(Framed(p, f, handled, now).pres) <==>
      if P.Settled(p.pres) then !FrameUnsettles(p, f, handled) else FrameSettles(p, f, handled)
  {
    if p.connected && !p.restarting {
      var (session, effect) := S.Receive(p.link.session, f);
      var q := WithSession(p, session);
      if effect.Update? {
        if P.Settled(p.pres) {
          ReceivedUnsettles(q, effect.message, handled, now);
        } else {
          ReceivedResettles(q, effect.message, handled, now);
        }
      } else {
        OtherEffect(q, effect, handled, now);
      }
    }
  }

  lemma OtherEffect(p: Page, effect: S.Effect<Message>, handled: bool, now: nat)
    requires P.Consistent(p.pres) && !effect.Update?
    ensures P.Consistent(Acted(p, effect, handled, now).pres)
    ensures P.Settled(Acted(p, effect, handled, now).pres) <==> P.Settled(p.pres)
  {
    P.NotedFact(p.pres, Acted(p, effect, handled, now).pres);
  }

  // ---------- the object ----------

  class BrowserPage {
    const presentation: P.PresentationState
    const activation: T.Activation
    var connected: bool
    var restarting: bool
    var retry: Option<nat>
    var protocol: S.SessionProtocol<Message>
    var faulted: bool
    var startup: bool
    var programKnown: bool
    var entryAvailable: bool
    var revision: nat

    /** The page has left no timeout behind but the one it keeps. */
    ghost predicate Valid()
      reads this, activation, activation.clock
    {
      T.OnlyTask(activation.Now())
    }

    ghost function Now(): Page
      reads this, presentation, activation, activation.clock, protocol
    {
      Page(presentation.Now(), T.Kept(activation.Now()), connected, restarting, retry,
           Link(protocol.Now(), faulted, startup, programKnown, entryAvailable), revision)
    }

    constructor ()
      ensures Valid() && Now() == FreshPage
      ensures fresh(presentation) && fresh(activation) && fresh(activation.clock) && fresh(protocol)
    {
      var clock := new T.Clock();
      presentation := new P.PresentationState();
      activation := new T.Activation(clock);
      protocol := new S.SessionProtocol<Message>();
      connected, restarting, retry := false, false, None;
      faulted, startup, programKnown, entryAvailable, revision := false, true, false, false, 0;
    }

    function IsPending(): (r: bool)
      reads this, presentation, activation, activation.clock, protocol
      ensures r == Pending(Now())
    {
      connected && !restarting && presentation.NeedsActivationNow()
    }

    method CancelTimer()
      requires Valid()
      modifies activation, activation.clock
      ensures Valid() && Now() == CancelTask(old(Now()))
    {
      T.CancelledKeeps(activation.Now());
      activation.Cancel();
    }

    method UpdateTimer(now: nat)
      requires Valid()
      modifies activation, activation.clock
      ensures Valid() && Now() == Updated(old(Now()), now)
    {
      T.UpdatedKeeps(activation.Now(), IsPending(), now);
      activation.Update(IsPending(), now);
    }

    /** The browser runs the callback of a timeout that is due: it can only be the one kept. */
    method FireTimer(handle: nat, now: nat, subscribed: bool) returns (delivered: bool)
      requires Valid() && handle in activation.clock.live && activation.clock.live[handle].due <= now
      modifies activation, activation.clock, presentation
      ensures Valid()
      ensures delivered == Delivers(old(Now()), now, subscribed)
      ensures Now() == Fired(old(Now()), now, subscribed)
    {
      T.FiredKeeps(activation.Now(), handle, IsPending(), subscribed, now);
      var deliver := activation.Fire(handle, IsPending(), subscribed, now);
      if !deliver {
        return false;
      }
      delivered := presentation.Take();
      UpdateTimer(now);
    }

    method SetUrl(loading: bool, now: nat)
      requires Valid()
      modifies activation, activation.clock, presentation
      ensures Valid() && Now() == Shown(old(Now()), P.Navigation(old(Now()).pres, loading), now)
    {
      presentation.Navigate(loading);
      UpdateTimer(now);
    }

    method SetVisibility(invisible: bool, now: nat)
      requires Valid()
      modifies activation, activation.clock, presentation
      ensures Valid() && Now() == Shown(old(Now()), P.Visibility(old(Now()).pres, invisible), now)
    {
      presentation.SetInvisible(invisible);
      UpdateTimer(now);
    }

    method SetReceivingStatus(receiving: bool, now: nat)
      requires Valid()
      modifies activation, activation.clock, presentation
      ensures Valid() && Now() == Shown(old(Now()), P.Reception(old(Now()).pres, receiving), now)
    {
      presentation.SetReceiving(receiving);
      UpdateTimer(now);
    }

    method Activate(asked: nat, now: nat)
      requires Valid()
      modifies this`revision, activation, activation.clock, presentation
      ensures Valid() && Now() == Activated(old(Now()), asked, now)
    {
      revision := asked;
      presentation.OpenRequest();
      UpdateTimer(now);
    }

    /** Reports whether the key was sent straight to the document. */
    method PressDataButton(now: nat) returns (sent: bool)
      requires Valid()
      modifies this`revision, activation, activation.clock, presentation
      ensures Valid()
      ensures sent == !ButtonActivates(old(Now()))
      ensures Now() == Pressed(old(Now()), now)
    {
      if !presentation.synchronized || presentation.loading || presentation.activationPending {
        Activate(revision, now);
        return false;
      }
      return true;
    }

    /** Asks for a fresh page, handing over the request not delivered yet. */
    method RequestRestart() returns (posted: Option<Request>)
      requires Valid()
      modifies this`restarting, this`retry, activation, activation.clock
      ensures Valid()
      ensures posted == if old(restarting) then None else Some(Request(revision, presentation.activationPending))
      ensures Now() == Restarting(old(Now()))
    {
      if restarting {
        return None;
      }
      restarting := true;
      CancelTimer();
      retry := None;
      return Some(Request(revision, presentation.activationPending));
    }

    method PrepareConnection(asked: nat, activate: bool, now: nat)
      requires Valid()
      modifies this`retry, this`programKnown, this`entryAvailable, this`revision, activation, activation.clock, presentation
      ensures Valid()
      ensures
        var before := old(Now());
        Now() == Shown(
          CancelTask(before).(
            retry := None, revision := asked, link := before.link.(programKnown := false, entryAvailable := false)),
          P.Reset(activate), now)
    {
      retry := None;
      CancelTimer();
      programKnown := false;
      entryAvailable := false;
      revision := asked;
      presentation.ResetPage(activate);
      UpdateTimer(now);
    }

    /** The timer is off afterwards: a page that has just been reset has nothing pending. */
    method Connect(asked: nat, activate: bool, now: nat)
      requires Valid()
      modifies this, activation, activation.clock, presentation
      ensures fresh(protocol) && Valid() && Now().task.None?
      ensures Now() == Connected(old(Now()), asked, activate, now)
    {
      PrepareConnection(asked, activate, now);
      connected := true;
      faulted := false;
      startup := true;
      protocol := new S.SessionProtocol<Message>();
    }

    method Fail()
      requires Valid()
      modifies this`faulted, activation, activation.clock
      ensures Valid() && Now() == Failed(old(Now()))
    {
      faulted := true;
      CancelTimer();
    }

    method NoteMessage(m: Message)
      modifies this`startup, this`programKnown, this`entryAvailable, presentation
      ensures Now() == Noted(old(Now()), m)
    {
      match m
      case Pmt(components) =>
        entryAvailable := CarriesData(components);
        var entry := Entry(components);
        if startup && entry == Some(false) {
          presentation.activationPending := false;
        }
        if entry.Some? {
          startup := false;
        }
      case ProgramInfo(known) => programKnown := known;
      case Other =>
    }

    method HandleMessage(m: Message, handled: bool, now: nat)
      requires Valid()
      modifies this`faulted, this`startup, this`programKnown, this`entryAvailable, activation, activation.clock, presentation
      ensures Valid() && Now() == Received(old(Now()), m, handled, now)
    {
      NoteMessage(m);
      if !handled {
        Fail();
      } else if !m.Other? {
        presentation.SetAvailable(if programKnown then Some(entryAvailable) else None);
        UpdateTimer(now);
      }
    }

    method HandleFrame(frame: Frame, handled: bool, now: nat) returns (posted: Option<Request>)
      requires Valid()
      modifies this, activation, activation.clock, presentation, protocol
      ensures Valid() && protocol == old(protocol)
      ensures posted.Some? <==> Now().restarting && !old(restarting)
      ensures posted.Some? ==> posted.value == Request(revision, presentation.activationPending)
      ensures Now() == Framed(old(Now()), frame, handled, now)
    {
      posted := None;
      if !connected || restarting {
        return;
      }
      var effect := protocol.ReceiveFrame(frame);
      match effect
      case Nothing =>
      case Fault => Fail();
      case Restart => posted := RequestRestart();
      case Update(message) => HandleMessage(message, handled, now);
      case Ready =>
        presentation.synchronized := true;
        UpdateTimer(now);
      case Throw => Fail();
    }

    method SocketClosed(now: nat)
      requires Valid()
      modifies this`connected, this`retry, activation, activation.clock
      ensures Valid() && Now() == Closed(old(Now()), now)
    {
      if !connected {
        return;
      }
      CancelTimer();
      connected := false;
      if faulted || restarting {
        return;
      }
      retry := Some(now + RETRY_MS);
    }
  }
}
