/**
 Data-broadcast activation: a user's request to open the data broadcast is delivered at most
 once, only when the document can take it, and the events that lose it or make it are exactly
 known.
 */
module BroadcastActivation {
  import opened Common
  import opened BroadcastOwner
  import opened BroadcastPage
  import opened BroadcastWorld
  import S = BroadcastSession
  import T = BroadcastTimer

  // ---------- at most once ----------

  function Asking(c: Call): nat {
    Once(c.ActivateCall? || (c.ConnectCall? && c.activate))
  }

  function CallClaims(calls: seq<Call>): nat {
    if calls == [] then 0 else Asking(calls[0]) + CallClaims(calls[1..])
  }

  lemma {:induction false} CallClaimsAppend(calls: seq<Call>, c: Call)
    ensures CallClaims(calls + [c]) == CallClaims(calls) + Asking(c)
  {
    if calls != [] {
      assert (calls + [c])[1..] == calls[1..] + [c];
      CallClaimsAppend(calls[1..], c);
    } else {
      assert [c][1..] == [] && calls + [c] == [c];
    }
  }

  /** The page's request, or the one it has handed over in its restart request. */
  predicate PageClaims(w: World) {
    if w.page.restarting then Honoured(w).Some? && Honoured(w).value.activate
    else w.page.pres.pending && (w.page.connected || w.page.retry.Some?)
  }

  /** The requests that may still be delivered: by the page, with calls on their way to it, or
      kept by the owner while a page loads. */
  function Claims(w: World): nat {
    Once(PageClaims(w)) + CallClaims(w.calls) + Once(!w.owner.ready && w.owner.resume)
  }

  /** Every delivery, and every request that may still be delivered, is covered by a request. */
  ghost predicate Covered(w: World, w': World) {
    w'.tally.delivered + Claims(w') + w.tally.requests <= w.tally.delivered + Claims(w) + w'.tally.requests
  }

  lemma PageChangeCovered(w: World, p: Page)
    requires InOrder(w) && TimerPending(p) && NoNewRequest(w.page, p)
    ensures Covered(w, w.(page := p))
  {
    PageChangeKeepsOrder(w, p);
  }

  lemma RestartCovered(w: World, p: Page)
    requires InOrder(w) && !w.page.restarting && (w.page.connected || w.page.retry.Some?)
    requires p == Restarting(w.page).(link := p.link)
    ensures Covered(w, Posted(w, p))
  {
    RestartPosts(w, p);
  }

  /** A delivery uses up the page's request. */
  lemma DeliveryUsesUp(w: World, subscribed: bool)
    requires InOrder(w) && Delivers(w.page, w.now, subscribed)
    ensures Claims(Step(w, TimerFires(subscribed))) == Claims(w) - 1
    ensures Step(w, TimerFires(subscribed)).tally == w.tally.(delivered := w.tally.delivered + 1)
  {
    FiredMakesNoRequest(w.page, w.now, subscribed);
  }

  lemma TimerCovered(w: World, subscribed: bool)
    requires InOrder(w)
    ensures Covered(w, Step(w, TimerFires(subscribed)))
  {
    if Delivers(w.page, w.now, subscribed) {
      DeliveryUsesUp(w, subscribed);
    } else {
      FiredMakesNoRequest(w.page, w.now, subscribed);
      PageChangeCovered(w, Fired(w.page, w.now, subscribed));
    }
  }

  lemma FrameCovered(w: World, frame: Frame, handled: bool)
    requires InOrder(w)
    ensures Covered(w, Step(w, FrameArrives(frame, handled)))
  {
    var e := FrameArrives(frame, handled);
    FrameIs(w, frame, handled);
    if AsksRestart(w, e) {
      RestartCovered(w, Restarting(w.page).(link := Step(w, e).page.link));
    } else {
      PageChangeCovered(w, Step(w, e).page);
    }
  }

  lemma PageCovered(w: World, e: Event)
    requires InOrder(w) && IsPageEvent(e)
    ensures Covered(w, Step(w, e))
  {
    match e
    case Tick(_) =>
    case Navigate(_) => DocumentKeepsOrder(w, e); PageChangeCovered(w, Step(w, e).page);
    case Invisible(_) => DocumentKeepsOrder(w, e); PageChangeCovered(w, Step(w, e).page);
    case Receiving(_) => DocumentKeepsOrder(w, e); PageChangeCovered(w, Step(w, e).page);
    case TimerFires(subscribed) => TimerCovered(w, subscribed);
    case FrameArrives(frame, handled) => FrameCovered(w, frame, handled);
    case SocketCloses => CloseKeepsOrder(w);
    case RetryFires =>
      if AsksRestart(w, e) {
        RestartCovered(w, Restarting(w.page));
      }
  }

  lemma CalledCovered(w: World)
    requires InOrder(w) && w.calls != []
    ensures Covered(w, Step(w, CallArrives))
  {
    CalledKeepsOrder(w);
    match w.calls[0]
    case ConnectCall(revision, activate) => ConnectedIs(w.page, revision, activate, w.now);
    case ActivateCall(revision) => ActivatedIs(w.page, revision, w.now);
    case ButtonCall => ActivatedIs(w.page, w.page.revision, w.now);
  }

  lemma ActivatesCovered(w: World)
    requires InOrder(w)
    ensures Covered(w, Activates(w))
  {
    ActivatesKeepsOrder(w);
    CallClaimsAppend(w.calls, ActivateCall(w.owner.revision + 1));
    assert w.calls + [] == w.calls;
  }

  /** A page that has just loaded claims what the owner kept for it. */
  lemma LoadedCovered(w: World, w': World, broadcast: bool)
    requires !Engaged(w.page) && w.calls == [] && !w.owner.ready
    requires w'.page == w.page && w'.owner.ready && w'.calls == LoadedCalls(w.owner, broadcast) && w'.tally == w.tally
    ensures Covered(w, w')
  {
    OneCallClaims(ConnectCall(w.owner.revision, w.owner.resume));
    assert !PageClaims(w) && !PageClaims(w');
  }

  lemma LoadCovered(w: World, broadcast: bool)
    requires InOrder(w) && !w.owner.ready && w.committed
    ensures Covered(w, Step(w, PageLoads(broadcast)))
  {
    var w' := w.(owner := Loaded(w.owner), calls := LoadedCalls(w.owner, broadcast));
    assert [] + LoadedCalls(w.owner, broadcast) == LoadedCalls(w.owner, broadcast);
    assert Step(w, PageLoads(broadcast)) == w';
    LoadedCovered(w, w', broadcast);
  }

  lemma OneCallClaims(c: Call)
    ensures CallClaims([c]) == Asking(c)
  {
    assert [c][1..] == [];
  }

  lemma OwnerCovered(w: World, e: Event)
    requires InOrder(w) && !IsPageEvent(e)
    ensures Covered(w, Step(w, e))
  {
    match e
    case CallArrives =>
      if w.calls != [] {
        CalledCovered(w);
      }
    case OwnerActivates => ActivatesCovered(w);
    case DataButton =>
      if w.owner.ready {
        ButtonKeepsOrder(w);
        CallClaimsAppend(w.calls, ButtonCall);
      } else {
        ActivatesCovered(w);
      }
    case OwnerReloads(activate) => ReloadsKeepsOrder(w, activate);
    case PageCommits => CommitKeepsOrder(w);
    case PageLoads(broadcast) =>
      if !w.owner.ready && w.committed {
        LoadCovered(w, broadcast);
      }
    case MailArrives => MailCovered(w);
  }

  lemma MailCovered(w: World)
    requires InOrder(w)
    ensures Covered(w, Step(w, MailArrives))
  {
    MailKeepsOrder(w);
    if w.mail != [] && w.mail[0].revision == w.owner.revision {
      assert Honoured(w) == Some(w.mail[0]) && w.page.restarting;
      ReloadsKeepsOrder(w, w.mail[0].activate);
      assert Honoured(Step(w, MailArrives)).None?;
    }
  }

  lemma StepCovered(w: World, e: Event)
    requires InOrder(w)
    ensures Covered(w, Step(w, e))
  {
    if IsPageEvent(e) {
      PageCovered(w, e);
    } else {
      OwnerCovered(w, e);
    }
  }

  /** Over any stretch of a run, what is delivered was requested in it or claimed before it. */
  lemma {:induction false} DeliveriesCovered(start: World, es: seq<Event>, n: nat)
    requires InOrder(start) && n <= |es|
    ensures Covered(start, At(start, es, n))
  {
    if 0 < n {
      DeliveriesCovered(start, es, n - 1);
      RunKeepsOrder(start, es, n - 1);
      StepCovered(At(start, es, n - 1), es[n - 1]);
    }
  }

  /** Over any run of navigations, receptions, maps, timers, lost sockets, calls, restarts and
      reloads, activations are delivered no more often than they were asked for. */
  lemma AtMostOnce(activateOnLoad: bool, es: seq<Event>, n: nat)
    requires n <= |es|
    ensures
      var w := At(Initial(activateOnLoad), es, n);
      w.tally.delivered + Claims(w) <= w.tally.requests
  {
    DeliveriesCovered(Initial(activateOnLoad), es, n);
  }

  /** A request counts when the owner activates the page, or reloads it to activate it, and when
      the data button finds no page, or a page that is not synchronized, still loads or has a
      request pending; and a delivery when a settled timer fires, due, on a page that could take
      its request and a document that listens. */
  lemma TallyExactly(w: World, e: Event)
    ensures Step(w, e).tally.requests == w.tally.requests + Once(
      || e.OwnerActivates?
      || (e.DataButton? && !w.owner.ready)
      || (e.OwnerReloads? && w.owner.ready && e.activate)
      || (e.CallArrives? && w.calls != [] && w.calls[0].ButtonCall?
          && (!w.page.pres.synchronized || w.page.pres.loading || w.page.pres.pending)))
    ensures Step(w, e).tally.delivered == w.tally.delivered + Once(
      && e.TimerFires? && e.subscribed && CouldTake(w.page)
      && w.page.task.Some? && w.page.task.value.settled && w.page.task.value.due <= w.now)
  {
    match e
    case TimerFires(subscribed) => DeliversExactly(w.page, w.now, subscribed);
    case CallArrives =>
      if w.calls != [] && w.calls[0].ButtonCall? {
        ButtonExactly(w.page, w.now);
      }
    case _ =>
  }

  // ---------- what the page is asked ----------

  /** What an event adds to the calls the owner has made to the present page: to connect once it
      has loaded, and for every activation and data button while it is ready. */
  function MakesCalls(w: World, e: Event, issued: seq<Call>): seq<Call> {
    match e
    case PageCommits => if w.committed then issued else []
    case PageLoads(broadcast) =>
      if w.owner.ready || !w.committed || !broadcast then issued
      else issued + [ConnectCall(w.owner.revision, w.owner.resume)]
    case OwnerActivates => if w.owner.ready then issued + [ActivateCall(w.owner.revision + 1)] else issued
    case DataButton => if w.owner.ready then issued + [ButtonCall] else issued
    case _ => issued
  }

  function CallsCome(w: World, e: Event, arrived: nat): nat {
    match e
    case PageCommits => if w.committed then arrived else 0
    case CallArrives => if w.calls == [] then arrived else arrived + 1
    case _ => arrived
  }

  function Issued(start: World, es: seq<Event>, n: nat): seq<Call>
    requires n <= |es|
  {
    if n == 0 then start.calls else MakesCalls(At(start, es, n - 1), es[n - 1], Issued(start, es, n - 1))
  }

  /** How many of them have arrived. */
  function Arrived(start: World, es: seq<Event>, n: nat): nat
    requires n <= |es|
  {
    if n == 0 then 0 else CallsCome(At(start, es, n - 1), es[n - 1], Arrived(start, es, n - 1))
  }

  lemma StepCalls(w: World, e: Event)
    ensures Step(w, e).calls ==
      if e.CallArrives? && w.calls != [] then w.calls[1..] else MakesCalls(w, e, w.calls)
  {
    assert w.calls + [] == w.calls;
  }

  lemma CallsInTurn(w: World, e: Event, issued: seq<Call>, arrived: nat)
    requires arrived <= |issued| && w.calls == issued[arrived..]
    ensures CallsCome(w, e, arrived) <= |MakesCalls(w, e, issued)|
    ensures Step(w, e).calls == MakesCalls(w, e, issued)[CallsCome(w, e, arrived)..]
  {
    StepCalls(w, e);
  }

  /** Every call the owner makes to a page arrives in its turn, or is still on its way there. */
  lemma {:induction false} CallsExactly(start: World, es: seq<Event>, n: nat)
    requires n <= |es|
    ensures Arrived(start, es, n) <= |Issued(start, es, n)|
    ensures At(start, es, n).calls == Issued(start, es, n)[Arrived(start, es, n)..]
  {
    if 0 < n {
      CallsExactly(start, es, n - 1);
      CallsInTurn(At(start, es, n - 1), es[n - 1], Issued(start, es, n - 1), Arrived(start, es, n - 1));
    }
  }

  /** A data button that arrives is heard: the document gets the key, as it is, if it is loaded
      and synchronized with nothing pending, and otherwise a request is pending. */
  lemma ButtonIsHeard(w: World)
    requires w.calls != [] && w.calls[0].ButtonCall?
    ensures
      var p, q := w.page.pres, Step(w, CallArrives).page;
      if p.synchronized && !p.loading && !p.pending then q == w.page else q.pres.pending
  {
    ButtonExactly(w.page, w.now);
  }

  // ---------- when a request is delivered ----------

  lemma CalledNotArmed(w: World)
    requires w.calls != []
    ensures NotArmed(w.page.task, Step(w, CallArrives).page.task)
  {
  }

  /** The settle timer is only ever set by the timer firing on a document that listens. */
  lemma StepArms(w: World, e: Event)
    requires !NotArmed(w.page.task, Step(w, e).page.task)
    ensures e == TimerFires(true) && Pending(w.page) && Step(w, e).page.task.value.due == w.now + T.SETTLE_MS
  {
    if e.FrameArrives? {
      FramedNotArmed(w.page, e.frame, e.handled, w.now);
    } else if e.CallArrives? && w.calls != [] {
      CalledNotArmed(w);
    }
  }

  lemma StepKeepsTaskPage(w: World, e: Event)
    requires Step(w, e).page.task.Some? && Step(w, e).page.task == w.page.task
    ensures Step(w, e).pages == w.pages
  {
  }

  /** A settled task was there before on the same page, or has just been armed. */
  lemma StepSettled(w: World, e: Event)
    requires InOrder(w) && Step(w, e).page.task.Some? && Step(w, e).page.task.value.settled
    ensures InOrder(Step(w, e)) && Pending(Step(w, e).page)
    ensures
      if Step(w, e).page.task == w.page.task then Step(w, e).pages == w.pages
      else e == TimerFires(true) && Step(w, e).page.task.value.due == w.now + T.SETTLE_MS
    ensures Step(w, e).page.task == w.page.task ==> SameTimer(w, Step(w, e))
  {
    StepKeepsOrder(w, e);
    if Step(w, e).page.task == w.page.task {
      StepKeepsTaskPage(w, e);
    } else {
      StepArms(w, e);
    }
  }

  /** From event k to event n the timer is set to the same, on the same page, and the request
      is pending. */
  ghost predicate Held(start: World, es: seq<Event>, k: nat, n: nat) {
    k < n <= |es| && Pending(At(start, es, n).page) &&
    (n == k + 1 || (Held(start, es, k, n - 1) && SameTimer(At(start, es, n - 1), At(start, es, n))))
  }

  predicate SameTimer(w: World, w': World) {
    w'.page.task == w.page.task && w'.pages == w.pages
  }

  lemma {:induction false} HeldThroughout(start: World, es: seq<Event>, k: nat, n: nat, j: nat)
    requires Held(start, es, k, n) && k < j <= n
    ensures Pending(At(start, es, j).page) && SameTimer(At(start, es, j), At(start, es, n))
    decreases n
  {
    if j < n {
      HeldThroughout(start, es, k, n - 1, j);
    }
  }

  lemma HeldSince(start: World, es: seq<Event>, k: nat)
    requires k < |es| && Pending(At(start, es, k + 1).page)
    ensures Held(start, es, k, k + 1)
  {
  }

  lemma HeldOn(start: World, es: seq<Event>, k: nat, n: nat)
    requires n < |es| && Held(start, es, k, n)
    requires Pending(At(start, es, n + 1).page) && SameTimer(At(start, es, n), At(start, es, n + 1))
    ensures Held(start, es, k, n + 1)
  {
  }

  lemma SettledBefore(start: World, es: seq<Event>, n: nat)
    requires InOrder(start) && n < |es|
    requires At(start, es, n + 1).page.task.Some? && At(start, es, n + 1).page.task.value.settled
    ensures
      var w, w' := At(start, es, n), At(start, es, n + 1);
      && Pending(w'.page)
      && (w'.page.task == w.page.task ==> SameTimer(w, w'))
      && (w'.page.task != w.page.task ==> es[n] == TimerFires(true) && w'.page.task.value.due == w.now + T.SETTLE_MS)
  {
    RunKeepsOrder(start, es, n);
    Unroll(start, es, n);
    StepSettled(At(start, es, n), es[n]);
  }

  lemma {:induction false} SettleOriginBefore(start: World, es: seq<Event>, n: nat) returns (k: nat)
    requires InOrder(start) && start.page.task.None? && n < |es|
    requires At(start, es, n + 1).page.task.Some? && At(start, es, n + 1).page.task.value.settled
    ensures k <= n && es[k] == TimerFires(true) && Held(start, es, k, n + 1)
    ensures At(start, es, n + 1).page.task.value.due == At(start, es, k).now + T.SETTLE_MS
  {
    SettledBefore(start, es, n);
    if At(start, es, n).page.task != At(start, es, n + 1).page.task {
      k := n;
      HeldSince(start, es, k);
    } else if 0 < n {
      k := SettleOriginBefore(start, es, n - 1);
      HeldOn(start, es, k, n);
    }
  }

  /** A settle timer was armed at some event k, and the request has been pending ever since. */
  lemma SettleOrigin(start: World, es: seq<Event>, n: nat) returns (k: nat)
    requires InOrder(start) && start.page.task.None? && n <= |es|
    requires At(start, es, n).page.task.Some? && At(start, es, n).page.task.value.settled
    ensures k < n && es[k] == TimerFires(true) && Held(start, es, k, n)
    ensures At(start, es, n).page.task.value.due == At(start, es, k).now + T.SETTLE_MS
  {
    k := SettleOriginBefore(start, es, n - 1);
  }

  /** A delivery happens on a connected, synchronized, loaded page that is neither receiving,
      restarting nor known to have no broadcast, whose document listens now and listened a
      full settle interval ago, the request having been pending on it throughout. */
  lemma DeliveryConditions(activateOnLoad: bool, es: seq<Event>, n: nat, subscribed: bool) returns (k: nat)
    requires n < |es| && es[n] == TimerFires(subscribed)
    requires Delivers(At(Initial(activateOnLoad), es, n).page, At(Initial(activateOnLoad), es, n).now, subscribed)
    ensures
      var w := At(Initial(activateOnLoad), es, n);
      && k < n && es[k] == TimerFires(true) && subscribed
      && Held(Initial(activateOnLoad), es, k, n)
      && At(Initial(activateOnLoad), es, k).now + T.SETTLE_MS <= w.now
      && w.page.connected && !w.page.restarting && w.page.pres.synchronized
      && !w.page.pres.loading && !w.page.pres.receiving && w.page.pres.available != Some(false)
  {
    k := SettleOrigin(Initial(activateOnLoad), es, n);
  }

  /** The page could take its request, and no message has failed. */
  predicate CanTake(w: World) {
    CouldTake(w.page) && !w.page.link.faulted
  }

  predicate Due(w: World) {
    w.page.task.Some? && w.page.task.value.due <= w.now
  }

  /** While the page can take its request and its document listens, a timer that has settled
      stays set. */
  lemma SettledStays(w: World, e: Event)
    requires InOrder(w) && CanTake(w) && w.page.task.Some? && w.page.task.value.settled
    requires CanTake(Step(w, e)) && (e.TimerFires? ==> e.subscribed)
    ensures Step(w, e).page.task == w.page.task
  {
    if e.FrameArrives? {
      FrameKeepsTask(w, e.frame, e.handled);
    } else if e.CallArrives? && w.calls != [] {
      CallKeepsTask(w);
    }
  }

  lemma FrameKeepsTask(w: World, frame: Frame, handled: bool)
    requires InOrder(w) && CanTake(w) && w.page.task.Some? && CanTake(Step(w, FrameArrives(frame, handled)))
    ensures Step(w, FrameArrives(frame, handled)).page.task == w.page.task
  {
    var (session, effect) := S.Receive(w.page.link.session, frame);
    if effect.Update? {
      NotedMakesNoRequest(WithSession(w.page, session), effect.message);
    }
  }

  lemma CallKeepsTask(w: World)
    requires InOrder(w) && w.calls != [] && CanTake(w) && w.page.task.Some? && CanTake(Step(w, CallArrives))
    ensures Step(w, CallArrives).page.task == w.page.task
  {
  }

  /** The page can take its request all along, and the document listens whenever asked. */
  ghost predicate Ready(start: World, es: seq<Event>, i: nat, n: nat)
    requires i <= n <= |es|
  {
    && (forall k :: i <= k <= n ==> CanTake(At(start, es, k)))
    && (forall k :: i <= k < n && es[k].TimerFires? ==> es[k].subscribed)
  }

  lemma {:induction false} SettlesWhileReady(start: World, es: seq<Event>, i: nat, n: nat)
    requires InOrder(start) && i < n <= |es| && es[i] == TimerFires(true)
    requires Ready(start, es, i, n) && Due(At(start, es, i))
    ensures At(start, es, n).page.task.Some? && At(start, es, n).page.task.value.settled
    decreases n
  {
    assert CanTake(At(start, es, n - 1)) && CanTake(At(start, es, n));
    if n == i + 1 {
      FiredMakesNoRequest(At(start, es, i).page, At(start, es, i).now, true);
    } else {
      SettlesWhileReady(start, es, i, n - 1);
      RunKeepsOrder(start, es, n - 1);
      SettledStays(At(start, es, n - 1), es[n - 1]);
    }
  }

  /** Whatever happens in between: while the page can take its request and its document listens,
      the timer is running, and the second time it is due and fires, it delivers. */
  lemma PendingIsDelivered(start: World, es: seq<Event>, i: nat, j: nat)
    requires InOrder(start) && i < j < |es| && es[i] == es[j] == TimerFires(true)
    requires Ready(start, es, i, j) && Due(At(start, es, i)) && Due(At(start, es, j))
    ensures Delivers(At(start, es, j).page, At(start, es, j).now, true)
  {
    assert CanTake(At(start, es, j));
    SettlesWhileReady(start, es, i, j);
  }

  lemma TimerRuns(w: World)
    requires InOrder(w) && CanTake(w)
    ensures w.page.task.Some?
  {
  }

  // ---------- what keeps a request, loses it and makes it ----------

  predicate WillConnect(w: World) {
    w.page.connected || w.page.retry.Some? || ConnectsFirst(w.calls)
  }

  /** A request is on course for delivery: the owner will hand it to the page being loaded, or
      it is in a restart request that will be honoured, or the page has it or is about to get
      it, and has a connection or will have one. */
  predicate OnCourse(w: World) {
    if !w.owner.ready then w.owner.resume
    else if w.page.restarting then Honoured(w).Some? && Honoured(w).value.activate
    else WillConnect(w) && (HasActivate(w.calls) || if ConnectsFirst(w.calls) then w.calls[0].activate else w.page.pres.pending)
  }

  /** Whether the frame is the first map of a manual-start service and takes a pending request. */
  predicate TakesRequest(p: Page, frame: Frame) {
    && p.connected && !p.restarting && p.pres.pending && p.link.startup
    && var effect := S.Receive(p.link.session, frame).1;
       effect.Update? && effect.message.Pmt? && Entry(effect.message.components) == Some(false)
  }

  /** The events that lose a request that is on course, or end it by delivering it. */
  predicate Ends(w: World, e: Event) {
    w.owner.ready &&
    match e
    case TimerFires(subscribed) => Delivers(w.page, w.now, subscribed) && !HasActivate(w.calls)
    case FrameArrives(frame, _) => if HasActivate(w.calls) then AsksRestart(w, e) else TakesRequest(w.page, frame)
    case RetryFires => AsksRestart(w, e) && HasActivate(w.calls)
    case SocketCloses => w.page.connected && w.page.link.faulted && !w.page.restarting
    case OwnerActivates => w.page.restarting
    case OwnerReloads(activate) => !activate
    case _ => false
  }

  /** A page that loads without a broadcast has no use for a request. */
  predicate LoadsInVain(w: World, e: Event) {
    !w.owner.ready && w.committed && e == PageLoads(false)
  }

  /** The events that put a request on course when there was none. */
  predicate Makes(w: World, e: Event) {
    match e
    case OwnerActivates => !w.owner.ready || (!w.page.restarting && WillConnect(w))
    case DataButton => !w.owner.ready
    case CallArrives =>
      && w.owner.ready && w.calls != [] && w.calls[0].ButtonCall? && ButtonActivates(w.page)
      && !w.page.restarting && (w.page.connected || w.page.retry.Some?)
    case OwnerReloads(activate) => w.owner.ready && activate
    case _ => false
  }

  ghost predicate Law(w: World, e: Event) {
    OnCourse(Step(w, e)) <==> if OnCourse(w) then !Ends(w, e) && !LoadsInVain(w, e) else Makes(w, e)
  }

  lemma PageChangeLaw(w: World, p: Page)
    requires InOrder(w) && NoNewRequest(w.page, p) && TimerPending(p)
    ensures p.pres.pending == w.page.pres.pending ==> OnCourse(w.(page := p)) == OnCourse(w)
    ensures !OnCourse(w) ==> !OnCourse(w.(page := p))
    ensures OnCourse(w) && !p.pres.pending && w.page.pres.pending && w.page.connected && !w.page.restarting && w.owner.ready
      ==> (OnCourse(w.(page := p)) <==> HasActivate(w.calls))
    ensures !w.owner.ready ==> OnCourse(w.(page := p)) == OnCourse(w)
  {
    PageChangeKeepsOrder(w, p);
  }

  lemma RestartLaw(w: World, p: Page)
    requires InOrder(w) && !w.page.restarting && (w.page.connected || w.page.retry.Some?)
    requires p == Restarting(w.page).(link := p.link)
    ensures OnCourse(Posted(w, p)) == (OnCourse(w) && !(w.owner.ready && HasActivate(w.calls)))
  {
    RestartPosts(w, p);
  }

  lemma TimerLaw(w: World, subscribed: bool)
    requires InOrder(w)
    ensures Law(w, TimerFires(subscribed))
  {
    FiredMakesNoRequest(w.page, w.now, subscribed);
    PageChangeLaw(w, Fired(w.page, w.now, subscribed));
  }

  /** A frame takes a request only as such a map. */
  lemma FrameTakes(w: World, frame: Frame, handled: bool)
    requires InOrder(w) && !AsksRestart(w, FrameArrives(frame, handled))
    ensures Step(w, FrameArrives(frame, handled)).page.pres.pending == (w.page.pres.pending && !TakesRequest(w.page, frame))
  {
    if w.page.connected && !w.page.restarting {
      var (session, effect) := S.Receive(w.page.link.session, frame);
      if effect.Update? {
        ReceivedTakes(WithSession(w.page, session), effect.message, handled, w.now);
      }
    }
  }

  lemma ReceivedTakes(p: Page, m: Message, handled: bool, now: nat)
    ensures Received(p, m, handled, now).pres.pending ==
      (p.pres.pending && !(m.Pmt? && p.link.startup && Entry(m.components) == Some(false)))
  {
    NotedPresentation(p, m);
  }

  lemma FrameLaw(w: World, frame: Frame, handled: bool)
    requires InOrder(w)
    ensures Law(w, FrameArrives(frame, handled))
  {
    var e := FrameArrives(frame, handled);
    FrameIs(w, frame, handled);
    if AsksRestart(w, e) {
      RestartLaw(w, Restarting(w.page).(link := Step(w, e).page.link));
    } else {
      FrameTakes(w, frame, handled);
      PageChangeLaw(w, Step(w, e).page);
    }
  }

  lemma CloseLaw(w: World)
    requires InOrder(w)
    ensures Law(w, SocketCloses)
  {
    CloseKeepsOrder(w);
  }

  lemma PageLaw(w: World, e: Event)
    requires InOrder(w) && IsPageEvent(e)
    ensures Law(w, e)
  {
    match e
    case Tick(_) =>
    case Navigate(_) => DocumentKeepsOrder(w, e); PageChangeLaw(w, Step(w, e).page);
    case Invisible(_) => DocumentKeepsOrder(w, e); PageChangeLaw(w, Step(w, e).page);
    case Receiving(_) => DocumentKeepsOrder(w, e); PageChangeLaw(w, Step(w, e).page);
    case TimerFires(subscribed) => TimerLaw(w, subscribed);
    case FrameArrives(frame, handled) => FrameLaw(w, frame, handled);
    case SocketCloses => CloseLaw(w);
    case RetryFires =>
      if AsksRestart(w, e) {
        RestartLaw(w, Restarting(w.page));
      }
  }

  lemma CallLaw(w: World)
    requires InOrder(w) && w.calls != []
    ensures Law(w, CallArrives)
  {
    CalledKeepsOrder(w);
    RestOfCalls(w.calls);
    match w.calls[0]
    case ConnectCall(revision, activate) => ConnectedIs(w.page, revision, activate, w.now);
    case ActivateCall(revision) => ActivatedIs(w.page, revision, w.now);
    case ButtonCall => ActivatedIs(w.page, w.page.revision, w.now);
  }

  lemma AppendedCall(calls: seq<Call>, c: Call)
    ensures HasActivate(calls + [c]) <==> HasActivate(calls) || c.ActivateCall?
    ensures calls != [] ==> (calls + [c])[0] == calls[0]
  {
    assert (calls + [c])[|calls|] == c;
    assert forall i :: 0 <= i < |calls| ==> (calls + [c])[i] == calls[i];
  }

  lemma ActivatesLaw(w: World)
    requires InOrder(w)
    ensures OnCourse(Activates(w)) == (!w.owner.ready || (!w.page.restarting && WillConnect(w)))
  {
    ActivatesKeepsOrder(w);
    AppendedCall(w.calls, ActivateCall(w.owner.revision + 1));
  }

  lemma LoadLaw(w: World, broadcast: bool)
    requires InOrder(w)
    ensures Law(w, PageLoads(broadcast))
  {
  }

  lemma MailLaw(w: World)
    requires InOrder(w)
    ensures Law(w, MailArrives)
  {
    MailKeepsOrder(w);
  }

  lemma OwnerLaw(w: World, e: Event)
    requires InOrder(w) && !IsPageEvent(e)
    ensures Law(w, e)
  {
    match e
    case CallArrives =>
      if w.calls != [] {
        CallLaw(w);
      }
    case OwnerActivates => ActivatesLaw(w);
    case DataButton =>
      if w.owner.ready {
        ButtonKeepsOrder(w);
        AppendedCall(w.calls, ButtonCall);
      } else {
        ActivatesLaw(w);
      }
    case OwnerReloads(activate) => ReloadsKeepsOrder(w, activate);
    case PageCommits => CommitKeepsOrder(w);
    case PageLoads(broadcast) => LoadLaw(w, broadcast);
    case MailArrives => MailLaw(w);
  }

  /** Whether a request is on course after an event is known exactly: one on course stays so
      but for the events listed, and only those listed put one on course. */
  lemma StepLaw(w: World, e: Event)
    requires InOrder(w)
    ensures Law(w, e)
  {
    if IsPageEvent(e) {
      PageLaw(w, e);
    } else {
      OwnerLaw(w, e);
    }
  }

  lemma StaysOnCourse(w: World, e: Event)
    requires InOrder(w) && OnCourse(w)
    ensures InOrder(Step(w, e))
    ensures OnCourse(Step(w, e)) || Ends(w, e) || LoadsInVain(w, e)
  {
    StepKeepsOrder(w, e);
    StepLaw(w, e);
  }

  lemma KeepsOneMore(start: World, es: seq<Event>, n: nat)
    requires InOrder(start) && n < |es| && OnCourse(At(start, es, n))
    ensures OnCourse(At(start, es, n + 1)) || Ends(At(start, es, n), es[n]) || LoadsInVain(At(start, es, n), es[n])
  {
    RunKeepsOrder(start, es, n);
    StaysOnCourse(At(start, es, n), es[n]);
    Unroll(start, es, n);
  }

  /** Over any run: a request that is no longer on course was ended by one of those events, and
      until then it was on course throughout. */
  lemma {:induction false} RequestKeeps(start: World, es: seq<Event>, n: nat) returns (k: nat)
    requires InOrder(start) && OnCourse(start) && n <= |es|
    ensures k <= n && forall j :: 0 <= j <= k ==> OnCourse(At(start, es, j))
    ensures k == n || Ends(At(start, es, k), es[k]) || LoadsInVain(At(start, es, k), es[k])
  {
    if n == 0 {
      k := 0;
    } else {
      k := RequestKeeps(start, es, n - 1);
      if k == n - 1 {
        KeepsOneMore(start, es, k);
        k := if OnCourse(At(start, es, n)) then n else k;
      }
    }
  }
}
