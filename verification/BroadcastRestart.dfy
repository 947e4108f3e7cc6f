/**
 Restarting the data-broadcast page: how a request passes through the owner to the next page,
 and when a page waits for a restart in vain.
 */
module BroadcastRestart {
  import opened Common
  import opened BroadcastOwner
  import opened BroadcastPage
  import opened BroadcastWorld

  // ---------- a lost socket ----------

  /** Nobody makes or withdraws a request, and pages load with a broadcast. */
  predicate Quiet(e: Event) {
    !e.OwnerActivates? && !e.DataButton? && !e.OwnerReloads? && (e.PageLoads? ==> e.broadcast)
  }

  /** Stages of handing over, at revision r, whether a request was pending: a retry is due; the
      restart request is on its way; the owner has it while a page loads; the page is told. */
  datatype Handover = Handover(activate: bool, r: nat, due: nat, pages: nat)

  ghost predicate Waits(w: World, h: Handover) {
    && w.owner.ready && w.owner.revision == h.r && w.pages == h.pages && w.calls == []
    && !w.page.connected && !w.page.restarting && w.page.retry == Some(h.due) && w.page.pres.pending == h.activate
  }

  ghost predicate Sends(w: World, h: Handover) {
    && w.owner.ready && w.owner.revision == h.r && w.pages == h.pages && w.calls == [] && h.due <= w.now
    && w.page.restarting && Honoured(w) == Some(Request(h.r, h.activate))
  }

  ghost predicate Loads(w: World, h: Handover) {
    && w.owner == Owner(false, h.activate, h.r + 1) && w.calls == [] && h.due <= w.now
    && (w.committed || w.page.restarting) && w.pages == h.pages + Once(w.committed)
  }

  ghost predicate Tells(w: World, h: Handover) {
    && w.owner == Owner(true, h.activate, h.r + 1) && w.pages == h.pages + 1 && h.due <= w.now
    && w.calls == [ConnectCall(h.r + 1, h.activate)]
  }

  lemma WaitsOn(w: World, h: Handover, e: Event)
    requires InOrder(w) && Waits(w, h) && Quiet(e)
    ensures Waits(Step(w, e), h) || Sends(Step(w, e), h)
  {
    if DocumentEvent(e) {
      DocumentKeepsOrder(w, e);
    } else if e.RetryFires? && AsksRestart(w, e) {
      RestartPosts(w, Restarting(w.page));
    }
  }

  lemma SendsOn(w: World, h: Handover, e: Event)
    requires InOrder(w) && Sends(w, h) && Quiet(e)
    ensures Sends(Step(w, e), h) || Loads(Step(w, e), h)
  {
    if DocumentEvent(e) {
      DocumentKeepsOrder(w, e);
    } else if e.MailArrives? {
      MailKeepsOrder(w);
    }
  }

  lemma LoadsOn(w: World, h: Handover, e: Event)
    requires InOrder(w) && Loads(w, h) && Quiet(e)
    ensures Loads(Step(w, e), h) || Tells(Step(w, e), h)
  {
    if DocumentEvent(e) {
      DocumentKeepsOrder(w, e);
    }
  }

  ghost predicate Handing(w: World, h: Handover) {
    Waits(w, h) || Sends(w, h) || Loads(w, h)
  }

  lemma {:induction false} HandsOver(start: World, es: seq<Event>, n: nat, h: Handover)
    requires InOrder(start) && Handing(start, h) && n <= |es| && forall k :: 0 <= k < n ==> Quiet(es[k])
    requires forall k :: 0 <= k < n ==> !Tells(At(start, es, k), h)
    ensures Handing(At(start, es, n), h) || Tells(At(start, es, n), h)
  {
    if 0 < n {
      HandsOver(start, es, n - 1, h);
      RunKeepsOrder(start, es, n - 1);
      var w := At(start, es, n - 1);
      if Waits(w, h) {
        WaitsOn(w, h, es[n - 1]);
      } else if Sends(w, h) {
        SendsOn(w, h, es[n - 1]);
      } else {
        LoadsOn(w, h, es[n - 1]);
      }
    }
  }

  lemma ClosedWaits(w: World)
    requires InOrder(w) && w.owner.ready && w.calls == []
    requires w.page.connected && !w.page.restarting && !w.page.link.faulted
    ensures InOrder(Step(w, SocketCloses))
    ensures Waits(Step(w, SocketCloses), Handover(w.page.pres.pending, w.owner.revision, w.now + RETRY_MS, w.pages))
  {
    CloseKeepsOrder(w);
  }

  lemma FirstCallTells(start: World, es: seq<Event>, n: nat, h: Handover)
    requires InOrder(start) && Handing(start, h) && n <= |es| && forall k :: 0 <= k < n ==> Quiet(es[k])
    requires forall k :: 0 <= k < n ==> At(start, es, k).calls == []
    requires At(start, es, n).calls != []
    ensures Tells(At(start, es, n), h)
  {
    HandsOver(start, es, n, h);
  }

  /** When a page loses its socket, and nobody makes or withdraws a request, then the next page
      to be told to connect is the next page there is, a retry interval or more later, and it
      is told to activate exactly if a request was pending: neither lost nor made up. */
  lemma LostSocketResumes(w: World, es: seq<Event>, n: nat)
    requires InOrder(w) && w.owner.ready && w.calls == []
    requires w.page.connected && !w.page.restarting && !w.page.link.faulted
    requires n <= |es| && forall k :: 0 <= k < n ==> Quiet(es[k])
    requires forall k :: 0 <= k < n ==> At(Step(w, SocketCloses), es, k).calls == []
    requires At(Step(w, SocketCloses), es, n).calls != []
    ensures
      var told := At(Step(w, SocketCloses), es, n);
      && told.calls == [ConnectCall(w.owner.revision + 1, w.page.pres.pending)]
      && told.pages == w.pages + 1 && w.now + 1000 <= told.now
  {
    ClosedWaits(w);
    FirstCallTells(Step(w, SocketCloses), es, n, Handover(w.page.pres.pending, w.owner.revision, w.now + RETRY_MS, w.pages));
  }

  /** Each stage leads on to the next when its event comes. */
  lemma HandoverAdvances(w: World, h: Handover)
    requires InOrder(w)
    ensures Waits(w, h) && h.due <= w.now ==> Sends(Step(w, RetryFires), h) && |Step(w, RetryFires).mail| == |w.mail| + 1
    ensures Sends(w, h) && |w.mail| == 1 ==> Loads(Step(w, MailArrives), h)
    ensures Loads(w, h) ==> Tells(Step(Step(w, PageCommits), PageLoads(true)), h)
  {
    if Waits(w, h) && h.due <= w.now {
      RestartPosts(w, Restarting(w.page));
    }
  }

  /** A second after the socket was lost, a retry brings up a new page, connected, with a request
      pending exactly if there was one. */
  lemma LostSocketRecovers(w: World, ms: nat, es: seq<Event>)
    requires InOrder(w) && w.owner.ready && w.calls == [] && w.mail == []
    requires w.page.connected && !w.page.restarting && !w.page.link.faulted
    requires 1000 <= ms
    requires es == [SocketCloses, Tick(ms), RetryFires, MailArrives, PageCommits, PageLoads(true), CallArrives]
    ensures
      var p := At(w, es, 7).page;
      p.connected && !p.restarting && p.pres.pending == w.page.pres.pending && p.revision == w.owner.revision + 1
  {
    var h := Handover(w.page.pres.pending, w.owner.revision, w.now + RETRY_MS, w.pages);
    TwoMore(w, es, 0);
    TwoMore(w, es, 2);
    TwoMore(w, es, 4);
    Unroll(w, es, 6);
    LostSocketLoads(w, ms, h);
    ToldConnects(At(w, es, 4), h);
  }

  lemma LostSocketLoads(w: World, ms: nat, h: Handover)
    requires InOrder(w) && w.owner.ready && w.calls == [] && w.mail == []
    requires w.page.connected && !w.page.restarting && !w.page.link.faulted
    requires h == Handover(w.page.pres.pending, w.owner.revision, w.now + RETRY_MS, w.pages) && RETRY_MS <= ms
    ensures
      var w' := Step(Step(Step(Step(w, SocketCloses), Tick(ms)), RetryFires), MailArrives);
      InOrder(w') && Loads(w', h)
  {
    ClosedWaits(w);
    var w2 := Step(Step(w, SocketCloses), Tick(ms));
    StepKeepsOrder(Step(w, SocketCloses), Tick(ms));
    assert Waits(w2, h) && w2.mail == [];
    HandoverAdvances(w2, h);
    StepKeepsOrder(w2, RetryFires);
    var w3 := Step(w2, RetryFires);
    HandoverAdvances(w3, h);
    StepKeepsOrder(w3, MailArrives);
  }

  lemma ToldConnects(w: World, h: Handover)
    requires InOrder(w) && Loads(w, h)
    ensures
      var p := Step(Step(Step(w, PageCommits), PageLoads(true)), CallArrives).page;
      p.connected && !p.restarting && p.pres.pending == h.activate && p.revision == h.r + 1
  {
    HandoverAdvances(w, h);
    StepKeepsOrder(w, PageCommits);
    StepKeepsOrder(Step(w, PageCommits), PageLoads(true));
    CallConnects(Step(Step(w, PageCommits), PageLoads(true)), h);
  }

  lemma CallConnects(w: World, h: Handover)
    requires InOrder(w) && Tells(w, h)
    ensures
      var p := Step(w, CallArrives).page;
      p.connected && !p.restarting && p.pres.pending == h.activate && p.revision == h.r + 1
  {
    assert w.calls[0].ConnectCall?;
    ConnectedIs(w.page, h.r + 1, h.activate, w.now);
  }

  // ---------- restarts ----------

  /** A page that has asked for a restart keeps waiting, and delivers nothing, until it is
      replaced. */
  lemma StepRestarting(w: World, e: Event)
    requires InOrder(w) && w.page.restarting
    ensures Step(w, e).tally.delivered == w.tally.delivered
    ensures Step(w, e).pages == w.pages ==> Step(w, e).page.restarting
  {
    if e.CallArrives? && w.calls != [] {
      ActivatedIs(w.page, if w.calls[0].ActivateCall? then w.calls[0].revision else w.page.revision, w.now);
    }
  }

  lemma StepPages(w: World, e: Event)
    ensures w.pages <= Step(w, e).pages
  {
  }

  lemma {:induction false} PagesGrow(w: World, es: seq<Event>, m: nat, n: nat)
    requires m <= n <= |es|
    ensures At(w, es, m).pages <= At(w, es, n).pages
    decreases n - m
  {
    if m < n {
      PagesGrow(w, es, m, n - 1);
      StepPages(At(w, es, n - 1), es[n - 1]);
    }
  }

  lemma {:induction false} RestartedPageNeverDelivers(w: World, es: seq<Event>, n: nat)
    requires InOrder(w) && w.page.restarting && n <= |es| && At(w, es, n).pages == w.pages
    ensures At(w, es, n).tally.delivered == w.tally.delivered && At(w, es, n).page.restarting
  {
    if 0 < n {
      PagesGrow(w, es, 0, n - 1);
      PagesGrow(w, es, n - 1, n);
      RestartedPageNeverDelivers(w, es, n - 1);
      OneMoreRestarting(w, es, n - 1);
    }
  }

  lemma OneMoreRestarting(w: World, es: seq<Event>, n: nat)
    requires InOrder(w) && n < |es| && At(w, es, n).page.restarting
    ensures At(w, es, n + 1).tally.delivered == At(w, es, n).tally.delivered
    ensures At(w, es, n + 1).pages == At(w, es, n).pages ==> At(w, es, n + 1).page.restarting
  {
    RunKeepsOrder(w, es, n);
    StepRestarting(At(w, es, n), es[n]);
    Unroll(w, es, n);
  }

  /** A page waits for a restart that the owner will not honour. */
  predicate Stranded(w: World) {
    w.owner.ready && w.page.restarting && Honoured(w).None?
  }

  /** The owner drops a restart request of an earlier revision. So an event strands a page
      exactly when the owner activates it while its restart request is on its way, or it asks
      for a restart while an activation is on its way to it. */
  lemma StrandedExactly(w: World, e: Event)
    requires InOrder(w) && !Stranded(w)
    ensures Stranded(Step(w, e)) <==>
      w.owner.ready && ((e.OwnerActivates? && w.page.restarting) || (AsksRestart(w, e) && HasActivate(w.calls)))
  {
    if IsPageEvent(e) {
      PageStrands(w, e);
    } else {
      OwnerStrands(w, e);
    }
  }

  lemma PageStrands(w: World, e: Event)
    requires InOrder(w) && !Stranded(w) && IsPageEvent(e)
    ensures Stranded(Step(w, e)) <==> w.owner.ready && AsksRestart(w, e) && HasActivate(w.calls)
  {
    match e
    case Tick(_) =>
    case Navigate(_) => DocumentKeepsOrder(w, e);
    case Invisible(_) => DocumentKeepsOrder(w, e);
    case Receiving(_) => DocumentKeepsOrder(w, e);
    case TimerFires(subscribed) => FiredMakesNoRequest(w.page, w.now, subscribed);
    case FrameArrives(frame, handled) =>
      FrameIs(w, frame, handled);
      if AsksRestart(w, e) {
        RestartPosts(w, Restarting(w.page).(link := Step(w, e).page.link));
      }
    case SocketCloses =>
    case RetryFires =>
      if AsksRestart(w, e) {
        RestartPosts(w, Restarting(w.page));
      }
  }

  lemma OwnerStrands(w: World, e: Event)
    requires InOrder(w) && !Stranded(w) && !IsPageEvent(e)
    ensures Stranded(Step(w, e)) <==> w.owner.ready && e.OwnerActivates? && w.page.restarting
  {
    match e
    case CallArrives =>
      if w.calls != [] {
        CalledKeepsOrder(w);
        RestOfCalls(w.calls);
      }
    case OwnerActivates => ActivatesKeepsOrder(w);
    case DataButton =>
    case OwnerReloads(_) =>
    case PageCommits =>
    case PageLoads(_) =>
    case MailArrives => MailKeepsOrder(w);
  }

  /** Only the owner's own reload frees a stranded page. */
  lemma StrandedUntilReload(w: World, e: Event)
    requires InOrder(w) && Stranded(w) && !e.OwnerReloads?
    ensures Stranded(Step(w, e)) && Step(w, e).tally.delivered == w.tally.delivered
  {
    StepRestarting(w, e);
    if e.MailArrives? {
      MailKeepsOrder(w);
    } else if e.OwnerActivates? {
      ActivatesKeepsOrder(w);
    }
  }

  // ---------- runs that strand a page ----------

  lemma SecondOpening(w: World)
    requires w.page.connected && !w.page.restarting && w.page.link.session.state.Snapshot?
    ensures AsksRestart(w, FrameArrives(Opening, true))
    ensures
      var w' := Step(w, FrameArrives(Opening, true));
      && w'.page.restarting && w'.mail == w.mail + [Request(w.page.revision, w.page.pres.pending)]
      && w' == w.(page := w'.page, mail := w'.mail)
  {
  }

  /** An activation and a restart request of the revision before it have crossed. */
  ghost predicate Crossed(w: World) {
    && InOrder(w) && w.owner == Owner(true, true, 1) && w.page.restarting
    && w.mail == [Request(0, true)] && w.calls == [ActivateCall(1)]
  }

  lemma ActivatedLate(w: World)
    requires Opened(w) && InOrder(w)
    ensures Crossed(Step(Step(w, FrameArrives(Opening, true)), OwnerActivates))
  {
    SecondOpening(w);
    var w' := Step(w, FrameArrives(Opening, true));
    StepKeepsOrder(w, FrameArrives(Opening, true));
    StepKeepsOrder(w', OwnerActivates);
  }

  lemma RestartedLate(w: World)
    requires Opened(w) && InOrder(w)
    ensures Crossed(Step(Step(w, OwnerActivates), FrameArrives(Opening, true)))
  {
    var w' := Step(w, OwnerActivates);
    StepKeepsOrder(w, OwnerActivates);
    SecondOpening(w');
    StepKeepsOrder(w', FrameArrives(Opening, true));
  }

  lemma CrossedStrands(w: World)
    requires Crossed(w)
    ensures
      var w' := Step(Step(w, MailArrives), CallArrives);
      Stranded(w) && Stranded(w') && w'.mail == [] && w'.calls == []
  {
    var w1 := Step(w, MailArrives);
    StrandedUntilReload(w, MailArrives);
    StepKeepsOrder(w, MailArrives);
    assert w1.mail == [] && w1.calls == w.calls;
    StrandedUntilReload(w1, CallArrives);
  }

  /** The owner activates a page whose restart request is on its way: it is stranded, with
      nothing left on its way in either direction. */
  lemma ActivationStrands(es: seq<Event>)
    requires Opens(es) && 7 <= |es| && es[3] == FrameArrives(Opening, true) && es[4] == OwnerActivates
    requires es[5] == MailArrives && es[6] == CallArrives
    ensures Stranded(At(Initial(true), es, 7)) && At(Initial(true), es, 7).mail == [] && At(Initial(true), es, 7).calls == []
  {
    OpenedAfter(es);
    ActivatedLate(At(Initial(true), es, 3));
    BothArrive(es);
  }

  /** The page asks for a restart while an activation is on its way to it: it is stranded too. */
  lemma RestartStrands(es: seq<Event>)
    requires Opens(es) && 7 <= |es| && es[3] == OwnerActivates && es[4] == FrameArrives(Opening, true)
    requires es[5] == MailArrives && es[6] == CallArrives
    ensures Stranded(At(Initial(true), es, 7)) && At(Initial(true), es, 7).mail == [] && At(Initial(true), es, 7).calls == []
  {
    OpenedAfter(es);
    RestartedLate(At(Initial(true), es, 3));
    BothArrive(es);
  }

  lemma BothArrive(es: seq<Event>)
    requires 7 <= |es| && es[5] == MailArrives && es[6] == CallArrives
    requires Crossed(Step(Step(At(Initial(true), es, 3), es[3]), es[4]))
    ensures Stranded(At(Initial(true), es, 7)) && At(Initial(true), es, 7).mail == [] && At(Initial(true), es, 7).calls == []
  {
    TwoMore(Initial(true), es, 3);
    CrossedStrands(At(Initial(true), es, 5));
    TwoMore(Initial(true), es, 5);
  }
}
