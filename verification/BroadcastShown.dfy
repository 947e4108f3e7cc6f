/** What is shown for the data-broadcast page, over whole runs of its world. */
module BroadcastShown {
  import opened Common
  import opened BroadcastOwner
  import opened BroadcastPage
  import opened BroadcastWorld
  import P = BroadcastPresentation
  import S = BroadcastSession

  // ---------- the page's presentation ----------

  /** Whether the event leaves a settled state unsettled. */
  predicate Unsettles(w: World, e: Event) {
    e.FrameArrives? && FrameUnsettles(w.page, e.frame, e.handled)
  }

  /** Whether the event settles an unsettled state. */
  predicate Settles(w: World, e: Event) {
    match e
    case Navigate(_) => true
    case Invisible(_) => true
    case FrameArrives(frame, handled) => FrameSettles(w.page, frame, handled)
    case CallArrives => w.calls != [] && (w.calls[0].ButtonCall? ==> ButtonActivates(w.page))
    case PageCommits => !w.committed
    case _ => false
  }

  ghost predicate SettlingLaw(w: World, e: Event) {
    var p := Step(w, e).page.pres;
    && P.Consistent(p)
    && (P.Settled(p) <==> if P.Settled(w.page.pres) then !Unsettles(w, e) else Settles(w, e))
  }

  lemma FrameSettlingLaw(w: World, frame: Frame, handled: bool)
    requires P.Consistent(w.page.pres)
    ensures SettlingLaw(w, FrameArrives(frame, handled))
  {
    FramedSettling(w.page, frame, handled, w.now);
  }

  lemma TimerSettlingLaw(w: World, subscribed: bool)
    requires P.Consistent(w.page.pres)
    ensures SettlingLaw(w, TimerFires(subscribed))
  {
    P.StepRepairs(w.page.pres, P.DoTake);
    if !P.Settled(w.page.pres) {
      P.UnsettledIs(w.page.pres);
    }
  }

  lemma ConnectSettles(p: Page, revision: nat, activate: bool, now: nat)
    ensures P.Settled(Connected(p, revision, activate, now).pres)
  {
  }

  lemma ActivateSettles(p: Page, revision: nat, now: nat)
    requires P.Consistent(p.pres)
    ensures P.Settled(Activated(p, revision, now).pres)
  {
    P.StepRepairs(p.pres, P.DoOpen);
  }

  lemma CallSettlingLaw(w: World)
    requires P.Consistent(w.page.pres) && w.calls != []
    ensures SettlingLaw(w, CallArrives)
  {
    match w.calls[0]
    case ConnectCall(revision, activate) => ConnectSettles(w.page, revision, activate, w.now);
    case ActivateCall(revision) => ActivateSettles(w.page, revision, w.now);
    case ButtonCall => ActivateSettles(w.page, w.page.revision, w.now);
  }

  lemma NavigateSettles(w: World, loading: bool)
    requires P.Consistent(w.page.pres)
    ensures SettlingLaw(w, Navigate(loading))
  {
    P.StepRepairs(w.page.pres, P.DoNavigation(loading));
    assert Step(w, Navigate(loading)).page.pres == P.Navigation(w.page.pres, loading);
  }

  lemma InvisibleSettles(w: World, invisible: bool)
    requires P.Consistent(w.page.pres)
    ensures SettlingLaw(w, Invisible(invisible))
  {
    P.StepRepairs(w.page.pres, P.DoVisibility(invisible));
    assert Step(w, Invisible(invisible)).page.pres == P.Visibility(w.page.pres, invisible);
  }

  lemma ReceivingIsNoted(w: World, receiving: bool)
    requires P.Consistent(w.page.pres)
    ensures SettlingLaw(w, Receiving(receiving))
  {
    P.NotedFact(w.page.pres, P.Reception(w.page.pres, receiving));
  }

  lemma PageSettlingLaw(w: World, e: Event)
    requires P.Consistent(w.page.pres) && IsPageEvent(e)
    ensures SettlingLaw(w, e)
  {
    match e
    case Tick(_) =>
    case Navigate(loading) => NavigateSettles(w, loading);
    case Invisible(invisible) => InvisibleSettles(w, invisible);
    case Receiving(receiving) => ReceivingIsNoted(w, receiving);
    case TimerFires(subscribed) => TimerSettlingLaw(w, subscribed);
    case FrameArrives(frame, handled) => FrameSettlingLaw(w, frame, handled);
    case SocketCloses =>
    case RetryFires =>
  }

  lemma OwnerSettlingLaw(w: World, e: Event)
    requires P.Consistent(w.page.pres) && !IsPageEvent(e)
    ensures SettlingLaw(w, e)
  {
    if e.CallArrives? && w.calls != [] {
      CallSettlingLaw(w);
    }
  }

  /** Whether the shown state is settled after an event is known exactly. */
  lemma StepSettles(w: World, e: Event)
    requires P.Consistent(w.page.pres)
    ensures SettlingLaw(w, e)
  {
    if IsPageEvent(e) {
      PageSettlingLaw(w, e);
    } else {
      OwnerSettlingLaw(w, e);
    }
  }

  /** The state was left unsettled by event k, and nothing has settled it since. */
  ghost predicate UnsettledBy(start: World, es: seq<Event>, k: nat, n: nat) {
    k < n <= |es| &&
    if k == n - 1 then P.Settled(At(start, es, k).page.pres) && Unsettles(At(start, es, k), es[k])
    else UnsettledBy(start, es, k, n - 1) && !Settles(At(start, es, n - 1), es[n - 1])
  }

  lemma StepUnsettled(w: World, e: Event)
    requires P.Consistent(w.page.pres)
    requires if P.Settled(w.page.pres) then Unsettles(w, e) else !Settles(w, e)
    ensures !P.Settled(Step(w, e).page.pres)
  {
    StepSettles(w, e);
  }

  lemma StepWasUnsettled(w: World, e: Event)
    requires P.Consistent(w.page.pres) && !P.Settled(Step(w, e).page.pres)
    ensures if P.Settled(w.page.pres) then Unsettles(w, e) else !Settles(w, e)
  {
    StepSettles(w, e);
  }

  lemma {:induction false} RunConsistent(activateOnLoad: bool, es: seq<Event>, n: nat)
    requires n <= |es|
    ensures P.Consistent(At(Initial(activateOnLoad), es, n).page.pres)
  {
    if 0 < n {
      RunConsistent(activateOnLoad, es, n - 1);
      StepSettles(At(Initial(activateOnLoad), es, n - 1), es[n - 1]);
    }
  }

  lemma {:induction false} StaysUnsettled(activateOnLoad: bool, es: seq<Event>, k: nat, n: nat)
    requires UnsettledBy(Initial(activateOnLoad), es, k, n)
    ensures !P.Settled(At(Initial(activateOnLoad), es, n).page.pres)
    decreases n
  {
    if k < n - 1 {
      StaysUnsettled(activateOnLoad, es, k, n - 1);
    }
    RunConsistent(activateOnLoad, es, n - 1);
    StepUnsettled(At(Initial(activateOnLoad), es, n - 1), es[n - 1]);
  }

  lemma UnsettledAfter(activateOnLoad: bool, es: seq<Event>, n: nat)
    requires n <= |es| && !P.Settled(At(Initial(activateOnLoad), es, n).page.pres)
    ensures 0 < n
    ensures
      var w := At(Initial(activateOnLoad), es, n - 1);
      if P.Settled(w.page.pres) then Unsettles(w, es[n - 1]) else !Settles(w, es[n - 1])
  {
    RunConsistent(activateOnLoad, es, n - 1);
    StepWasUnsettled(At(Initial(activateOnLoad), es, n - 1), es[n - 1]);
  }

  lemma JustUnsettled(start: World, es: seq<Event>, n: nat)
    requires n < |es| && P.Settled(At(start, es, n).page.pres) && Unsettles(At(start, es, n), es[n])
    ensures UnsettledBy(start, es, n, n + 1)
  {
  }

  lemma StillUnsettled(start: World, es: seq<Event>, k: nat, n: nat)
    requires n < |es| && UnsettledBy(start, es, k, n) && !Settles(At(start, es, n), es[n])
    ensures k < n && UnsettledBy(start, es, k, n + 1)
  {
  }

  lemma {:induction false} UnsettledSince(activateOnLoad: bool, es: seq<Event>, n: nat) returns (k: nat)
    requires n <= |es| && !P.Settled(At(Initial(activateOnLoad), es, n).page.pres)
    ensures k < n && UnsettledBy(Initial(activateOnLoad), es, k, n)
  {
    UnsettledAfter(activateOnLoad, es, n);
    if P.Settled(At(Initial(activateOnLoad), es, n - 1).page.pres) {
      k := n - 1;
      JustUnsettled(Initial(activateOnLoad), es, k);
    } else {
      k := UnsettledSince(activateOnLoad, es, n - 1);
      StillUnsettled(Initial(activateOnLoad), es, k, n - 1);
    }
  }

  /** Whether the state at n was left unsettled by some event and not settled since. */
  ghost predicate LeftUnsettled(start: World, es: seq<Event>, n: nat) {
    exists k: nat {:trigger es[k]} :: k < n <= |es| && UnsettledBy(start, es, k, n)
  }

  lemma LeftBy(start: World, es: seq<Event>, k: nat, n: nat)
    requires k < n <= |es| && UnsettledBy(start, es, k, n)
    ensures LeftUnsettled(start, es, n)
  {
    var e := es[k];
  }

  /** At any moment of any run the shown state is settled, except exactly after a failing first
      map of a manual-start service that took a request, until an event settles it. */
  lemma PresentationSettled(activateOnLoad: bool, es: seq<Event>, n: nat)
    requires n <= |es|
    ensures !P.Settled(At(Initial(activateOnLoad), es, n).page.pres) <==> LeftUnsettled(Initial(activateOnLoad), es, n)
  {
    if !P.Settled(At(Initial(activateOnLoad), es, n).page.pres) {
      var k := UnsettledSince(activateOnLoad, es, n);
      LeftBy(Initial(activateOnLoad), es, k, n);
    }
    if LeftUnsettled(Initial(activateOnLoad), es, n) {
      var k: nat :| k < n <= |es| && UnsettledBy(Initial(activateOnLoad), es, k, n);
      StaysUnsettled(activateOnLoad, es, k, n);
    }
  }

  const Manual: Message := Pmt([Component(0x0d, 0x40, Some(false))])

  const FailingMap := FrameArrives(S.UpdateFrame(Some("a"), Manual), false)

  lemma LoadedDocument(w: World)
    requires Opened(w)
    ensures
      var w' := Step(w, Navigate(false));
      && w'.page.link == w.page.link && w'.page.connected && !w'.page.restarting
      && w'.page.pres == P.Reset(true).(loading := false)
  {
  }

  lemma FailingMapUnsettles(w: World)
    requires w.page.connected && !w.page.restarting && w.page.pres == P.Reset(true).(loading := false)
    requires w.page.link == NewLink.(session := S.Session(S.Snapshot, Some("a")))
    ensures P.Settled(w.page.pres) && !P.Settled(Step(w, FailingMap).page.pres)
  {
    assert Entry([Component(0x0d, 0x40, Some(false))]) == Some(false);
    assert Unsettles(w, FailingMap);
    StepUnsettled(w, FailingMap);
  }

  /** Such a run: the page loads, its session opens, the document finishes loading, and the
      first map of a manual-start service fails. */
  lemma FailureCanUnsettle(es: seq<Event>)
    requires Opens(es) && 5 <= |es| && es[3] == Navigate(false) && es[4] == FailingMap
    ensures !P.Settled(At(Initial(true), es, 5).page.pres)
  {
    OpenedAfter(es);
    LoadedDocument(At(Initial(true), es, 3));
    FailingMapUnsettles(Step(At(Initial(true), es, 3), Navigate(false)));
    TwoMore(Initial(true), es, 3);
  }
}
