/**
 The world of a data-broadcast page: the page, the owner that loads it, the owner's calls and the
 page's restart requests on their way between them, and everything that can happen in any order.
 */
module BroadcastWorld {
  import opened Common
  import opened BroadcastOwner
  import opened BroadcastPage
  import P = BroadcastPresentation
  import S = BroadcastSession

  /** How often an activation was asked for, by a user or by the owner, and delivered. */
  datatype Tally = Tally(requests: nat, delivered: nat)

  /** `committed` says that a reload the owner asked for has replaced the page; until then the
      old page goes on. `pages` numbers the pages. */
  datatype World = World(
    page: Page,
    now: nat,
    owner: Owner,
    committed: bool,
    calls: seq<Call>,
    mail: seq<Request>,
    pages: nat,
    tally: Tally)

  function Initial(activateOnLoad: bool): World {
    World(FreshPage, 0, Owner(false, activateOnLoad, 0), true, [], [], 0, Tally(if activateOnLoad then 1 else 0, 0))
  }

  datatype Event =
    | Tick(ms: nat)
    | Navigate(loading: bool)
    | Invisible(invisible: bool)
    | Receiving(receiving: bool)
    | TimerFires(subscribed: bool)
    | FrameArrives(frame: Frame, handled: bool)
    | SocketCloses
    | RetryFires
    | CallArrives
    | OwnerActivates
    | DataButton
    | OwnerReloads(activate: bool)
    | PageCommits
    | PageLoads(broadcast: bool)
    | MailArrives

  function Requested(w: World, times: nat): World {
    w.(tally := w.tally.(requests := w.tally.requests + times))
  }

  function Once(b: bool): nat {
    if b then 1 else 0
  }

  /** A page that has just asked for a restart posts its revision and pending request. */
  function Posted(w: World, p: Page): World {
    w.(page := p, mail := if p.restarting && !w.page.restarting then w.mail + [Request(p.revision, p.pres.pending)] else w.mail)
  }

  function Activates(w: World): World {
    Requested(w.(owner := Activating(w.owner), calls := w.calls + ActivatingCalls(w.owner)), 1)
  }

  function Reloads(w: World, activate: bool): World {
    w.(owner := Restarted(w.owner, activate), committed := false)
  }

  /** The page runs a call of the owner. */
  function Called(w: World, c: Call): World {
    match c
    case ConnectCall(revision, activate) => w.(page := Connected(w.page, revision, activate, w.now))
    case ActivateCall(revision) => w.(page := Activated(w.page, revision, w.now))
    case ButtonCall => Requested(w.(page := Pressed(w.page, w.now)), Once(ButtonActivates(w.page)))
  }

  function Step(w: World, e: Event): World {
    match e
    case Tick(ms) => w.(now := w.now + ms)
    case Navigate(loading) => w.(page := Shown(w.page, P.Navigation(w.page.pres, loading), w.now))
    case Invisible(invisible) => w.(page := Shown(w.page, P.Visibility(w.page.pres, invisible), w.now))
    case Receiving(receiving) => w.(page := Shown(w.page, P.Reception(w.page.pres, receiving), w.now))
    case TimerFires(subscribed) =>
      w.(page := Fired(w.page, w.now, subscribed),
         tally := w.tally.(delivered := w.tally.delivered + Once(Delivers(w.page, w.now, subscribed))))
    case FrameArrives(frame, handled) => Posted(w, Framed(w.page, frame, handled, w.now))
    case SocketCloses => w.(page := Closed(w.page, w.now))
    case RetryFires => Posted(w, Retried(w.page, w.now))
    case CallArrives => if w.calls == [] then w else Called(w.(calls := w.calls[1..]), w.calls[0])
    case OwnerActivates => Activates(w)
    case DataButton => if w.owner.ready then w.(calls := w.calls + [ButtonCall]) else Activates(w)
    case OwnerReloads(activate) => if w.owner.ready then Requested(Reloads(w, activate), Once(activate)) else w
    case PageCommits =>
      if w.committed then w else w.(page := FreshPage, calls := [], committed := true, pages := w.pages + 1)
    case PageLoads(broadcast) =>
      if w.owner.ready || !w.committed then w
      else w.(owner := Loaded(w.owner), calls := w.calls + LoadedCalls(w.owner, broadcast))
    case MailArrives =>
      if w.mail == [] then w
      else
        var w' := w.(mail := w.mail[1..]);
        if w.mail[0].revision == w.owner.revision then Reloads(w', w.mail[0].activate) else w'
  }

  function At(start: World, es: seq<Event>, n: nat): World
    requires n <= |es|
  {
    if n == 0 then start else Step(At(start, es, n - 1), es[n - 1])
  }

  // ---------- what every reachable world keeps ----------

  /** The page has a connection, waits to retry one, or waits to be replaced. */
  predicate Engaged(p: Page) {
    p.connected || p.restarting || p.retry.Some?
  }

  predicate ConnectsFirst(calls: seq<Call>) {
    calls != [] && calls[0].ConnectCall?
  }

  /** An activation is on its way to the page. */
  predicate HasActivate(calls: seq<Call>) {
    exists i :: 0 <= i < |calls| && calls[i].ActivateCall?
  }

  /** The restart request on its way that names the present revision, if any. */
  function Honoured(w: World): Option<Request> {
    if |w.mail| > 0 && w.mail[|w.mail| - 1].revision == w.owner.revision then Some(w.mail[|w.mail| - 1]) else None
  }

  /** Calls name revisions in increasing order, newer than the page's; a connection comes first
      and finds a page without one. */
  ghost predicate CallsInOrder(w: World) {
    && (forall i :: 0 <= i < |w.calls| && w.calls[i].ConnectCall? ==>
          i == 0 && !Engaged(w.page) && w.page.revision <= w.calls[i].revision <= w.owner.revision)
    && (forall i :: 0 <= i < |w.calls| && w.calls[i].ActivateCall? ==>
          w.page.revision < w.calls[i].revision <= w.owner.revision)
    && (forall i, j :: 0 <= i < j < |w.calls| && w.calls[j].ActivateCall? && !w.calls[i].ButtonCall? ==>
          w.calls[i].revision < w.calls[j].revision)
  }

  /** The present revision is the page's, or on its way there. */
  ghost predicate Informed(w: World) {
    || (Engaged(w.page) && w.page.revision == w.owner.revision)
    || exists i :: 0 <= i < |w.calls| && !w.calls[i].ButtonCall? && w.calls[i].revision == w.owner.revision
  }

  /** While a reload is under way, the old page and what is on its way to it are out of date. */
  ghost predicate Outdated(w: World) {
    && w.page.revision < w.owner.revision
    && forall i :: 0 <= i < |w.calls| && !w.calls[i].ButtonCall? ==> w.calls[i].revision < w.owner.revision
  }

  ghost predicate PageInOrder(w: World) {
    && w.page.revision <= w.owner.revision
    && (w.page.retry.Some? ==> !w.page.connected && !w.page.restarting)
    && (w.owner.ready ==> w.committed)
    && (w.committed && !w.owner.ready ==> !Engaged(w.page) && w.calls == [])
    && (w.owner.ready && (Engaged(w.page) || ConnectsFirst(w.calls)) ==> Informed(w))
    && (!w.committed ==> Outdated(w))
  }

  /** At most the last restart request on its way names the present revision, and it does so
      only while its page waits for the owner. */
  ghost predicate MailInOrder(w: World) {
    && (forall i :: 0 <= i < |w.mail| ==> w.mail[i].revision <= w.owner.revision)
    && (forall i :: 0 <= i < |w.mail| - 1 ==> w.mail[i].revision < w.owner.revision)
    && (Honoured(w).Some? ==> w.owner.ready && w.page.restarting)
  }

  ghost predicate InOrder(w: World) {
    TimerPending(w.page) && CallsInOrder(w) && PageInOrder(w) && MailInOrder(w)
  }

  /** A change of the page that keeps its connection. */
  lemma PageChangeKeepsOrder(w: World, p: Page)
    requires InOrder(w) && TimerPending(p) && NoNewRequest(w.page, p)
    ensures InOrder(w.(page := p)) && Honoured(w.(page := p)) == Honoured(w)
  {
  }

  lemma FiredMakesNoRequest(p: Page, now: nat, subscribed: bool)
    requires TimerPending(p)
    ensures NoNewRequest(p, Fired(p, now, subscribed)) && TimerPending(Fired(p, now, subscribed))
    ensures Fired(p, now, subscribed).pres.pending == (p.pres.pending && !Delivers(p, now, subscribed))
  {
  }

  lemma TimerKeepsOrder(w: World, subscribed: bool)
    requires InOrder(w)
    ensures InOrder(Step(w, TimerFires(subscribed)))
  {
    var p := Fired(w.page, w.now, subscribed);
    FiredMakesNoRequest(w.page, w.now, subscribed);
    PageChangeKeepsOrder(w, p);
    TallyKeepsOrder(w.(page := p), Step(w, TimerFires(subscribed)).tally);
  }

  lemma TallyKeepsOrder(w: World, tally: Tally)
    requires InOrder(w)
    ensures InOrder(w.(tally := tally))
  {
  }

  predicate DocumentEvent(e: Event) {
    e.Navigate? || e.Invisible? || e.Receiving?
  }

  lemma DocumentKeepsOrder(w: World, e: Event)
    requires InOrder(w) && DocumentEvent(e)
    ensures InOrder(Step(w, e)) && NoNewRequest(w.page, Step(w, e).page) && Step(w, e) == w.(page := Step(w, e).page)
    ensures Step(w, e).page.pres.pending == w.page.pres.pending
  {
    PageChangeKeepsOrder(w, Step(w, e).page);
  }

  /** Whether the event makes the page ask for a restart. */
  predicate AsksRestart(w: World, e: Event) {
    var p := w.page;
    match e
    case FrameArrives(frame, _) => p.connected && !p.restarting && S.Receive(p.link.session, frame).1.Restart?
    case RetryFires => p.retry.Some? && p.retry.value <= w.now
    case _ => false
  }

  /** What a frame does to a page, apart from asking for a restart. */
  lemma FrameIs(w: World, frame: Frame, handled: bool)
    requires TimerPending(w.page)
    ensures
      var e := FrameArrives(frame, handled);
      if AsksRestart(w, e) then
        Step(w, e) == Posted(w, Restarting(w.page).(link := Step(w, e).page.link))
      else
        Step(w, e) == w.(page := Step(w, e).page) && NoNewRequest(w.page, Step(w, e).page) && TimerPending(Step(w, e).page)
  {
    if w.page.connected && !w.page.restarting {
      var (session, effect) := S.Receive(w.page.link.session, frame);
      var p := WithSession(w.page, session);
      if !effect.Restart? {
        ActedMakesNoRequest(p, effect, handled, w.now);
      }
    }
  }

  /** A restart request that arrives reloads the page exactly if it names the present revision,
      and is over in any case. */
  lemma RestartHonoured(w: World)
    requires w.mail != []
    ensures
      var w' := Step(w, MailArrives);
      && w'.owner == Answered(w.owner, w.mail[0]) && w'.mail == w.mail[1..] && w'.page == w.page
      && (if w.mail[0].revision == w.owner.revision
          then w'.owner == Owner(false, w.mail[0].activate, w.owner.revision + 1) && !w'.committed
          else w'.owner == w.owner && w'.committed == w.committed)
  {
  }

  /** Asking for a restart posts the request; the owner will honour it exactly when no newer
      activation is on its way to the page. */
  lemma RestartPosts(w: World, p: Page)
    requires InOrder(w) && !w.page.restarting && (w.page.connected || w.page.retry.Some?)
    requires p == Restarting(w.page).(link := p.link)
    ensures InOrder(Posted(w, p))
    ensures Honoured(Posted(w, p)) ==
      if w.owner.ready && !HasActivate(w.calls) then Some(Request(w.owner.revision, w.page.pres.pending)) else None
  {
    var w' := Posted(w, p);
    assert Honoured(w).None?;
    assert w'.mail == w.mail + [Request(w.page.revision, w.page.pres.pending)];
    assert forall i :: 0 <= i < |w.mail| ==> w.mail[i].revision < w.owner.revision;
  }

  lemma FrameKeepsOrder(w: World, frame: Frame, handled: bool)
    requires InOrder(w)
    ensures InOrder(Step(w, FrameArrives(frame, handled)))
  {
    var e := FrameArrives(frame, handled);
    FrameIs(w, frame, handled);
    if AsksRestart(w, e) {
      RestartPosts(w, Restarting(w.page).(link := Step(w, e).page.link));
    } else {
      PageChangeKeepsOrder(w, Step(w, e).page);
    }
  }

  lemma RetryKeepsOrder(w: World)
    requires InOrder(w)
    ensures InOrder(Step(w, RetryFires))
  {
    if AsksRestart(w, RetryFires) {
      RestartPosts(w, Restarting(w.page));
    }
  }

  lemma CloseKeepsOrder(w: World)
    requires InOrder(w)
    ensures InOrder(Step(w, SocketCloses)) && Honoured(Step(w, SocketCloses)) == Honoured(w)
  {
  }

  lemma ActivatesKeepsOrder(w: World)
    requires InOrder(w)
    ensures InOrder(Activates(w)) && Honoured(Activates(w)).None?
    ensures w.owner.ready ==> HasActivate(Activates(w).calls)
  {
    var w' := Activates(w);
    if w.owner.ready {
      assert w'.calls[|w.calls|] == ActivateCall(w'.owner.revision);
    }
  }

  lemma ButtonKeepsOrder(w: World)
    requires InOrder(w) && w.owner.ready
    ensures InOrder(Step(w, DataButton)) && Honoured(Step(w, DataButton)) == Honoured(w)
    ensures HasActivate(Step(w, DataButton).calls) == HasActivate(w.calls)
  {
    var calls := w.calls + [ButtonCall];
    assert forall i :: 0 <= i < |w.calls| ==> calls[i] == w.calls[i];
  }

  lemma ReloadsKeepsOrder(w: World, activate: bool)
    requires InOrder(w)
    ensures InOrder(Reloads(w, activate)) && Honoured(Reloads(w, activate)).None?
  {
  }

  lemma CommitKeepsOrder(w: World)
    requires InOrder(w)
    ensures InOrder(Step(w, PageCommits))
  {
  }

  lemma LoadKeepsOrder(w: World, broadcast: bool)
    requires InOrder(w)
    ensures InOrder(Step(w, PageLoads(broadcast)))
  {
    if !w.owner.ready && w.committed {
      LoadedInOrder(w, w.(owner := Loaded(w.owner), calls := LoadedCalls(w.owner, broadcast)));
      assert w.calls + LoadedCalls(w.owner, broadcast) == LoadedCalls(w.owner, broadcast);
    }
  }

  lemma LoadedInOrder(w: World, w': World)
    requires InOrder(w) && !w.owner.ready && w.committed
    requires w' == w.(owner := Loaded(w.owner), calls := w'.calls)
    requires w'.calls == [] || w'.calls == [ConnectCall(w.owner.revision, w.owner.resume)]
    ensures InOrder(w')
  {
    assert Honoured(w') == Honoured(w);
  }

  /** A restart request that has arrived no longer counts, unless it was the only one. */
  lemma RestOfMail(w: World)
    requires InOrder(w) && w.mail != []
    ensures
      var rest := w.(mail := w.mail[1..]);
      && InOrder(rest)
      && (w.mail[0].revision == w.owner.revision ==> Honoured(w) == Some(w.mail[0]))
      && (w.mail[0].revision != w.owner.revision ==> Honoured(rest) == Honoured(w))
  {
    var rest := w.(mail := w.mail[1..]);
    assert forall i :: 0 <= i < |rest.mail| ==> rest.mail[i] == w.mail[i + 1];
  }

  lemma MailKeepsOrder(w: World)
    requires InOrder(w)
    ensures InOrder(Step(w, MailArrives))
    ensures w.mail != [] && w.mail[0].revision == w.owner.revision ==> Honoured(w) == Some(w.mail[0])
    ensures !(w.mail != [] && w.mail[0].revision == w.owner.revision) ==> Honoured(Step(w, MailArrives)) == Honoured(w)
  {
    if w.mail != [] {
      RestOfMail(w);
      ReloadsKeepsOrder(w.(mail := w.mail[1..]), w.mail[0].activate);
    }
  }

  lemma ActivatedIs(p: Page, revision: nat, now: nat)
    requires TimerPending(p)
    ensures
      var q := Activated(p, revision, now);
      && q.connected == p.connected && q.restarting == p.restarting && q.retry == p.retry && q.revision == revision
      && q.pres.pending && TimerPending(q)
  {
  }

  lemma ConnectedIs(p: Page, revision: nat, activate: bool, now: nat)
    requires !Engaged(p)
    ensures
      var q := Connected(p, revision, activate, now);
      && q.connected && !q.restarting && q.retry.None? && q.revision == revision
      && q.pres.pending == activate && TimerPending(q)
  {
  }

  /** The calls left once the first has arrived. */
  lemma RestOfCalls(calls: seq<Call>)
    requires calls != []
    ensures forall i :: 0 <= i < |calls[1..]| ==> calls[1..][i] == calls[i + 1]
    ensures HasActivate(calls) <==> calls[0].ActivateCall? || HasActivate(calls[1..])
  {
    if HasActivate(calls) && !calls[0].ActivateCall? {
      var i :| 0 <= i < |calls| && calls[i].ActivateCall?;
      assert calls[1..][i - 1].ActivateCall?;
    }
  }

  lemma ConnectKeepsOrder(w: World)
    requires InOrder(w) && ConnectsFirst(w.calls)
    ensures InOrder(Step(w, CallArrives)) && Honoured(Step(w, CallArrives)) == Honoured(w)
  {
    RestOfCalls(w.calls);
    ConnectedIs(w.page, w.calls[0].revision, w.calls[0].activate, w.now);
  }

  lemma ActivateKeepsOrder(w: World)
    requires InOrder(w) && w.calls != [] && w.calls[0].ActivateCall?
    ensures InOrder(Step(w, CallArrives)) && Honoured(Step(w, CallArrives)) == Honoured(w)
  {
    RestOfCalls(w.calls);
    ActivatedIs(w.page, w.calls[0].revision, w.now);
  }

  lemma PressKeepsOrder(w: World)
    requires InOrder(w) && w.calls != [] && w.calls[0].ButtonCall?
    ensures InOrder(Step(w, CallArrives)) && Honoured(Step(w, CallArrives)) == Honoured(w)
  {
    RestOfCalls(w.calls);
    ActivatedIs(w.page, w.page.revision, w.now);
  }

  lemma CalledKeepsOrder(w: World)
    requires InOrder(w) && w.calls != []
    ensures InOrder(Step(w, CallArrives)) && Honoured(Step(w, CallArrives)) == Honoured(w)
  {
    match w.calls[0]
    case ConnectCall(_, _) => ConnectKeepsOrder(w);
    case ActivateCall(_) => ActivateKeepsOrder(w);
    case ButtonCall => PressKeepsOrder(w);
  }

  /** What happens on the page, rather than between it and its owner. */
  predicate IsPageEvent(e: Event) {
    DocumentEvent(e) || e.Tick? || e.TimerFires? || e.FrameArrives? || e.SocketCloses? || e.RetryFires?
  }

  lemma PageKeepsOrder(w: World, e: Event)
    requires InOrder(w) && IsPageEvent(e)
    ensures InOrder(Step(w, e))
  {
    match e
    case Tick(_) =>
    case Navigate(_) => DocumentKeepsOrder(w, e);
    case Invisible(_) => DocumentKeepsOrder(w, e);
    case Receiving(_) => DocumentKeepsOrder(w, e);
    case TimerFires(subscribed) => TimerKeepsOrder(w, subscribed);
    case FrameArrives(frame, handled) => FrameKeepsOrder(w, frame, handled);
    case SocketCloses => CloseKeepsOrder(w);
    case RetryFires => RetryKeepsOrder(w);
  }

  lemma OwnerKeepsOrder(w: World, e: Event)
    requires InOrder(w) && !IsPageEvent(e)
    ensures InOrder(Step(w, e))
  {
    match e
    case CallArrives =>
      if w.calls != [] {
        CalledKeepsOrder(w);
      }
    case OwnerActivates => ActivatesKeepsOrder(w);
    case DataButton =>
      if w.owner.ready {
        ButtonKeepsOrder(w);
      } else {
        ActivatesKeepsOrder(w);
      }
    case OwnerReloads(activate) => ReloadsKeepsOrder(w, activate);
    case PageCommits => CommitKeepsOrder(w);
    case PageLoads(broadcast) => LoadKeepsOrder(w, broadcast);
    case MailArrives => MailKeepsOrder(w);
  }

  lemma StepKeepsOrder(w: World, e: Event)
    requires InOrder(w)
    ensures InOrder(Step(w, e))
  {
    if IsPageEvent(e) {
      PageKeepsOrder(w, e);
    } else {
      OwnerKeepsOrder(w, e);
    }
  }

  lemma {:induction false} RunKeepsOrder(start: World, es: seq<Event>, n: nat)
    requires InOrder(start) && n <= |es|
    ensures InOrder(At(start, es, n))
  {
    if 0 < n {
      RunKeepsOrder(start, es, n - 1);
      StepKeepsOrder(At(start, es, n - 1), es[n - 1]);
    }
  }

  // ---------- manual-start services ----------

  lemma FramedKeepsStartupOver(p: Page, f: Frame, handled: bool, now: nat)
    requires !p.link.startup
    ensures !Framed(p, f, handled, now).link.startup
  {
  }

  /** A connection past its startup stays past it: only a new page or connection starts anew. */
  lemma StartupOver(w: World, e: Event)
    requires !w.page.link.startup && Step(w, e).page.link.startup
    ensures (e.PageCommits? && !w.committed) || (e.CallArrives? && ConnectsFirst(w.calls))
  {
    if e.FrameArrives? {
      FramedKeepsStartupOver(w.page, e.frame, e.handled, w.now);
    }
  }

  // ---------- how a run begins ----------

  const Opening: Frame := S.BeginFrame(1, Some("a"))

  lemma TwoMore(start: World, es: seq<Event>, n: nat)
    requires n + 2 <= |es|
    ensures At(start, es, n + 2) == Step(Step(At(start, es, n), es[n]), es[n + 1])
  {
  }

  lemma Unroll(start: World, es: seq<Event>, n: nat)
    requires n < |es|
    ensures At(start, es, n + 1) == Step(At(start, es, n), es[n])
  {
  }

  /** The page loads, is told to connect, and its session opens. */
  ghost predicate Opens(es: seq<Event>) {
    3 <= |es| && es[0] == PageLoads(true) && es[1] == CallArrives && es[2] == FrameArrives(Opening, true)
  }

  /** A connected page whose session has opened, as is after that. */
  ghost predicate Opened(w: World) {
    && w.page.connected && !w.page.restarting && w.page.retry.None? && w.page.revision == 0
    && w.page.pres == P.Reset(true) && w.page.link == NewLink.(session := S.Session(S.Snapshot, Some("a")))
    && w.owner == Owner(true, true, 0) && w.committed && w.calls == [] && w.mail == []
  }

  lemma InitialInOrder(activateOnLoad: bool)
    ensures InOrder(Initial(activateOnLoad))
  {
  }

  lemma ConnectedPage(now: nat)
    ensures
      var p := Connected(FreshPage, 0, true, now);
      && p.connected && !p.restarting && p.retry.None? && p.revision == 0
      && p.pres == P.Reset(true) && p.link == NewLink
  {
  }

  lemma OpenedPage(p: Page, now: nat)
    requires p.connected && !p.restarting && p.link == NewLink
    ensures Framed(p, Opening, true, now) == WithSession(p, S.Session(S.Snapshot, Some("a")))
  {
  }

  lemma LoadedFirst()
    ensures
      var w := Step(Initial(true), PageLoads(true));
      && w.calls == [ConnectCall(0, true)] && w.page == FreshPage && w.now == 0 && w.mail == []
      && w.owner == Owner(true, true, 0) && w.committed
  {
  }

  lemma OpenedThen(w: World)
    requires w.page == Connected(FreshPage, 0, true, 0) && w.now == 0
    requires w.owner == Owner(true, true, 0) && w.committed && w.calls == [] && w.mail == []
    ensures Opened(Step(w, FrameArrives(Opening, true)))
  {
    ConnectedPage(0);
    OpenedPage(w.page, 0);
  }

  lemma OpenedAfter(es: seq<Event>)
    requires Opens(es)
    ensures Opened(At(Initial(true), es, 3)) && InOrder(At(Initial(true), es, 3))
  {
    InitialInOrder(true);
    RunKeepsOrder(Initial(true), es, 3);
    LoadedFirst();
    Unroll(Initial(true), es, 0);
    Unroll(Initial(true), es, 1);
    OpenedThen(At(Initial(true), es, 2));
    Unroll(Initial(true), es, 2);
  }
}
