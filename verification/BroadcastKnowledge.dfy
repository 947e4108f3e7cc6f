/** What a data-broadcast page knows, read off what has happened since it was last connected. */
module BroadcastKnowledge {
  import opened Common
  import opened BroadcastOwner
  import opened BroadcastPage
  import opened BroadcastWorld
  import P = BroadcastPresentation
  import S = BroadcastSession
  import W = BroadcastShown

  // ---------- what the messages say ----------

  /** A component carries a data broadcast if it is a data carousel under one of two numbers. */
  lemma CarriesExactly(components: seq<Component>)
    ensures CarriesData(components) <==>
      exists i :: 0 <= i < |components| && components[i].streamType == 13 && components[i].componentId in {64, 128}
  {
    if i :| 0 <= i < |components| && components[i].streamType == 13 && components[i].componentId in {64, 128} {
      assert DataStream(components[i]);
    }
    if i :| 0 <= i < |components| && DataStream(components[i]) {
      assert components[i].streamType == 13 && components[i].componentId in {64, 128};
    }
  }

  /** The entry point of a map is that of its first component with one. */
  lemma {:induction false} EntryExactly(components: seq<Component>, starts: bool)
    ensures Entry(components) == Some(starts) <==>
      exists i :: 0 <= i < |components| && components[i].entryPoint == Some(starts)
                  && forall j :: 0 <= j < i ==> components[j].entryPoint.None?
    ensures Entry(components).None? <==> forall i :: 0 <= i < |components| ==> components[i].entryPoint.None?
  {
    if components != [] {
      var rest := components[1..];
      EntryExactly(rest, starts);
      assert forall i :: 0 < i < |components| ==> components[i] == rest[i - 1];
      if components[0].entryPoint.None? && Entry(rest) == Some(starts) {
        var i :| 0 <= i < |rest| && rest[i].entryPoint == Some(starts) && forall j :: 0 <= j < i ==> rest[j].entryPoint.None?;
        assert components[i + 1].entryPoint == Some(starts);
      }
      if i :| 0 <= i < |components| && components[i].entryPoint == Some(starts)
              && forall j :: 0 <= j < i ==> components[j].entryPoint.None? {
        if 0 < i {
          assert rest[i - 1].entryPoint == Some(starts) && forall j :: 0 <= j < i - 1 ==> rest[j].entryPoint.None?;
        }
      }
    }
  }

  /** A message on a connection, and whether the browser handled it. */
  datatype Heard = Heard(message: Message, handled: bool)

  function LastMap(hs: seq<Heard>): seq<Component> {
    if hs == [] then [] else
    match hs[|hs| - 1].message
    case Pmt(components) => components
    case ProgramInfo(_) => LastMap(hs[..|hs| - 1])
    case Other => LastMap(hs[..|hs| - 1])
  }

  function LastKnown(hs: seq<Heard>): bool {
    if hs == [] then false else
    match hs[|hs| - 1].message
    case ProgramInfo(known) => known
    case Pmt(_) => LastKnown(hs[..|hs| - 1])
    case Other => LastKnown(hs[..|hs| - 1])
  }

  /** What the messages say about the broadcast: nothing until the programme is known, and then
      whether the last map has a data component. It counts from the last message about the
      programme that was handled. */
  function Told(hs: seq<Heard>): Option<bool> {
    if hs == [] then None
    else if hs[|hs| - 1].handled && !hs[|hs| - 1].message.Other? then
      if !LastKnown(hs) then None
      else Some(exists i :: 0 <= i < |LastMap(hs)| && LastMap(hs)[i].streamType == 13
                            && LastMap(hs)[i].componentId in {64, 128})
    else Told(hs[..|hs| - 1])
  }

  predicate HasEntry(components: seq<Component>) {
    exists i :: 0 <= i < |components| && components[i].entryPoint.Some?
  }

  /** An entry point has been among the components of a map. */
  predicate EntryHeard(hs: seq<Heard>) {
    exists k :: 0 <= k < |hs| && hs[k].message.Pmt? && HasEntry(hs[k].message.components)
  }

  lemma ReceivedFacts(p: Page, m: Message, handled: bool, now: nat)
    ensures
      var q := Received(p, m, handled, now);
      && q.link.programKnown == (if m.ProgramInfo? then m.known else p.link.programKnown)
      && q.link.entryAvailable == (if m.Pmt? then CarriesData(m.components) else p.link.entryAvailable)
      && q.link.startup == (p.link.startup && !(m.Pmt? && Entry(m.components).Some?))
      && q.link.faulted == (p.link.faulted || !handled)
  {
  }

  lemma ReceivedAvailable(p: Page, m: Message, handled: bool, now: nat)
    ensures Received(p, m, handled, now).pres.available ==
      if !handled || m.Other? then p.pres.available
      else if !Received(p, m, handled, now).link.programKnown then None
      else Some(Received(p, m, handled, now).link.entryAvailable)
  {
    NotedPresentation(p, m);
    if handled && !m.Other? {
      HandledPresentation(p, m, now);
    } else {
      UnhandledPresentation(p, m, handled, now);
    }
  }

  lemma LastHeard(hs: seq<Heard>, h: Heard)
    ensures EntryHeard(hs + [h]) <==> EntryHeard(hs) || (h.message.Pmt? && HasEntry(h.message.components))
  {
    assert (hs + [h])[|hs|] == h;
    assert forall k :: 0 <= k < |hs| ==> (hs + [h])[k] == hs[k];
  }

  // ---------- what has happened to a connection ----------

  /** What has happened since the page was last replaced or told to connect: the frames that came
      while it was connected, the messages among them that reached the browser, whether one of
      them failed or was ready, and what the document last reported. */
  datatype Connection = Connection(
    frames: seq<Frame>,
    heard: seq<Heard>,
    failed: bool,
    ready: bool,
    loading: bool,
    invisible: bool,
    receiving: bool)

  const Begun := Connection([], [], false, false, true, true, false)

  predicate BeginsAnew(w: World, e: Event) {
    (e.PageCommits? && !w.committed) || (e.CallArrives? && w.calls != [] && w.calls[0].ConnectCall?)
  }

  function FrameCame(c: Connection, frame: Frame, handled: bool): Connection {
    var c := c.(frames := c.frames + [frame]);
    EffectCame(c, S.EffectAt(c.frames, |c.frames| - 1), handled)
  }

  function EffectCame(c: Connection, effect: S.Effect<Message>, handled: bool): Connection {
    match effect
    case Update(message) => c.(heard := c.heard + [Heard(message, handled)], failed := c.failed || !handled)
    case Ready => c.(ready := true)
    case Fault => c.(failed := true)
    case Throw => c.(failed := true)
    case Restart => c
    case Nothing => c
  }

  function Happened(c: Connection, w: World, e: Event): Connection {
    if BeginsAnew(w, e) then Begun else
    match e
    case FrameArrives(frame, handled) =>
      if w.page.connected && !w.page.restarting then FrameCame(c, frame, handled) else c
    case Navigate(loading) => c.(loading := loading)
    case Invisible(invisible) => c.(invisible := invisible)
    case Receiving(receiving) => c.(receiving := receiving)
    case _ => c
  }

  function Since(start: World, es: seq<Event>, n: nat): Connection
    requires n <= |es|
  {
    if n == 0 then Begun else Happened(Since(start, es, n - 1), At(start, es, n - 1), es[n - 1])
  }

  // ---------- the page knows exactly that ----------

  ghost predicate LinkKnows(link: Link, c: Connection) {
    && link.session == S.At(c.frames, |c.frames|)
    && link.faulted == c.failed
    && link.startup == !EntryHeard(c.heard)
    && link.programKnown == LastKnown(c.heard)
    && link.entryAvailable == CarriesData(LastMap(c.heard))
  }

  ghost predicate ShownKnows(p: P.Presentation, c: Connection) {
    p.available == Told(c.heard) && p.synchronized == c.ready && DocumentKnown(p, c)
  }

  ghost predicate DocumentKnown(p: P.Presentation, c: Connection) {
    p.loading == c.loading && p.invisible == c.invisible && p.receiving == c.receiving
  }

  ghost predicate Knows(p: Page, c: Connection) {
    LinkKnows(p.link, c) && ShownKnows(p.pres, c)
  }

  /** A later frame does not change where the session stood before it. */
  lemma {:induction false} EarlierFrames(fs: seq<Frame>, f: Frame, n: nat)
    requires n <= |fs|
    ensures S.At(fs + [f], n) == S.At(fs, n)
  {
    if 0 < n {
      EarlierFrames(fs, f, n - 1);
      assert (fs + [f])[n - 1] == fs[n - 1];
    }
  }

  lemma FrameReceived(fs: seq<Frame>, f: Frame)
    ensures S.At(fs + [f], |fs| + 1) == S.Receive(S.At(fs, |fs|), f).0
    ensures S.EffectAt(fs + [f], |fs|) == S.Receive(S.At(fs, |fs|), f).1
  {
    EarlierFrames(fs, f, |fs|);
    assert (fs + [f])[|fs|] == f;
  }

  lemma MessageHeard(p: Page, c: Connection, m: Message, handled: bool, now: nat)
    requires Knows(p, c)
    ensures Knows(Received(p, m, handled, now), c.(heard := c.heard + [Heard(m, handled)], failed := c.failed || !handled))
  {
    MessageSays(c.heard, Heard(m, handled));
    ReceivedFacts(p, m, handled, now);
    ReceivedAvailable(p, m, handled, now);
    ReceivedDocument(p, m, handled, now);
  }

  /** What one more message changes of what the messages say. */
  lemma MessageSays(hs: seq<Heard>, h: Heard)
    ensures LastMap(hs + [h]) == if h.message.Pmt? then h.message.components else LastMap(hs)
    ensures LastKnown(hs + [h]) == if h.message.ProgramInfo? then h.message.known else LastKnown(hs)
    ensures EntryHeard(hs + [h]) == (EntryHeard(hs) || (h.message.Pmt? && Entry(h.message.components).Some?))
    ensures Told(hs + [h]) ==
      if !h.handled || h.message.Other? then Told(hs)
      else if LastKnown(hs + [h]) then Some(CarriesData(LastMap(hs + [h]))) else None
  {
    assert (hs + [h])[..|hs|] == hs && (hs + [h])[|hs|] == h;
    LastHeard(hs, h);
    CarriesExactly(LastMap(hs + [h]));
    if h.message.Pmt? {
      EntryExactly(h.message.components, true);
    }
  }

  /** What a message leaves as it is. */
  lemma ReceivedDocument(p: Page, m: Message, handled: bool, now: nat)
    ensures
      var q := Received(p, m, handled, now);
      && q.link.session == p.link.session && q.pres.synchronized == p.pres.synchronized
      && q.pres.loading == p.pres.loading && q.pres.invisible == p.pres.invisible && q.pres.receiving == p.pres.receiving
  {
    NotedPresentation(p, m);
    if handled && !m.Other? {
      HandledPresentation(p, m, now);
      P.StepNotices(Noted(p, m).pres, P.DoAvailability(Availability(Noted(p, m))));
    } else {
      UnhandledPresentation(p, m, handled, now);
    }
  }

  lemma OtherFrameHeard(p: Page, effect: S.Effect<Message>, handled: bool, now: nat)
    requires !effect.Update?
    ensures
      var q := Acted(p, effect, handled, now);
      && q.link == p.link.(faulted := p.link.faulted || effect.Fault? || effect.Throw?)
      && q.pres == p.pres.(synchronized := p.pres.synchronized || effect.Ready?)
  {
  }

  lemma OtherEffectKnown(p: Page, q: Page, c: Connection, effect: S.Effect<Message>, handled: bool)
    requires Knows(p, c) && !effect.Update?
    requires q.link == p.link.(faulted := p.link.faulted || effect.Fault? || effect.Throw?)
    requires q.pres == p.pres.(synchronized := p.pres.synchronized || effect.Ready?)
    ensures Knows(q, EffectCame(c, effect, handled))
  {
  }

  lemma FrameHeard(p: Page, c: Connection, frame: Frame, handled: bool, now: nat)
    requires Knows(p, c) && p.connected && !p.restarting
    ensures Knows(Framed(p, frame, handled, now), FrameCame(c, frame, handled))
  {
    FrameReceived(c.frames, frame);
    var (session, effect) := S.Receive(p.link.session, frame);
    var q, d := WithSession(p, session), c.(frames := c.frames + [frame]);
    assert Knows(q, d);
    assert effect == S.EffectAt(d.frames, |d.frames| - 1);
    EffectHeard(q, d, effect, handled, now);
  }

  lemma EffectHeard(p: Page, c: Connection, effect: S.Effect<Message>, handled: bool, now: nat)
    requires Knows(p, c)
    ensures Knows(Acted(p, effect, handled, now), EffectCame(c, effect, handled))
  {
    if effect.Update? {
      MessageHeard(p, c, effect.message, handled, now);
    } else {
      OtherFrameHeard(p, effect, handled, now);
      OtherEffectKnown(p, Acted(p, effect, handled, now), c, effect, handled);
    }
  }

  /** Everything else leaves the connection as it was, and changes of the document only what
      the document reports. */
  ghost predicate OnlyDocument(p: Page, q: Page, c: Connection, d: Connection) {
    && q.link == p.link && q.pres.available == p.pres.available && q.pres.synchronized == p.pres.synchronized
    && d == c.(loading := d.loading, invisible := d.invisible, receiving := d.receiving)
    && DocumentKnown(q.pres, d)
  }

  lemma OnlyDocumentKnows(p: Page, q: Page, c: Connection, d: Connection)
    requires Knows(p, c) && OnlyDocument(p, q, c, d)
    ensures Knows(q, d)
  {
  }

  lemma NavigateReports(p: Page, c: Connection, loading: bool, now: nat)
    requires DocumentKnown(p.pres, c)
    ensures OnlyDocument(p, Shown(p, P.Navigation(p.pres, loading), now), c, c.(loading := loading))
  {
    P.StepNotices(p.pres, P.DoNavigation(loading));
  }

  lemma VisibilityReports(p: Page, c: Connection, invisible: bool, now: nat)
    requires DocumentKnown(p.pres, c)
    ensures OnlyDocument(p, Shown(p, P.Visibility(p.pres, invisible), now), c, c.(invisible := invisible))
  {
    P.StepNotices(p.pres, P.DoVisibility(invisible));
  }

  lemma DocumentReports(w: World, c: Connection, e: Event)
    requires DocumentKnown(w.page.pres, c) && DocumentEvent(e)
    ensures OnlyDocument(w.page, Step(w, e).page, c, Happened(c, w, e))
  {
    match e
    case Navigate(loading) => NavigateReports(w.page, c, loading, w.now);
    case Invisible(invisible) => VisibilityReports(w.page, c, invisible, w.now);
    case Receiving(receiving) =>
  }

  lemma TimerReports(w: World, c: Connection, subscribed: bool)
    requires DocumentKnown(w.page.pres, c)
    ensures OnlyDocument(w.page, Step(w, TimerFires(subscribed)).page, c, c)
  {
    P.StepNotices(w.page.pres, P.DoTake);
  }

  lemma ActivateReports(p: Page, c: Connection, revision: nat, now: nat)
    requires DocumentKnown(p.pres, c)
    ensures OnlyDocument(p, Activated(p, revision, now), c, c)
  {
    P.StepNotices(p.pres, P.DoOpen);
  }

  lemma CallReports(w: World, c: Connection)
    requires DocumentKnown(w.page.pres, c) && w.calls != [] && !w.calls[0].ConnectCall?
    ensures OnlyDocument(w.page, Step(w, CallArrives).page, c, c)
  {
    ActivateReports(w.page, c, if w.calls[0].ActivateCall? then w.calls[0].revision else w.page.revision, w.now);
  }

  lemma RestReports(w: World, c: Connection, e: Event)
    requires DocumentKnown(w.page.pres, c) && !BeginsAnew(w, e)
    requires !DocumentEvent(e) && !e.TimerFires? && !e.CallArrives? && !e.FrameArrives?
    ensures OnlyDocument(w.page, Step(w, e).page, c, Happened(c, w, e))
  {
  }

  lemma NothingYet(w: World, e: Event)
    requires BeginsAnew(w, e)
    ensures Knows(Step(w, e).page, Begun)
  {
  }

  lemma StepKnows(w: World, c: Connection, e: Event)
    requires Knows(w.page, c)
    ensures Knows(Step(w, e).page, Happened(c, w, e))
  {
    if BeginsAnew(w, e) {
      NothingYet(w, e);
    } else if e.FrameArrives? {
      if w.page.connected && !w.page.restarting {
        FrameHeard(w.page, c, e.frame, e.handled, w.now);
      }
    } else {
      OtherReports(w, c, e);
      OnlyDocumentKnows(w.page, Step(w, e).page, c, Happened(c, w, e));
    }
  }

  lemma OtherReports(w: World, c: Connection, e: Event)
    requires DocumentKnown(w.page.pres, c) && !BeginsAnew(w, e) && !e.FrameArrives?
    ensures OnlyDocument(w.page, Step(w, e).page, c, Happened(c, w, e))
  {
    if DocumentEvent(e) {
      DocumentReports(w, c, e);
    } else if e.TimerFires? {
      TimerReports(w, c, e.subscribed);
    } else if e.CallArrives? && w.calls != [] {
      CallReports(w, c);
    } else if !e.CallArrives? {
      RestReports(w, c, e);
    }
  }

  /** At every moment of every run the page knows exactly what its connection has brought: where
      its session stands, whether it has failed, what the messages tell of the broadcast, whether
      it is synchronized, and what its document reported. */
  lemma {:induction false} PageKnows(activateOnLoad: bool, es: seq<Event>, n: nat)
    requires n <= |es|
    ensures Knows(At(Initial(activateOnLoad), es, n).page, Since(Initial(activateOnLoad), es, n))
  {
    if 0 < n {
      PageKnows(activateOnLoad, es, n - 1);
      StepKnows(At(Initial(activateOnLoad), es, n - 1), Since(Initial(activateOnLoad), es, n - 1), es[n - 1]);
    }
  }

  /** So it shows that there is no broadcast exactly when the messages say so, and it can take a
      request exactly if one is pending on a live connection that is ready, with a loaded document
      that is not receiving anything, and the messages do not say that there is no broadcast. */
  lemma UnavailableExactly(activateOnLoad: bool, es: seq<Event>, n: nat)
    requires n <= |es|
    ensures
      var p, c := At(Initial(activateOnLoad), es, n).page, Since(Initial(activateOnLoad), es, n);
      && (p.pres.state.Unavailable? <==> Told(c.heard) == Some(false))
      && (Pending(p) <==> p.connected && !p.restarting && p.pres.pending
                          && c.ready && !c.loading && !c.receiving && Told(c.heard) != Some(false))
  {
    PageKnows(activateOnLoad, es, n);
    W.RunConsistent(activateOnLoad, es, n);
  }
}
