/**
 The EPGStation library: which request owns the single catalogue worker, which answer may
 be published, and which server the session belongs to.

 Every operation is a function on the world of the library and its workers. The class at
 the end updates its fields in place and is proved to follow these functions.
 */
module EpgLibrary {
  import opened Common
  import opened Jobs
  import opened Fetching

  datatype Operation = Idle | Fetching(job: JobId) | Stopping(stopping: JobId, next: Option<Pending>)

  datatype Catalogue = Empty | Loaded(query: Query, page: Page, connection: Connection)

  datatype Session = Session(endpoint: Endpoint, connection: Connection)

  /** The probe that establishes a session without publishing a page. */
  datatype Verification =
    | Unverified
    | Probing(endpoint: Endpoint, job: JobId)
    | Retiring(stopping: JobId, next: Option<Endpoint>)
    | Closed(closing: Option<JobId>)

  /** The library's fields. The counters are unbounded; `requests` numbers the user actions
      that replace or withdraw a request and `clears` counts thumbnail clears. */
  datatype State = State(
    operation: Operation,
    verification: Verification,
    catalogue: Catalogue,
    session: Option<Session>,
    generation: nat,
    error: bool,
    revision: nat,
    clears: nat,
    requests: nat)

  type Fetches = seq<Worker<Pending, Result<Fetched>>>

  type Probes = seq<Worker<Endpoint, Result<Connection>>>

  datatype World = World(lib: State, fetches: Fetches, probes: Probes)

  const Initial := World(State(Idle, Unverified, Empty, None, 0, false, 0, 0, 0), [], [])

  // ---------- verification ----------

  /** Whether a probe can still deliver a session. */
  predicate Active(v: Verification) {
    v.Probing? || (v.Retiring? && v.next.Some?)
  }

  function CancelVerification(v: Verification): Verification {
    match v
    case Probing(_, job) => Retiring(job, None)
    case Retiring(stopping, _) => Retiring(stopping, None)
    case Unverified => v
    case Closed(_) => v
  }

  function CloseVerification(w: World): World {
    var v := CancelVerification(w.lib.verification);
    w.(lib := w.lib.(verification :=
      match v
      case Retiring(stopping, _) => Closed(Some(stopping))
      case Unverified => Closed(None)
      case Probing(_, _) => v
      case Closed(_) => v))
  }

  predicate MayVerify(s: State, network: bool, address: Address) {
    address.Server? && s.session.None? && s.operation.Idle? && !s.verification.Closed? && network
  }

  predicate VerifyAccepts(s: State, network: bool, enabled: bool, address: Address) {
    enabled && MayVerify(s, network, address) && !s.verification.Probing?
  }

  function Verify(w: World, network: bool, enabled: bool, address: Address): World {
    if !enabled then
      w.(lib := w.lib.(verification := CancelVerification(w.lib.verification)))
    else if !VerifyAccepts(w.lib, network, enabled, address) then
      w
    else if w.lib.verification.Retiring? then
      w.(lib := w.lib.(verification := w.lib.verification.(next := Some(address.endpoint))))
    else
      StartProbe(w, address.endpoint)
  }

  function StartProbe(w: World, endpoint: Endpoint): World {
    World(w.lib.(verification := Probing(endpoint, |w.probes|)), w.fetches, w.probes + [Running(endpoint)])
  }

  ghost predicate ProbesInRange(w: World) {
    match w.lib.verification
    case Probing(_, job) => job < |w.probes|
    case Retiring(stopping, _) => stopping < |w.probes|
    case Closed(Some(stopping)) => stopping < |w.probes|
    case Closed(None) => true
    case Unverified => true
  }

  function PollVerification(w: World): World
    requires ProbesInRange(w)
  {
    match w.lib.verification
    case Unverified => w
    case Probing(endpoint, job) => (
      match PollJob(w.probes, job)
      case Waiting => w
      case Complete(Failure) => w.(lib := w.lib.(verification := Unverified))
      case Complete(Success(connection)) =>
        w.(lib := w.lib.(
          verification := Unverified,
          session := Some(Session(endpoint, connection)),
          generation := w.lib.generation + 1,
          clears := w.lib.clears + 1)))
    case Retiring(stopping, next) =>
      if w.probes[stopping].Running? then w
      else if next.Some? then StartProbe(w, next.value)
      else w.(lib := w.lib.(verification := Unverified))
    case Closed(Some(stopping)) =>
      if w.probes[stopping].Running? then w else w.(lib := w.lib.(verification := Closed(None)))
    case Closed(None) => w
  }

  // ---------- the catalogue ----------

  function Offset(c: Catalogue): U64 {
    if c.Loaded? then c.query.offset else 0
  }

  predicate HasPrevious(c: Catalogue) {
    Offset(c) > 0
  }

  predicate HasNext(c: Catalogue) {
    c.Loaded? && c.page.rows != [] && SaturatingAdd(c.query.offset, PAGE_SIZE) < c.page.total
  }

  predicate OpenAccepts(address: Address, keyword: string) {
    address.Server? && |keyword| <= MAX_KEYWORD_CHARS
  }

  function OpenAccess(s: State, endpoint: Endpoint, password: bool): Access {
    if password then Login
    else if s.session.Some? && s.session.value.endpoint == endpoint then Connected(s.session.value.connection)
    else Anonymous
  }

  function Start(w: World, pending: Pending): World {
    World(w.lib.(operation := Fetching(|w.fetches|)), w.fetches + [Running(pending)], w.probes)
  }

  /** Empties the catalogue and gives the worker, or its successor, a new request. */
  function Begin(w: World, query: Query, access: Access): World {
    var pending := Pending(query, access, Replace, w.lib.requests + 1);
    var lib := w.lib.(error := false, catalogue := Empty, revision := w.lib.revision + 1, requests := w.lib.requests + 1);
    match w.lib.operation
    case Idle => Start(w.(lib := lib), pending)
    case Fetching(job) => w.(lib := lib.(operation := Stopping(job, Some(pending))))
    case Stopping(stopping, _) => w.(lib := lib.(operation := Stopping(stopping, Some(pending))))
  }

  /** Opening withdraws any probe, and drops the session unless it will be reused. */
  function Reconnect(s: State, access: Access): State {
    var s := s.(verification := CancelVerification(s.verification));
    if access.Connected? then s else s.(session := None, generation := s.generation + 1, clears := s.clears + 1)
  }

  /** A server and an already trimmed keyword; a password forces a fresh login. */
  function Open(w: World, address: Address, keyword: string, password: bool): World {
    if !OpenAccepts(address, keyword) then w else
    var access := OpenAccess(w.lib, address.endpoint, password);
    Begin(w.(lib := Reconnect(w.lib, access)), Query(address.endpoint, keyword, 0), access)
  }

  predicate RefreshAccepts(s: State) {
    s.operation.Idle? && s.catalogue.Loaded?
  }

  function Refreshed(w: World): World {
    if !RefreshAccepts(w.lib) then w else
    var pending := Pending(w.lib.catalogue.query, Connected(w.lib.catalogue.connection), Refresh, w.lib.requests + 1);
    Start(w.(lib := w.lib.(error := false, requests := w.lib.requests + 1)), pending)
  }

  function MovePage(w: World, offset: U64): World {
    match w.lib.catalogue
    case Empty => w
    case Loaded(query, _, connection) => Begin(w, query.(offset := offset), Connected(connection))
  }

  function Next(w: World): World {
    if HasNext(w.lib.catalogue) then MovePage(w, Offset(w.lib.catalogue) + PAGE_SIZE) else w
  }

  function Previous(w: World): World {
    if HasPrevious(w.lib.catalogue) then MovePage(w, SaturatingSub(Offset(w.lib.catalogue), PAGE_SIZE)) else w
  }

  function Cancel(w: World): World {
    var lib := w.lib.(verification := CancelVerification(w.lib.verification), requests := w.lib.requests + 1);
    w.(lib := lib.(operation :=
      match w.lib.operation
      case Idle => Idle
      case Fetching(job) => Stopping(job, None)
      case Stopping(stopping, _) => Stopping(stopping, None)))
  }

  ghost predicate JobInRange(w: World) {
    match w.lib.operation
    case Idle => true
    case Fetching(job) => job < |w.fetches|
    case Stopping(stopping, _) => stopping < |w.fetches|
  }

  /** The answer this poll would publish. */
  function Ready(w: World): Option<Fetched>
    requires JobInRange(w)
  {
    if w.lib.operation.Fetching? then
      match PollJob(w.fetches, w.lib.operation.job)
      case Complete(Success(fetched)) => Some(fetched)
      case Complete(Failure) => None
      case Waiting => None
    else None
  }

  function Poll(w: World): World
    requires JobInRange(w)
  {
    match w.lib.operation
    case Idle => w
    case Stopping(stopping, next) =>
      if w.fetches[stopping].Running? then w
      else if next.Some? then Start(w, next.value)
      else w.(lib := w.lib.(operation := Idle))
    case Fetching(job) =>
      match PollJob(w.fetches, job)
      case Waiting => w
      case Complete(result) =>
        var lib := w.lib.(operation := Idle, revision := w.lib.revision + 1);
        match result
        case Failure => w.(lib := lib.(error := true))
        case Success(fetched) => w.(lib := lib.(
          clears := if lib.session.None? || lib.catalogue.Loaded? then lib.clears + 1 else lib.clears,
          session := Some(Session(fetched.query.endpoint, fetched.connection)),
          catalogue := Loaded(fetched.query, fetched.page, fetched.connection)))
  }

  // ---------- steps and runs ----------

  datatype Event =
    | DoOpen(address: Address, keyword: string, password: bool)
    | DoRefresh
    | DoNext
    | DoPrevious
    | DoCancel
    | DoPoll
    | DoVerify(network: bool, enabled: bool, address: Address)
    | DoPollVerification
    | DoCloseVerification
    | FetchEnds(id: nat, first: Answer, second: Answer)
    | FetchAborts(id: nat)
    | ProbeEnds(id: nat, answer: Answer)
    | ProbeAborts(id: nat)

  /** A running catalogue worker finishes with what it computed, or with nothing. */
  function EndFetch(w: World, id: nat, sent: Option<Result<Fetched>>): World {
    if id < |w.fetches| && w.fetches[id].Running? then
      w.(fetches := w.fetches[id := Finished(w.fetches[id].task, sent)])
    else w
  }

  function EndProbe(w: World, id: nat, sent: Option<Result<Connection>>): World {
    if id < |w.probes| && w.probes[id].Running? then
      w.(probes := w.probes[id := Finished(w.probes[id].task, sent)])
    else w
  }

  function FetchResult(w: World, id: nat, first: Answer, second: Answer): Option<Result<Fetched>> {
    if id < |w.fetches| then Some(Fetch(w.fetches[id].task, first, second)) else None
  }

  /** A probe is an anonymous first-page fetch of which only the connection is kept. */
  function ProbeResult(w: World, id: nat, answer: Answer): Option<Result<Connection>> {
    if id < |w.probes| && answer.Served? then
      Some(Success(Connect(w.probes[id].task, Anonymous, answer.cookie)))
    else Some(Failure)
  }

  ghost function Step(w: World, e: Event): World
    requires JobInRange(w) && ProbesInRange(w)
  {
    match e
    case DoOpen(address, keyword, password) => Open(w, address, keyword, password)
    case DoRefresh => Refreshed(w)
    case DoNext => Next(w)
    case DoPrevious => Previous(w)
    case DoCancel => Cancel(w)
    case DoPoll => Poll(w)
    case DoVerify(network, enabled, address) => Verify(w, network, enabled, address)
    case DoPollVerification => PollVerification(w)
    case DoCloseVerification => CloseVerification(w)
    case FetchEnds(id, first, second) => EndFetch(w, id, FetchResult(w, id, first, second))
    case FetchAborts(id) => EndFetch(w, id, None)
    case ProbeEnds(id, answer) => EndProbe(w, id, ProbeResult(w, id, answer))
    case ProbeAborts(id) => EndProbe(w, id, None)
  }

  // ---------- what every reachable world keeps ----------

  function Handle(o: Operation): Option<JobId> {
    match o
    case Idle => None
    case Fetching(job) => Some(job)
    case Stopping(stopping, _) => Some(stopping)
  }

  function ProbeHandle(v: Verification): Option<JobId> {
    match v
    case Unverified => None
    case Probing(_, job) => Some(job)
    case Retiring(stopping, _) => Some(stopping)
    case Closed(closing) => closing
  }

  /** Workers report nothing but answers to their own requests. */
  ghost predicate HonestWorkers(w: World) {
    && (forall id :: 0 <= id < |w.fetches| && w.fetches[id].Finished? ==>
         match w.fetches[id].sent
         case Some(Success(fetched)) => AnswersRequest(w.fetches[id].task, fetched)
         case _ => true)
    && (forall id :: 0 <= id < |w.probes| && w.probes[id].Finished? ==>
         match w.probes[id].sent
         case Some(Success(connection)) => connection.endpoint == w.probes[id].task
         case _ => true)
  }

  ghost predicate OneWorker(w: World) {
    && OnlyLive(w.fetches, Handle(w.lib.operation))
    && OnlyLive(w.probes, ProbeHandle(w.lib.verification))
    && (w.lib.verification.Probing? ==> w.probes[w.lib.verification.job].task == w.lib.verification.endpoint)
  }

  /** A request that will be published if its worker answers. */
  ghost predicate Current(s: State, pending: Pending) {
    && pending.number == s.requests
    && pending.query.offset % PAGE_SIZE == 0
    && (s.session.Some? ==> s.session.value == Session(pending.query.endpoint, s.session.value.connection)
                            && pending.access == Connected(s.session.value.connection))
    && (pending.access.Connected? ==> pending.access.connection.endpoint == pending.query.endpoint)
    && (pending.mode.Refresh? <==> s.catalogue.Loaded?)
    && (pending.mode.Refresh? ==> pending == Pending(s.catalogue.query, Connected(s.catalogue.connection), Refresh, s.requests))
  }

  ghost predicate Coherent(w: World)
    requires JobInRange(w)
  {
    var s := w.lib;
    && (s.operation.Fetching? ==> Current(s, w.fetches[s.operation.job].task))
    && (s.operation.Stopping? && s.operation.next.Some? ==>
         Current(s, s.operation.next.value) && s.operation.next.value.mode.Replace?)
    && (s.catalogue.Loaded? ==>
         && s.session == Some(Session(s.catalogue.query.endpoint, s.catalogue.connection))
         && s.catalogue.query.offset % PAGE_SIZE == 0)
    && (s.session.Some? ==> s.session.value.connection.endpoint == s.session.value.endpoint)
    && (Active(s.verification) ==> s.operation.Idle? && s.session.None?)
  }

  ghost predicate Inv(w: World) {
    JobInRange(w) && ProbesInRange(w) && HonestWorkers(w) && OneWorker(w) && Coherent(w)
  }

  lemma BeginKeepsInv(w: World, query: Query, access: Access)
    requires JobInRange(w) && ProbesInRange(w) && HonestWorkers(w) && OneWorker(w)
    requires !Active(w.lib.verification)
    requires query.offset % PAGE_SIZE == 0
    requires w.lib.session.Some? ==>
      && w.lib.session.value.endpoint == query.endpoint == w.lib.session.value.connection.endpoint
      && access == Connected(w.lib.session.value.connection)
    requires access.Connected? ==> access.connection.endpoint == query.endpoint
    ensures Inv(Begin(w, query, access))
  {
  }

  lemma MoveKeepsInv(w: World, offset: U64)
    requires Inv(w) && offset % PAGE_SIZE == 0 && w.lib.catalogue.Loaded?
    ensures Inv(MovePage(w, offset))
  {
    BeginKeepsInv(w, w.lib.catalogue.query.(offset := offset), Connected(w.lib.catalogue.connection));
  }

  lemma ReconnectKeepsInv(w: World, access: Access)
    requires Inv(w)
    ensures
      var w' := w.(lib := Reconnect(w.lib, access));
      JobInRange(w') && ProbesInRange(w') && HonestWorkers(w') && OneWorker(w') && !Active(w'.lib.verification)
  {
  }

  lemma OpenKeepsInv(w: World, address: Address, keyword: string, password: bool)
    requires Inv(w)
    ensures Inv(Open(w, address, keyword, password))
  {
    if OpenAccepts(address, keyword) {
      var access := OpenAccess(w.lib, address.endpoint, password);
      ReconnectKeepsInv(w, access);
      BeginKeepsInv(w.(lib := Reconnect(w.lib, access)), Query(address.endpoint, keyword, 0), access);
    }
  }

  lemma RefreshKeepsInv(w: World)
    requires Inv(w)
    ensures Inv(Refreshed(w))
  {
  }

  lemma CancelKeepsInv(w: World)
    requires Inv(w)
    ensures Inv(Cancel(w))
  {
  }

  lemma PollKeepsInv(w: World)
    requires Inv(w)
    ensures Inv(Poll(w))
  {
    if w.lib.operation.Fetching? {
      var worker := w.fetches[w.lib.operation.job];
      if worker.Finished? && worker.sent.Some? && worker.sent.value.Success? {
        assert AnswersRequest(worker.task, worker.sent.value.value);
      }
    }
  }

  lemma VerifyKeepsInv(w: World, network: bool, enabled: bool, address: Address)
    requires Inv(w)
    ensures Inv(Verify(w, network, enabled, address))
  {
  }

  lemma PollVerificationKeepsInv(w: World)
    requires Inv(w)
    ensures Inv(PollVerification(w))
  {
  }

  lemma CloseVerificationKeepsInv(w: World)
    requires Inv(w)
    ensures Inv(CloseVerification(w))
  {
  }

  lemma WorkersKeepInv(w: World, e: Event)
    requires Inv(w) && (e.FetchEnds? || e.FetchAborts? || e.ProbeEnds? || e.ProbeAborts?)
    ensures Inv(Step(w, e))
  {
    if e.FetchEnds? && e.id < |w.fetches| && Fetch(w.fetches[e.id].task, e.first, e.second).Success? {
      FetchAnswers(w.fetches[e.id].task, e.first, e.second);
    }
  }

  lemma StepKeepsInv(w: World, e: Event)
    requires Inv(w)
    ensures Inv(Step(w, e))
  {
    match e
    case DoOpen(address, keyword, password) => OpenKeepsInv(w, address, keyword, password);
    case DoNext =>
      if HasNext(w.lib.catalogue) {
        MoveKeepsInv(w, Offset(w.lib.catalogue) + PAGE_SIZE);
      }
    case DoPrevious =>
      if HasPrevious(w.lib.catalogue) {
        MoveKeepsInv(w, SaturatingSub(Offset(w.lib.catalogue), PAGE_SIZE));
      }
    case DoPoll => PollKeepsInv(w);
    case DoRefresh => RefreshKeepsInv(w);
    case DoCancel => CancelKeepsInv(w);
    case DoVerify(network, enabled, address) => VerifyKeepsInv(w, network, enabled, address);
    case DoPollVerification => PollVerificationKeepsInv(w);
    case DoCloseVerification => CloseVerificationKeepsInv(w);
    case FetchEnds(_, _, _) => WorkersKeepInv(w, e);
    case FetchAborts(_) => WorkersKeepInv(w, e);
    case ProbeEnds(_, _) => WorkersKeepInv(w, e);
    case ProbeAborts(_) => WorkersKeepInv(w, e);
  }

  /** One step from a world that keeps the invariant. */
  ghost function Advance(w: World, e: Event): (r: World)
    requires Inv(w)
    ensures Inv(r) && r == Step(w, e)
  {
    StepKeepsInv(w, e);
    Step(w, e)
  }

  /** The world after a run of events, in any interleaving. */
  ghost function Run(w: World, es: seq<Event>): (r: World)
    requires Inv(w)
    ensures Inv(r)
    decreases |es|
  {
    if es == [] then w else Run(Advance(w, es[0]), es[1..])
  }

  // ---------- superseded work is never published ----------

  /** Whether the event replaces or withdraws whatever was requested before. */
  predicate Supersedes(s: State, e: Event) {
    match e
    case DoOpen(address, keyword, _) => OpenAccepts(address, keyword)
    case DoRefresh => RefreshAccepts(s)
    case DoNext => HasNext(s.catalogue)
    case DoPrevious => HasPrevious(s.catalogue)
    case DoCancel => true
    case _ => false
  }

  /** The request a superseding event makes: none for a cancellation. */
  function Made(s: State, e: Event): Option<Pending>
    requires Supersedes(s, e)
  {
    match e
    case DoOpen(address, keyword, password) =>
      Some(Pending(Query(address.endpoint, keyword, 0), OpenAccess(s, address.endpoint, password), Replace, s.requests + 1))
    case DoRefresh =>
      Some(Pending(s.catalogue.query, Connected(s.catalogue.connection), Refresh, s.requests + 1))
    case DoNext =>
      Some(Pending(s.catalogue.query.(offset := s.catalogue.query.offset + PAGE_SIZE),
                   Connected(s.catalogue.connection), Replace, s.requests + 1))
    case DoPrevious =>
      Some(Pending(s.catalogue.query.(offset := SaturatingSub(s.catalogue.query.offset, PAGE_SIZE)),
                   Connected(s.catalogue.connection), Replace, s.requests + 1))
    case _ => None
  }

  /** Whether the event is the poll that takes the outcome of the running request. */
  ghost predicate Settles(w: World, e: Event)
    requires JobInRange(w)
  {
    e.DoPoll? && w.lib.operation.Fetching? && w.fetches[w.lib.operation.job].Finished?
  }

  /** The request outstanding after a run: what the last superseding event made, until its
      own outcome has been polled. */
  ghost function Outstanding(w: World, latest: Option<Pending>, es: seq<Event>): Option<Pending>
    requires Inv(w)
    decreases |es|
  {
    if es == [] then latest else Outstanding(Advance(w, es[0]), NowLatest(w, latest, es[0]), es[1..])
  }

  ghost function NowLatest(w: World, latest: Option<Pending>, e: Event): Option<Pending>
    requires JobInRange(w)
  {
    if Supersedes(w.lib, e) then Made(w.lib, e) else if Settles(w, e) then None else latest
  }

  /** The library is working on exactly the outstanding request. */
  ghost predicate Tracks(w: World, latest: Option<Pending>)
    requires JobInRange(w)
  {
    latest ==
      match w.lib.operation
      case Idle => None
      case Fetching(job) => Some(w.fetches[job].task)
      case Stopping(_, next) => next
  }

  lemma StepTracks(w: World, latest: Option<Pending>, e: Event)
    requires JobInRange(w) && ProbesInRange(w) && Tracks(w, latest)
    ensures JobInRange(Step(w, e)) && Tracks(Step(w, e), NowLatest(w, latest, e))
  {
  }

  /** The counter numbers exactly the superseding events. */
  lemma RequestsCounted(w: World, e: Event)
    requires JobInRange(w) && ProbesInRange(w)
    ensures Step(w, e).lib.requests == w.lib.requests + (if Supersedes(w.lib, e) then 1 else 0)
  {
  }

  lemma {:induction false} RunTracks(w: World, latest: Option<Pending>, es: seq<Event>)
    requires Inv(w) && Tracks(w, latest)
    ensures Tracks(Run(w, es), Outstanding(w, latest, es))
    decreases |es|
  {
    if es != [] {
      StepTracks(w, latest, es[0]);
      RunTracks(Advance(w, es[0]), NowLatest(w, latest, es[0]), es[1..]);
    }
  }

  /** After any run the library is working on exactly the request outstanding from the last
      open, page move or refresh, with no cancellation since: none is lost or revived. */
  lemma WorksOnLatest(es: seq<Event>)
    ensures Tracks(Run(Initial, es), Outstanding(Initial, None, es))
  {
    RunTracks(Initial, None, es);
  }

  /** So what a poll publishes answers that request, the newest of all. */
  lemma PublishedAnswersLatest(es: seq<Event>)
    ensures
      var w := Run(Initial, es);
      Ready(w).Some? ==>
        && Outstanding(Initial, None, es).Some?
        && AnswersRequest(Outstanding(Initial, None, es).value, Ready(w).value)
        && Outstanding(Initial, None, es).value.number == w.lib.requests
  {
    RunTracks(Initial, None, es);
  }

  /** Only a poll publishes, and it publishes exactly the ready answer; every change of the
      catalogue is a new revision. */
  lemma OnlyPollPublishes(w: World, e: Event)
    requires JobInRange(w) && ProbesInRange(w) && Step(w, e).lib.catalogue != w.lib.catalogue
    ensures Step(w, e).lib.catalogue == Empty ||
      (e.DoPoll? && Ready(w).Some? &&
       Step(w, e).lib.catalogue == Loaded(Ready(w).value.query, Ready(w).value.page, Ready(w).value.connection))
    ensures Step(w, e).lib.revision == w.lib.revision + 1
  {
  }

  /** A catalogue worker starts only when every earlier one has finished. */
  lemma NewWorkerWaits(w: World, e: Event, id: nat)
    requires Inv(w) && |w.fetches| < |Advance(w, e).fetches| && id < |w.fetches|
    ensures w.fetches[id].Finished?
  {
  }

  /** An error is shown from the failure of a request until the next request is made; a
      cancellation leaves it. */
  lemma ErrorFollowsRequests(w: World, e: Event)
    requires JobInRange(w) && ProbesInRange(w)
    ensures Step(w, e).lib.error ==
      if Settles(w, e) && Ready(w).None? then true
      else if Supersedes(w.lib, e) && Made(w.lib, e).Some? then false
      else w.lib.error
  {
  }

  /** Thumbnails never outlive the session they were fetched with. */
  lemma SessionChangeClears(w: World, e: Event)
    requires Inv(w) && Step(w, e).lib.session != w.lib.session
    ensures Step(w, e).lib.clears == w.lib.clears + 1
  {
    if e.DoPoll? {
      PollKeepsSession(w);
    }
  }

  // ---------- what each action does ----------

  /** An accepted opening asks for the first page, with a login if a password was given, over the
      session's own connection if it is with that server, and anonymously otherwise; only in the
      second case do session, generation and thumbnails stay. Anything else changes nothing. */
  lemma OpenOutcome(w: World, address: Address, keyword: string, password: bool)
    ensures
      var w' := Open(w, address, keyword, password);
      if address.Server? && |keyword| <= 256 then
        var same := w.lib.session.Some? && w.lib.session.value.endpoint == address.endpoint && !password;
        var access :=
          if password then Login else if same then Connected(w.lib.session.value.connection) else Anonymous;
        && Goal(w') == Some(Pending(Query(address.endpoint, keyword, 0), access, Replace, w.lib.requests + 1))
        && w'.lib.catalogue == Empty && !w'.lib.error && w'.lib.revision == w.lib.revision + 1
        && w'.lib.session == (if same then w.lib.session else None)
        && w'.lib.generation == w.lib.generation + (if same then 0 else 1)
        && w'.lib.clears == w.lib.clears + (if same then 0 else 1)
      else w' == w
  {
  }

  /** The request the library works on, now or once the old worker has stopped. */
  function Goal(w: World): Option<Pending> {
    match w.lib.operation
    case Idle => None
    case Fetching(job) => if job < |w.fetches| then Some(w.fetches[job].task) else None
    case Stopping(_, next) => next
  }

  /** The next page is asked for exactly when the shown page has recordings and more follow. */
  lemma NextOutcome(w: World)
    ensures
      var c := w.lib.catalogue;
      if c.Loaded? && c.page.rows != [] && c.query.offset + 50 < c.page.total then
        Goal(Next(w)) == Some(Pending(Query(c.query.endpoint, c.query.keyword, c.query.offset + 50),
                                      Connected(c.connection), Replace, w.lib.requests + 1))
      else Next(w) == w
  {
  }

  /** The page before is asked for exactly when the shown one is not the first. */
  lemma PreviousOutcome(w: World)
    ensures
      var c := w.lib.catalogue;
      if c.Loaded? && 0 < c.query.offset then
        Goal(Previous(w)) == Some(Pending(
          Query(c.query.endpoint, c.query.keyword, if c.query.offset < 50 then 0 else c.query.offset - 50),
          Connected(c.connection), Replace, w.lib.requests + 1))
      else Previous(w) == w
  {
  }

  /** Once the next page is shown, going back asks for the page one came from. */
  lemma TurningBack(w: World, turned: World)
    requires HasNext(w.lib.catalogue) && Goal(Next(w)).Some?
    requires turned.lib.catalogue.Loaded? && turned.lib.catalogue.query == Goal(Next(w)).value.query
    ensures Goal(Previous(turned)).Some? && Goal(Previous(turned)).value.query == w.lib.catalogue.query
  {
  }

  /** An idle library with a catalogue asks for the same page again, keeping what it shows. */
  lemma RefreshOutcome(w: World)
    ensures
      var c := w.lib.catalogue;
      if w.lib.operation.Idle? && c.Loaded? then
        && Goal(Refreshed(w)) == Some(Pending(c.query, Connected(c.connection), Refresh, w.lib.requests + 1))
        && Refreshed(w).lib.catalogue == c && Refreshed(w).lib.session == w.lib.session
      else Refreshed(w) == w
  {
  }

  /** A probe is accepted exactly when it is enabled, there is a server and a network, no session
      and nothing else going on; a retiring probe makes room for it later. */
  lemma VerifyOutcome(w: World, network: bool, enabled: bool, address: Address)
    ensures VerifyAccepts(w.lib, network, enabled, address) <==>
      && enabled && network && address.Server? && w.lib.session.None? && w.lib.operation.Idle?
      && (w.lib.verification.Unverified? || w.lib.verification.Retiring?)
    ensures VerifyAccepts(w.lib, network, enabled, address) ==>
      Seeks(Verify(w, network, enabled, address).lib.verification, Some(address.endpoint))
  {
  }

  /** A probe that succeeded gives a session of a new generation; one that failed gives none. */
  lemma ProbeOutcome(w: World)
    requires Inv(w) && w.lib.verification.Probing? && w.probes[w.lib.verification.job].Finished?
    ensures
      var lib := PollVerification(w).lib;
      && lib.verification == Unverified
      && match w.probes[w.lib.verification.job].sent
         case Some(Success(connection)) =>
           && lib.session == Some(Session(w.lib.verification.endpoint, connection))
           && lib.generation == w.lib.generation + 1 && lib.clears == w.lib.clears + 1
         case Some(Failure) => lib.session == None && lib.generation == w.lib.generation && lib.clears == w.lib.clears
         case None => lib.session == None && lib.generation == w.lib.generation && lib.clears == w.lib.clears
  {
  }

  /** A probe asks its server anonymously, and succeeds exactly when that answers. */
  lemma ProbeReports(w: World, id: nat, answer: Answer)
    requires JobInRange(w) && ProbesInRange(w) && id < |w.probes| && w.probes[id].Running?
    ensures Step(w, ProbeEnds(id, answer)).probes[id] == Finished(w.probes[id].task,
      Some(match answer
           case Served(_, cookie) => Success(Connection(w.probes[id].task, cookie))
           case Refused => Failure))
  {
  }

  /** Closing closes probing, whatever it was doing, and keeps the worker that has yet to stop. */
  lemma ClosingCloses(w: World)
    ensures CloseVerification(w).lib.verification.Closed?
    ensures ProbeHandle(CloseVerification(w).lib.verification) == ProbeHandle(w.lib.verification)
    ensures CloseVerification(w) == w.(lib := w.lib.(verification := CloseVerification(w).lib.verification))
  {
  }

  /** Probing closed, it stays closed, and gives no session. */
  lemma ClosedForGood(w: World, e: Event)
    requires Inv(w) && w.lib.verification.Closed?
    ensures Step(w, e).lib.verification.Closed?
    ensures Step(w, e).lib.session != w.lib.session ==> e.DoOpen? || e.DoPoll?
  {
  }

  /** Views are told of a change exactly when the catalogue is emptied for a new request, or a
      request has ended. */
  lemma RevisionExactly(w: World, e: Event)
    requires JobInRange(w) && ProbesInRange(w)
    ensures Step(w, e).lib.revision == w.lib.revision +
      if (Supersedes(w.lib, e) && (e.DoOpen? || e.DoNext? || e.DoPrevious?)) || Settles(w, e) then 1 else 0
  {
  }

  /** An answer that is ready is published by the next poll, which leaves the library idle. */
  lemma PollPublishes(w: World, fetched: Fetched)
    requires Inv(w) && w.lib.operation.Fetching?
    requires w.fetches[w.lib.operation.job].Finished? && w.fetches[w.lib.operation.job].sent == Some(Success(fetched))
    ensures
      var lib := Poll(w).lib;
      && lib.catalogue == Loaded(fetched.query, fetched.page, fetched.connection)
      && lib.session == Some(Session(fetched.query.endpoint, fetched.connection))
      && lib.operation == Idle && lib.error == w.lib.error
  {
  }

  // ---------- a request that is served is published ----------

  /** The worker of the request is to start, is running, or has been served. */
  ghost predicate Underway(w: World, pending: Pending)
    requires JobInRange(w)
  {
    && w.lib.catalogue.Empty? && !w.lib.error
    && match w.lib.operation
       case Idle => false
       case Stopping(_, next) => next == Some(pending)
       case Fetching(job) =>
         && w.fetches[job].task == pending
         && (w.fetches[job].Finished? ==> Served(pending, w.fetches[job].sent))
  }

  /** The worker reported a page that the server gave for this very request, over the given
      connection or a new one. */
  ghost predicate Served(pending: Pending, sent: Option<Result<Fetched>>) {
    exists page: Page, cookie: nat :: sent == Some(Success(ServedAs(pending, page, cookie)))
  }

  function ServedAs(pending: Pending, page: Page, cookie: nat): Fetched {
    Fetched(pending.query, page,
      if pending.access.Connected? then pending.access.connection else Connection(pending.query.endpoint, cookie))
  }

  ghost predicate Published(w: World, pending: Pending) {
    exists page: Page, cookie: nat :: Publishes(w, ServedAs(pending, page, cookie))
  }

  ghost predicate Publishes(w: World, fetched: Fetched) {
    && w.lib.catalogue == Loaded(fetched.query, fetched.page, fetched.connection)
    && w.lib.session == Some(Session(fetched.query.endpoint, fetched.connection))
    && w.lib.operation == Idle && !w.lib.error
  }

  /** Nobody opens or cancels, and the worker of the request is served when it ends. */
  ghost predicate Undisturbed(w: World, pending: Pending, e: Event) {
    match e
    case DoOpen(address, keyword, _) => !OpenAccepts(address, keyword)
    case DoCancel => false
    case FetchEnds(id, first, _) => id < |w.fetches| && w.fetches[id].task == pending ==> first.Served?
    case FetchAborts(id) => id < |w.fetches| ==> w.fetches[id].task != pending
    case _ => true
  }

  lemma ServedFetch(pending: Pending, first: Answer, second: Answer)
    requires pending.mode.Replace? && first.Served?
    ensures Fetch(pending, first, second) == Success(ServedAs(pending, first.page, first.cookie))
    ensures Served(pending, Some(Fetch(pending, first, second)))
  {
  }

  lemma WorkerUnderway(w: World, pending: Pending, e: Event)
    requires Inv(w) && pending.mode.Replace? && Underway(w, pending) && Undisturbed(w, pending, e) && IsWorkerEvent(e)
    ensures Underway(Advance(w, e), pending)
  {
    if e.FetchEnds? && e.first.Served? {
      ServedFetch(pending, e.first, e.second);
    }
  }

  lemma PollUnderway(w: World, pending: Pending)
    requires Inv(w) && Underway(w, pending)
    ensures Underway(Polled(w), pending) || Published(Polled(w), pending)
    ensures WorkersFinished(w) ==>
      if w.lib.operation.Stopping? then Polled(w).lib.operation.Fetching? else Published(Polled(w), pending)
  {
    if w.lib.operation.Fetching? && w.fetches[w.lib.operation.job].Finished? {
      var page: Page, cookie: nat :| w.fetches[w.lib.operation.job].sent == Some(Success(ServedAs(pending, page, cookie)));
      PollPublishes(w, ServedAs(pending, page, cookie));
      assert Publishes(Poll(w), ServedAs(pending, page, cookie));
    }
  }

  lemma StepUnderway(w: World, pending: Pending, e: Event)
    requires Inv(w) && pending.mode.Replace? && Underway(w, pending) && Undisturbed(w, pending, e)
    ensures Underway(Advance(w, e), pending) || (e.DoPoll? && Published(Advance(w, e), pending))
  {
    if e.DoPoll? {
      PollUnderway(w, pending);
    } else if IsWorkerEvent(e) {
      WorkerUnderway(w, pending, e);
    }
  }

  /** The world after the first n events of a run. */
  ghost function At(w: World, es: seq<Event>, n: nat): (r: World)
    requires Inv(w) && n <= |es|
    ensures Inv(r)
  {
    if n == 0 then w else Advance(At(w, es, n - 1), es[n - 1])
  }

  ghost predicate AllUndisturbed(w: World, es: seq<Event>, n: nat, pending: Pending)
    requires Inv(w) && n <= |es|
  {
    n == 0 || (AllUndisturbed(w, es, n - 1, pending) && Undisturbed(At(w, es, n - 1), pending, es[n - 1]))
  }

  /** One of the first n events is the poll that published the answer. */
  ghost predicate PublishedWithin(w: World, es: seq<Event>, n: nat, pending: Pending)
    requires Inv(w) && n <= |es|
  {
    0 < n && (PublishedWithin(w, es, n - 1, pending) || (es[n - 1].DoPoll? && Published(At(w, es, n), pending)))
  }

  lemma {:induction false} RunUnderway(w: World, es: seq<Event>, n: nat, pending: Pending)
    requires Inv(w) && n <= |es| && pending.mode.Replace? && Underway(w, pending)
    requires AllUndisturbed(w, es, n, pending)
    ensures Underway(At(w, es, n), pending) || PublishedWithin(w, es, n, pending)
  {
    if 0 < n {
      RunUnderway(w, es, n - 1, pending);
      if Underway(At(w, es, n - 1), pending) {
        StepUnderway(At(w, es, n - 1), pending, es[n - 1]);
      }
    }
  }

  /** Whatever happens after an accepted opening: unless somebody opens again or cancels, and as
      long as its worker is served, the first page of that server stays underway until a poll
      publishes it, over the reused connection or a new one. */
  lemma OpenedIsPublished(w: World, address: Address, keyword: string, password: bool, es: seq<Event>, n: nat)
      returns (pending: Pending)
    requires Inv(w) && address.Server? && |keyword| <= 256 && n <= |es|
    requires
      var after := Advance(w, DoOpen(address, keyword, password));
      Goal(after).Some? ==> AllUndisturbed(after, es, n, Goal(after).value)
    ensures
      var after := Advance(w, DoOpen(address, keyword, password));
      && Goal(after) == Some(pending) && pending.query == Query(address.endpoint, keyword, 0)
      && (Underway(At(after, es, n), pending) || PublishedWithin(after, es, n, pending))
  {
    var after := Advance(w, DoOpen(address, keyword, password));
    OpenOutcome(w, address, keyword, password);
    pending := Goal(after).value;
    RunUnderway(after, es, n, pending);
  }

  /** And it does come: with the workers finished, a poll starts the request's own worker or
      publishes its answer. */
  lemma UnderwayComes(w: World, pending: Pending)
    requires Inv(w) && Underway(w, pending) && WorkersFinished(w)
    ensures
      if w.lib.operation.Stopping? then
        && Polled(w).lib.operation.Fetching? && Underway(Polled(w), pending)
        && Polled(w).fetches[Polled(w).lib.operation.job] == Running(pending)
      else Published(Polled(w), pending)
  {
    PollUnderway(w, pending);
  }

  // ---------- a withdrawn probe never yields a session ----------

  /** The server whose probe is wanted: the one last accepted for verification, until it is
      withdrawn or its outcome has been polled. */
  ghost function Wanted(w: World, wanted: Option<Endpoint>, es: seq<Event>): Option<Endpoint>
    requires Inv(w)
    decreases |es|
  {
    if es == [] then wanted else Wanted(Advance(w, es[0]), NowWanted(w, wanted, es[0]), es[1..])
  }

  ghost function NowWanted(w: World, wanted: Option<Endpoint>, e: Event): Option<Endpoint>
    requires ProbesInRange(w)
  {
    match e
    case DoVerify(network, enabled, address) =>
      if !enabled then None
      else if VerifyAccepts(w.lib, network, enabled, address) then Some(address.endpoint)
      else wanted
    case DoOpen(address, keyword, _) => if OpenAccepts(address, keyword) then None else wanted
    case DoCancel => None
    case DoCloseVerification => None
    case DoPollVerification =>
      if w.lib.verification.Probing? && w.probes[w.lib.verification.job].Finished? then None else wanted
    case _ => wanted
  }

  ghost predicate Seeks(v: Verification, wanted: Option<Endpoint>) {
    wanted ==
      match v
      case Probing(endpoint, _) => Some(endpoint)
      case Retiring(_, next) => next
      case Unverified => None
      case Closed(_) => None
  }

  lemma StepSeeks(w: World, wanted: Option<Endpoint>, e: Event)
    requires JobInRange(w) && ProbesInRange(w) && Seeks(w.lib.verification, wanted)
    ensures Seeks(Step(w, e).lib.verification, NowWanted(w, wanted, e))
  {
  }

  lemma {:induction false} RunSeeks(w: World, wanted: Option<Endpoint>, es: seq<Event>)
    requires Inv(w) && Seeks(w.lib.verification, wanted)
    ensures Seeks(Run(w, es).lib.verification, Wanted(w, wanted, es))
    decreases |es|
  {
    if es != [] {
      StepSeeks(w, wanted, es[0]);
      RunSeeks(Advance(w, es[0]), NowWanted(w, wanted, es[0]), es[1..]);
    }
  }

  /** After any run, the session a probe establishes is one with the server last asked for,
      with no cancellation, opening or closing since. */
  lemma ProbeEstablishesWanted(es: seq<Event>)
    ensures
      var w := Run(Initial, es);
      var session := PollVerification(w).lib.session;
      session != w.lib.session ==>
        && session.Some? && Wanted(Initial, None, es) == Some(session.value.endpoint)
        && session.value.connection.endpoint == session.value.endpoint
  {
    RunSeeks(Initial, None, es);
  }

  // ---------- a retained catalogue identifies a refresh ----------

  /** When an answer is published, a catalogue is still loaded exactly if the job was a
      refresh, so thumbnails are cleared exactly for refreshes and new sessions. */
  lemma LoadedMeansRefresh(w: World)
    requires Inv(w) && Ready(w).Some?
    ensures
      var job := w.fetches[w.lib.operation.job].task;
      && (w.lib.catalogue.Loaded? <==> job.mode.Refresh?)
      && (Poll(w).lib.clears == w.lib.clears + 1 <==> job.mode.Refresh? || w.lib.session.None?)
      && (job.mode.Refresh? ==> job.query == w.lib.catalogue.query)
  {
  }

  /** A fetch that fails keeps the catalogue it was to replace, and says so. */
  lemma FailureKeepsCatalogue(w: World)
    requires Inv(w) && w.lib.operation.Fetching? && w.fetches[w.lib.operation.job].Finished? && Ready(w).None?
    ensures Poll(w).lib.catalogue == w.lib.catalogue && Poll(w).lib.error && Poll(w).lib.operation.Idle?
  {
  }

  // ---------- the session generation names the server ----------

  lemma StepGeneration(w: World, e: Event)
    requires Inv(w)
    ensures w.lib.generation <= Step(w, e).lib.generation
    ensures w.lib.generation == Step(w, e).lib.generation && w.lib.session.Some?
      ==> Step(w, e).lib.session == w.lib.session
  {
    if e.DoPoll? {
      PollKeepsSession(w);
    }
  }

  lemma PollKeepsSession(w: World)
    requires Inv(w)
    ensures Poll(w).lib.generation == w.lib.generation
    ensures w.lib.session.Some? ==> Poll(w).lib.session == w.lib.session
  {
  }

  lemma {:induction false} RunGeneration(w: World, es: seq<Event>)
    requires Inv(w)
    ensures w.lib.generation <= Run(w, es).lib.generation
    ensures w.lib.generation == Run(w, es).lib.generation && w.lib.session.Some?
      ==> Run(w, es).lib.session == w.lib.session
    decreases |es|
  {
    if es != [] {
      StepGeneration(w, es[0]);
      RunGeneration(Advance(w, es[0]), es[1..]);
    }
  }

  /** Two moments of one run with the same generation and a session have the same server,
      and even the same connection. */
  lemma GenerationNamesServer(before: seq<Event>, between: seq<Event>)
    ensures
      var w := Run(Initial, before);
      var w' := Run(w, between);
      (w.lib.generation == w'.lib.generation && w.lib.session.Some? && w'.lib.session.Some?)
      ==> w.lib.session == w'.lib.session
  {
    RunGeneration(Run(Initial, before), between);
  }

  // ---------- what holds at every moment of every run ----------

  ghost predicate AtMostOneRuns<T, R>(workers: seq<Worker<T, R>>) {
    forall i, j :: 0 <= i < j < |workers| ==> workers[i].Finished? || workers[j].Finished?
  }

  /** At most one catalogue worker and one probe run; a loaded catalogue comes with a session
      of the same server and connection; a queued request has emptied the catalogue; and a
      probe that can still deliver finds the library idle without a session. */
  ghost predicate Sound(w: World) {
    var s := w.lib;
    && AtMostOneRuns(w.fetches)
    && AtMostOneRuns(w.probes)
    && (s.catalogue.Loaded? ==> s.session == Some(Session(s.catalogue.query.endpoint, s.catalogue.connection)))
    && (s.operation.Stopping? && s.operation.next.Some? ==> s.catalogue.Empty?)
    && (Active(s.verification) ==> s.operation.Idle? && s.session.None?)
    && Offset(s.catalogue) % PAGE_SIZE == 0
  }

  lemma InvIsSound(w: World)
    requires Inv(w)
    ensures Sound(w)
  {
  }

  lemma ReachableSound(es: seq<Event>)
    ensures Sound(Run(Initial, es))
  {
    InvIsSound(Run(Initial, es));
  }

  // ---------- it comes to rest ----------

  ghost predicate WorkersFinished(w: World) {
    forall id :: 0 <= id < |w.fetches| ==> w.fetches[id].Finished?
  }

  predicate IsWorkerEvent(e: Event) {
    e.FetchEnds? || e.FetchAborts? || e.ProbeEnds? || e.ProbeAborts?
  }

  lemma WorkerLeavesLibrary(w: World, e: Event)
    requires JobInRange(w) && ProbesInRange(w) && IsWorkerEvent(e)
    ensures Step(w, e).lib == w.lib
  {
  }

  lemma {:induction false} WorkersLeaveLibrary(w: World, es: seq<Event>)
    requires Inv(w) && forall i :: 0 <= i < |es| ==> IsWorkerEvent(es[i])
    ensures Run(w, es).lib == w.lib
    decreases |es|
  {
    if es != [] {
      WorkerLeavesLibrary(w, es[0]);
      WorkersLeaveLibrary(Advance(w, es[0]), es[1..]);
    }
  }

  lemma PollNeverStops(w: World)
    requires Inv(w) && WorkersFinished(w)
    ensures !Poll(w).lib.operation.Stopping?
    ensures !w.lib.operation.Stopping? ==> Poll(w).lib.operation.Idle?
  {
  }

  /** A poll of a world that keeps the invariant. */
  ghost function Polled(w: World): (r: World)
    requires Inv(w)
    ensures Inv(r) && r == Poll(w)
  {
    PollKeepsInv(w);
    Poll(w)
  }

  /** Once workers finish, two polls bring the library to rest. */
  lemma TwoPollsSuffice(w: World, es: seq<Event>)
    requires Inv(w) && WorkersFinished(w)
    requires forall i :: 0 <= i < |es| ==> IsWorkerEvent(es[i])
    requires WorkersFinished(Run(Polled(w), es))
    ensures Polled(Run(Polled(w), es)).lib.operation.Idle?
  {
    PollNeverStops(w);
    WorkersLeaveLibrary(Polled(w), es);
    PollNeverStops(Run(Polled(w), es));
  }

  // ---------- the objects ----------

  /** Starts workers and keeps them. */
  class Network {
    var fetches: Fetches
    var probes: Probes

    constructor ()
      ensures fetches == [] && probes == []
    {
      fetches, probes := [], [];
    }

    method StartFetch(pending: Pending) returns (job: JobId)
      modifies this
      ensures job == |old(fetches)| && fetches == old(fetches) + [Running(pending)] && probes == old(probes)
    {
      job := |fetches|;
      fetches := fetches + [Running(pending)];
    }

    method StartProbe(endpoint: Endpoint) returns (job: JobId)
      modifies this
      ensures job == |old(probes)| && probes == old(probes) + [Running(endpoint)] && fetches == old(fetches)
    {
      job := |probes|;
      probes := probes + [Running(endpoint)];
    }
  }

  class Library {
    var operation: Operation
    var verification: Verification
    var catalogue: Catalogue
    var session: Option<Session>
    var generation: nat
    var error: bool
    var revision: nat
    var clears: nat
    var requests: nat

    ghost function Now(network: Network): World
      reads this, network
    {
      World(State(operation, verification, catalogue, session, generation, error, revision, clears, requests),
            network.fetches, network.probes)
    }

    constructor (network: Network)
      requires network.fetches == [] && network.probes == []
      ensures Now(network) == Initial && Inv(Now(network))
    {
      operation, verification, catalogue, session := Idle, Unverified, Empty, None;
      generation, error, revision, clears, requests := 0, false, 0, 0, 0;
    }

    method CancelProbe()
      modifies this`verification
      ensures verification == CancelVerification(old(verification))
    {
      match verification
      case Probing(_, job) => verification := Retiring(job, None);
      case Retiring(stopping, _) => verification := Retiring(stopping, None);
      case Unverified =>
      case Closed(_) =>
    }

    method CloseProbe(network: Network)
      requires Inv(Now(network))
      modifies this`verification
      ensures Now(network) == CloseVerification(old(Now(network))) && Inv(Now(network))
    {
      CloseVerificationKeepsInv(Now(network));
      CancelProbe();
      match verification
      case Retiring(stopping, _) => verification := Closed(Some(stopping));
      case Unverified => verification := Closed(None);
      case Closed(_) =>
    }

    method VerifyForReservations(network: Network, online: bool, enabled: bool, address: Address) returns (accepted: bool)
      requires Inv(Now(network))
      modifies this`verification, network
      ensures accepted == VerifyAccepts(old(Now(network)).lib, online, enabled, address)
      ensures Now(network) == Verify(old(Now(network)), online, enabled, address) && Inv(Now(network))
    {
      VerifyKeepsInv(Now(network), online, enabled, address);
      if !enabled {
        CancelProbe();
        return false;
      }
      if address.Blank? || session.Some? || !operation.Idle? || verification.Closed? {
        return false;
      }
      var endpoint := ParseEndpoint(address);
      if endpoint.None? || !online {
        return false;
      }
      match verification
      case Unverified =>
        var job := network.StartProbe(endpoint.value);
        verification := Probing(endpoint.value, job);
        return true;
      case Retiring(stopping, _) =>
        verification := Retiring(stopping, Some(endpoint.value));
        return true;
      case Probing(_, _) => return false;
    }

    method PollReservationVerification(network: Network)
      requires Inv(Now(network))
      modifies this, network
      ensures Now(network) == PollVerification(old(Now(network))) && Inv(Now(network))
    {
      PollVerificationKeepsInv(Now(network));
      match verification
      case Unverified =>
      case Probing(endpoint, job) =>
        match PollJob(network.probes, job) {
          case Waiting =>
          case Complete(Failure) => verification := Unverified;
          case Complete(Success(connection)) =>
            verification := Unverified;
            generation := generation + 1;
            session := Some(Session(endpoint, connection));
            clears := clears + 1;
        }
      case Retiring(stopping, next) =>
        if network.probes[stopping].Finished? {
          if next.Some? {
            var job := network.StartProbe(next.value);
            verification := Probing(next.value, job);
          } else {
            verification := Unverified;
          }
        }
      case Closed(Some(stopping)) =>
        if network.probes[stopping].Finished? {
          verification := Closed(None);
        }
      case Closed(None) =>
    }

    /** Empties the catalogue; the request starts now or when the old worker has stopped. */
    method BeginRequest(network: Network, query: Query, access: Access)
      modifies this, network
      ensures Now(network) == Begin(old(Now(network)), query, access)
    {
      error := false;
      catalogue := Empty;
      revision := revision + 1;
      requests := requests + 1;
      var pending := Pending(query, access, Replace, requests);
      match operation
      case Idle =>
        var job := network.StartFetch(pending);
        operation := Fetching(job);
      case Fetching(job) => operation := Stopping(job, Some(pending));
      case Stopping(stopping, _) => operation := Stopping(stopping, Some(pending));
    }

    /** Withdraws any probe, and drops the session unless it will be reused. */
    method ReconnectFor(network: Network, access: Access)
      modifies this
      ensures Now(network) == old(Now(network)).(lib := Reconnect(old(Now(network)).lib, access))
    {
      CancelProbe();
      if !access.Connected? {
        session := None;
        generation := generation + 1;
        clears := clears + 1;
      }
    }

    method OpenServer(network: Network, address: Address, keyword: string, password: bool) returns (accepted: bool)
      requires Inv(Now(network))
      modifies this, network
      ensures accepted == OpenAccepts(address, keyword)
      ensures Now(network) == Open(old(Now(network)), address, keyword, password) && Inv(Now(network))
    {
      ghost var before := Now(network);
      var endpoint := ParseEndpoint(address);
      if endpoint.None? || |keyword| > MAX_KEYWORD_CHARS {
        return false;
      }
      var access := Anonymous;
      if password {
        access := Login;
      } else if session.Some? && session.value.endpoint == endpoint.value {
        access := Connected(session.value.connection);
      }
      assert access == OpenAccess(before.lib, endpoint.value, password);
      ReconnectFor(network, access);
      BeginRequest(network, Query(endpoint.value, keyword, 0), access);
      assert Now(network) == Open(before, address, keyword, password);
      OpenKeepsInv(before, address, keyword, password);
      return true;
    }

    method RefreshCatalogue(network: Network) returns (accepted: bool)
      requires Inv(Now(network))
      modifies this, network
      ensures accepted == RefreshAccepts(old(Now(network)).lib)
      ensures Now(network) == Refreshed(old(Now(network))) && Inv(Now(network))
    {
      RefreshKeepsInv(Now(network));
      if !operation.Idle? || catalogue.Empty? {
        return false;
      }
      error := false;
      requests := requests + 1;
      var job := network.StartFetch(Pending(catalogue.query, Connected(catalogue.connection), Refresh, requests));
      operation := Fetching(job);
      return true;
    }

    method NextPage(network: Network)
      requires Inv(Now(network))
      modifies this, network
      ensures Now(network) == Next(old(Now(network))) && Inv(Now(network))
    {
      if HasNext(catalogue) {
        MoveKeepsInv(Now(network), Offset(catalogue) + PAGE_SIZE);
        BeginRequest(network, catalogue.query.(offset := Offset(catalogue) + PAGE_SIZE), Connected(catalogue.connection));
      }
    }

    method PreviousPage(network: Network)
      requires Inv(Now(network))
      modifies this, network
      ensures Now(network) == Previous(old(Now(network))) && Inv(Now(network))
    {
      if HasPrevious(catalogue) {
        MoveKeepsInv(Now(network), SaturatingSub(Offset(catalogue), PAGE_SIZE));
        BeginRequest(network, catalogue.query.(offset := SaturatingSub(Offset(catalogue), PAGE_SIZE)),
                     Connected(catalogue.connection));
      }
    }

    method CancelRequest(network: Network)
      requires Inv(Now(network))
      modifies this
      ensures Now(network) == Cancel(old(Now(network))) && Inv(Now(network))
    {
      CancelKeepsInv(Now(network));
      CancelProbe();
      requests := requests + 1;
      match operation
      case Idle =>
      case Fetching(job) => operation := Stopping(job, None);
      case Stopping(stopping, _) => operation := Stopping(stopping, None);
    }

    /** Reports the endpoint whose catalogue was published, if one was. */
    method PollWorker(network: Network) returns (verified: Option<Endpoint>)
      requires Inv(Now(network))
      modifies this, network
      ensures verified ==
        var ready := Ready(old(Now(network)));
        if ready.Some? then Some(ready.value.query.endpoint) else None
      ensures Now(network) == Poll(old(Now(network))) && Inv(Now(network))
    {
      PollKeepsInv(Now(network));
      match operation
      case Idle => return None;
      case Stopping(stopping, next) =>
        if network.fetches[stopping].Finished? {
          if next.Some? {
            var job := network.StartFetch(next.value);
            operation := Fetching(job);
          } else {
            operation := Idle;
          }
        }
        return None;
      case Fetching(job) =>
        var progress := PollJob(network.fetches, job);
        if progress.Waiting? {
          return None;
        }
        operation := Idle;
        revision := revision + 1;
        if progress.result.Failure? {
          error := true;
          return None;
        }
        var fetched := progress.result.value;
        if session.None? || catalogue.Loaded? {
          clears := clears + 1;
        }
        session := Some(Session(fetched.query.endpoint, fetched.connection));
        catalogue := Loaded(fetched.query, fetched.page, fetched.connection);
        return Some(fetched.query.endpoint);
    }
  }
}
