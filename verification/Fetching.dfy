/**
 One fetch of the EPGStation recording catalogue: what a worker asks the server for, how a
 refresh corrects a page that no longer exists, and what the worker reports.
 */
module Fetching {
  import opened Common

  const PAGE_SIZE: U64 := 50
  const MAX_KEYWORD_CHARS := 256

  type Endpoint = string

  /** A server address as typed: blank, unparsable, or naming an endpoint. */
  datatype Address = Blank | Malformed | Server(endpoint: Endpoint)

  function ParseEndpoint(address: Address): Option<Endpoint> {
    if address.Server? then Some(address.endpoint) else None
  }

  /** A cookie session: the server it was opened with and what that server issued. */
  datatype Connection = Connection(endpoint: Endpoint, cookie: nat)

  datatype Access = Anonymous | Login | Connected(connection: Connection)

  datatype Query = Query(endpoint: Endpoint, keyword: string, offset: U64)

  datatype RawPage = RawPage(rows: seq<nat>, total: U64)

  /** What response parsing lets through: at most a page of rows, and no more than the total. */
  type Page = p: RawPage | |p.rows| <= 50 && |p.rows| <= p.total witness RawPage([], 0)

  datatype FetchMode = Replace | Refresh

  /** A request for the worker. The number tells which user action it serves; it is not
      part of the program and only says whose answer is whose. */
  datatype Pending = Pending(query: Query, access: Access, mode: FetchMode, number: nat)

  datatype Fetched = Fetched(query: Query, page: Page, connection: Connection)

  // ---------- what one worker does ----------

  /** The server's reply to one request. */
  datatype Answer = Refused | Served(page: Page, cookie: nat)

  /** A login or anonymous access opens a new connection; a connected one is reused. */
  function Connect(endpoint: Endpoint, access: Access, cookie: nat): Connection {
    if access.Connected? then access.connection else Connection(endpoint, cookie)
  }

  function LastOffset(total: U64): (r: U64)
    ensures r % PAGE_SIZE == 0 && r <= total
    ensures 0 < total ==> r < total <= r + PAGE_SIZE
    ensures total == 0 ==> r == 0
  {
    SaturatingSub(total, 1) / PAGE_SIZE * PAGE_SIZE
  }

  /** A refresh whose page vanished asks once more, at the last page of the first answer. */
  predicate AsksAgain(pending: Pending, first: Answer) {
    first.Served? && pending.mode.Refresh? && 0 < first.page.total
    && LastOffset(first.page.total) < pending.query.offset
  }

  /** The queries a worker sends, in order. */
  function Asked(pending: Pending, first: Answer): seq<Query> {
    [pending.query] +
    if AsksAgain(pending, first) then [pending.query.(offset := LastOffset(first.page.total))] else []
  }

  function Fetch(pending: Pending, first: Answer, second: Answer): Result<Fetched> {
    if first.Refused? then Failure else
    var query, connection := pending.query, Connect(pending.query.endpoint, pending.access, first.cookie);
    if pending.mode.Replace? || query.offset <= LastOffset(first.page.total) then
      Success(Fetched(query, first.page, connection))
    else if first.page.total == 0 then
      Success(Fetched(query.(offset := 0), first.page, connection))
    else if second.Refused? then
      Failure
    else if second.page.total == 0 then
      Success(Fetched(query.(offset := 0), second.page, connection))
    else if LastOffset(second.page.total) < LastOffset(first.page.total) then
      Failure
    else
      Success(Fetched(query.(offset := LastOffset(first.page.total)), second.page, connection))
  }

  /** What a worker may report for its request. */
  ghost predicate AnswersRequest(pending: Pending, fetched: Fetched) {
    && fetched.query == pending.query.(offset := fetched.query.offset)
    && (pending.mode.Replace? ==> fetched.query.offset == pending.query.offset)
    && (pending.access.Connected? ==> fetched.connection == pending.access.connection)
    && (!pending.access.Connected? ==> fetched.connection.endpoint == pending.query.endpoint)
    && (pending.query.offset % PAGE_SIZE == 0 ==> fetched.query.offset % PAGE_SIZE == 0)
  }

  lemma FetchAnswers(pending: Pending, first: Answer, second: Answer)
    requires Fetch(pending, first, second).Success?
    ensures AnswersRequest(pending, Fetch(pending, first, second).value)
  {
  }

  /** A page was served but begins before the one a refresh asked for, and there are recordings. */
  predicate PageVanished(pending: Pending, first: Answer) {
    && pending.mode.Refresh? && first.Served? && 0 < first.page.total
    && LastOffset(first.page.total) < pending.query.offset
  }

  /** The query for the last page there is, after the one asked for, if that has vanished. */
  lemma AskedExactly(pending: Pending, first: Answer)
    ensures Asked(pending, first) ==
      if PageVanished(pending, first) then
        [pending.query, Query(pending.query.endpoint, pending.query.keyword, LastOffset(first.page.total))]
      else [pending.query]
  {
  }

  /** A fetch fails exactly when a query it sends is refused or, for a refresh, the list shrank
      again below the page it was corrected to. A replacing fetch that is served succeeds. */
  lemma FailureExactly(pending: Pending, first: Answer, second: Answer)
    ensures Fetch(pending, first, second).Failure? <==>
      || first.Refused?
      || (PageVanished(pending, first) &&
          (second.Refused? || 0 < second.page.total <= LastOffset(first.page.total)))
    ensures pending.mode.Replace? ==> (Fetch(pending, first, second).Failure? <==> first.Refused?)
  {
    if PageVanished(pending, first) && second.Served? && 0 < second.page.total {
      OffsetBeyond(LastOffset(first.page.total), second.page.total);
    }
  }

  /** What a successful fetch reports, all of it: the page of the last answer, where it begins,
      and the connection, which is the given one or a new one with what the server issued. */
  lemma ReportExactly(pending: Pending, first: Answer, second: Answer)
    requires Fetch(pending, first, second).Success?
    ensures
      var fetched := Fetch(pending, first, second).value;
      && fetched.page == (if PageVanished(pending, first) then second.page else first.page)
      && fetched.query.endpoint == pending.query.endpoint && fetched.query.keyword == pending.query.keyword
      && fetched.query.offset ==
           (if pending.mode.Refresh? && fetched.page.total == 0 then 0
            else if PageVanished(pending, first) then LastOffset(first.page.total)
            else pending.query.offset)
      && fetched.connection ==
           (match pending.access
            case Connected(connection) => connection
            case Login => Connection(pending.query.endpoint, first.cookie)
            case Anonymous => Connection(pending.query.endpoint, first.cookie))
  {
  }

  /** A refresh sends at most two queries, and publishes a page that exists: its offset is on
      a page boundary and no further than the last page of the total it comes with. */
  lemma RefreshCorrection(pending: Pending, first: Answer, second: Answer)
    requires pending.mode.Refresh? && pending.query.offset % PAGE_SIZE == 0
    ensures |Asked(pending, first)| <= 2
    ensures Fetch(pending, first, second).Success? ==>
      var fetched := Fetch(pending, first, second).value;
      && fetched.query.offset % PAGE_SIZE == 0
      && fetched.query.offset <= LastOffset(fetched.page.total)
      && (fetched.page.total == 0 ==> fetched.query.offset == 0 && fetched.page.rows == [])
  {
  }

  /** The rows published are those the last query asked for, unless there are none. */
  lemma PublishedPageWasAsked(pending: Pending, first: Answer, second: Answer)
    requires Fetch(pending, first, second).Success?
    ensures
      var fetched, asked := Fetch(pending, first, second).value, Asked(pending, first);
      && fetched.page == (if |asked| == 2 then second.page else first.page)
      && (fetched.query == asked[|asked| - 1] || fetched.page.rows == [])
  {
  }

  /** A refresh fails exactly when a query it sends is refused or the list shrank again
      below the page it had been corrected to. */
  lemma RefreshFailure(pending: Pending, first: Answer, second: Answer)
    requires pending.mode.Refresh?
    ensures Fetch(pending, first, second).Failure? <==>
      || first.Refused?
      || (AsksAgain(pending, first) && second.Refused?)
      || (AsksAgain(pending, first) && second.Served?
          && 0 < second.page.total <= LastOffset(first.page.total))
  {
    if AsksAgain(pending, first) && second.Served? && 0 < second.page.total {
      OffsetBeyond(LastOffset(first.page.total), second.page.total);
    }
  }

  lemma OffsetBeyond(offset: U64, total: U64)
    requires offset % PAGE_SIZE == 0 && 0 < total
    ensures LastOffset(total) < offset <==> total <= offset
  {
  }

  /** The server as one worker meets it: it answers each query in turn. */
  class Exchange {
    const answers: nat -> Answer
    var asked: seq<Query>

    constructor (answers: nat -> Answer)
      ensures this.answers == answers && asked == []
    {
      this.answers := answers;
      asked := [];
    }

    method Ask(query: Query, access: Access) returns (r: Result<(Page, Connection)>)
      modifies this
      ensures asked == old(asked) + [query]
      ensures
        var answer := answers(|old(asked)|);
        r == if answer.Refused? then Failure
             else Success((answer.page, Connect(query.endpoint, access, answer.cookie)))
    {
      var answer := answers(|asked|);
      asked := asked + [query];
      if answer.Refused? {
        return Failure;
      }
      return Success((answer.page, Connect(query.endpoint, access, answer.cookie)));
    }
  }

  /** The worker's own steps: query, then correct the page of a refresh once. */
  method FetchPages(pending: Pending, server: Exchange) returns (r: Result<Fetched>)
    requires server.asked == []
    modifies server
    ensures r == Fetch(pending, server.answers(0), server.answers(1))
    ensures server.asked == Asked(pending, server.answers(0))
  {
    var query := pending.query;
    var reply := server.Ask(query, pending.access);
    if reply.Failure? {
      return Failure;
    }
    var (page, connection) := reply.value;
    if pending.mode.Refresh? {
      var last := LastOffset(page.total);
      if query.offset > last {
        query := query.(offset := last);
        if page.total > 0 {
          reply := server.Ask(query, Connected(connection));
          if reply.Failure? {
            return Failure;
          }
          page, connection := reply.value.0, reply.value.1;
          if page.total == 0 {
            query := query.(offset := 0);
          } else if query.offset > LastOffset(page.total) {
            return Failure;
          }
        }
      }
    }
    return Success(Fetched(query, page, connection));
  }
}
