/**
 * The request-budgeted client of the issue tracker (src/api/mod.rs): a process-wide request
 * counter with a fixed cap, the single-request gate `execute_query`, and the three cursor
 * loops that walk the teams, the issues of a team and the comments of an issue.
 *
 * The HTTP transport is folded into `Server`: for every request it gives the reply the
 * service sends back, already decoded into the shape the caller asked for, or `Failed`
 * when sending, receiving or decoding fails.
 */
module Api {
  import opened Wrappers
  import opened Types

  /** MAX_REQUESTS: the cap on remote calls in one run. */
  const MaxRequests: nat := 1500

  datatype Error =
    | RateLimitReached(limit: nat)   // `execute_query` refused the call
    | TransportFailure               // the request could not be sent, or the body not decoded

  /** The three collections, with the variable that scopes each query. */
  datatype Collection = Teams | IssuesOf(teamId: string) | CommentsOf(issueId: string)

  /** One GraphQL call: which collection, and the `after` cursor sent with it. */
  datatype Request = Request(collection: Collection, after: Cursor)

  datatype Reply<T> = Received(response: GraphQLResponse<T>) | Failed

  /** The remote service seen through one decode shape `T`. */
  type Endpoint<T> = Request -> Reply<T>

  datatype Server = Server(
    teams: Endpoint<TeamsData>,
    issues: Endpoint<IssuesData>,
    comments: Endpoint<IssueData>)

  // ---------------------------------------------------------------------------------------
  // The single-request gate

  /** How `execute_query` turns a reply into its result once the request was sent. */
  function Classify<T>(reply: Reply<T>): (r: Result<Option<T>, Error>)
  {
    match reply
    case Failed => Err(TransportFailure)
    case Received(response) => if response.errors.Some? then Ok(None) else Ok(response.data)
  }

  /** The result of `execute_query` made when `count` requests had already been counted. */
  function Execute<T>(endpoint: Endpoint<T>, req: Request, count: nat): (r: Result<Option<T>, Error>)
    ensures r.Ok? ==> count < MaxRequests
  {
    if count + 1 > MaxRequests then Err(RateLimitReached(MaxRequests)) else Classify(endpoint(req))
  }

  /**
   * `execute_query` refuses exactly when the counter is already at the cap; otherwise a
   * present `errors` field, even an empty list, means "no data" whatever `data` holds,
   * an absent one hands `data` through, and a failed exchange is a hard error.
   */
  lemma ExecuteOutcome<T>(endpoint: Endpoint<T>, req: Request, count: nat)
    ensures Execute(endpoint, req, count) == Err(RateLimitReached(MaxRequests)) <==> count >= MaxRequests
    ensures count < MaxRequests && endpoint(req).Failed? ==> Execute(endpoint, req, count) == Err(TransportFailure)
    ensures count < MaxRequests && endpoint(req).Received? && endpoint(req).response.errors.Some?
            ==> Execute(endpoint, req, count) == Ok(None)
    ensures count < MaxRequests && endpoint(req).Received? && endpoint(req).response.errors.None?
            ==> Execute(endpoint, req, count) == Ok(endpoint(req).response.data)
  {
  }

  // ---------------------------------------------------------------------------------------
  // The cursor walk shared by the three fetches

  /**
   * What distinguishes the three loops: the endpoint, the collection, how a page is found in
   * the payload (`None` when a comments payload names no issue), and whether the loop checks
   * the budget itself before each request (`fetch_issues`, `fetch_comments`) or relies on
   * `execute_query` alone (`fetch_teams`).
   */
  datatype Pager<!T, N> = Pager(
    endpoint: Endpoint<T>,
    collection: Collection,
    page: T -> Option<Connection<N>>,
    guarded: bool)

  function TeamsPage(d: TeamsData): Option<Connection<Team>> { Some(d.teams) }

  function IssuesPage(d: IssuesData): Option<Connection<Issue>> { Some(d.issues) }

  function CommentsPage(d: IssueData): Option<Connection<Comment>> {
    match d.issue
    case Some(issue) => Some(issue.comments)
    case None => None
  }

  function TeamsPager(server: Server): Pager<TeamsData, Team> {
    Pager(server.teams, Teams, TeamsPage, false)
  }

  function IssuesPager(server: Server, teamId: string): Pager<IssuesData, Issue> {
    Pager(server.issues, IssuesOf(teamId), IssuesPage, true)
  }

  function CommentsPager(server: Server, issueId: string): Pager<IssueData, Comment> {
    Pager(server.comments, CommentsOf(issueId), CommentsPage, true)
  }

  /** Where a walk ends: its result, the counter afterwards, and the requests it dispatched. */
  datatype Fetch<N> = Fetch(result: Result<seq<N>, Error>, count: nat, sent: seq<Request>)

  /**
   * The loop of a fetch, from the state (counter, cursor, accumulator, requests sent so far)
   * at the top of an iteration. Every iteration bumps the counter, which bounds the walk even
   * against a server that answers `hasNextPage = true` with no `endCursor`.
   */
  function Walk<T, N>(p: Pager<T, N>, count: nat, after: Cursor, acc: seq<N>, sent: seq<Request>): Fetch<N>
    decreases MaxRequests - count
  {
    if p.guarded && count >= MaxRequests then Fetch(Ok(acc), count, sent)
    else
      var req := Request(p.collection, after);
      var sent' := if count < MaxRequests then sent + [req] else sent;
      match Execute(p.endpoint, req, count)
      case Err(e) => Fetch(Err(e), count + 1, sent')
      case Ok(None) => Fetch(Ok(acc), count + 1, sent')
      case Ok(Some(d)) =>
        match p.page(d)
        case None => Fetch(Ok(acc), count + 1, sent')
        case Some(conn) =>
          if !conn.pageInfo.hasNextPage then Fetch(Ok(acc + conn.nodes), count + 1, sent')
          else Walk(p, count + 1, conn.pageInfo.endCursor, acc + conn.nodes, sent')
  }

  /** A fetch as it starts: cursor `None`, nothing accumulated, nothing sent. */
  function Start<T, N>(p: Pager<T, N>, count: nat): Fetch<N> {
    Walk(p, count, None, [], [])
  }

  /** The page that the reply to `req` carries, if it is accepted as one. */
  function PageOf<T, N>(p: Pager<T, N>, req: Request): Option<Connection<N>> {
    match Classify(p.endpoint(req))
    case Ok(Some(d)) => p.page(d)
    case _ => None
  }

  /** The nodes that the reply to `req` contributes. */
  function NodesOf<T, N>(p: Pager<T, N>, req: Request): seq<N> {
    match PageOf(p, req)
    case Some(conn) => conn.nodes
    case None => []
  }

  /** The reply to `req` asks for another page. */
  predicate Continues<T, N>(p: Pager<T, N>, req: Request) {
    PageOf(p, req).Some? && PageOf(p, req).value.pageInfo.hasNextPage
  }

  /** The cursor the reply to `req` hands on. */
  function NextCursor<T, N>(p: Pager<T, N>, req: Request): Cursor {
    match PageOf(p, req)
    case Some(conn) => conn.pageInfo.endCursor
    case None => None
  }

  /** The concatenation, in order, of the nodes of the replies to `reqs`. */
  function Collected<T, N>(p: Pager<T, N>, reqs: seq<Request>): seq<N> {
    if reqs == [] then [] else Collected(p, reqs[..|reqs| - 1]) + NodesOf(p, reqs[|reqs| - 1])
  }

  /**
   * `reqs` is a cursor chain of `p`'s collection: the first request has cursor `None`, and each
   * later one was sent because the previous reply asked for more and carries its end cursor.
   */
  ghost predicate Chained<T, N>(p: Pager<T, N>, reqs: seq<Request>) {
    forall k :: 0 <= k < |reqs| ==> Linked(p, reqs, k)
  }

  /** Request `k` of `reqs` is of `p`'s collection and carries the cursor it should. */
  ghost predicate Linked<T, N>(p: Pager<T, N>, reqs: seq<Request>, k: nat)
    requires k < |reqs|
  {
    && reqs[k].collection == p.collection
    && (k == 0 ==> reqs[k].after == None)
    && (k > 0 ==> Continues(p, reqs[k - 1]) && reqs[k].after == NextCursor(p, reqs[k - 1]))
  }

  /** The cursor `after` is the one the chain `sent` leads to. */
  ghost predicate Resumes<T, N>(p: Pager<T, N>, sent: seq<Request>, after: Cursor) {
    if sent == [] then after == None
    else Continues(p, sent[|sent| - 1]) && after == NextCursor(p, sent[|sent| - 1])
  }

  /**
   * One iteration of a walk below the cap, in terms of the reply to the request it sends:
   * a hard error ends it, a reply that asks for no further page ends it with that reply's
   * nodes added, and a reply that asks for more continues it from that reply's end cursor.
   */
  lemma WalkStep<T, N>(p: Pager<T, N>, count: nat, after: Cursor, acc: seq<N>, sent: seq<Request>)
    requires count < MaxRequests
    ensures var req := Request(p.collection, after);
      var w := Walk(p, count, after, acc, sent);
      && (p.endpoint(req).Failed? ==> w == Fetch(Err(TransportFailure), count + 1, sent + [req]))
      && (p.endpoint(req).Received? && !Continues(p, req) ==>
            w == Fetch(Ok(acc + NodesOf(p, req)), count + 1, sent + [req]))
      && (Continues(p, req) ==> w == Walk(p, count + 1, NextCursor(p, req), acc + NodesOf(p, req), sent + [req]))
  {
    var req := Request(p.collection, after);
    match Classify(p.endpoint(req))
    case Err(_) =>
    case Ok(None) =>
      assert NodesOf(p, req) == [] && acc + [] == acc;
    case Ok(Some(d)) =>
      assert PageOf(p, req) == p.page(d);
      assert acc + [] == acc;
  }

  lemma CollectedSnoc<T, N>(p: Pager<T, N>, reqs: seq<Request>, req: Request)
    ensures Collected(p, reqs + [req]) == Collected(p, reqs) + NodesOf(p, req)
  {
    assert (reqs + [req])[..|reqs|] == reqs;
  }

  /** A walk only appends to the requests already sent. */
  lemma {:induction false} WalkExtends<T, N>(p: Pager<T, N>, count: nat, after: Cursor, acc: seq<N>, sent: seq<Request>)
    ensures var w := Walk(p, count, after, acc, sent);
      |sent| <= |w.sent| && w.sent[..|sent|] == sent
    decreases MaxRequests - count
  {
    if count < MaxRequests {
      var req := Request(p.collection, after);
      WalkStep(p, count, after, acc, sent);
      if Continues(p, req) {
        WalkExtends(p, count + 1, NextCursor(p, req), acc + NodesOf(p, req), sent + [req]);
        assert (sent + [req])[..|sent|] == sent;
      }
    }
  }

  /** The accumulator of a walk is always the in-order concatenation of the accepted pages. */
  lemma {:induction false} WalkCollects<T, N>(p: Pager<T, N>, count: nat, after: Cursor, acc: seq<N>, sent: seq<Request>)
    requires acc == Collected(p, sent)
    ensures var w := Walk(p, count, after, acc, sent);
      w.result.Ok? ==> w.result.value == Collected(p, w.sent)
    decreases MaxRequests - count
  {
    if count < MaxRequests {
      var req := Request(p.collection, after);
      WalkStep(p, count, after, acc, sent);
      CollectedSnoc(p, sent, req);
      if Continues(p, req) {
        WalkCollects(p, count + 1, NextCursor(p, req), acc + NodesOf(p, req), sent + [req]);
      }
    }
  }

  /** A walk resumed at the end of a cursor chain extends that chain. */
  lemma {:induction false} WalkChains<T, N>(p: Pager<T, N>, count: nat, after: Cursor, acc: seq<N>, sent: seq<Request>)
    requires Chained(p, sent) && Resumes(p, sent, after)
    ensures Chained(p, Walk(p, count, after, acc, sent).sent)
    decreases MaxRequests - count
  {
    if count < MaxRequests {
      var req := Request(p.collection, after);
      var sent' := sent + [req];
      WalkStep(p, count, after, acc, sent);
      forall k | 0 <= k < |sent'|
        ensures Linked(p, sent', k)
      {
        if k < |sent| {
          assert Linked(p, sent, k);
          assert sent'[k] == sent[k];
          if k > 0 {
            assert sent'[k - 1] == sent[k - 1];
          }
        }
      }
      assert Chained(p, sent');
      if Continues(p, req) {
        assert Resumes(p, sent', NextCursor(p, req));
        WalkChains(p, count + 1, NextCursor(p, req), acc + NodesOf(p, req), sent');
      }
    }
  }

  /**
   * The counter after a walk: one per request dispatched, plus one for a call that
   * `execute_query` refused. Every dispatched request fitted in the budget, and a walk that
   * checks the budget itself never sees the refusal and, at an exhausted budget, sends
   * nothing and returns its accumulator.
   */
  lemma {:induction false} WalkBudget<T, N>(p: Pager<T, N>, count: nat, after: Cursor, acc: seq<N>, sent: seq<Request>)
    ensures var w := Walk(p, count, after, acc, sent);
      && |sent| <= |w.sent|
      && w.count == count + (|w.sent| - |sent|) + (if w.result == Err(RateLimitReached(MaxRequests)) then 1 else 0)
      && (|w.sent| > |sent| ==> count + (|w.sent| - |sent|) <= MaxRequests)
      && (w.result == Err(RateLimitReached(MaxRequests)) ==> !p.guarded && w.count > MaxRequests)
      && (p.guarded && count >= MaxRequests ==> w == Fetch(Ok(acc), count, sent))
    decreases MaxRequests - count
  {
    if count < MaxRequests {
      var req := Request(p.collection, after);
      WalkStep(p, count, after, acc, sent);
      if Continues(p, req) {
        WalkBudget(p, count + 1, NextCursor(p, req), acc + NodesOf(p, req), sent + [req]);
      }
    }
  }

  /**
   * Why a walk stopped: it fails only with the refusal or a transport failure, it fails with
   * a transport failure exactly when the reply to the last request it sent failed, and a
   * successful walk ended on the budget check or on a received reply that asked for no
   * further page (a last page, a soft error, no data, no issue).
   */
  lemma {:induction false} WalkStops<T, N>(p: Pager<T, N>, count: nat, after: Cursor, acc: seq<N>, sent: seq<Request>)
    ensures var w := Walk(p, count, after, acc, sent);
      && (w.result.Err? ==> w.result.error == RateLimitReached(MaxRequests) || w.result.error == TransportFailure)
      && (w.result == Err(TransportFailure) ==>
            |w.sent| > |sent| && p.endpoint(w.sent[|w.sent| - 1]).Failed?)
      && (w.result != Err(TransportFailure) && |w.sent| > |sent| ==> p.endpoint(w.sent[|w.sent| - 1]).Received?)
      && (w.result.Ok? ==>
            (p.guarded && w.count >= MaxRequests) ||
            (|w.sent| > |sent| && !Continues(p, w.sent[|w.sent| - 1])))
    decreases MaxRequests - count
  {
    if count < MaxRequests {
      var req := Request(p.collection, after);
      WalkStep(p, count, after, acc, sent);
      if Continues(p, req) {
        WalkStops(p, count + 1, NextCursor(p, req), acc + NodesOf(p, req), sent + [req]);
        WalkExtends(p, count + 1, NextCursor(p, req), acc + NodesOf(p, req), sent + [req]);
      }
    }
  }

  /** A guarded walk that starts below the cap sends at least one request. */
  lemma WalkGuardedRequests<T, N>(p: Pager<T, N>, count: nat, after: Cursor, acc: seq<N>, sent: seq<Request>)
    requires p.guarded && count < MaxRequests
    ensures |Walk(p, count, after, acc, sent).sent| > |sent|
  {
    var req := Request(p.collection, after);
    WalkStep(p, count, after, acc, sent);
    if Continues(p, req) {
      WalkExtends(p, count + 1, NextCursor(p, req), acc + NodesOf(p, req), sent + [req]);
    }
  }

  /**
   * Everything a fetch guarantees, from its start: the result is the in-order concatenation of
   * the nodes of the replies to the requests it sent; those requests form a cursor chain; the
   * counter rises by one per request (and by one more for a refused call); a hard error is the
   * reply to the last request or a refusal; and a fetch that succeeds stopped on a reply that
   * asked for no more pages or on its budget check.
   */
  lemma FetchContract<T, N>(p: Pager<T, N>, count: nat)
    ensures var w := Start(p, count);
      && (w.result.Ok? ==> w.result.value == Collected(p, w.sent))
      && Chained(p, w.sent)
      && w.count == count + |w.sent| + (if w.result == Err(RateLimitReached(MaxRequests)) then 1 else 0)
      && (w.sent != [] ==> count + |w.sent| <= MaxRequests)
      && (w.result == Err(RateLimitReached(MaxRequests)) ==> !p.guarded && count + |w.sent| >= MaxRequests)
      && (w.result.Err? ==> w.result.error == RateLimitReached(MaxRequests) || w.result.error == TransportFailure)
      && (w.result == Err(TransportFailure) <==> w.sent != [] && p.endpoint(w.sent[|w.sent| - 1]).Failed?)
      && (w.result.Ok? ==>
            (p.guarded && w.count >= MaxRequests) ||
            (w.sent != [] && !Continues(p, w.sent[|w.sent| - 1])))
  {
    WalkCollects(p, count, None, [], []);
    WalkChains(p, count, None, [], []);
    WalkBudget(p, count, None, [], []);
    WalkStops(p, count, None, [], []);
  }

  // ---------------------------------------------------------------------------------------
  // The client

  /**
   * `LinearClient` together with the process-wide `REQUEST_COUNT`, held here as the field
   * `requestCount`. `sent` records, in order, every request that reached the network.
   */
  class LinearClient {
    const server: Server
    var requestCount: nat
    ghost var sent: seq<Request>

    constructor (server: Server)
      ensures this.server == server && requestCount == 0 && sent == []
    {
      this.server := server;
      requestCount := 0;
      sent := [];
    }

    /**
     * `execute_query`: count the call first, refuse it once the count passes the cap, and
     * otherwise send it and classify the reply.
     */
    method ExecuteQuery<T>(endpoint: Endpoint<T>, req: Request) returns (r: Result<Option<T>, Error>)
      modifies this
      ensures requestCount == old(requestCount) + 1
      ensures r == Execute(endpoint, req, old(requestCount))
      ensures sent == if old(requestCount) < MaxRequests then old(sent) + [req] else old(sent)
    {
      requestCount := requestCount + 1;
      var count := requestCount;
      if count > MaxRequests {
        return Err(RateLimitReached(MaxRequests));
      }
      sent := sent + [req];
      var reply := endpoint(req);
      match reply
      case Failed =>
        return Err(TransportFailure);
      case Received(response) =>
        if response.errors.Some? {
          return Ok(None);
        }
        return Ok(response.data);
    }

    /** `fetch_teams`: no budget check of its own. */
    method FetchTeams() returns (r: Result<seq<Team>, Error>)
      modifies this
      ensures var w := Start(TeamsPager(server), old(requestCount));
        r == w.result && requestCount == w.count && sent == old(sent) + w.sent
    {
      var teams: seq<Team> := [];
      var after: Cursor := None;
      ghost var mine: seq<Request> := [];
      while true
        invariant Start(TeamsPager(server), old(requestCount))
               == Walk(TeamsPager(server), requestCount, after, teams, mine)
        invariant sent == old(sent) + mine
        decreases MaxRequests - requestCount
      {
        ghost var before := requestCount;
        var req := Request(Teams, after);
        var data := ExecuteQuery(server.teams, req);
        if before < MaxRequests {
          mine := mine + [req];
        }
        match data
        case Err(e) =>
          return Err(e);
        case Ok(None) =>
          break;
        case Ok(Some(d)) =>
          teams := teams + d.teams.nodes;
          if !d.teams.pageInfo.hasNextPage {
            break;
          }
          after := d.teams.pageInfo.endCursor;
      }
      return Ok(teams);
    }

    /** `fetch_issues`: stops without a request once the budget is spent. */
    method FetchIssues(teamId: string) returns (r: Result<seq<Issue>, Error>)
      modifies this
      ensures var w := Start(IssuesPager(server, teamId), old(requestCount));
        r == w.result && requestCount == w.count && sent == old(sent) + w.sent
    {
      var issues: seq<Issue> := [];
      var after: Cursor := None;
      ghost var mine: seq<Request> := [];
      while true
        invariant Start(IssuesPager(server, teamId), old(requestCount))
               == Walk(IssuesPager(server, teamId), requestCount, after, issues, mine)
        invariant sent == old(sent) + mine
        decreases MaxRequests - requestCount
      {
        if requestCount >= MaxRequests {
          break;
        }
        var req := Request(IssuesOf(teamId), after);
        var data := ExecuteQuery(server.issues, req);
        mine := mine + [req];
        match data
        case Err(e) =>
          return Err(e);
        case Ok(None) =>
          break;
        case Ok(Some(d)) =>
          issues := issues + d.issues.nodes;
          if !d.issues.pageInfo.hasNextPage {
            break;
          }
          after := d.issues.pageInfo.endCursor;
      }
      return Ok(issues);
    }

    /** `fetch_comments`: like `fetch_issues`, and also stops when the reply names no issue. */
    method FetchComments(issueId: string) returns (r: Result<seq<Comment>, Error>)
      modifies this
      ensures var w := Start(CommentsPager(server, issueId), old(requestCount));
        r == w.result && requestCount == w.count && sent == old(sent) + w.sent
    {
      var comments: seq<Comment> := [];
      var after: Cursor := None;
      ghost var mine: seq<Request> := [];
      while true
        invariant Start(CommentsPager(server, issueId), old(requestCount))
               == Walk(CommentsPager(server, issueId), requestCount, after, comments, mine)
        invariant sent == old(sent) + mine
        decreases MaxRequests - requestCount
      {
        if requestCount >= MaxRequests {
          break;
        }
        var req := Request(CommentsOf(issueId), after);
        var data := ExecuteQuery(server.comments, req);
        mine := mine + [req];
        match data
        case Err(e) =>
          return Err(e);
        case Ok(None) =>
          break;
        case Ok(Some(d)) =>
          match d.issue
          case None =>
            break;
          case Some(issue) =>
            comments := comments + issue.comments.nodes;
            if !issue.comments.pageInfo.hasNextPage {
              break;
            }
            after := issue.comments.pageInfo.endCursor;
      }
      return Ok(comments);
    }
  }
}
