# linsearch: request-budgeted pagination and short-circuit search, in Dafny

linsearch searches the issues of one Linear team for a literal term. It walks the
service's paginated GraphQL collections (teams, the issues of a team, the
comments of an issue). It matches the term case-insensitively against each
issue's title and, optionally, its description. Only when neither matched, and
comment search is on, does it page through that issue's comments. Every remote
call is counted against a fixed cap of 1500 per run.

This project models that core and proves what it guarantees:

- `wrappers.dfy` (`Wrappers`): `Option` and `Result`, for Rust's `Option` and `anyhow::Result`.
- `types.dfy` (`Types`): the records of `src/api/types.rs`. These are the envelope
  `GraphQLResponse` (with `data` and `errors` optional independently), `Connection`,
  `PageInfo`, `Team`, `TeamInfo`, `Issue`, `User`, `Comment`, `IssueWithComments`,
  the three `data` payloads, `Match` and `CommentHit`.
- `text.dfy` (`Text`): `Lower` (ASCII lowercasing) and `Contains` (substring test),
  the stand-ins for `to_lowercase` and `contains`.
- `api.dfy` (`Api`): the budget, `execute_query`, and the three cursor loops.
  - The remote service is a `Server`. It holds one `Endpoint` per payload shape,
    and each `Endpoint` maps a `Request` (a collection plus the `after` cursor) to
    a decoded reply or `Failed`.
  - The class `LinearClient` holds the request counter as the field
    `requestCount`. A ghost log `sent` records every request that reached the
    network.
  - `ExecuteQuery`, `FetchTeams`, `FetchIssues` and `FetchComments` are
    imperative. Each is proved equal to a specification function: `Execute` for
    the gate, and `Walk` (one generic cursor walk, configured by a `Pager`) for
    the loops. The lemmas about `Walk` state what the loops guarantee.
- `search.dfy` (`Search`): `SearchOptions` and `search_issues`.
  - `SearchIssues` is the outer loop. `ExamineIssue` is its body for one issue
    and calls `FetchComments` on the client.
  - `CollectHits` is the inner loop over the comments.
  - They are proved equal to the specification functions `Search`/`SearchFrom`,
    `Examine` (one issue) and `HitsOf`.
- `scenarios.dfy` (`Scenarios`): two worked issues. In one the title matches; in
  the other the description matches, so no comments are fetched.

`request_count()` and `max_requests()` are read directly as the field
`requestCount` and the constant `MaxRequests`. `SearchOptions::new` is the
datatype's constructor.

### Behaviour worth knowing

- The counter goes up before the cap is tested (src/api/mod.rs:45-48). A
  refused call still counts, so the counter can pass the cap by one.
- Any `errors` field makes the call's result "no data", even an empty list
  (src/api/mod.rs:67).
- `search_issues` swallows a hard error from `fetch_comments` with `if let Ok`
  (src/search.rs:46). That issue gets no comment hits and the scan goes on.
  `search_issues` always returns `Ok`.
- `fetch_teams` does not check the budget before a request. With the budget
  spent, it fails with the rate-limit error and its partial result is lost.
  `fetch_issues` and `fetch_comments` check first and return what they have.
- A reply with `hasNextPage = true` and no `endCursor` makes the next request
  use cursor `None`. The loop then starts the collection again. Nothing but the
  budget stops such a walk, and pages can be fetched twice. `WalkBudget` shows
  the walk is still bounded, because every iteration raises the counter.

## Model

| member | source | states |
|---|---|---|
| `Text.Lower` | src/search.rs:28-35 | lowering keeps the length and maps each character by ASCII lowercasing |
| `Text.LowerIdempotent` | src/search.rs:28-35 | lowering twice equals lowering once, so searching for a term and for its lowered form gives the same result |
| `Text.Contains` | src/search.rs:35-48 | the stand-in for `str::contains` on the lowered title, description and comment body; characterised by `Text.ContainsIffOccurs` |
| `Text.ContainsIffOccurs` | src/search.rs:35 | the substring test holds exactly when the term occurs at some position of the text |
| `Api.Classify` | src/api/mod.rs:63-72 | specification of how a sent call's reply becomes its result; its cases are stated by `Api.ExecuteOutcome` |
| `Api.Execute` | src/api/mod.rs:45-49 | the gate passes a call only while the counter, before this call is counted, is below the cap |
| `Api.ExecuteOutcome` | src/api/mod.rs:45-72 | refusal happens exactly at a spent budget; otherwise a failed exchange is a hard error, a present `errors` field gives "no data" whatever `data` holds, and an absent one hands `data` through |
| `Api.TeamsPage` | src/api/mod.rs:85-87 | the page of a teams payload, always present |
| `Api.IssuesPage` | src/api/mod.rs:113-115 | the page of an issues payload, always present |
| `Api.CommentsPage` | src/api/mod.rs:141-150 | the page of a comments payload, absent when the payload names no issue; used by `Api.CommentsPager` and covered by the walk lemmas |
| `Api.TeamsPager` | src/api/mod.rs:75-97 | the teams loop: the teams endpoint and collection, and no budget check of its own (`guarded` false) |
| `Api.IssuesPager` | src/api/mod.rs:99-125 | the issues loop of one team, with the budget check at mod.rs:104-106 (`guarded` true) |
| `Api.CommentsPager` | src/api/mod.rs:127-157 | the comments loop of one issue, with the budget check at mod.rs:132-134 (`guarded` true) and no page when the issue is missing |
| `Api.Start` | src/api/mod.rs:76-77 | a fetch begins with cursor `None`, nothing collected and nothing sent (likewise mod.rs:100-101 and 128-129); stated by `Api.FetchContract` |
| `Api.Walk` | src/api/mod.rs:79-154 | specification of the three cursor loops from the top of an iteration; its properties are stated by the `Api.Walk…` lemmas and `Api.FetchContract` |
| `Api.WalkStep` | src/api/mod.rs:79-94 | one loop iteration below the cap: a hard error ends the fetch, a reply asking for no more pages ends it with that reply's nodes added, and a reply asking for more continues from its end cursor |
| `Api.CollectedSnoc` | src/api/mod.rs:86 | appending one more request appends that reply's nodes to the collected sequence |
| `Api.WalkExtends` | src/api/mod.rs:79-94 | a walk only appends to the requests already sent |
| `Api.WalkCollects` | src/api/mod.rs:113-118 | the accumulator is always the in-order concatenation of the nodes of the replies to the requests sent, with no reordering or dedup |
| `Api.WalkChains` | src/api/mod.rs:101-118 | the requests a walk sends form a cursor chain: the first carries `None`, and each later one follows a reply that asked for more and carries that reply's end cursor |
| `Api.WalkBudget` | src/api/mod.rs:104-111 | the counter rises by one per request sent, plus one for a refused call; every request sent fits in the budget; a fetch with its own budget check never meets the refusal, and at a spent budget it sends nothing and returns its accumulator unchanged |
| `Api.WalkStops` | src/api/mod.rs:79-154 | a walk fails only with the refusal or a transport failure; it fails with a transport failure exactly when the reply to the last request sent failed (the `?` at mod.rs:83, 111 and 139); a successful walk ended on its budget check or on a received reply asking for no further page (last page, soft error, no data, no issue) |
| `Api.WalkGuardedRequests` | src/api/mod.rs:132-139 | a fetch with its own budget check that starts below the cap sends at least one request |
| `Api.FetchContract` | src/api/mod.rs:75-157 | from the start of any of the three fetches: result = in-order concatenation of the received pages; requests form a cursor chain from `None`; counter = start + requests (+1 if refused); requests within budget; a failure is the refusal (only for `fetch_teams`, once the budget is used up) or a transport failure, which happens exactly when the last reply failed; why it stopped |
| `Api.LinearClient.constructor` | src/api/mod.rs:17-30 | a new client starts with the counter at zero, as `REQUEST_COUNT` is initialised, and nothing sent |
| `Api.LinearClient.ExecuteQuery` | src/api/mod.rs:40-73 | counts the call first, then returns `Execute`'s result; the request reaches the network only when the counter was below the cap |
| `Api.LinearClient.FetchTeams` | src/api/mod.rs:75-97 | result, final counter and requests sent are those of the teams walk without a budget check |
| `Api.LinearClient.FetchIssues` | src/api/mod.rs:99-125 | result, final counter and requests sent are those of the issues walk with a budget check |
| `Api.LinearClient.FetchComments` | src/api/mod.rs:127-157 | result, final counter and requests sent are those of the comments walk with a budget check, which also stops when the reply names no issue |
| `Search.InTitle` | src/search.rs:35 | the lowered title contains the lowered term |
| `Search.InDesc` | src/search.rs:36-41 | false unless description search is on and the issue has a description whose lowered text contains the term |
| `Search.NeedsComments` | src/search.rs:45 | the short-circuit condition: comment search on and neither title nor description matched |
| `Search.CommentMatches` | src/search.rs:48 | the lowered comment body contains the term |
| `Search.Commenter` | src/search.rs:50-53 | the comment author's name, or `Unknown` for a comment without a user |
| `Search.HitOf` | src/search.rs:49-56 | the hit of a comment: commenter, creation time and url |
| `Search.HitsOf` | src/search.rs:47-58 | specification of the comment loop; its properties are stated by `Search.HitsOfExact` and `Search.HitsOfAppend` |
| `Search.TeamLabel` | src/search.rs:63-67 | `[key] name` for an issue with a team, `Unknown` otherwise |
| `Search.Found` | src/search.rs:62-78 | the match built when anything hit, nothing otherwise; stated by `Search.ExamineFound` |
| `Search.Fetched` | src/search.rs:45-46 | the comments an issue's examination obtains: those of the comments walk when it is made and succeeds, none when no fetch is made or it fails hard |
| `Search.CommentFetch` | src/search.rs:45-46 | the comments walk of the issue when `Search.NeedsComments` holds, otherwise nothing sent at no cost |
| `Search.Examine` | src/search.rs:35-78 | specification of one iteration of the scan past its budget check; stated by `Search.ExamineShortCircuit`, `Search.ExamineFound` and `Search.ExamineSwallowsError` |
| `Search.SearchFrom` | src/search.rs:30-79 | specification of the scan from issue `i`; stated by `Search.SearchFromTracks` |
| `Search.Search` | src/search.rs:22-82 | the whole scan from the counter at the call; stated by `Search.SearchContract` and `Search.SearchMatches` |
| `Search.HitsOfExact` | src/search.rs:47-57 | the hits are exactly the hits (commenter or `Unknown`, time, url) of the comments whose lowered body contains the term, and are no more than the comments |
| `Search.HitsOfAppend` | src/search.rs:47-58 | hits keep comment order: the hits of a concatenation are the concatenated hits |
| `Search.CollectHits` | src/search.rs:47-58 | the inner loop produces exactly `HitsOf` the fetched comments |
| `Search.ExamineShortCircuit` | src/search.rs:45-46 | an issue costs requests only if comment search is on and neither title nor description matched; if so and budget remains, it costs at least one; what it sends is a cursor chain over that issue's comments (`Api.Chained`), and the counter rises by exactly the requests sent, within the budget |
| `Search.ExamineFound` | src/search.rs:35-78 | an issue yields a match iff title, description or a fetched comment contains the term; the match copies id, title and url, labels the team `[key] name` or `Unknown`, carries exactly the matching comments' hits in order, and has comment hits only with both flags false |
| `Search.ExamineSwallowsError` | src/search.rs:45-46 | a hard error fetching an issue's comments leaves that issue without a match, and the counter keeps the requests made |
| `Search.CollectsStep` | src/search.rs:62-78 | adding one issue's outcome appends its match, if any, after the earlier ones, with the matches still exactly the present outcomes in order |
| `Search.TracksStep` | src/search.rs:30-78 | examining one more issue below the cap moves the counter on to what that examination leaves and keeps the matches exactly the matches of the issues examined, in order |
| `Search.SearchFromTracks` | src/search.rs:30-79 | from any point of the scan: it ends on the last issue or on a spent budget, each issue is examined below the cap at the counter the previous one left, the matches are exactly those examinations' matches in input order, and the counter and requests add up within the budget |
| `Search.SearchContract` | src/search.rs:22-82 | the scan covers a prefix of the issues, each examined below the cap, and stops early only on a spent budget (examining nothing if it is spent at the start); its matches are exactly, in input order, the matches of the examined issues; its requests are exactly the examined issues' requests in order (`SentBefore`), and all fit in the budget |
| `Search.SearchFromSent` | src/search.rs:30-79 | from any point of the scan, the requests sent are those of the issues examined so far, concatenated in input order |
| `Search.SearchRequests` | src/search.rs:30-60 | the scan's requests are those of the examined issues in order; an issue matched by title or description sends none, and each issue's requests form a cursor chain over its own comments |
| `Search.SearchMatches` | src/search.rs:35-78 | an examined issue is reported iff its title, its description or a comment fetched for it contains the term; each reported match describes its issue and carries the hits of exactly those comments, in order |
| `Search.ExamineIssue` | src/search.rs:35-78 | the loop body for one issue gives `Examine`'s match, counter and requests |
| `Search.SearchIssues` | src/search.rs:22-82 | returns `Ok` with the matches of the specification `Search`, and leaves the counter and the sent requests as it says |
| `Scenarios.TitleHitCostsNothing` | src/search.rs:35-78 | "Fix API crash" with term "api" and neither description nor comment search: a match with only the title flag set, no hits, no request |
| `Scenarios.DescriptionHitSkipsComments` | src/search.rs:35-78 | "Bug" described as "relates to the API", term "api", descriptions and comments on: a match with only the description flag set, team `[ENG] Engineering`, and no comment request |

## Left out

- HTTP transport (src/api/mod.rs:51-65): the reqwest client, the headers and
  the API key, JSON encoding and decoding. A `Server` endpoint replaces all of
  it. A send, receive or decode failure is the reply `Failed`.
- The server as a function: an `Endpoint` answers the same request the same way
  every time. A real service could change between two requests.
- GraphQL query text and page sizes (src/api/queries.rs): a `Request` keeps only
  the collection, its id variable, and the `after` cursor.
- `GraphQLRequest` is replaced by `Request`.
- Atomics and async: `REQUEST_COUNT` is one process-wide atomic. Here it is a
  plain field of the one client that src/main.rs creates. Concurrent callers of
  the counter are not modelled.
- `Api.LinearClient.ExecuteQuery`: does not model `usize` wrap-around of the counter,
  which is a `nat`. The program never goes past 1501 calls: only `fetch_teams` can
  call past the cap, and its refusal ends the run through `?` (src/main.rs:33).
- `Text.Lower`: lowercases ASCII letters only. Unicode case mapping, including
  mappings that change the length, is not modelled.
- The warning printed for GraphQL errors (`eprintln!`, src/api/mod.rs:68) is
  output and is left out.
- src/ui.rs, src/cli.rs, src/main.rs and src/lib.rs are not part of this model.
  They cover terminal and file output, argument parsing, prompting and
  orchestration, and re-exports.
