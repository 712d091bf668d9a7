/** The records exchanged with the issue tracker (src/api/types.rs). */
module Types {
  import opened Wrappers

  /** A JSON value reported in the `errors` list of a response; the client never looks inside it. */
  type JsonValue = string

  /** The response envelope: `data` and `errors` are optional independently of each other. */
  datatype GraphQLResponse<T> = GraphQLResponse(data: Option<T>, errors: Option<seq<JsonValue>>)

  /** An opaque continuation token; `None` asks for the start of a collection. */
  type Cursor = Option<string>

  datatype PageInfo = PageInfo(hasNextPage: bool, endCursor: Cursor)

  /** The page shape shared by the three collections. */
  datatype Connection<T> = Connection(nodes: seq<T>, pageInfo: PageInfo)

  datatype Team = Team(id: string, key: string, name: string)

  datatype TeamInfo = TeamInfo(key: string, name: string)

  datatype Issue = Issue(
    id: string,
    identifier: string,
    title: string,
    url: string,
    description: Option<string>,
    team: Option<TeamInfo>)

  datatype User = User(name: string)

  datatype Comment = Comment(id: string, body: string, user: Option<User>, createdAt: string, url: string)

  datatype IssueWithComments = IssueWithComments(id: string, comments: Connection<Comment>)

  /** The `data` payloads of the three queries. A comments query may name no issue at all. */
  datatype TeamsData = TeamsData(teams: Connection<Team>)

  datatype IssuesData = IssuesData(issues: Connection<Issue>)

  datatype IssueData = IssueData(issue: Option<IssueWithComments>)

  datatype CommentHit = CommentHit(commenter: string, createdAt: string, url: string)

  /** A search result: where the term was found, and the matching comments in server order. */
  datatype Match = Match(
    team: string,
    id: string,
    title: string,
    url: string,
    inTitle: bool,
    inDesc: bool,
    commentsMatched: seq<CommentHit>)
}
