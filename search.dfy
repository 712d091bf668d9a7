/**
 * The search aggregator (src/search.rs): for each issue, in order, match the term against the
 * title and optionally the description, fetch the comments only when comment search is on and
 * neither cheaper field matched, and emit a `Match` when anything hit. The scan stops before
 * the first issue it reaches with the request budget spent.
 */
module Search {
  import opened Wrappers
  import opened Types
  import opened Text
  import opened Api

  datatype SearchOptions = SearchOptions(searchTerm: string, searchDescriptions: bool, searchComments: bool)

  /** `in_title`: the lowered title contains the lowered term. */
  predicate InTitle(issue: Issue, term: string) {
    Contains(Lower(issue.title), term)
  }

  /** `in_desc`: false unless description search is on and the issue has a description. */
  predicate InDesc(options: SearchOptions, issue: Issue, term: string) {
    options.searchDescriptions &&
    match issue.description
    case Some(d) => Contains(Lower(d), term)
    case None => false
  }

  /** The short-circuit: comments are fetched only for an issue that nothing cheaper matched. */
  predicate NeedsComments(options: SearchOptions, inTitle: bool, inDesc: bool) {
    options.searchComments && !inTitle && !inDesc
  }

  predicate CommentMatches(c: Comment, term: string) {
    Contains(Lower(c.body), term)
  }

  function Commenter(c: Comment): string {
    match c.user
    case Some(u) => u.name
    case None => "Unknown"
  }

  function HitOf(c: Comment): CommentHit {
    CommentHit(Commenter(c), c.createdAt, c.url)
  }

  /** The hits of the comments whose body contains the term, in the comments' order. */
  function HitsOf(comments: seq<Comment>, term: string): seq<CommentHit> {
    if comments == [] then []
    else
      var last := comments[|comments| - 1];
      HitsOf(comments[..|comments| - 1], term) + (if CommentMatches(last, term) then [HitOf(last)] else [])
  }

  /** The team label of a match: `[key] name`, or `Unknown` for an issue without a team. */
  function TeamLabel(team: Option<TeamInfo>): string {
    match team
    case Some(t) => "[" + t.key + "] " + t.name
    case None => "Unknown"
  }

  /** Hits are exactly the hits of the matching comments. */
  lemma {:induction false} HitsOfExact(comments: seq<Comment>, term: string)
    ensures |HitsOf(comments, term)| <= |comments|
    ensures forall h :: h in HitsOf(comments, term) <==>
      exists c :: c in comments && CommentMatches(c, term) && h == HitOf(c)
  {
    if comments != [] {
      var init := comments[..|comments| - 1];
      var last := comments[|comments| - 1];
      HitsOfExact(init, term);
      assert comments == init + [last];
      forall h | h in HitsOf(comments, term)
        ensures exists c :: c in comments && CommentMatches(c, term) && h == HitOf(c)
      {
        if h in HitsOf(init, term) {
          var c :| c in init && CommentMatches(c, term) && h == HitOf(c);
          assert c in comments;
        } else {
          assert last in comments;
        }
      }
      forall c | c in comments && CommentMatches(c, term)
        ensures HitOf(c) in HitsOf(comments, term)
      {
        if c in init {
          assert HitOf(c) in HitsOf(init, term);
        }
      }
    }
  }

  /** Hits keep the order of the comments: the hits of a concatenation are concatenated. */
  lemma {:induction false} HitsOfAppend(a: seq<Comment>, b: seq<Comment>, term: string)
    ensures HitsOf(a + b, term) == HitsOf(a, term) + HitsOf(b, term)
    decreases |b|
  {
    if b != [] {
      var b' := b[..|b| - 1];
      assert (a + b)[..|a + b| - 1] == a + b';
      assert (a + b)[|a + b| - 1] == b[|b| - 1];
      HitsOfAppend(a, b', term);
    } else {
      assert a + b == a;
    }
  }

  /** The inner loop of `search_issues` that turns fetched comments into hits. */
  method CollectHits(comments: seq<Comment>, term: string) returns (hits: seq<CommentHit>)
    ensures hits == HitsOf(comments, term)
  {
    hits := [];
    for i := 0 to |comments|
      invariant hits == HitsOf(comments[..i], term)
    {
      var comment := comments[i];
      assert comments[..i + 1][..i] == comments[..i];
      if CommentMatches(comment, term) {
        hits := hits + [HitOf(comment)];
      }
    }
    assert comments[..|comments|] == comments;
  }

  /** The `Match` for an issue with the given findings, if anything hit. */
  function Found(issue: Issue, inTitle: bool, inDesc: bool, hits: seq<CommentHit>): Option<Match> {
    if inTitle || inDesc || hits != [] then
      Some(Match(TeamLabel(issue.team), issue.identifier, issue.title, issue.url, inTitle, inDesc, hits))
    else None
  }

  /** The outcome of examining one issue: its match, the counter afterwards, the requests sent. */
  datatype Examined = Examined(found: Option<Match>, count: nat, sent: seq<Request>)

  /** The comment fetch of one issue: the comments walk when needed, otherwise nothing at no cost. */
  function CommentFetch(server: Server, options: SearchOptions, issue: Issue, count: nat): Fetch<Comment> {
    var term := Lower(options.searchTerm);
    if NeedsComments(options, InTitle(issue, term), InDesc(options, issue, term)) then
      Start(CommentsPager(server, issue.id), count)
    else Fetch(Ok([]), count, [])
  }

  /** The comments that examining `issue` obtains: none unless fetched, and none on a hard error. */
  function Fetched(server: Server, options: SearchOptions, issue: Issue, count: nat): seq<Comment> {
    var w := CommentFetch(server, options, issue, count);
    if w.result.Ok? then w.result.value else []
  }

  /** One iteration of the loop of `search_issues`, past its budget check. */
  function Examine(server: Server, options: SearchOptions, issue: Issue, count: nat): Examined {
    var term := Lower(options.searchTerm);
    var w := CommentFetch(server, options, issue, count);
    Examined(Found(issue, InTitle(issue, term), InDesc(options, issue, term),
                   HitsOf(Fetched(server, options, issue, count), term)), w.count, w.sent)
  }

  /** `m` is what the search reports for `issue`. */
  ghost predicate Describes(options: SearchOptions, issue: Issue, m: Match) {
    var term := Lower(options.searchTerm);
    && m.team == TeamLabel(issue.team)
    && m.id == issue.identifier
    && m.title == issue.title
    && m.url == issue.url
    && m.inTitle == InTitle(issue, term)
    && m.inDesc == InDesc(options, issue, term)
    && (m.inTitle || m.inDesc || m.commentsMatched != [])
    && (m.commentsMatched != [] ==> options.searchComments && !m.inTitle && !m.inDesc)
  }

  /**
   * The short-circuit: an issue matched by its title or description costs no request, and an
   * unmatched one costs at least one when comment search is on and budget remains. Whatever is
   * sent is a cursor chain over that issue's comments, within the budget.
   */
  lemma ExamineShortCircuit(server: Server, options: SearchOptions, issue: Issue, count: nat)
    ensures var term := Lower(options.searchTerm);
      var e := Examine(server, options, issue, count);
      && ((e.sent != [] || e.count != count) ==>
            options.searchComments && !InTitle(issue, term) && !InDesc(options, issue, term))
      && ((options.searchComments && !InTitle(issue, term) && !InDesc(options, issue, term) && count < MaxRequests) ==>
            e.sent != [])
      && e.count == count + |e.sent|
      && (e.sent != [] ==> e.count <= MaxRequests)
      && (forall r :: r in e.sent ==> r.collection == CommentsOf(issue.id))
      && Chained(CommentsPager(server, issue.id), e.sent)
  {
    var term := Lower(options.searchTerm);
    var p := CommentsPager(server, issue.id);
    FetchContract(p, count);
    if count < MaxRequests {
      WalkGuardedRequests(p, count, None, [], []);
    }
    var w := Start(p, count);
    forall r | r in w.sent ensures r.collection == CommentsOf(issue.id) {
      var k :| 0 <= k < |w.sent| && w.sent[k] == r;
      assert Linked(p, w.sent, k);
    }
  }

  /**
   * An issue yields a match exactly when its title, its description or one of the comments
   * obtained for it contains the term; the match copies the issue's fields, carries the hits
   * of exactly the matching comments in order, and has comment hits only when neither flag is set.
   */
  lemma ExamineFound(server: Server, options: SearchOptions, issue: Issue, count: nat)
    ensures var term := Lower(options.searchTerm);
      var e := Examine(server, options, issue, count);
      var comments := Fetched(server, options, issue, count);
      && (e.found.Some? <==>
            InTitle(issue, term) || InDesc(options, issue, term) ||
            exists c :: c in comments && CommentMatches(c, term))
      && (e.found.Some? ==>
            Describes(options, issue, e.found.value) && e.found.value.commentsMatched == HitsOf(comments, term))
  {
    var term := Lower(options.searchTerm);
    var comments := Fetched(server, options, issue, count);
    var e := Examine(server, options, issue, count);
    var inTitle, inDesc := InTitle(issue, term), InDesc(options, issue, term);
    HitsOfExact(comments, term);
    assert e.found == Found(issue, inTitle, inDesc, HitsOf(comments, term));
    if exists c :: c in comments && CommentMatches(c, term) {
      var c :| c in comments && CommentMatches(c, term);
      assert HitOf(c) in HitsOf(comments, term);
    }
    if HitsOf(comments, term) != [] {
      assert HitsOf(comments, term)[0] in HitsOf(comments, term);
    }
  }

  /** A hard error while fetching an issue's comments is swallowed: that issue yields no match. */
  lemma ExamineSwallowsError(server: Server, options: SearchOptions, issue: Issue, count: nat)
    requires var term := Lower(options.searchTerm);
      NeedsComments(options, InTitle(issue, term), InDesc(options, issue, term))
    requires Start(CommentsPager(server, issue.id), count).result.Err?
    ensures Examine(server, options, issue, count).found == None
    ensures Examine(server, options, issue, count).count == Start(CommentsPager(server, issue.id), count).count
  {
  }

  /** Where the scan of `search_issues` ends, and which issue each match came from. */
  datatype SearchRun = SearchRun(matches: seq<Match>, count: nat, sent: seq<Request>, examined: nat, sources: seq<nat>)

  /** The loop of `search_issues` from issue `i`, with the matches and requests so far. */
  function SearchFrom(server: Server, options: SearchOptions, issues: seq<Issue>, i: nat, count: nat,
                      matches: seq<Match>, sent: seq<Request>, sources: seq<nat>): SearchRun
    requires i <= |issues|
    decreases |issues| - i
  {
    if i == |issues| || count >= MaxRequests then SearchRun(matches, count, sent, i, sources)
    else
      var e := Examine(server, options, issues[i], count);
      match e.found
      case Some(m) => SearchFrom(server, options, issues, i + 1, e.count, matches + [m], sent + e.sent, sources + [i])
      case None => SearchFrom(server, options, issues, i + 1, e.count, matches, sent + e.sent, sources)
  }

  /** One step of the scan below the cap: examine issue `i`, then go on from the next. */
  lemma SearchFromStep(server: Server, options: SearchOptions, issues: seq<Issue>, i: nat, count: nat,
                       matches: seq<Match>, sent: seq<Request>, sources: seq<nat>)
    requires i < |issues| && count < MaxRequests
    ensures var e := Examine(server, options, issues[i], count);
      SearchFrom(server, options, issues, i, count, matches, sent, sources) ==
        if e.found.Some? then SearchFrom(server, options, issues, i + 1, e.count, matches + [e.found.value], sent + e.sent, sources + [i])
        else SearchFrom(server, options, issues, i + 1, e.count, matches, sent + e.sent, sources)
  {
  }

  function Search(server: Server, options: SearchOptions, issues: seq<Issue>, count: nat): SearchRun {
    SearchFrom(server, options, issues, 0, count, [], [], [])
  }

  /** The counter at which the scan examines issue `k`, starting from `count0`. */
  function CountBefore(server: Server, options: SearchOptions, issues: seq<Issue>, count0: nat, k: nat): nat
    requires k <= |issues|
  {
    if k == 0 then count0
    else Examine(server, options, issues[k - 1], CountBefore(server, options, issues, count0, k - 1)).count
  }

  /** What examining issue `k` yields, at the counter the scan reaches it with. */
  function Outcome(server: Server, options: SearchOptions, issues: seq<Issue>, count0: nat, k: nat): Examined
    requires k < |issues|
  {
    Examine(server, options, issues[k], CountBefore(server, options, issues, count0, k))
  }

  /** The first `i` issues were each examined below the cap, and `count` is what the last one left. */
  ghost predicate Counted(server: Server, options: SearchOptions, issues: seq<Issue>, count0: nat, i: nat, count: nat)
    requires i <= |issues|
  {
    && count == CountBefore(server, options, issues, count0, i)
    && (forall k :: 0 <= k < i ==> CountBefore(server, options, issues, count0, k) < MaxRequests)
  }

  /** The requests the examinations of the first `k` issues sent, in order. */
  function SentBefore(server: Server, options: SearchOptions, issues: seq<Issue>, count0: nat, k: nat): seq<Request>
    requires k <= |issues|
  {
    if k == 0 then [] else SentBefore(server, options, issues, count0, k - 1) + Outcome(server, options, issues, count0, k - 1).sent
  }

  /** What the examinations of the first `i` issues yielded, in input order. */
  function Founds(server: Server, options: SearchOptions, issues: seq<Issue>, count0: nat, i: nat): seq<Option<Match>>
    requires i <= |issues|
  {
    seq(i, k requires 0 <= k < i => Outcome(server, options, issues, count0, k).found)
  }

  /**
   * The matches are, in order, exactly the present entries of `founds`, each recorded with its
   * index in `sources`.
   */
  ghost predicate Collects(founds: seq<Option<Match>>, matches: seq<Match>, sources: seq<nat>) {
    && |sources| == |matches|
    && (forall j :: 0 <= j < |sources| ==> sources[j] < |founds| && founds[sources[j]] == Some(matches[j]))
    && (forall j, j' :: 0 <= j < j' < |sources| ==> sources[j] < sources[j'])
    && (forall k :: 0 <= k < |founds| && founds[k].Some? ==> k in sources)
  }

  /** The state of the scan after the first `i` issues, from counter `count0`. */
  ghost predicate Tracks(server: Server, options: SearchOptions, issues: seq<Issue>, count0: nat, i: nat, count: nat,
                         matches: seq<Match>, sources: seq<nat>)
    requires i <= |issues|
  {
    Counted(server, options, issues, count0, i, count) &&
    Collects(Founds(server, options, issues, count0, i), matches, sources)
  }

  /** Examining issue `i` below the cap moves the counter on to the next issue. */
  lemma CountedStep(server: Server, options: SearchOptions, issues: seq<Issue>, count0: nat, i: nat, count: nat)
    requires i < |issues| && count < MaxRequests
    requires Counted(server, options, issues, count0, i, count)
    ensures Counted(server, options, issues, count0, i + 1, Examine(server, options, issues[i], count).count)
  {
  }

  /** One more outcome adds its match, if any, after those already collected. */
  lemma CollectsStep(founds: seq<Option<Match>>, found: Option<Match>, matches: seq<Match>, sources: seq<nat>)
    requires Collects(founds, matches, sources)
    ensures found.Some? ==> Collects(founds + [found], matches + [found.value], sources + [|founds|])
    ensures found.None? ==> Collects(founds + [found], matches, sources)
  {
    var founds', i := founds + [found], |founds|;
    if found.Some? {
      var matches', sources' := matches + [found.value], sources + [i];
      forall j | 0 <= j < |sources'|
        ensures sources'[j] < i + 1 && founds'[sources'[j]] == Some(matches'[j])
      {
        if j < |sources| {
          assert sources'[j] == sources[j] && matches'[j] == matches[j];
        }
      }
      forall k | 0 <= k < i + 1 && founds'[k].Some?
        ensures k in sources'
      {
        if k < i {
          assert founds'[k] == founds[k];
        }
      }
    } else {
      forall k | 0 <= k < i + 1 && founds'[k].Some?
        ensures k in sources
      {
        assert founds'[k] == founds[k];
      }
    }
  }

  /** Examining issue `i` below the cap keeps the matches tracking the issues examined. */
  lemma TracksStep(server: Server, options: SearchOptions, issues: seq<Issue>, count0: nat, i: nat, count: nat,
                   matches: seq<Match>, sources: seq<nat>)
    requires i < |issues| && count < MaxRequests
    requires Tracks(server, options, issues, count0, i, count, matches, sources)
    ensures var e := Examine(server, options, issues[i], count);
      && (e.found.Some? ==> Tracks(server, options, issues, count0, i + 1, e.count, matches + [e.found.value], sources + [i]))
      && (e.found.None? ==> Tracks(server, options, issues, count0, i + 1, e.count, matches, sources))
  {
    var e := Examine(server, options, issues[i], count);
    var founds := Founds(server, options, issues, count0, i);
    CountedStep(server, options, issues, count0, i, count);
    assert Outcome(server, options, issues, count0, i) == e;
    assert Founds(server, options, issues, count0, i + 1) == founds + [e.found];
    CollectsStep(founds, e.found, matches, sources);
  }

  lemma {:induction false} SearchFromTracks(server: Server, options: SearchOptions, issues: seq<Issue>, count0: nat, i: nat,
                                            count: nat, matches: seq<Match>, sent: seq<Request>, sources: seq<nat>)
    requires i <= |issues| && Tracks(server, options, issues, count0, i, count, matches, sources)
    ensures var s := SearchFrom(server, options, issues, i, count, matches, sent, sources);
      && i <= s.examined <= |issues|
      && (s.examined < |issues| ==> s.count >= MaxRequests)
      && Tracks(server, options, issues, count0, s.examined, s.count, s.matches, s.sources)
      && |sent| <= |s.sent| && s.count == count + (|s.sent| - |sent|)
      && (|s.sent| > |sent| ==> s.count <= MaxRequests)
    decreases |issues| - i
  {
    if i < |issues| && count < MaxRequests {
      var e := Examine(server, options, issues[i], count);
      ExamineShortCircuit(server, options, issues[i], count);
      TracksStep(server, options, issues, count0, i, count, matches, sources);
      match e.found
      case Some(m) =>
        SearchFromTracks(server, options, issues, count0, i + 1, e.count, matches + [m], sent + e.sent, sources + [i]);
      case None =>
        SearchFromTracks(server, options, issues, count0, i + 1, e.count, matches, sent + e.sent, sources);
    }
  }

  /** From any point of the scan, the requests sent are those of the issues examined, in order. */
  lemma {:induction false} SearchFromSent(server: Server, options: SearchOptions, issues: seq<Issue>, count0: nat, i: nat,
                                          count: nat, matches: seq<Match>, sent: seq<Request>, sources: seq<nat>)
    requires i <= |issues| && Counted(server, options, issues, count0, i, count)
    requires sent == SentBefore(server, options, issues, count0, i)
    ensures var s := SearchFrom(server, options, issues, i, count, matches, sent, sources);
      s.examined <= |issues| && s.sent == SentBefore(server, options, issues, count0, s.examined)
    decreases |issues| - i
  {
    if i < |issues| && count < MaxRequests {
      var e := Examine(server, options, issues[i], count);
      assert Outcome(server, options, issues, count0, i) == e;
      assert SentBefore(server, options, issues, count0, i + 1) == sent + e.sent;
      CountedStep(server, options, issues, count0, i, count);
      match e.found
      case Some(m) =>
        SearchFromSent(server, options, issues, count0, i + 1, e.count, matches + [m], sent + e.sent, sources + [i]);
      case None =>
        SearchFromSent(server, options, issues, count0, i + 1, e.count, matches, sent + e.sent, sources);
    }
  }

  /**
   * What `search_issues` guarantees about its scan: it examines a prefix of the issues, each
   * below the cap, and stops early only on a spent budget (examining nothing when the budget is
   * spent at the start); its matches are, in input order, exactly the matches of the examined
   * issues; its requests are theirs, in order, and all fit in the budget.
   */
  lemma SearchContract(server: Server, options: SearchOptions, issues: seq<Issue>, count: nat)
    ensures var s := Search(server, options, issues, count);
      && s.examined <= |issues|
      && (s.examined < |issues| ==> s.count >= MaxRequests)
      && (count >= MaxRequests ==> s.examined == 0 && s.matches == [] && s.sent == [] && s.count == count)
      && Tracks(server, options, issues, count, s.examined, s.count, s.matches, s.sources)
      && s.sent == SentBefore(server, options, issues, count, s.examined)
      && s.count == count + |s.sent|
      && (s.sent != [] ==> s.count <= MaxRequests)
  {
    SearchFromTracks(server, options, issues, count, 0, count, [], [], []);
    SearchFromSent(server, options, issues, count, 0, count, [], [], []);
  }

  /**
   * What the scan sends: the requests of the examined issues, in input order. An issue matched
   * by its title or description sends none, and what an issue sends is a cursor chain over
   * its own comments.
   */
  lemma SearchRequests(server: Server, options: SearchOptions, issues: seq<Issue>, count: nat)
    ensures var s := Search(server, options, issues, count);
      var term := Lower(options.searchTerm);
      && s.examined <= |issues|
      && s.sent == SentBefore(server, options, issues, count, s.examined)
      && (forall k :: 0 <= k < s.examined ==>
            var sent := Outcome(server, options, issues, count, k).sent;
            && (sent != [] ==> NeedsComments(options, InTitle(issues[k], term), InDesc(options, issues[k], term)))
            && Chained(CommentsPager(server, issues[k].id), sent))
  {
    var s := Search(server, options, issues, count);
    var term := Lower(options.searchTerm);
    SearchContract(server, options, issues, count);
    forall k | 0 <= k < s.examined
      ensures var sent := Outcome(server, options, issues, count, k).sent;
        && (sent != [] ==> NeedsComments(options, InTitle(issues[k], term), InDesc(options, issues[k], term)))
        && Chained(CommentsPager(server, issues[k].id), sent)
    {
      ExamineShortCircuit(server, options, issues[k], CountBefore(server, options, issues, count, k));
    }
  }

  /**
   * What each reported match says: an examined issue is reported exactly when its title, its
   * description or one of the comments fetched for it contains the term, and its match describes
   * it and carries the hits of exactly those comments, in order.
   */
  lemma SearchMatches(server: Server, options: SearchOptions, issues: seq<Issue>, count: nat)
    ensures var s := Search(server, options, issues, count);
      var term := Lower(options.searchTerm);
      && s.examined <= |issues| && |s.sources| == |s.matches|
      && (forall k :: 0 <= k < s.examined ==>
            (k in s.sources <==>
               InTitle(issues[k], term) || InDesc(options, issues[k], term) ||
               exists c :: c in Fetched(server, options, issues[k], CountBefore(server, options, issues, count, k)) &&
                           CommentMatches(c, term)))
      && (forall j :: 0 <= j < |s.sources| ==>
            s.sources[j] < s.examined && Describes(options, issues[s.sources[j]], s.matches[j]) &&
            s.matches[j].commentsMatched ==
              HitsOf(Fetched(server, options, issues[s.sources[j]], CountBefore(server, options, issues, count, s.sources[j])), term))
  {
    var s := Search(server, options, issues, count);
    var term := Lower(options.searchTerm);
    SearchFromTracks(server, options, issues, count, 0, count, [], [], []);
    forall k | 0 <= k < s.examined
      ensures k in s.sources <==>
        InTitle(issues[k], term) || InDesc(options, issues[k], term) ||
        exists c :: c in Fetched(server, options, issues[k], CountBefore(server, options, issues, count, k)) &&
                    CommentMatches(c, term)
    {
      ExamineFound(server, options, issues[k], CountBefore(server, options, issues, count, k));
      if k in s.sources {
        var j :| 0 <= j < |s.sources| && s.sources[j] == k;
      }
    }
    forall j | 0 <= j < |s.sources|
      ensures s.sources[j] < s.examined && Describes(options, issues[s.sources[j]], s.matches[j]) &&
        s.matches[j].commentsMatched ==
          HitsOf(Fetched(server, options, issues[s.sources[j]], CountBefore(server, options, issues, count, s.sources[j])), term)
    {
      ExamineFound(server, options, issues[s.sources[j]], CountBefore(server, options, issues, count, s.sources[j]));
    }
  }

  /** The body of the loop of `search_issues` for one issue, past its budget check. */
  method ExamineIssue(client: LinearClient, options: SearchOptions, issue: Issue, searchTermLower: string)
    returns (found: Option<Match>)
    requires searchTermLower == Lower(options.searchTerm)
    modifies client
    ensures var e := Examine(client.server, options, issue, old(client.requestCount));
      found == e.found && client.requestCount == e.count && client.sent == old(client.sent) + e.sent
  {
    ghost var fetched := Fetched(client.server, options, issue, client.requestCount);
    ghost var w := CommentFetch(client.server, options, issue, client.requestCount);
    var inTitle := Contains(Lower(issue.title), searchTermLower);
    var inDesc := options.searchDescriptions &&
      match issue.description
      case Some(d) => Contains(Lower(d), searchTermLower)
      case None => false;
    assert inTitle == InTitle(issue, searchTermLower) && inDesc == InDesc(options, issue, searchTermLower);
    var commentHits: seq<CommentHit> := [];
    if options.searchComments && !inTitle && !inDesc {
      var comments := client.FetchComments(issue.id);
      assert comments == w.result;
      if comments.Ok? {
        commentHits := CollectHits(comments.value, searchTermLower);
      }
    }
    assert commentHits == HitsOf(fetched, searchTermLower);
    if inTitle || inDesc || commentHits != [] {
      var team := TeamLabel(issue.team);
      found := Some(Match(team, issue.identifier, issue.title, issue.url, inTitle, inDesc, commentHits));
    } else {
      found := None;
    }
  }

  /** `search_issues`; it always succeeds. */
  method SearchIssues(client: LinearClient, issues: seq<Issue>, options: SearchOptions) returns (r: Result<seq<Match>, Error>)
    modifies client
    ensures var s := Search(client.server, options, issues, old(client.requestCount));
      r == Ok(s.matches) && client.requestCount == s.count && client.sent == old(client.sent) + s.sent
  {
    var matches: seq<Match> := [];
    var searchTermLower := Lower(options.searchTerm);
    ghost var mine: seq<Request> := [];
    ghost var sources: seq<nat> := [];
    ghost var goal := Search(client.server, options, issues, client.requestCount);
    var i := 0;
    while i < |issues|
      invariant 0 <= i <= |issues|
      invariant goal == SearchFrom(client.server, options, issues, i, client.requestCount, matches, mine, sources)
      invariant client.sent == old(client.sent) + mine
    {
      if client.requestCount >= MaxRequests {
        break;
      }
      ghost var e := Examine(client.server, options, issues[i], client.requestCount);
      SearchFromStep(client.server, options, issues, i, client.requestCount, matches, mine, sources);
      var found := ExamineIssue(client, options, issues[i], searchTermLower);
      mine := mine + e.sent;
      if found.Some? {
        matches := matches + [found.value];
        sources := sources + [i];
      }
      i := i + 1;
    }
    return Ok(matches);
  }
}
