/** The GenesysCloud client (src/index.ts): how each public call turns into
    requests on the vendor's REST API and how the responses are put back
    together. The transport is a function parameter from request to response,
    so that only the order of results is observable, as it is to a caller of
    the source. */
module Client {
  import opened Http
  import opened Seqs
  import opened Genesys

  /** The most values one user search or one bulk presence call carries. */
  const ChunkSize: nat := 50

  const TokenUrl := "https://login.mypurecloud.de/oauth/token"
  const UsersSearchPath := "/api/v2/users/search"
  const BulkPresencePath := "/api/v2/users/presences/bulk"
  const QueueMembersFailed := "failed to get queue members"

  /** The fixed text around the queue id in a queue's first members page. */
  const QueuesPrefix := "/api/v2/routing/queues/"
  const MembersQuery := "/members?pageSize=999"

  /** The fixed text in front of the name in the client's not-found messages. */
  const QueueNotFoundPrefix := "queue with id "
  const UserNotFoundPrefix := "user with email "

  /** The fixed text after the name in the client's not-found messages. */
  const QueueNotFoundSuffix := " not found"
  const UserNotFoundSuffix := " not found in genesys cloud"

  /** The form post that exchanges client credentials for a token: the
      client-credentials grant as a form body, the id and secret as HTTP basic
      credentials. */
  function ClientCredentialsRequest(id: string, secret: string): (t: TokenRequest)
    ensures t.url == TokenUrl && t.body == "grant_type=client_credentials"
    ensures t.contentType == "application/x-www-form-urlencoded"
    ensures t.username == id && t.password == secret
  {
    TokenRequest(TokenUrl, "grant_type=client_credentials", "application/x-www-form-urlencoded", id, secret)
  }

  // ---------------------------------------------------------------------------
  // Bulk user lookup

  /** The search body of a single-user lookup: one EXACT match of the `email`
      field against the single `value`, expanding groups only, with
      permissions enforced and no paging fields. */
  function SingleEmailSearchBody(email: string): (b: SearchBody)
    ensures b.query == [Criterion("EXACT", ["email"], Value(email))]
    ensures b.expand == ["groups"] && b.enforcePermissions
    ensures b.pageSize == None && b.pageNumber == None
  {
    SearchBody([Criterion("EXACT", ["email"], Value(email))], ["groups"], true, None, None)
  }

  /** The search body of one group of a bulk lookup: one EXACT match of the
      `email` field against the group as `values`, expanding groups, presence
      and station, with permissions enforced, first page of up to 999. */
  function EmailSearchBody(emails: seq<string>): (b: SearchBody)
    ensures b.query == [Criterion("EXACT", ["email"], Values(emails))]
    ensures b.expand == ["groups", "presence", "station"] && b.enforcePermissions
    ensures b.pageSize == Some(999) && b.pageNumber == Some(1)
  {
    SearchBody([Criterion("EXACT", ["email"], Values(emails))], ["groups", "presence", "station"], true, Some(999), Some(1))
  }

  /** The email groups of a bulk lookup: the distinct emails in order of first
      occurrence, cut into groups of ChunkSize. */
  function EmailChunks(emails: seq<string>): seq<seq<string>> {
    Chunk(Dedupe(emails), ChunkSize)
  }

  /** The groups of a bulk lookup cover every input email exactly once, hold
      nothing else, are as few as ceil(distinct / ChunkSize) allows, and join
      back into the deduplicated input. */
  lemma EmailChunksPartitionInput(emails: seq<string>)
    ensures Flatten(EmailChunks(emails)) == Dedupe(emails)
    ensures forall e :: e in emails ==>
              exists i :: 0 <= i < |EmailChunks(emails)| && e in EmailChunks(emails)[i]
    ensures forall i, e :: 0 <= i < |EmailChunks(emails)| && e in EmailChunks(emails)[i] ==> e in emails
    ensures forall i :: 0 <= i < |EmailChunks(emails)| ==> NoDuplicates(EmailChunks(emails)[i])
    ensures forall i, j, e :: 0 <= i < j < |EmailChunks(emails)| && e in EmailChunks(emails)[i] ==>
              e !in EmailChunks(emails)[j]
    ensures |EmailChunks(emails)| == (|Dedupe(emails)| + ChunkSize - 1) / ChunkSize
  {
    var d := Dedupe(emails);
    var cs := EmailChunks(emails);
    FlattenChunk(d, ChunkSize);
    ChunkCount(d, ChunkSize);
    FlattenDistinctParts(cs);
    FlattenOfDedupe(emails, cs);
  }

  // ---------------------------------------------------------------------------
  // Bulk presence update

  /** The bulk presence document for one group of user ids. */
  function PresenceEntries(userIds: seq<string>, status: UserStatus): (es: seq<PresenceEntry>)
    ensures |es| == |userIds|
    ensures forall k :: 0 <= k < |es| ==>
              es[k].id == userIds[k] && es[k].source == "PURECLOUD" && es[k].presenceDefinitionId == status.Id()
  {
    seq(|userIds|, k requires 0 <= k < |userIds| => PresenceEntry(userIds[k], "PURECLOUD", status.Id()))
  }

  /** The user ids a bulk presence document addresses, in order. */
  function EntryIds(es: seq<PresenceEntry>): seq<string> {
    seq(|es|, k requires 0 <= k < |es| => es[k].id)
  }

  // ---------------------------------------------------------------------------
  // Queue members

  /** The first page of a queue's members: the queue id sits between the
      routing-queues prefix and the member query asking for 999 per page. */
  function MembersUri(queueId: string): (u: string)
    ensures |u| == |QueuesPrefix| + |queueId| + |MembersQuery|
    ensures u[..|QueuesPrefix|] == QueuesPrefix && u[|QueuesPrefix|..|QueuesPrefix| + |queueId|] == queueId
    ensures u[|QueuesPrefix| + |queueId|..] == MembersQuery
  {
    QueuesPrefix + queueId + MembersQuery
  }

  /** JavaScript truthiness of `string | undefined`: the loop also stops at an
      empty `nextUri`. */
  predicate Truthy(uri: Option<string>) {
    uri.Some? && uri.value != ""
  }

  /** Puts the entities of earlier pages in front of what the rest of a walk
      collects; a failure or an exhausted walk stays as it is. */
  function Prepend(es: seq<QueueMember>, w: Option<Result<seq<QueueMember>, HttpError>>): Option<Result<seq<QueueMember>, HttpError>> {
    match w
    case Some(Success(rest)) => Some(Success(es + rest))
    case _ => w
  }

  lemma PrependNil(w: Option<Result<seq<QueueMember>, HttpError>>)
    ensures Prepend([], w) == w
  {
    if w.Some? && w.value.Success? {
      assert [] + w.value.value == w.value.value;
    }
  }

  lemma PrependAppend(a: seq<QueueMember>, b: seq<QueueMember>, w: Option<Result<seq<QueueMember>, HttpError>>)
    ensures Prepend(a, Prepend(b, w)) == Prepend(a + b, w)
  {
    if w.Some? && w.value.Success? {
      assert a + (b + w.value.value) == (a + b) + w.value.value;
    }
  }

  /** The value of a response, or `default` when it failed. */
  function ValueOr<T, E>(r: Result<T, E>, default: T): T {
    if r.Success? then r.value else default
  }

  function Emails(ms: seq<QueueMember>): (r: seq<string>)
    ensures |r| == |ms| && forall k :: 0 <= k < |ms| ==> r[k] == ms[k].user.email
  {
    seq(|ms|, k requires 0 <= k < |ms| => ms[k].user.email)
  }

  /** What a failed page fetch becomes: a 404 is reported as the queue not
      being found, naming it; any other failure as a plain error. */
  function MembersError(queueId: string, e: HttpError): (r: ClientError)
    ensures r.NotFoundError? <==> e.status == Some(404)
    ensures r.NotFoundError? ==>
              |r.message| >= |QueueNotFoundPrefix| + |queueId|
              && r.message[..|QueueNotFoundPrefix|] == QueueNotFoundPrefix
              && r.message[|QueueNotFoundPrefix|..|QueueNotFoundPrefix| + |queueId|] == queueId
              && r.message[|QueueNotFoundPrefix| + |queueId|..] == QueueNotFoundSuffix
    ensures !r.NotFoundError? ==> r == PlainError(QueueMembersFailed)
  {
    if e.status == Some(404) then NotFoundError(QueueNotFoundPrefix + queueId + QueueNotFoundSuffix)
    else PlainError(QueueMembersFailed)
  }

  /** The outcome of a finished walk as the client reports it. */
  function MembersOutcome(queueId: string, w: Result<seq<QueueMember>, HttpError>): (r: Result<seq<string>, ClientError>)
    ensures r.Success? <==> w.Success?
    ensures w.Success? ==> |r.value| == |w.value| && forall k :: 0 <= k < |w.value| ==> r.value[k] == w.value[k].user.email
    ensures w.Failure? ==> r.error == MembersError(queueId, w.error)
  {
    match w
    case Success(ms) => Success(Emails(ms))
    case Failure(e) => Failure(MembersError(queueId, e))
  }

  class GenesysCloud {
    /** `Authorization` among the axios instance's default headers; every
        request through the instance carries it. */
    var authorization: Option<string>

    constructor()
      ensures authorization == None
    {
      authorization := None;
    }

    method LoginWithClientCredentials(id: string, secret: string, oauth: TokenRequest -> Result<AccessToken, HttpError>)
      returns (r: Result<AccessToken, ClientError>)
      modifies this
      ensures r.Success? <==> oauth(ClientCredentialsRequest(id, secret)).Success?
      ensures r.Success? ==> r.value == oauth(ClientCredentialsRequest(id, secret)).value
      ensures r.Success? ==> authorization == Some("Bearer " + r.value.accessToken)
      ensures r.Failure? ==> r.error == Transport(oauth(ClientCredentialsRequest(id, secret)).error)
      ensures r.Failure? ==> authorization == old(authorization)
    {
      var response := oauth(ClientCredentialsRequest(id, secret));
      if response.Failure? {
        return Failure(Transport(response.error));
      }
      authorization := Some("Bearer " + response.value.accessToken);
      r := Success(response.value);
    }

    method SetAccessToken(token: AccessToken)
      modifies this
      ensures authorization == Some("Bearer " + token.accessToken)
    {
      authorization := Some("Bearer " + token.accessToken);
    }

    // -------------------------------------------------------------------------
    // User lookup

    /** The single-user search: a POST to the user-search endpoint with the
        current Authorization and the single-email body. */
    function UserByEmailRequest(email: string): (rq: Request<SearchBody>)
      reads this
      ensures rq.verb == Post && rq.path == UsersSearchPath && rq.authorization == authorization
      ensures rq.body == SingleEmailSearchBody(email)
    {
      Request(Post, UsersSearchPath, authorization, SingleEmailSearchBody(email))
    }

    /** A single user by email: the first result, and only when the search
        reports exactly one match; any other total is a plain error, not a
        NotFoundError. `None` stands for JavaScript's `undefined` when a total
        of one comes with an empty result list. */
    function GetUserByEmail(email: string, send: Request<SearchBody> -> Result<SearchResponse, HttpError>)
      : (r: Result<Option<User>, ClientError>)
      reads this
      ensures var response := send(UserByEmailRequest(email));
        (r.Success? <==> response.Success? && response.value.total == 1)
        && (r.Success? && response.value.results != [] ==> r.value == Some(response.value.results[0]))
        && (r.Success? && response.value.results == [] ==> r.value == None)
        && (response.Failure? ==> r == Failure(Transport(response.error)))
        && (response.Success? && response.value.total != 1 ==>
              r.Failure? && r.error.PlainError? && |r.error.message| >= |UserNotFoundPrefix| + |email|
              && r.error.message[..|UserNotFoundPrefix|] == UserNotFoundPrefix
              && r.error.message[|UserNotFoundPrefix|..|UserNotFoundPrefix| + |email|] == email
              && r.error.message[|UserNotFoundPrefix| + |email|..] == UserNotFoundSuffix)
    {
      match send(UserByEmailRequest(email))
      case Failure(e) => Failure(Transport(e))
      case Success(response) =>
        if response.total != 1 then Failure(PlainError(UserNotFoundPrefix + email + UserNotFoundSuffix))
        else if response.results == [] then Success(None)
        else Success(Some(response.results[0]))
    }

    /** One POST search with the current Authorization per group of
        EmailChunks, in group order, asking for exactly that group's emails. */
    function UserSearchRequests(emails: seq<string>): (rqs: seq<Request<SearchBody>>)
      reads this
      ensures |rqs| == |EmailChunks(emails)|
      ensures forall i :: 0 <= i < |rqs| ==>
                rqs[i].verb == Post && rqs[i].path == UsersSearchPath && rqs[i].authorization == authorization
                && rqs[i].body == EmailSearchBody(EmailChunks(emails)[i])
    {
      var cs, auth := EmailChunks(emails), authorization;
      seq(|cs|, i requires 0 <= i < |cs| => Request(Post, UsersSearchPath, auth, EmailSearchBody(cs[i])))
    }

    /** The users found are the `results` of every search, in request order;
        one failed search fails the whole lookup with that search's error. */
    function GetUsersByEmail(emails: seq<string>, send: Request<SearchBody> -> Result<SearchResponse, HttpError>)
      : (r: Result<seq<User>, ClientError>)
      reads this
      ensures var rqs := UserSearchRequests(emails);
        r.Success? <==> forall i :: 0 <= i < |rqs| ==> send(rqs[i]).Success?
      ensures var rqs := UserSearchRequests(emails);
        r.Success? ==> r.value == Flatten(seq(|rqs|, i requires 0 <= i < |rqs| => ValueOr(send(rqs[i]), SearchResponse(0, [])).results))
      ensures var rqs := UserSearchRequests(emails);
        r.Failure? ==> r.error.Transport? && exists i :: 0 <= i < |rqs| && send(rqs[i]) == Failure(r.error.cause)
    {
      var rqs := UserSearchRequests(emails);
      var responses := seq(|rqs|, i requires 0 <= i < |rqs| => send(rqs[i]));
      assert forall i :: 0 <= i < |rqs| ==> responses[i] == send(rqs[i]);
      match JoinAll(responses)
      case Failure(e) => Failure(Transport(e))
      case Success(vs) =>
        var found := seq(|vs|, i requires 0 <= i < |vs| => vs[i].results);
        assert found == seq(|rqs|, i requires 0 <= i < |rqs| => ValueOr(send(rqs[i]), SearchResponse(0, [])).results);
        Success(Flatten(found))
    }

    // -------------------------------------------------------------------------
    // Bulk presence

    /** One bulk presence request per group of ChunkSize user ids. */
    function BulkPresenceRequests(userIds: seq<string>, status: UserStatus): seq<Request<seq<PresenceEntry>>>
      reads this
    {
      var cs, auth := Chunk(userIds, ChunkSize), authorization;
      seq(|cs|, i requires 0 <= i < |cs| => Request(Put, BulkPresencePath, auth, PresenceEntries(cs[i], status)))
    }

    /** The presences returned are every bulk response's list, in request
        order; one failed call fails the whole update with that call's error. */
    function SetBulkUserStatus(userIds: seq<string>, status: UserStatus,
                               send: Request<seq<PresenceEntry>> -> Result<seq<UserPresence>, HttpError>)
      : (r: Result<seq<UserPresence>, ClientError>)
      reads this
      ensures var rqs := BulkPresenceRequests(userIds, status);
        r.Success? <==> forall i :: 0 <= i < |rqs| ==> send(rqs[i]).Success?
      ensures var rqs := BulkPresenceRequests(userIds, status);
        r.Success? ==> r.value == Flatten(seq(|rqs|, i requires 0 <= i < |rqs| => ValueOr(send(rqs[i]), [])))
      ensures var rqs := BulkPresenceRequests(userIds, status);
        r.Failure? ==> r.error.Transport? && exists i :: 0 <= i < |rqs| && send(rqs[i]) == Failure(r.error.cause)
    {
      var rqs := BulkPresenceRequests(userIds, status);
      var responses := seq(|rqs|, i requires 0 <= i < |rqs| => send(rqs[i]));
      assert forall i :: 0 <= i < |rqs| ==> responses[i] == send(rqs[i]);
      match JoinAll(responses)
      case Failure(e) => Failure(Transport(e))
      case Success(vs) =>
        assert vs == seq(|rqs|, i requires 0 <= i < |rqs| => ValueOr(send(rqs[i]), []));
        Success(Flatten(vs))
    }

    /** The bulk documents address every user id once per occurrence, in the
        input order and without deduplication, in groups of ChunkSize with only
        the last one shorter, each entry setting `status` from the PURECLOUD
        source, one PUT per group with the current Authorization. */
    lemma BulkPresenceRequestsCoverIds(userIds: seq<string>, status: UserStatus)
      ensures var rqs := BulkPresenceRequests(userIds, status);
        |rqs| == (|userIds| + ChunkSize - 1) / ChunkSize
        && Flatten(seq(|rqs|, i requires 0 <= i < |rqs| => EntryIds(rqs[i].body))) == userIds
        && (forall i :: 0 <= i < |rqs| ==>
              rqs[i].verb == Put && rqs[i].path == BulkPresencePath && rqs[i].authorization == authorization
              && 1 <= |rqs[i].body| <= ChunkSize)
        && (forall i :: 0 <= i < |rqs| - 1 ==> |rqs[i].body| == ChunkSize)
        && (forall i, k :: 0 <= i < |rqs| && 0 <= k < |rqs[i].body| ==>
              rqs[i].body[k].source == "PURECLOUD" && rqs[i].body[k].presenceDefinitionId == status.Id())
    {
      var rqs := BulkPresenceRequests(userIds, status);
      var cs := Chunk(userIds, ChunkSize);
      FlattenChunk(userIds, ChunkSize);
      ChunkCount(userIds, ChunkSize);
      forall i | 0 <= i < |rqs| ensures EntryIds(rqs[i].body) == cs[i] {
        assert rqs[i].body == PresenceEntries(cs[i], status);
      }
      assert seq(|rqs|, i requires 0 <= i < |rqs| => EntryIds(rqs[i].body)) == cs;
    }

    /** 120 ids go out as three bulk calls of 50, 50 and 20 entries, in order. */
    lemma BulkPresenceOf120(userIds: seq<string>, status: UserStatus)
      requires |userIds| == 120
      ensures var rqs := BulkPresenceRequests(userIds, status);
        |rqs| == 3
        && EntryIds(rqs[0].body) == userIds[..50]
        && EntryIds(rqs[1].body) == userIds[50..100]
        && EntryIds(rqs[2].body) == userIds[100..]
        && |rqs[2].body| == 20
    {
      var rest := userIds[50..];
      assert rest[..50] == userIds[50..100] && rest[50..] == userIds[100..];
      assert Chunk(userIds[100..], ChunkSize) == [userIds[100..]];
      assert Chunk(rest, ChunkSize) == [userIds[50..100]] + [userIds[100..]];
      assert Chunk(userIds, ChunkSize) == [userIds[..50], userIds[50..100], userIds[100..]];
      var rqs := BulkPresenceRequests(userIds, status);
      assert EntryIds(PresenceEntries(userIds[..50], status)) == userIds[..50];
      assert EntryIds(PresenceEntries(userIds[50..100], status)) == userIds[50..100];
      assert EntryIds(PresenceEntries(userIds[100..], status)) == userIds[100..];
    }

    // -------------------------------------------------------------------------
    // Queue membership

    function JoinQueuesRequest(userId: string, queues: seq<UserQueue>, joined: bool): (rq: Request<seq<QueueJoin>>)
      reads this
      ensures rq.verb == Patch && rq.path == "/api/v2/users/" + userId + "/queues"
      ensures rq.authorization == authorization
      ensures |rq.body| == |queues|
      ensures forall k :: 0 <= k < |queues| ==> rq.body[k].id == queues[k].id && rq.body[k].joined == joined
    {
      Request(Patch, "/api/v2/users/" + userId + "/queues", authorization,
              seq(|queues|, k requires 0 <= k < |queues| => QueueJoin(queues[k].id, joined)))
    }

    function JoinQueuesForUser<R>(userId: string, queues: seq<UserQueue>, joined: bool,
                                  send: Request<seq<QueueJoin>> -> Result<R, HttpError>)
      : (r: Result<(), ClientError>)
      reads this
      ensures r.Success? <==> send(JoinQueuesRequest(userId, queues, joined)).Success?
      ensures r.Failure? ==> r.error == Transport(send(JoinQueuesRequest(userId, queues, joined)).error)
    {
      match send(JoinQueuesRequest(userId, queues, joined))
      case Failure(e) => Failure(Transport(e))
      case Success(_) => Success(())
    }

    function AddQueueRequests(userId: string, queueIds: seq<string>): (rqs: seq<Request<seq<MemberRef>>>)
      reads this
      ensures |rqs| == |queueIds|
      ensures forall i :: 0 <= i < |rqs| ==>
                rqs[i].verb == Post && rqs[i].path == "/api/v2/routing/queues/" + queueIds[i] + "/members"
                && rqs[i].authorization == authorization && rqs[i].body == [MemberRef(userId)]
    {
      var auth := authorization;
      seq(|queueIds|, i requires 0 <= i < |queueIds| =>
        Request(Post, "/api/v2/routing/queues/" + queueIds[i] + "/members", auth, [MemberRef(userId)]))
    }

    /** Adds the user to every queue, one request per queue; it succeeds only
        when every request does. */
    function AddQueuesToUser<R>(userId: string, queueIds: seq<string>,
                                send: Request<seq<MemberRef>> -> Result<R, HttpError>)
      : (r: Result<(), ClientError>)
      reads this
      ensures r.Success? <==> forall i :: 0 <= i < |queueIds| ==> send(AddQueueRequests(userId, queueIds)[i]).Success?
      ensures r.Failure? ==> r.error.Transport?
      ensures r.Failure? ==>
                exists i :: 0 <= i < |queueIds| && send(AddQueueRequests(userId, queueIds)[i]) == Failure(r.error.cause)
    {
      var rqs := AddQueueRequests(userId, queueIds);
      var responses := seq(|rqs|, i requires 0 <= i < |rqs| => send(rqs[i]));
      assert forall i :: 0 <= i < |rqs| ==> responses[i] == send(rqs[i]);
      match JoinAll(responses)
      case Failure(e) => Failure(Transport(e))
      case Success(_) => Success(())
    }

    // -------------------------------------------------------------------------
    // Queue members, page by page

    /** One page fetch of the paginator: a GET of `uri` as given, with the
        current Authorization and no body. */
    function MembersRequest(uri: string): (rq: Request<()>)
      reads this
      ensures rq.verb == Get && rq.path == uri && rq.authorization == authorization
    {
      Request(Get, uri, authorization, ())
    }

    /** Follows the `nextUri` chain from `uri` with at most `fuel` fetches:
        `None` when the fuel runs out first, otherwise the first failure or
        all entities in page order. */
    function Walk(uri: string, fetch: Request<()> -> Result<MembersPage, HttpError>, fuel: nat)
      : (w: Option<Result<seq<QueueMember>, HttpError>>)
      reads this
      ensures fuel == 0 ==> w == None
      ensures fuel > 0 && fetch(MembersRequest(uri)).Failure? ==> w == Some(Failure(fetch(MembersRequest(uri)).error))
      ensures w.Some? && w.value.Success? ==>
                fetch(MembersRequest(uri)).Success? && fetch(MembersRequest(uri)).value.entities <= w.value.value
      decreases fuel
    {
      if fuel == 0 then None
      else match fetch(MembersRequest(uri))
        case Failure(e) => Some(Failure(e))
        case Success(page) =>
          if Truthy(page.nextUri) then Prepend(page.entities, Walk(page.nextUri.value, fetch, fuel - 1))
          else Some(Success(page.entities))
    }

    /** The URIs such a walk fetches, in order. */
    function Trace(uri: string, fetch: Request<()> -> Result<MembersPage, HttpError>, fuel: nat): (t: seq<string>)
      reads this
      ensures |t| <= fuel
      ensures fuel > 0 ==> |t| >= 1 && t[0] == uri
      decreases fuel
    {
      if fuel == 0 then []
      else match fetch(MembersRequest(uri))
        case Failure(_) => [uri]
        case Success(page) =>
          if Truthy(page.nextUri) then [uri] + Trace(page.nextUri.value, fetch, fuel - 1) else [uri]
    }

    /** A page whose `nextUri` is absent or empty ends the loop: `while (uri)`
        tests JavaScript truthiness, so the empty string stops it as well. */
    lemma LastPageEndsWalk(uri: string, fetch: Request<()> -> Result<MembersPage, HttpError>, fuel: nat)
      requires fuel > 0 && fetch(MembersRequest(uri)).Success?
      requires fetch(MembersRequest(uri)).value.nextUri in {None, Some("")}
      ensures Walk(uri, fetch, fuel) == Some(Success(fetch(MembersRequest(uri)).value.entities))
      ensures Trace(uri, fetch, fuel) == [uri]
    {
    }

    /** Once a walk finishes, more fuel changes neither its outcome nor the
        URIs it fetches. */
    lemma {:induction false} WalkFuelIrrelevant(uri: string, fetch: Request<()> -> Result<MembersPage, HttpError>, fuel: nat, more: nat)
      requires Walk(uri, fetch, fuel).Some? && fuel <= more
      ensures Walk(uri, fetch, more) == Walk(uri, fetch, fuel)
      ensures Trace(uri, fetch, more) == Trace(uri, fetch, fuel)
      decreases fuel
    {
      match fetch(MembersRequest(uri))
      case Failure(_) =>
      case Success(page) =>
        if Truthy(page.nextUri) {
          WalkFuelIrrelevant(page.nextUri.value, fetch, fuel - 1, more - 1);
        }
    }

    /** `uri` names a page that was fetched and links on to `next`. */
    predicate Links(uri: string, next: string, fetch: Request<()> -> Result<MembersPage, HttpError>)
      reads this
    {
      fetch(MembersRequest(uri)).Success? && fetch(MembersRequest(uri)).value.nextUri == Some(next) && next != ""
    }

    /** The entities of the pages at `uris`, one page after the other. */
    function EntitiesAlong(uris: seq<string>, fetch: Request<()> -> Result<MembersPage, HttpError>): seq<QueueMember>
      reads this
    {
      if uris == [] then []
      else ValueOr(fetch(MembersRequest(uris[0])), MembersPage([], None)).entities + EntitiesAlong(uris[1..], fetch)
    }

    /** A finished walk is the state machine of the loop: it starts at `uri`,
        each later fetch is at the previous page's `nextUri`, and it stops at
        the first failure or at the first page without a `nextUri`; when every
        fetch succeeded it collects the pages' entities in fetch order. */
    lemma {:induction false} WalkFollowsNextUri(uri: string, fetch: Request<()> -> Result<MembersPage, HttpError>, fuel: nat)
      requires Walk(uri, fetch, fuel).Some?
      ensures var t := Trace(uri, fetch, fuel);
        |t| >= 1 && t[0] == uri
        && (forall k :: 0 <= k < |t| - 1 ==> Links(t[k], t[k + 1], fetch))
      ensures var t, w := Trace(uri, fetch, fuel), Walk(uri, fetch, fuel).value;
        w.Success? ==>
          fetch(MembersRequest(t[|t| - 1])).Success?
          && !Truthy(fetch(MembersRequest(t[|t| - 1])).value.nextUri)
          && w.value == EntitiesAlong(t, fetch)
      ensures var t, w := Trace(uri, fetch, fuel), Walk(uri, fetch, fuel).value;
        w.Failure? ==> fetch(MembersRequest(t[|t| - 1])) == Failure(w.error)
      decreases fuel
    {
      TraceLinks(uri, fetch, fuel);
      WalkEnds(uri, fetch, fuel);
    }

    lemma {:induction false} TraceLinks(uri: string, fetch: Request<()> -> Result<MembersPage, HttpError>, fuel: nat)
      requires Walk(uri, fetch, fuel).Some?
      ensures forall k :: 0 <= k < |Trace(uri, fetch, fuel)| - 1 ==>
                Links(Trace(uri, fetch, fuel)[k], Trace(uri, fetch, fuel)[k + 1], fetch)
      decreases fuel
    {
      var rsp := fetch(MembersRequest(uri));
      if rsp.Success? && Truthy(rsp.value.nextUri) {
        var next := rsp.value.nextUri.value;
        TraceLinks(next, fetch, fuel - 1);
        var t, t' := Trace(uri, fetch, fuel), Trace(next, fetch, fuel - 1);
        assert t == [uri] + t' && t[1] == next;
        assert Links(uri, next, fetch);
        forall k | 0 <= k < |t| - 1 ensures Links(t[k], t[k + 1], fetch) {
          if k > 0 {
            assert t[k] == t'[k - 1] && t[k + 1] == t'[k];
          }
        }
      } else {
        assert Trace(uri, fetch, fuel) == [uri];
      }
    }

    lemma {:induction false} WalkEnds(uri: string, fetch: Request<()> -> Result<MembersPage, HttpError>, fuel: nat)
      requires Walk(uri, fetch, fuel).Some?
      ensures var t, w := Trace(uri, fetch, fuel), Walk(uri, fetch, fuel).value;
        w.Success? ==>
          fetch(MembersRequest(t[|t| - 1])).Success?
          && !Truthy(fetch(MembersRequest(t[|t| - 1])).value.nextUri)
          && w.value == EntitiesAlong(t, fetch)
      ensures var t, w := Trace(uri, fetch, fuel), Walk(uri, fetch, fuel).value;
        w.Failure? ==> fetch(MembersRequest(t[|t| - 1])) == Failure(w.error)
      decreases fuel
    {
      var rsp := fetch(MembersRequest(uri));
      var t := Trace(uri, fetch, fuel);
      if rsp.Success? && Truthy(rsp.value.nextUri) {
        var page := rsp.value;
        var next := page.nextUri.value;
        WalkEnds(next, fetch, fuel - 1);
        var t' := Trace(next, fetch, fuel - 1);
        assert t == [uri] + t' && t[1..] == t';
        assert t[|t| - 1] == t'[|t'| - 1];
        assert EntitiesAlong(t, fetch) == page.entities + EntitiesAlong(t', fetch);
      } else {
        assert t == [uri] && t[1..] == [];
      }
    }

    /** All page fetches of one call: the first at `/members?pageSize=999` of
        the queue, each further one at the previous page's `nextUri`, until a
        page has none or a fetch fails. The queue members' emails in page order
        then, or on any failure no list at all but NotFoundError for a 404 and
        a plain error otherwise. The `nextUri` chain must end: the loop has no
        bound of its own. */
    method GetQueueMembers(queueId: string, fetch: Request<()> -> Result<MembersPage, HttpError>)
      returns (r: Result<seq<string>, ClientError>, ghost requested: seq<string>)
      requires exists fuel: nat :: Walk(MembersUri(queueId), fetch, fuel).Some?
      ensures forall fuel: nat :: Walk(MembersUri(queueId), fetch, fuel).Some? ==>
                r == MembersOutcome(queueId, Walk(MembersUri(queueId), fetch, fuel).value)
      ensures forall fuel: nat :: Walk(MembersUri(queueId), fetch, fuel).Some? ==>
                requested == Trace(MembersUri(queueId), fetch, fuel)
    {
      var start := MembersUri(queueId);
      ghost var fuel: nat :| Walk(start, fetch, fuel).Some?;
      ghost var left := fuel;
      var uri: Option<string> := Some(start);
      var entities: seq<QueueMember> := [];
      requested := [];
      PrependNil(Walk(start, fetch, left));
      while Truthy(uri)
        invariant Truthy(uri) ==> Walk(uri.value, fetch, left).Some?
        invariant Truthy(uri) ==> Walk(start, fetch, fuel) == Prepend(entities, Walk(uri.value, fetch, left))
        invariant Truthy(uri) ==> Trace(start, fetch, fuel) == requested + Trace(uri.value, fetch, left)
        invariant !Truthy(uri) ==> Walk(start, fetch, fuel) == Some(Success(entities))
        invariant !Truthy(uri) ==> Trace(start, fetch, fuel) == requested
        decreases left
      {
        WalkStep(start, fuel, uri.value, left, entities, requested, fetch);
        var response := fetch(MembersRequest(uri.value));
        requested := requested + [uri.value];
        if response.Failure? {
          r := Failure(MembersError(queueId, response.error));
          Conclude(queueId, fetch, fuel, r, requested);
          return;
        }
        var page := response.value;
        left := left - 1;
        uri := page.nextUri;
        entities := entities + page.entities;
      }
      r := Success(Emails(entities));
      Conclude(queueId, fetch, fuel, r, requested);
    }

    /** One turn of the paginator loop: the walk from `start` so far has
        collected `entities` and fetched `requested`, and the rest of it is the
        walk from `uri`; fetching `uri` either ends the walk or moves it to the
        page's `nextUri` with one fetch less left. */
    lemma WalkStep(start: string, fuel: nat, uri: string, left: nat, entities: seq<QueueMember>, requested: seq<string>,
                   fetch: Request<()> -> Result<MembersPage, HttpError>)
      requires Walk(uri, fetch, left).Some?
      requires Walk(start, fetch, fuel) == Prepend(entities, Walk(uri, fetch, left))
      requires Trace(start, fetch, fuel) == requested + Trace(uri, fetch, left)
      ensures left > 0
      ensures var rsp := fetch(MembersRequest(uri));
        rsp.Failure? ==>
          Walk(start, fetch, fuel) == Some(Failure(rsp.error)) && Trace(start, fetch, fuel) == requested + [uri]
      ensures var rsp := fetch(MembersRequest(uri));
        rsp.Success? && Truthy(rsp.value.nextUri) ==>
          Walk(rsp.value.nextUri.value, fetch, left - 1).Some?
          && Walk(start, fetch, fuel) == Prepend(entities + rsp.value.entities, Walk(rsp.value.nextUri.value, fetch, left - 1))
          && Trace(start, fetch, fuel) == (requested + [uri]) + Trace(rsp.value.nextUri.value, fetch, left - 1)
      ensures var rsp := fetch(MembersRequest(uri));
        rsp.Success? && !Truthy(rsp.value.nextUri) ==>
          Walk(start, fetch, fuel) == Some(Success(entities + rsp.value.entities))
          && Trace(start, fetch, fuel) == requested + [uri]
    {
      var rsp := fetch(MembersRequest(uri));
      if rsp.Success? && Truthy(rsp.value.nextUri) {
        var next := rsp.value.nextUri.value;
        PrependAppend(entities, rsp.value.entities, Walk(next, fetch, left - 1));
        assert requested + ([uri] + Trace(next, fetch, left - 1)) == (requested + [uri]) + Trace(next, fetch, left - 1);
      }
    }

    /** Extends what the loop shows for the fuel it picked to every fuel that
        suffices. */
    lemma Conclude(queueId: string, fetch: Request<()> -> Result<MembersPage, HttpError>, fuel: nat,
                   r: Result<seq<string>, ClientError>, requested: seq<string>)
      requires Walk(MembersUri(queueId), fetch, fuel).Some?
      requires r == MembersOutcome(queueId, Walk(MembersUri(queueId), fetch, fuel).value)
      requires requested == Trace(MembersUri(queueId), fetch, fuel)
      ensures forall f: nat :: Walk(MembersUri(queueId), fetch, f).Some? ==>
                r == MembersOutcome(queueId, Walk(MembersUri(queueId), fetch, f).value)
                && requested == Trace(MembersUri(queueId), fetch, f)
    {
      forall f: nat | Walk(MembersUri(queueId), fetch, f).Some?
        ensures r == MembersOutcome(queueId, Walk(MembersUri(queueId), fetch, f).value)
        ensures requested == Trace(MembersUri(queueId), fetch, f)
      {
        if f <= fuel {
          WalkFuelIrrelevant(MembersUri(queueId), fetch, f, fuel);
        } else {
          WalkFuelIrrelevant(MembersUri(queueId), fetch, fuel, f);
        }
      }
    }
  }

  /** A three-page queue: the first two pages link on, the third does not. */
  function ThreePageServer(m1: QueueMember, m2: QueueMember, m3: QueueMember): Request<()> -> Result<MembersPage, HttpError> {
    (rq: Request<()>) =>
      if rq.path == MembersUri("q1") then Success(MembersPage([m1], Some("/p2")))
      else if rq.path == "/p2" then Success(MembersPage([m2], Some("/p3")))
      else if rq.path == "/p3" then Success(MembersPage([m3], None))
      else Failure(HttpError(Some(404)))
  }

  /** Over three pages the client fetches exactly those three, in link order,
      and reports the members' emails in page order. */
  lemma ThreePageQueue(c: GenesysCloud, m1: QueueMember, m2: QueueMember, m3: QueueMember)
    ensures var fetch, u := ThreePageServer(m1, m2, m3), MembersUri("q1");
      c.Walk(u, fetch, 3) == Some(Success([m1, m2, m3]))
      && c.Walk(u, fetch, 2) == None
      && c.Trace(u, fetch, 3) == [u, "/p2", "/p3"]
      && MembersOutcome("q1", c.Walk(u, fetch, 3).value) == Success([m1.user.email, m2.user.email, m3.user.email])
  {
    var fetch, u := ThreePageServer(m1, m2, m3), MembersUri("q1");
    assert u != "/p2" && u != "/p3" by { assert |u| > 3; }
    assert fetch(c.MembersRequest(u)) == Success(MembersPage([m1], Some("/p2")));
    assert fetch(c.MembersRequest("/p2")) == Success(MembersPage([m2], Some("/p3")));
    assert fetch(c.MembersRequest("/p3")) == Success(MembersPage([m3], None));
    assert c.Walk("/p3", fetch, 1) == Some(Success([m3]));
    assert c.Walk("/p2", fetch, 2) == Some(Success([m2] + [m3]));
    assert c.Walk("/p2", fetch, 1) == None;
    assert c.Trace("/p2", fetch, 2) == ["/p2", "/p3"];
    assert [m1] + ([m2] + [m3]) == [m1, m2, m3];
    var es := Emails([m1, m2, m3]);
    assert es == [es[0], es[1], es[2]];
  }

  /** The first page of "q2" links to a page that does not exist. */
  function MissingSecondPageServer(m1: QueueMember): Request<()> -> Result<MembersPage, HttpError> {
    (rq: Request<()>) =>
      if rq.path == MembersUri("q2") then Success(MembersPage([m1], Some("/p2")))
      else Failure(HttpError(Some(404)))
  }

  /** When a later page is missing, the members already collected are dropped
      and the call reports the queue as not found. */
  lemma SecondPageMissing(c: GenesysCloud, m1: QueueMember)
    ensures var fetch, u := MissingSecondPageServer(m1), MembersUri("q2");
      c.Walk(u, fetch, 2) == Some(Failure(HttpError(Some(404))))
      && MembersOutcome("q2", c.Walk(u, fetch, 2).value) == Failure(NotFoundError("queue with id q2 not found"))
  {
    var fetch, u := MissingSecondPageServer(m1), MembersUri("q2");
    assert u != "/p2" by { assert |u| > 3; }
    assert fetch(c.MembersRequest("/p2")) == Failure(HttpError(Some(404)));
    assert "queue with id " + "q2" + " not found" == "queue with id q2 not found";
  }
}
