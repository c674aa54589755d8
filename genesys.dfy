/** The vendor payloads the client builds and reads, cut down to the fields
    it touches (src/interfaces/genesyscloud.ts, src/enums/index.ts). */
module Genesys {
  import opened Http

  /** The OAuth token envelope (IAcessToken). */
  datatype AccessToken = AccessToken(accessToken: string, tokenType: string, expiresIn: int)

  /** What the client posts to the OAuth endpoint: a form body with HTTP basic
      credentials. */
  datatype TokenRequest = TokenRequest(url: string, body: string, contentType: string, username: string, password: string)

  datatype User = User(id: string, name: string, email: string)

  /** A user-search envelope (ISearchResponse). */
  datatype SearchResponse = SearchResponse(total: int, results: seq<User>)

  /** One match criterion of a user search: a single `value` or a list of
      `values`. */
  datatype Term = Value(value: string) | Values(values: seq<string>)

  datatype Criterion = Criterion(kind: string, fields: seq<string>, term: Term)

  datatype SearchBody = SearchBody(
    query: seq<Criterion>,
    expand: seq<string>,
    enforcePermissions: bool,
    pageSize: Option<int>,
    pageNumber: Option<int>)

  /** The presence statuses the client can set, with their definition ids. */
  datatype UserStatus = Available | Offline {
    function Id(): string {
      match this
      case Available => "6a3af858-942f-489d-9700-5f9bcdcdae9b"
      case Offline => "ccf3c10a-aa2c-4845-8e8d-f59fa48c58e5"
    }
  }

  /** One element of a bulk presence document. */
  datatype PresenceEntry = PresenceEntry(id: string, source: string, presenceDefinitionId: string)

  datatype UserPresence = UserPresence(source: string, presenceDefinitionId: string, message: string)

  datatype UserQueue = UserQueue(id: string, name: string, joined: bool)

  /** One element of a queue-join document. */
  datatype QueueJoin = QueueJoin(id: string, joined: bool)

  /** One element of a queue-member add document. */
  datatype MemberRef = MemberRef(id: string)

  datatype QueueMember = QueueMember(id: string, name: string, user: User, joined: bool)

  /** A page of queue members (IGetMembersResponse) with its optional link to
      the next page. */
  datatype MembersPage = MembersPage(entities: seq<QueueMember>, nextUri: Option<string>)
}
