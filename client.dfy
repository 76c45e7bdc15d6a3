/**
 * The client facade: an API key and a host, the request each client method
 * sends, and what each method makes of the transport's reply.
 *
 * Every client method builds a body that carries the key (and, when it is about
 * one contract, the contract id), POSTs it to `https://{host}{path}`, and hands
 * back the decoded reply, sometimes narrowed. `CallFor` is the first half: the
 * URL and body of each operation. The transport is I/O and is not modelled: its
 * outcome enters as a `Reply`, the pair of a decoded value (or nil) and an error
 * (or nil) that Go's `MakeRequest` returns. The projections (`ListResult`,
 * `AddRecordResult`, `SendMessageResult`) are the second half.
 */
module MaigoClient {
  import opened Wrappers
  import MessageOptions

  /** The host a client targets until `UpdateHost` changes it. */
  const DefaultHost: string := "medsenger.ru"

  /** `Init`'s check on the key: strictly longer than ten characters. */
  predicate KeyAccepted(apiKey: string) {
    |apiKey| > 10
  }

  datatype TokenOnlyRequest = TokenOnlyRequest(apiKey: string)

  datatype TokenAndContractRequest = TokenAndContractRequest(token: TokenOnlyRequest, contractId: int)

  /** The parts of a `url.URL` the client sets. */
  datatype Url = Url(scheme: string, host: string, path: string)

  /** One record of a batch insert. */
  datatype Record = Record(categoryName: string, value: string, time: MessageOptions.Timestamp)

  /** The fields a contract-scoped body carries besides the key and the contract id. */
  datatype Extra =
    | NoExtra
    | Message(message: MessageOptions.Payload)
    | MessageId(messageId: int)
    | CategoryFilter(categoryName: string)
    | RecordId(recordId: int)
    | Addition(recordId: int, note: string)
    | NewRecord(categoryName: string, value: string, returnId: bool, time: MessageOptions.Timestamp, params: Option<string>)
    | NewRecords(values: seq<Record>, returnId: bool)

  /** A request body: the key alone, or the key and a contract with extra fields. */
  datatype Body =
    | KeyOnly(token: TokenOnlyRequest)
    | ForContract(base: TokenAndContractRequest, extra: Extra)

  /** What one client method POSTs, and where. */
  datatype Call = Call(url: Url, body: Body)

  /**
   * The client methods with the arguments that reach the request. `params` of
   * `AddRecord` is the marshalled JSON, kept opaque; `categoryName` of
   * `GetRecords` is whatever filter its options left in the request.
   */
  datatype Operation =
    | GetContractInfo(contractId: int)
    | GetClinicsInfo
    | SendMessage(contractId: int, text: string, opts: seq<MessageOptions.SendMessageOption>)
    | OutDateMessage(contractId: int, messageId: int)
    | GetCategories
    | GetAvailableCategories(contractId: int)
    | GetRecords(contractId: int, categoryName: string)
    | GetRecord(contractId: int, recordId: int)
    | SendRecordAddition(contractId: int, recordId: int, note: string)
    | GetAgentTokenForContractId(contractId: int)
    | AddRecord(contractId: int, categoryName: string, value: string, recordTime: MessageOptions.Instant, params: Option<string>)
    | AddRecords(contractId: int, records: seq<Record>)

  /** The endpoint path each client method uses. */
  function Path(op: Operation): string {
    match op
    case GetContractInfo(_) => "/api/agents/patient/info"
    case GetClinicsInfo => "/api/agents/clinics"
    case SendMessage(_, _, _) => "/api/agents/message"
    case OutDateMessage(_, _) => "/api/agents/message/outdate"
    case GetCategories => "/api/agents/records/categories"
    case GetAvailableCategories(_) => "/api/agents/records/available_categories"
    case GetRecords(_, _) => "/api/agents/records/get/all"
    case GetRecord(_, _) => "/api/agents/records/get"
    case SendRecordAddition(_, _, _) => "/api/agents/records/addition"
    case GetAgentTokenForContractId(_) => "/api/agents/token"
    case AddRecord(_, _, _, _, _) => "/api/agents/records/add"
    case AddRecords(_, _) => "/api/agents/records/add"
  }

  /** The contract an operation is about; the two catalogue reads are about none. */
  function ContractOf(op: Operation): Option<int> {
    if op.GetClinicsInfo? || op.GetCategories? then None else Some(op.contractId)
  }

  /** The key a body carries. */
  function KeyOf(b: Body): string {
    match b
    case KeyOnly(t) => t.apiKey
    case ForContract(base, _) => base.token.apiKey
  }

  /** The contract id a body carries, if any. */
  function ContractIdOf(b: Body): Option<int> {
    match b
    case KeyOnly(_) => None
    case ForContract(base, _) => Some(base.contractId)
  }

  /** A Medsenger agent client. */
  class Client {
    var apiKey: string  // the secret assigned to the agent
    var host: string    // the Medsenger host requests go to

    /** What `Init` establishes and `UpdateHost` keeps. */
    ghost predicate Valid()
      reads this
    {
      KeyAccepted(apiKey)
    }

    /**
     * `Init`: a key of ten characters or fewer ends the process, which is this
     * precondition; otherwise the client holds the key and the default host.
     */
    constructor Init(apiKey: string)
      requires KeyAccepted(apiKey)
      ensures Valid()
      ensures this.apiKey == apiKey && host == DefaultHost
    {
      this.apiKey := apiKey;
      host := DefaultHost;
    }

    /** Points this client at `host`; the key is untouched and the same client is returned. */
    method UpdateHost(host: string) returns (c: Client)
      modifies this
      ensures c == this
      ensures this.host == host && apiKey == old(apiKey)
      ensures old(Valid()) ==> Valid()
    {
      this.host := host;
      c := this;
    }

    /**
     * A line for logs that shows the first ten characters of the key and the
     * host. Slicing the key needs ten characters, which `Valid` guarantees.
     */
    function DebugData(): (s: string)
      reads this
      requires |apiKey| >= 10
      ensures |s| == 29 + |host|
      ensures s[..8] == "apiKey: " && s[8..18] == apiKey[..10]
      ensures s[18..29] == "..., host: " && s[29..] == host
    {
      "apiKey: " + apiKey[..10] + "..., host: " + host
    }

    /** The URL of `path` on this client's current host, over HTTPS. */
    function UrlAppendingPath(path: string): (u: Url)
      reads this
      ensures u.scheme == "https" && u.host == host && u.path == path
    {
      Url("https", host, path)
    }

    /** The body fields every contract-scoped request starts with. */
    function TokenAndContract(contractId: int): (r: TokenAndContractRequest)
      reads this
      ensures r.token.apiKey == apiKey && r.contractId == contractId
    {
      TokenAndContractRequest(TokenOnlyRequest(apiKey), contractId)
    }

    /**
     * The request a client method sends: to its endpoint on the current host,
     * with this client's key, and with the operation's contract id when it has one.
     */
    function CallFor(op: Operation): (c: Call)
      reads this
      ensures c.url.scheme == "https" && c.url.host == host && c.url.path == Path(op)
      ensures KeyOf(c.body) == apiKey
      ensures ContractIdOf(c.body) == ContractOf(op)
    {
      var url := UrlAppendingPath(Path(op));
      match op
      case GetContractInfo(id) => Call(url, ForContract(TokenAndContract(id), NoExtra))
      case GetClinicsInfo => Call(url, KeyOnly(TokenOnlyRequest(apiKey)))
      case SendMessage(id, text, opts) =>
        Call(url, ForContract(TokenAndContract(id), Message(MessageOptions.Built(text, opts))))
      case OutDateMessage(id, messageId) => Call(url, ForContract(TokenAndContract(id), MessageId(messageId)))
      case GetCategories => Call(url, KeyOnly(TokenOnlyRequest(apiKey)))
      case GetAvailableCategories(id) => Call(url, ForContract(TokenAndContract(id), NoExtra))
      case GetRecords(id, categoryName) => Call(url, ForContract(TokenAndContract(id), CategoryFilter(categoryName)))
      case GetRecord(id, recordId) => Call(url, ForContract(TokenAndContract(id), RecordId(recordId)))
      case SendRecordAddition(id, recordId, note) =>
        Call(url, ForContract(TokenAndContract(id), Addition(recordId, note)))
      case GetAgentTokenForContractId(id) => Call(url, ForContract(TokenAndContract(id), NoExtra))
      case AddRecord(id, categoryName, value, recordTime, params) =>
        Call(url, ForContract(TokenAndContract(id),
          NewRecord(categoryName, value, true, MessageOptions.Timestamp(recordTime), params)))
      case AddRecords(id, records) => Call(url, ForContract(TokenAndContract(id), NewRecords(records, true)))
    }
  }

  /** The key check of `Init` is what `DebugData` needs, with one character to spare. */
  lemma ValidClientCanDebug(c: Client)
    requires c.Valid()
    ensures |c.apiKey| >= 10
  {
  }

  /** `DebugData` reveals nothing of the key beyond its first ten characters. */
  lemma DebugDataHidesKeyTail(c: Client, d: Client)
    requires |c.apiKey| >= 10 && |d.apiKey| >= 10
    requires c.apiKey[..10] == d.apiKey[..10] && c.host == d.host
    ensures c.DebugData() == d.DebugData()
  {
  }

  /**
   * Two clients with the same key send the same bodies, and URLs that differ
   * only in their host: changing the host changes nothing else in a request.
   */
  lemma CallsDifferOnlyInHost(c: Client, d: Client, op: Operation)
    requires c.apiKey == d.apiKey
    ensures d.CallFor(op).body == c.CallFor(op).body
    ensures d.CallFor(op).url == c.CallFor(op).url.(host := d.host)
  {
  }

  /** `SendMessage` sends the payload the options build, with the text unchanged. */
  lemma SendMessageCarriesBuiltPayload(c: Client, contractId: int, text: string, opts: seq<MessageOptions.SendMessageOption>)
    ensures var call := c.CallFor(SendMessage(contractId, text, opts));
      && call.url.path == "/api/agents/message"
      && call.body.ForContract? && call.body.extra.Message?
      && call.body.extra.message == MessageOptions.Built(text, opts)
      && call.body.extra.message.text == text
  {
    MessageOptions.TextNeverChanges(text, opts);
  }

  /** Both record inserts go to the same endpoint and ask for the new ids back. */
  lemma RecordInsertsAskForIds(c: Client, op: Operation)
    requires op.AddRecord? || op.AddRecords?
    ensures var call := c.CallFor(op);
      && call.url.path == "/api/agents/records/add"
      && call.body.ForContract?
      && (call.body.extra.NewRecord? || call.body.extra.NewRecords?)
      && call.body.extra.returnId
  {
  }

  /** The failures of the transport. */
  datatype TransportError =
    | EncodeError             // the body could not be marshalled
    | NetworkError            // the POST itself failed
    | StatusError(status: string)  // a status other than 200 OK
    | DecodeError             // the reply body did not decode

  /** The errors a client method reports. */
  datatype Error =
    | Transport(cause: TransportError)
    | EmptyIdResponse  // "empty id response"

  /** The pair `MakeRequest` returns: a pointer to the decoded reply (or nil) and an error (or nil). */
  datatype Reply<T> = Reply(response: Option<T>, err: Option<TransportError>)

  /**
   * What `MakeRequest` can return: no error means a decoded value, and every
   * error but a decode error comes with a nil pointer. (A 200 reply whose body
   * is the literal `null` would decode to nil without an error; see `Outcome`.)
   */
  predicate WellFormed<T>(r: Reply<T>) {
    && (r.err.None? ==> r.response.Some?)
    && (r.err.Some? && !r.err.value.DecodeError? ==> r.response.None?)
  }

  /** What a client method does with a reply: returns a value and an error, or dereferences nil. */
  datatype Outcome<T> = Returned(value: T, err: Option<Error>) | NilDereference

  /**
   * `GetRecords` and `AddRecords`: on an error, nil and that error; otherwise
   * the decoded list, unchanged.
   */
  function ListResult<T>(reply: Reply<seq<T>>): (r: Outcome<Option<seq<T>>>)
    ensures WellFormed(reply) ==> r.Returned?
    ensures r.Returned? && r.err.Some? ==> reply.err.Some? && r.err == Some(Transport(reply.err.value)) && r.value == None
    ensures r.Returned? && r.err.None? ==> reply.err.None? && r.value == reply.response
  {
    if reply.err.Some? then Returned(None, Some(Transport(reply.err.value)))
    else if reply.response.None? then NilDereference
    else Returned(Some(reply.response.value), None)
  }

  /**
   * `AddRecord`: on an error, nil and that error; an empty id list is the
   * "empty id response" error; otherwise the first id.
   */
  function AddRecordResult(reply: Reply<seq<int>>): (r: Outcome<Option<int>>)
    ensures WellFormed(reply) ==> r.Returned?
    ensures reply.err.Some? ==> r == Returned(None, Some(Transport(reply.err.value)))
    ensures reply.err.None? && reply.response == Some([]) ==> r == Returned(None, Some(EmptyIdResponse))
    ensures r.Returned? && r.value.Some? ==>
      r.err.None? && reply.response.Some? && |reply.response.value| > 0 && r.value.value == reply.response.value[0]
  {
    if reply.err.Some? then Returned(None, Some(Transport(reply.err.value)))
    else if reply.response.None? then NilDereference
    else if |reply.response.value| == 0 then Returned(None, Some(EmptyIdResponse))
    else Returned(Some(reply.response.value[0]), None)
  }

  /**
   * `AddRecord` narrows what `AddRecords` would make of the same reply: the
   * same transport errors, the first id of the same list, and the "empty id
   * response" error exactly when that list is empty.
   */
  lemma AddRecordNarrowsAddRecords(reply: Reply<seq<int>>)
    requires WellFormed(reply)
    ensures var one, all := AddRecordResult(reply), ListResult(reply);
      && one.Returned? && all.Returned?
      && (reply.err.Some? ==> one.err == all.err && one.value == None && all.value == None)
      && (reply.err.None? ==>
            && all.value.Some?
            && (one.err == Some(EmptyIdResponse) <==> all.value.value == [])
            && (all.value.value != [] ==> one == Returned(Some(all.value.value[0]), None)))
  {
  }

  /** The reply of the message endpoint. */
  datatype MessageResponse = MessageResponse(state: string, id: int)

  /**
   * `SendMessage` as written: it returns `resp.Id` and the error together, so it
   * dereferences the reply pointer before looking at the error.
   */
  function SendMessageResultAsWritten(reply: Reply<MessageResponse>): (r: Outcome<int>)
    ensures r.Returned? <==> reply.response.Some?
  {
    if reply.response.None? then NilDereference
    else Returned(reply.response.value.id, if reply.err.Some? then Some(Transport(reply.err.value)) else None)
  }

  /**
   * An error that comes with a nil pointer (every encode, network or status
   * error, and a decode error that fails before allocating) makes `SendMessage`
   * as written dereference nil instead of reporting it.
   */
  lemma SendMessageAsWrittenPanicsOnTransportError(e: TransportError)
    ensures WellFormed(Reply<MessageResponse>.Reply(None, Some(e)))
    ensures SendMessageResultAsWritten(Reply(None, Some(e))) == NilDereference
  {
  }

  /**
   * `SendMessage` with the error checked first, as the other client methods
   * check it: the error with a zero id, or the new message's id.
   */
  function SendMessageResult(reply: Reply<MessageResponse>): (r: Outcome<int>)
    ensures WellFormed(reply) ==> r.Returned?
    ensures r.Returned? ==> (r.err.Some? <==> reply.err.Some?)
    ensures r.Returned? && r.err.None? ==> reply.response.Some? && r.value == reply.response.value.id
  {
    if reply.err.Some? then Returned(0, Some(Transport(reply.err.value)))
    else if reply.response.None? then NilDereference
    else Returned(reply.response.value.id, None)
  }

  /**
   * On every reply that carries an error, whether or not a partly decoded value
   * comes with it, the corrected `SendMessage` reports that error with a zero id.
   */
  lemma SendMessageReportsTransportErrors(reply: Reply<MessageResponse>)
    requires reply.err.Some?
    ensures SendMessageResult(reply) == Returned(0, Some(Transport(reply.err.value)))
  {
  }
}
