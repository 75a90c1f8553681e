/** `_RegRuClient`: the add and delete operations, each building a request,
    handing it to the HTTP transport and judging the reply, with an
    asymmetric failure policy (add raises, delete only warns). */
module RegRuClient {
  import opened JsonValues
  import opened RequestBuilder
  import opened ResponseValidator

  const AddTxtUrl := "https://api.reg.ru/api/regru2/zone/add_txt"
  const RemoveRecordUrl := "https://api.reg.ru/api/regru2/zone/remove_record"

  datatype Option<T> = None | Some(value: T)

  /** What the network did with one POST: it failed (connection error,
      a 4xx or 5xx status, or a body that is not JSON), or it delivered a
      decoded JSON body. */
  datatype Transport = TransportError(detail: string) | Delivered(body: Json)

  /** Why an operation did not succeed: the transport failed, or the reply
      did not pass the validator (the raw reply is kept). */
  datatype Failure = CommunicationFailed(detail: string) | Rejected(response: Json)

  /** How an operation returns: normally, or by raising `PluginError`, whose
      message is "Error communicating with the Reg.ru API: " and the cause. */
  datatype Outcome = Ok | PluginError(cause: Failure)

  /** One POST: the endpoint and the form parameters. */
  datatype Request = Request(url: string, data: map<string, Json>)

  /** The failure a reply amounts to, if any. */
  function FailureOf(reply: Transport): (failure: Option<Failure>)
    ensures failure == None <==> reply.Delivered? && IsSuccessResponse(reply.body)
    ensures reply.TransportError? ==> failure == Some(CommunicationFailed(reply.detail))
  {
    match reply
    case TransportError(detail) => Some(CommunicationFailed(detail))
    case Delivered(body) => if IsSuccessResponse(body) then None else Some(Rejected(body))
  }

  /** How `add_txt_record` ends for a given reply: any failure is raised. */
  function AddOutcome(reply: Transport): (outcome: Outcome)
    ensures outcome.PluginError? <==> FailureOf(reply).Some?
  {
    match FailureOf(reply)
    case None => Ok
    case Some(f) => PluginError(f)
  }

  /** Add returns normally exactly when a reply was delivered and the
      validator accepts it; a transport error raises with its detail and a
      rejected reply raises with the reply itself. */
  lemma AddFailsLoudly(reply: Transport)
    ensures AddOutcome(reply) == Ok <==> reply.Delivered? && IsSuccessResponse(reply.body)
    ensures reply.TransportError? ==> AddOutcome(reply) == PluginError(CommunicationFailed(reply.detail))
    ensures reply.Delivered? && !IsSuccessResponse(reply.body)
            ==> AddOutcome(reply) == PluginError(Rejected(reply.body))
  {
  }

  /** Delete warns about exactly the failures add would raise (the warning
      `del_txt_record` logs is FailureOf of the reply). */
  lemma DeleteWarnsWhereAddRaises(reply: Transport, f: Failure)
    ensures FailureOf(reply) == Some(f) <==> AddOutcome(reply) == PluginError(f)
    ensures FailureOf(reply) == None <==> AddOutcome(reply) == Ok
  {
  }

  /** The HTTP transport (`_HttpClient`). The requests it has sent are kept
      in order; what the network answers is an input of each call. */
  class HttpClient {
    var sent: seq<Request>

    constructor ()
      ensures sent == []
    {
      sent := [];
    }

    /** `send(url, data)`: POST `data` to `url` and return the network's answer. */
    method Send(url: string, data: map<string, Json>, network: Transport) returns (reply: Transport)
      modifies this
      ensures sent == old(sent) + [Request(url, data)]
      ensures reply == network
    {
      sent := sent + [Request(url, data)];
      reply := network;
    }
  }

  /** The Reg.ru client: fixed account options and a transport, both set
      once at construction. */
  class Client {
    const http: HttpClient
    const options: map<string, Json>

    constructor (username: string, password: string)
      ensures options == AccountOptions(username, password)
      ensures fresh(http) && http.sent == []
    {
      http := new HttpClient();
      options := AccountOptions(username, password);
    }

    /** `add_txt_record`: one POST to the add_txt endpoint; returns normally
        only for a reply the validator accepts, and raises otherwise. */
    method AddTxtRecord(recordName: string, recordContent: string, network: Transport)
      returns (outcome: Outcome)
      modifies http
      ensures http.sent == old(http.sent) + [Request(AddTxtUrl, CreateParams(options, recordName, AddFields(recordContent)))]
      ensures outcome == AddOutcome(network)
    {
      var data := CreateParams(options, recordName, AddFields(recordContent));
      var response := http.Send(AddTxtUrl, data, network);
      if response.TransportError? {
        return PluginError(CommunicationFailed(response.detail));
      }
      if !IsSuccessResponse(response.body) {
        return PluginError(Rejected(response.body));
      }
      return Ok;
    }

    /** `del_txt_record`: one POST to the remove_record endpoint; never
        raises, and reports a failure only as a logged warning. */
    method DelTxtRecord(recordName: string, recordContent: string, network: Transport)
      returns (outcome: Outcome, warning: Option<Failure>)
      modifies http
      ensures http.sent == old(http.sent) + [Request(RemoveRecordUrl, CreateParams(options, recordName, DeleteFields(recordContent)))]
      ensures outcome == Ok
      ensures warning == FailureOf(network)
    {
      var data := CreateParams(options, recordName, DeleteFields(recordContent));
      var response := http.Send(RemoveRecordUrl, data, network);
      if response.TransportError? {
        return Ok, Some(CommunicationFailed(response.detail));
      }
      if !IsSuccessResponse(response.body) {
        return Ok, Some(Rejected(response.body));
      }
      return Ok, None;
    }
  }

  /** Performing a challenge and cleaning it up, as the authenticator's two
      hooks do: each hook builds its own client from the same credentials.
      Each transport sends one request, both carry the same username and
      password, the add succeeds, and the delete returns normally even though
      its connection fails. */
  method AddThenDelete(username: string, password: string, name: string, content: string, accepted: Json)
    returns (added: Outcome, deleted: Outcome, warning: Option<Failure>,
             addSent: seq<Request>, deleteSent: seq<Request>)
    requires IsSuccessResponse(accepted)
    ensures added == Ok && deleted == Ok
    ensures warning == Some(CommunicationFailed("connection refused"))
    ensures |addSent| == 1 && |deleteSent| == 1
    ensures addSent[0].url == AddTxtUrl && deleteSent[0].url == RemoveRecordUrl
    ensures addSent[0].data.Keys == deleteSent[0].data.Keys
    ensures UsernameKey in addSent[0].data.Keys && PasswordKey in addSent[0].data.Keys
    ensures addSent[0].data[UsernameKey] == deleteSent[0].data[UsernameKey] == JStr(username)
    ensures addSent[0].data[PasswordKey] == deleteSent[0].data[PasswordKey] == JStr(password)
  {
    var performer := new Client(username, password);
    added := performer.AddTxtRecord(name, content, Delivered(accepted));
    addSent := performer.http.sent;
    var cleaner := new Client(username, password);
    deleted, warning := cleaner.DelTxtRecord(name, content, TransportError("connection refused"));
    deleteSent := cleaner.http.sent;
  }
}
