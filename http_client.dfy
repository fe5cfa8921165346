/** The HTTP client the API layer drives, as a stub: the reply it will get
    is fixed when it is created, and it records the headers, the timeout
    and every request it is asked to send. The transport itself is not
    modelled. */
module Http {
  import opened Wrappers
  import opened Json

  datatype Verb = GET | POST | PUT

  /** A request as handed to the client; the payload is the array before
      `json_encode` (GET requests have none). */
  datatype Request = Request(verb: Verb, url: string, payload: Option<Value>)

  /** What the remote end does: answer with a status and a body, or make the
      client throw with a message. */
  datatype Reply = Replied(status: int, body: string) | Failed(message: string)

  /** The exception message a send raises, if any. */
  function SendFailure(reply: Reply): Option<string>
  {
    if reply.Failed? then Some(reply.message) else None
  }

  class Client {
    const reply: Reply
    var headers: map<string, string>
    var timeout: Option<int>
    var sent: seq<Request>

    /** `ClientFactory::create`: no headers, no timeout, nothing sent. */
    constructor (reply: Reply)
      ensures this.reply == reply
      ensures headers == map[] && timeout == None && sent == []
    {
      this.reply := reply;
      headers, timeout, sent := map[], None, [];
    }

    /** `setHeaders`: replaces all headers. */
    method SetHeaders(newHeaders: map<string, string>)
      modifies this
      ensures headers == newHeaders
      ensures timeout == old(timeout) && sent == old(sent)
    {
      headers := newHeaders;
    }

    /** `addHeader`: adds or overwrites one header. */
    method AddHeader(name: string, value: string)
      modifies this
      ensures headers == old(headers)[name := value]
      ensures timeout == old(timeout) && sent == old(sent)
    {
      headers := headers[name := value];
    }

    /** `setTimeout`. */
    method SetTimeout(seconds: int)
      modifies this
      ensures timeout == Some(seconds)
      ensures headers == old(headers) && sent == old(sent)
    {
      timeout := Some(seconds);
    }

    /** Sends one request; answers the message of the exception the send
        raises, if the remote end fails. */
    method Send(request: Request) returns (failure: Option<string>)
      modifies this
      ensures sent == old(sent) + [request]
      ensures failure == SendFailure(reply)
      ensures headers == old(headers) && timeout == old(timeout)
    {
      sent := sent + [request];
      failure := SendFailure(reply);
    }

    /** `post($url, $payload)`. */
    method Post(url: string, payload: Value) returns (failure: Option<string>)
      modifies this
      ensures sent == old(sent) + [Request(POST, url, Some(payload))]
      ensures failure == SendFailure(reply)
      ensures headers == old(headers) && timeout == old(timeout)
    {
      failure := Send(Request(POST, url, Some(payload)));
    }

    /** `put($url, $payload)`. */
    method Put(url: string, payload: Value) returns (failure: Option<string>)
      modifies this
      ensures sent == old(sent) + [Request(PUT, url, Some(payload))]
      ensures failure == SendFailure(reply)
      ensures headers == old(headers) && timeout == old(timeout)
    {
      failure := Send(Request(PUT, url, Some(payload)));
    }

    /** `get($url)`. */
    method Get(url: string) returns (failure: Option<string>)
      modifies this
      ensures sent == old(sent) + [Request(GET, url, None)]
      ensures failure == SendFailure(reply)
      ensures headers == old(headers) && timeout == old(timeout)
    {
      failure := Send(Request(GET, url, None));
    }

    /** `getStatus`, read only after a send that did not throw. */
    function GetStatus(): int
      requires reply.Replied?
    {
      reply.status
    }

    /** `getBody`, read only after a send that did not throw. */
    function GetBody(): string
      requires reply.Replied?
    {
      reply.body
    }
  }
}
