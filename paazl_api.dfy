/** The API layer of the Paazl integration (Model/Api/PaazlApi.php): each
    call prepares an authorised client, logs the request, sends it, logs the
    response and turns the status into a result or an error. */
module PaazlApi {
  import opened Wrappers
  import opened Json
  import opened Http
  import opened Logging

  /** The settings the API layer reads: API key, secret and timeout. */
  datatype Configuration = Configuration(key: string, secret: string, timeout: int)

  /** The endpoints of the URL provider. */
  datatype Urls = Urls(checkoutToken: string, order: string, shippingOptions: string, checkout: string)

  /** A checkout token, as the token builder makes it from a response body. */
  datatype Token = Token(value: string)

  /** `TokenBuilder::setResponse($body)->create()`: the token, or the message
      of the exception it throws. */
  type TokenBuilder = string -> Result<Token, string>

  /** `http_build_query`. */
  type QueryBuilder = map<string, string> -> string

  /** The errors the calls raise. */
  datatype ApiError =
      /** `ApiException($message, $code, $previous, $clientError)`; `previous`
          is the message of the exception it wraps. */
    | ApiException(message: string, code: int, clientError: bool, previous: Option<string>)
      /** The plain `Exception('Cannot obtain checkout info')`. */
    | CheckoutInfoUnavailable
      /** An exception of the HTTP client that the call does not catch. */
    | Uncaught(message: string)

  datatype Outcome<T> = Success(value: T) | Failure(error: ApiError)

  const JsonContentType := "application/json;charset=UTF-8"

  /** `ApiException('API error', 0)`. */
  const GenericApiError := ApiException("API error", 0, false, None)

  /** `ApiException('API error', 0, $e)`. */
  function WrappedApiError(cause: string): ApiError
  {
    ApiException("API error", 0, false, Some(cause))
  }

  predicate IsSuccessStatus(status: int)
  {
    200 <= status < 300
  }

  predicate IsClientErrorStatus(status: int)
  {
    400 <= status < 500
  }

  // ---------------------------------------------------------------------
  // Authorisation

  const BearerPrefix := "Bearer "

  /** `buildAuthorizationHeader`: the prefix, the key, a colon, the secret. */
  function AuthorizationHeader(key: string, secret: string): (header: string)
    ensures |header| == |BearerPrefix| + |key| + 1 + |secret|
    ensures header[..|BearerPrefix|] == BearerPrefix
    ensures header[|BearerPrefix|..|BearerPrefix| + |key|] == key
    ensures header[|BearerPrefix| + |key|] == ':'
    ensures header[|BearerPrefix| + |key| + 1..] == secret
  {
    BearerPrefix + key + ":" + secret
  }

  /** A key without a colon and its secret can be read back from the
      header: two such credentials give the same header only if they are
      equal. */
  lemma AuthorizationHeaderDeterminesCredentials(key1: string, secret1: string, key2: string, secret2: string)
    requires ':' !in key1 && ':' !in key2
    requires AuthorizationHeader(key1, secret1) == AuthorizationHeader(key2, secret2)
    ensures key1 == key2 && secret1 == secret2
  {
  }

  /** The headers `getAuthorizedClient` sets. */
  function AuthorizedHeaders(configuration: Configuration): map<string, string>
  {
    map["Authorization" := AuthorizationHeader(configuration.key, configuration.secret)]
  }

  /** The timeout `getAuthorizedClient` gives the client: only a positive one. */
  function TimeoutSetting(timeout: int): (setting: Option<int>)
    ensures setting.Some? <==> timeout > 0
    ensures setting.Some? ==> setting.value == timeout
  {
    if timeout > 0 then Some(timeout) else None
  }

  /** The headers of a call that sends and accepts JSON. */
  function JsonHeaders(configuration: Configuration): map<string, string>
  {
    AuthorizedHeaders(configuration)["Content-Type" := JsonContentType]["Accept" := JsonContentType]
  }

  // ---------------------------------------------------------------------
  // Status classification

  /** The status check `addOrder` and `getShippingOptions` share. */
  function StatusOutcome<T>(status: int, body: string, success: T): (r: Outcome<T>)
    ensures r.Success? <==> IsSuccessStatus(status)
    ensures r.Success? ==> r.value == success
    ensures IsClientErrorStatus(status) <==> r == Failure(ApiException(body, status, true, None))
    ensures !IsSuccessStatus(status) && !IsClientErrorStatus(status) ==> r == Failure(GenericApiError)
  {
    if IsClientErrorStatus(status) then Failure(ApiException(body, status, true, None))
    else if IsSuccessStatus(status) then Success(success)
    else Failure(GenericApiError)
  }

  /** `addOrder`'s result: true on 2xx; the client's own exceptions escape. */
  function OrderOutcome(reply: Reply): (r: Outcome<bool>)
    ensures r.Success? <==> reply.Replied? && IsSuccessStatus(reply.status)
    ensures r.Success? ==> r.value
    ensures reply.Failed? ==> r == Failure(Uncaught(reply.message))
    ensures r.Failure? && r.error.ApiException? && r.error.clientError ==>
              r.error.message == reply.body && r.error.code == reply.status && IsClientErrorStatus(reply.status)
    ensures reply.Replied? && IsClientErrorStatus(reply.status) ==>
              r == Failure(ApiException(reply.body, reply.status, true, None))
    ensures reply.Replied? && !IsSuccessStatus(reply.status) && !IsClientErrorStatus(reply.status) ==>
              r == Failure(GenericApiError)
  {
    match reply
    case Failed(message) => Failure(Uncaught(message))
    case Replied(status, body) => StatusOutcome(status, body, true)
  }

  /** `getShippingOptions`'s result: the raw body on 2xx. */
  function ShippingOptionsOutcome(reply: Reply): (r: Outcome<string>)
    ensures r.Success? <==> reply.Replied? && IsSuccessStatus(reply.status)
    ensures r.Success? ==> r.value == reply.body
    ensures reply.Failed? ==> r == Failure(Uncaught(reply.message))
    ensures reply.Replied? && IsClientErrorStatus(reply.status) ==>
              r == Failure(ApiException(reply.body, reply.status, true, None))
    ensures reply.Replied? && !IsSuccessStatus(reply.status) && !IsClientErrorStatus(reply.status) ==>
              r == Failure(GenericApiError)
  {
    match reply
    case Failed(message) => Failure(Uncaught(message))
    case Replied(status, body) => StatusOutcome(status, body, body)
  }

  /** `getApiToken`'s result: a token only on 2xx and a body the builder
      accepts; every failure is the unflagged "API error" with code 0,
      wrapping the exception when one was thrown. */
  function TokenOutcome(reply: Reply, build: TokenBuilder): (r: Outcome<Token>)
    ensures r.Success? <==> reply.Replied? && IsSuccessStatus(reply.status) && build(reply.body).Ok?
    ensures r.Success? ==> r.value == build(reply.body).value
    ensures r.Failure? ==> r.error.ApiException? && r.error.message == "API error" && r.error.code == 0
    ensures r.Failure? ==> !r.error.clientError
    ensures r.Failure? ==> (r.error.previous.Some? <==> reply.Failed? || IsSuccessStatus(reply.status))
    ensures reply.Failed? ==> r == Failure(WrappedApiError(reply.message))
    ensures reply.Replied? && IsSuccessStatus(reply.status) && build(reply.body).Err? ==>
              r == Failure(WrappedApiError(build(reply.body).error))
  {
    match reply
    case Failed(message) => Failure(WrappedApiError(message))
    case Replied(status, body) =>
      if IsSuccessStatus(status) then
        match build(body)
        case Ok(token) => Success(token)
        case Err(message) => Failure(WrappedApiError(message))
      else Failure(GenericApiError)
  }

  /** `fetchCheckoutData`'s result: the decoded body only on status 200;
      any other status is the plain checkout-info exception, and a failing
      send is wrapped. */
  function CheckoutOutcome(reply: Reply, decode: Decoder): (r: Outcome<Value>)
    ensures r.Success? <==> reply.Replied? && reply.status == 200
    ensures r.Success? ==> r.value == DecodeOrNull(decode, reply.body)
    ensures r.Failure? && reply.Replied? ==> r.error == CheckoutInfoUnavailable
    ensures reply.Failed? ==> r == Failure(WrappedApiError(reply.message))
  {
    match reply
    case Failed(message) => Failure(WrappedApiError(message))
    case Replied(status, body) =>
      if status != 200 then Failure(CheckoutInfoUnavailable)
      else Success(DecodeOrNull(decode, body))
  }

  /** `addOrder` and `getShippingOptions` classify every reply alike. */
  lemma OrderAndShippingOptionsAgree(reply: Reply)
    ensures OrderOutcome(reply).Success? <==> ShippingOptionsOutcome(reply).Success?
    ensures OrderOutcome(reply).Failure? ==> OrderOutcome(reply).error == ShippingOptionsOutcome(reply).error
  {
  }

  /** A 4xx reply is a flagged client error only for the order calls. */
  lemma ClientErrorByOperation(status: int, body: string, build: TokenBuilder, decode: Decoder)
    requires IsClientErrorStatus(status)
    ensures OrderOutcome(Replied(status, body)) == Failure(ApiException(body, status, true, None))
    ensures ShippingOptionsOutcome(Replied(status, body)) == Failure(ApiException(body, status, true, None))
    ensures TokenOutcome(Replied(status, body), build) == Failure(GenericApiError)
    ensures CheckoutOutcome(Replied(status, body), decode) == Failure(CheckoutInfoUnavailable)
  {
  }

  /** A 2xx reply other than 200 succeeds everywhere but in the checkout fetch. */
  lemma OtherSuccessStatus(status: int, body: string, decode: Decoder)
    requires IsSuccessStatus(status) && status != 200
    ensures OrderOutcome(Replied(status, body)) == Success(true)
    ensures ShippingOptionsOutcome(Replied(status, body)) == Success(body)
    ensures CheckoutOutcome(Replied(status, body), decode) == Failure(CheckoutInfoUnavailable)
  {
  }

  // ---------------------------------------------------------------------
  // Payloads and logs

  /** `unset($orderData['products'])`: drops that key and keeps every other
      entry as it was. */
  function WithoutProducts(orderData: map<string, Value>): (r: map<string, Value>)
    ensures r.Keys == orderData.Keys - {"products"}
    ensures forall k :: k in r ==> r[k] == orderData[k]
  {
    orderData - {"products"}
  }

  /** The two entries logged after a reply arrives; nothing when the send threw. */
  function ResponseLog(statusTag: string, bodyTag: string, reply: Reply): seq<Entry>
  {
    match reply
    case Replied(status, body) => [Entry(statusTag, LoggedStatus(status)), Entry(bodyTag, LoggedText(body))]
    case Failed(_) => []
  }

  /** What `fetchCheckoutData` logs after the send: the reply, or the
      message of the exception. */
  function CheckoutResponseLog(reply: Reply): seq<Entry>
  {
    match reply
    case Replied(status, body) =>
      [Entry("fetchCheckoutData response status: ", LoggedStatus(status)),
       Entry("fetchCheckoutData response: ", LoggedText(body))]
    case Failed(message) => [Entry("exception", LoggedText(message))]
  }

  /** The checkout URL with a single `reference` query parameter. */
  function CheckoutRequestUrl(urls: Urls, buildQuery: QueryBuilder, reference: string): string
  {
    urls.checkout + "?" + buildQuery(map["reference" := reference])
  }

  // ---------------------------------------------------------------------
  // The API object

  class PaazlApi {
    const configuration: Configuration
    const urls: Urls
    const tokenBuilder: TokenBuilder
    const buildQuery: QueryBuilder
    const decode: Decoder
    const logger: Logger
    /** The token request body; it lives as long as the object. */
    var request: map<string, Value>

    /** Only `getApiToken` writes the request body, and only its `reference`. */
    ghost predicate Valid()
      reads this
    {
      request.Keys <= {"reference"}
    }

    constructor (configuration: Configuration, urls: Urls, tokenBuilder: TokenBuilder,
                 buildQuery: QueryBuilder, decode: Decoder, logger: Logger)
      ensures this.configuration == configuration && this.urls == urls
      ensures this.tokenBuilder == tokenBuilder && this.buildQuery == buildQuery
      ensures this.decode == decode && this.logger == logger
      ensures request == map[] && Valid()
    {
      this.configuration, this.urls := configuration, urls;
      this.tokenBuilder, this.buildQuery := tokenBuilder, buildQuery;
      this.decode, this.logger := decode, logger;
      request := map[];
    }

    /** `getAuthorizedClient`: a new client whose only header is the
        Authorization header, with the configured timeout if it is positive. */
    method GetAuthorizedClient(reply: Reply) returns (client: Client)
      ensures fresh(client) && client.reply == reply
      ensures client.headers == AuthorizedHeaders(configuration)
      ensures client.timeout == TimeoutSetting(configuration.timeout)
      ensures client.sent == []
    {
      client := new Client(reply);
      client.SetHeaders(map["Authorization" := AuthorizationHeader(configuration.key, configuration.secret)]);
      var timeout := configuration.timeout;
      if timeout > 0 {
        client.SetTimeout(timeout);
      }
    }

    /** `getApiToken($reference)`. */
    method GetApiToken(reference: string, reply: Reply) returns (outcome: Outcome<Token>, client: Client)
      requires Valid()
      modifies this, logger
      ensures Valid() && request == map["reference" := String(reference)]
      ensures fresh(client) && client.reply == reply
      ensures client.headers == JsonHeaders(configuration)
      ensures client.timeout == TimeoutSetting(configuration.timeout)
      ensures client.sent == [Request(POST, urls.checkoutToken, Some(Object(request)))]
      ensures logger.entries == old(logger.entries)
                                + [Entry("Token request: ", LoggedArray(Object(request)))]
                                + ResponseLog("Token response status: ", "Token response: ", reply)
      ensures outcome == TokenOutcome(reply, tokenBuilder)
    {
      var url := urls.checkoutToken;
      client := GetAuthorizedClient(reply);
      request := request["reference" := String(reference)];
      logger.AddToLog("Token request: ", LoggedArray(Object(request)));
      client.AddHeader("Content-Type", JsonContentType);
      client.AddHeader("Accept", JsonContentType);
      var failure := client.Post(url, Object(request));
      if failure.Some? {
        outcome := Failure(WrappedApiError(failure.value));
        return;
      }
      var body := client.GetBody();
      var status := client.GetStatus();
      logger.AddToLog("Token response status: ", LoggedStatus(status));
      logger.AddToLog("Token response: ", LoggedText(body));
      if IsSuccessStatus(status) {
        var built := tokenBuilder(body);
        if built.Err? {
          outcome := Failure(WrappedApiError(built.error));
          return;
        }
        outcome := Success(built.value);
        return;
      }
      outcome := Failure(GenericApiError);
    }

    /** `addOrder($orderData, $modify)`: a new order is POSTed as it is, a
        modification is PUT without its products; the log shows the data as
        given in both cases. */
    method AddOrder(orderData: map<string, Value>, isModify: bool, reply: Reply)
      returns (outcome: Outcome<bool>, client: Client)
      modifies logger
      ensures fresh(client) && client.reply == reply
      ensures client.headers == JsonHeaders(configuration)
      ensures client.timeout == TimeoutSetting(configuration.timeout)
      ensures !isModify ==> client.sent == [Request(POST, urls.order, Some(Object(orderData)))]
      ensures isModify ==> client.sent == [Request(PUT, urls.order, Some(Object(WithoutProducts(orderData))))]
      ensures !isModify ==> logger.entries == old(logger.entries)
                                            + [Entry("AddOrder request: ", LoggedArray(Object(orderData)))]
                                            + ResponseLog("AddOrder response status: ", "AddOrder response body: ", reply)
      ensures isModify ==> logger.entries == old(logger.entries)
                                           + [Entry("ModifyOrder request: ", LoggedArray(Object(orderData)))]
                                           + ResponseLog("ModifyOrder response status: ", "ModifyOrder response body: ", reply)
      ensures outcome == OrderOutcome(reply)
    {
      var url := urls.order;
      client := GetAuthorizedClient(reply);
      client.AddHeader("Content-Type", JsonContentType);
      client.AddHeader("Accept", JsonContentType);
      var status, body;
      if !isModify {
        logger.AddToLog("AddOrder request: ", LoggedArray(Object(orderData)));
        var failure := client.Post(url, Object(orderData));
        if failure.Some? {
          outcome := Failure(Uncaught(failure.value));
          return;
        }
        body := client.GetBody();
        status := client.GetStatus();
        logger.AddToLog("AddOrder response status: ", LoggedStatus(status));
        logger.AddToLog("AddOrder response body: ", LoggedText(body));
      } else {
        logger.AddToLog("ModifyOrder request: ", LoggedArray(Object(orderData)));
        var payload := orderData - {"products"};
        var failure := client.Put(url, Object(payload));
        if failure.Some? {
          outcome := Failure(Uncaught(failure.value));
          return;
        }
        body := client.GetBody();
        status := client.GetStatus();
        logger.AddToLog("ModifyOrder response status: ", LoggedStatus(status));
        logger.AddToLog("ModifyOrder response body: ", LoggedText(body));
      }
      if IsClientErrorStatus(status) {
        outcome := Failure(ApiException(body, status, true, None));
        return;
      }
      if IsSuccessStatus(status) {
        outcome := Success(true);
        return;
      }
      outcome := Failure(GenericApiError);
    }

    /** `getShippingOptions($orderData)`: the raw body on success. */
    method GetShippingOptions(orderData: map<string, Value>, reply: Reply)
      returns (outcome: Outcome<string>, client: Client)
      modifies logger
      ensures fresh(client) && client.reply == reply
      ensures client.headers == JsonHeaders(configuration)
      ensures client.timeout == TimeoutSetting(configuration.timeout)
      ensures client.sent == [Request(POST, urls.shippingOptions, Some(Object(orderData)))]
      ensures logger.entries == old(logger.entries)
                                + [Entry("getShippingOptions request: ", LoggedArray(Object(orderData)))]
                                + ResponseLog("getShippingOptions response status: ", "getShippingOptions response: ", reply)
      ensures outcome == ShippingOptionsOutcome(reply)
    {
      var url := urls.shippingOptions;
      client := GetAuthorizedClient(reply);
      logger.AddToLog("getShippingOptions request: ", LoggedArray(Object(orderData)));
      client.AddHeader("Content-Type", JsonContentType);
      client.AddHeader("Accept", JsonContentType);
      var failure := client.Post(url, Object(orderData));
      if failure.Some? {
        outcome := Failure(Uncaught(failure.value));
        return;
      }
      var body := client.GetBody();
      var status := client.GetStatus();
      logger.AddToLog("getShippingOptions response status: ", LoggedStatus(status));
      logger.AddToLog("getShippingOptions response: ", LoggedText(body));
      if IsClientErrorStatus(status) {
        outcome := Failure(ApiException(body, status, true, None));
        return;
      }
      if IsSuccessStatus(status) {
        outcome := Success(body);
        return;
      }
      outcome := Failure(GenericApiError);
    }

    /** `fetchCheckoutData($reference)`: a GET with only the Accept header
        added; the decoded body on status 200. */
    method FetchCheckoutData(reference: string, reply: Reply) returns (outcome: Outcome<Value>, client: Client)
      modifies logger
      ensures fresh(client) && client.reply == reply
      ensures client.headers == AuthorizedHeaders(configuration)["Accept" := JsonContentType]
      ensures client.timeout == TimeoutSetting(configuration.timeout)
      ensures client.sent == [Request(GET, CheckoutRequestUrl(urls, buildQuery, reference), None)]
      ensures logger.entries == old(logger.entries)
                                + [Entry("fetchCheckoutData URL: ", LoggedText(CheckoutRequestUrl(urls, buildQuery, reference)))]
                                + CheckoutResponseLog(reply)
      ensures outcome == CheckoutOutcome(reply, decode)
    {
      var url := urls.checkout;
      client := GetAuthorizedClient(reply);
      url := url + "?" + buildQuery(map["reference" := reference]);
      client.AddHeader("Accept", JsonContentType);
      logger.AddToLog("fetchCheckoutData URL: ", LoggedText(url));
      var failure := client.Get(url);
      if failure.Some? {
        logger.AddToLog("exception", LoggedText(failure.value));
        outcome := Failure(WrappedApiError(failure.value));
        return;
      }
      var status := client.GetStatus();
      var body := client.GetBody();
      logger.AddToLog("fetchCheckoutData response status: ", LoggedStatus(status));
      logger.AddToLog("fetchCheckoutData response: ", LoggedText(body));
      if status != 200 {
        outcome := Failure(CheckoutInfoUnavailable);
        return;
      }
      outcome := Success(DecodeOrNull(decode, body));
    }
  }
}
