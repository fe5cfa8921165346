# Paazl checkout integration: API calls and checkout-response conversion

This project models two decision layers of the Paazl extension for Magento 2
and proves their rules.

- **The API client** (`PaazlApi`). Each call builds an authorised HTTP client.
  The client gets an `Authorization: Bearer <key>:<secret>` header, plus a
  timeout if the configured one is positive. The call then logs the request,
  sends it, logs the status and the body, and classifies the status. The
  calls are `getApiToken`, `addOrder` (create, or modify without products),
  `getShippingOptions` and `fetchCheckoutData`. Each one treats statuses,
  4xx codes and transport exceptions in its own way, and the model pins each
  way down.
- **The checkout converter** (`ToShippingInfo::convert`). It maps a decoded
  checkout response onto a ShippingInfo record by `/`-separated path lookups
  and fills the pickup fields only for the PICKUP delivery type.

Files:

- `wrappers.dfy`: `Option` and `Result`.
- `json.dfy`: a PHP value as `json_decode(..., true)` yields it (`Json.Value`).
  The JSON parser is a parameter (`Decoder`).
- `array_manager.dfy`: Magento's `ArrayManager::get`. The path is split like
  `explode('/')` and walked key by key. A missing key or a non-array value
  yields null. PHP's rule that a canonical decimal key selects a list index
  is kept.
- `to_shipping_info.dfy`: the input normalisation of `convert`, the field
  extraction, and lemmas about the fields.
- `http_client.dfy`: a stub HTTP client. Its reply (status and body, or a
  thrown message) is fixed when it is created. It records its headers, its
  timeout and every request sent.
- `logging.dfy`: the log as an append-only sequence of tagged entries.
- `paazl_api.dfy`: the outcome functions, the authorisation header, and the
  `PaazlApi` class, whose methods follow the PHP methods step by step.

Collaborators that the model does not define are parameters or class
constants:

- the JSON parser;
- `json_encode` (the payload is recorded as the array before encoding);
- `http_build_query`;
- the numeric reading of text behind `floatval`;
- the token builder;
- the value of `DeliveryType::PICKUP`.

Behaviour of the code that is easy to misread, modelled as written:

- `addOrder` and `getShippingOptions` do not catch exceptions thrown by the
  HTTP client. Such an exception reaches the caller unwrapped (`Uncaught`).
  It is not turned into a generic API error.
- `getApiToken` turns any 4xx into the unflagged "API error" with code 0. It
  does not raise a client error.
- When a send throws, only the request has been logged. `fetchCheckoutData`
  is the one call that also logs the exception message, under `exception`.
- For a non-pickup delivery type, `convert` leaves the pickup fields unset
  (`None` here). It does not set them to null.

## Model

| member | source | states |
|---|---|---|
| ArrayManager.Explode | Model/Api/Converter/Checkout/ToShippingInfo.php:72-84 | a lookup path splits into at least one segment, and no segment contains '/' |
| ArrayManager.ExplodeImplode | Model/Api/Converter/Checkout/ToShippingInfo.php:72-84 | joining segments that contain no '/' and splitting the result gives the segments back |
| ArrayManager.ImplodeExplode | Model/Api/Converter/Checkout/ToShippingInfo.php:72-84 | splitting a path and joining its segments gives the path back |
| ArrayManager.Get | Model/Api/Converter/Checkout/ToShippingInfo.php:72 | `get($path, $data)` of a path without '/' is that member of the array, null when it is absent |
| ArrayManager.WalkIsMemberChain | Model/Api/Converter/Checkout/ToShippingInfo.php:72-84 | a path walk that answers null when a step is missing equals chained member accesses that continue through null |
| ArrayManager.GetIsMemberChain | Model/Api/Converter/Checkout/ToShippingInfo.php:72-84 | `get` of a joined path is the chain of member accesses along its segments |
| ArrayManager.GetTwo | Model/Api/Converter/Checkout/ToShippingInfo.php:73 | `get("outer/inner")` is the inner member of the outer member, and null when either is absent |
| ToShippingInfo.Normalize | Model/Api/Converter/Checkout/ToShippingInfo.php:67-72 | array input is used as it is; text other than "" and "0" is decoded, and invalid JSON is the unserialize error; "" and "0", which skip decoding, other scalars, and text that decodes to a scalar are the type error of the first lookup |
| ToShippingInfo.FloatVal | Model/Api/Converter/Checkout/ToShippingInfo.php:74 | `floatval` of a value that is neither a number nor a string is 1 when PHP reads it as true and 0 otherwise |
| ToShippingInfo.Extract | Model/Api/Converter/Checkout/ToShippingInfo.php:72-85 | the six always-set fields are written; each pickup field is written exactly when the delivery type is PICKUP; the pickup date then equals the carrier pickup date |
| ToShippingInfo.ShippingInfoOf | Model/Api/Converter/Checkout/ToShippingInfo.php:63-88 | `convert` fails exactly when the input cannot be brought to an array, with that reason; an array input is extracted as it is |
| ToShippingInfo.Converted | Model/Api/Converter/Checkout/ToShippingInfo.php:63-88 | for every input: the failure and its reason come from the normalisation; on success the always-set fields are the member values at their paths, and the pickup fields are set exactly for PICKUP, with the `pickupDate` and `pickupLocation` values, and otherwise keep the value of a fresh ShippingInfo |
| ToShippingInfo.ArrayResponseUsedAsIs | Model/Api/Converter/Checkout/ToShippingInfo.php:67-68 | converting an array reads that array directly |
| ToShippingInfo.TextResponseDecodedFirst | Model/Api/Converter/Checkout/ToShippingInfo.php:68-70 | converting non-empty JSON text gives the same result as converting the array it decodes to |
| ToShippingInfo.ExtractFields | Model/Api/Converter/Checkout/ToShippingInfo.php:72-77 | type, identifier, option title, preferred delivery date and carrier pickup date are the values at `deliveryType`, `shippingOption/identifier`, `shippingOption/name`, `preferredDeliveryDate` and `pickupDate`, null where absent; the price is the numeric reading of `shippingOption/rate` |
| ToShippingInfo.PriceWithoutRate | Model/Api/Converter/Checkout/ToShippingInfo.php:74 | without a rate the price is 0 |
| ToShippingInfo.ExtractPickupFields | Model/Api/Converter/Checkout/ToShippingInfo.php:79-85 | each pickup field is set if and only if the type strictly equals PICKUP, and then holds `pickupDate` or the matching `pickupLocation/*` value; otherwise it keeps the value of a fresh ShippingInfo |
| ToShippingInfo.PickupDatesAgree | Model/Api/Converter/Checkout/ToShippingInfo.php:77-80 | for a pickup, the pickup date equals the carrier pickup date |
| PaazlApi.AuthorizationHeader | Model/Api/PaazlApi.php:238-241 | the header is "Bearer ", then the key, then ':', then the secret, position by position |
| PaazlApi.AuthorizationHeaderDeterminesCredentials | Model/Api/PaazlApi.php:240 | for keys without ':', equal headers imply equal keys and equal secrets |
| PaazlApi.TimeoutSetting | Model/Api/PaazlApi.php:253-256 | a timeout is applied exactly when the configured value is positive, and it is that value |
| PaazlApi.StatusOutcome | Model/Api/PaazlApi.php:151-159 | success exactly on 2xx; on 4xx, a client-flagged error carrying the body and the status; on any other status, "API error" with code 0 |
| PaazlApi.OrderOutcome | Model/Api/PaazlApi.php:132-159 | `addOrder` returns true exactly on 2xx; a 4xx is the client-flagged error carrying the body and the status; any other status is "API error" with code 0; an exception from the send escapes unwrapped |
| PaazlApi.ShippingOptionsOutcome | Model/Api/PaazlApi.php:179-193 | `getShippingOptions` returns the raw body exactly on 2xx; a 4xx is the client-flagged error carrying the body and the status; any other status is "API error" with code 0; an exception from the send escapes unwrapped |
| PaazlApi.OrderAndShippingOptionsAgree | Model/Api/PaazlApi.php:185-193 | both order calls succeed on the same replies and fail with the same error |
| PaazlApi.TokenOutcome | Model/Api/PaazlApi.php:90-112 | a token only on 2xx with a body the builder accepts; every failure is unflagged "API error" code 0, and it wraps the send's or the builder's exception message exactly when one was thrown |
| PaazlApi.CheckoutOutcome | Model/Api/PaazlApi.php:208-232 | success exactly on status 200, with the decoded body; any other status gives "Cannot obtain checkout info"; a failed send is wrapped as "API error" |
| PaazlApi.ClientErrorByOperation | Model/Api/PaazlApi.php:103-112 | a 4xx is a flagged client error for the order calls, the generic error for the token call, and the checkout-info error for the fetch |
| PaazlApi.OtherSuccessStatus | Model/Api/PaazlApi.php:227-232 | a 2xx other than 200 succeeds for the order calls but fails the checkout fetch |
| PaazlApi.WithoutProducts | Model/Api/PaazlApi.php:142 | the modify payload has every key of the order data except `products`, each with its value unchanged |
| PaazlApi.PaazlApi.constructor | Model/Api/PaazlApi.php:32 | the object starts with an empty token request body |
| PaazlApi.PaazlApi.GetAuthorizedClient | Model/Api/PaazlApi.php:246-259 | a new client whose only header is the Authorization header; its timeout is set only when the configured one is positive; nothing is sent |
| PaazlApi.PaazlApi.GetApiToken | Model/Api/PaazlApi.php:84-113 | the stored request becomes `reference` and persists; one JSON POST of it to the token URL; the request is logged, then status and body once a reply arrives; the result is TokenOutcome |
| PaazlApi.PaazlApi.AddOrder | Model/Api/PaazlApi.php:123-160 | a POST of the data as given, or a PUT without `products` when modifying; the log shows the data before removal, then status and body; the result is OrderOutcome |
| PaazlApi.PaazlApi.GetShippingOptions | Model/Api/PaazlApi.php:168-194 | one JSON POST of the data; the request is logged, then status and body; the result is ShippingOptionsOutcome |
| PaazlApi.PaazlApi.FetchCheckoutData | Model/Api/PaazlApi.php:203-233 | one GET of the checkout URL with a single `reference` query parameter, with only Accept added to the headers; the URL is logged, then status and body or the exception message; the result is CheckoutOutcome |

## Left out

- The HTTP transport (`ClientFactory`, `ClientInterface`). It is a stub
  (`Http.Client`) whose reply is an input of each call.
- The street-address parser and the order payload builder
  (`Model/Api/Builder/Order.php`). That file is not part of this model, and
  the test vectors alone do not define its algorithm.
- `json_encode`, `json_decode`, `Json::unserialize` and `http_build_query`.
  They are parameters. Payloads are recorded before encoding.
- `floatval`'s reading of numeric text, a floating-point conversion. It is a
  parameter. The cases that do not depend on text are modelled: null, false
  and an empty array give 0; true and a non-empty array give 1.
- The unseen collaborators: `TokenBuilder`/`Token`, `UrlProvider`,
  `Configuration`, `GeneralHelper::addTolog` and `DeliveryType`. They are
  represented by parameters, class constants or the append-only log.
- Whether the helper actually writes a log entry, for instance only in debug
  mode. The log holds every `addTolog` call.
- The order of log entries relative to sends. Logger and client are separate
  objects, so only each one's own sequence is stated. The ordering is
  visible through the failure paths: a send that throws leaves the request
  logged and no response logged.
- Magento dependency injection and the exception class hierarchy.
  Exceptions are the tagged `ApiError` datatype.
- The ShippingInfo object itself. `convert` is modelled as a function that
  returns a record value. Fields never written are `None`, which stands for
  a freshly created ShippingInfo. Being a value, the result is new and the
  input is unchanged.
- The ShippingInfo setters themselves: `setIdenfifier` (so spelt in
  `convert`) is taken to write the identifier field, like the other setters
  to their fields. The ShippingInfo class is not part of this model.
- The order of the setter calls inside `convert`. Only the final field
  values are stated.
- Concurrency: calls are sequential. The request body persists on the object
  between calls, which `PaazlApi.PaazlApi.Valid` records.
