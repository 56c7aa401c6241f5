# M-Pesa payment client, modelled in Dafny

This project models the payment helper of a mobile storefront (`src/lib/mpesa.ts`).
The helper keeps one short-lived session key (a bearer token) in secure device storage under the key
`mpesaSessionKey`. It gets a new key from a token-issuing serverless function when none is stored. It
attaches the key to every request it sends to the M-Pesa OpenAPI sandbox. It also builds the Tanzanian
customer-to-business (C2B) single-stage payment request.

Files:

- `wrappers.dfy`: module `Wrappers`, the `Option` and `Result` datatypes.
- `mpesa.dfy`: module `Mpesa`. It holds the constants, the data, and the pure decision procedure of each
  operation as functions (`FetchSessionKeyStep`, `MpesaRequestStep`, `CheckResponseCode`, `C2BPayload` and
  its inverse `ReadC2BPayload`). It also holds the class `Client`, whose methods `FetchSessionKey`,
  `ClearSessionKey`, `MpesaRequest` and `InitiateC2BPayment` follow the source step by step on the field
  `stored`. Each method is proved to make exactly the step its function describes.
- `mpesa_sessions.dfy`: module `MpesaSessions`, with lemmas about several calls in a row and about any
  sequence of calls.

How the outside world appears in the model:

- Secure storage is the field `Client.stored: Option<string>`, the content of the `mpesaSessionKey` slot.
  A stored empty string counts as no key, as JavaScript truthiness has it (`src/lib/mpesa.ts:13`, `:64`).
- Each HTTP call is an input value of type `HttpReply<B>`. `NetworkDown` means the call itself failed.
  `Received(ok, statusText, json)` is a response. Its `json` is `Malformed` when the body is not valid JSON,
  `Null` when it is the JSON literal `null`, and `Object(data)` otherwise. Reading a field of a `null` body
  throws a TypeError in the source; the model's error for it is `NullBody`, passed on like the others.
  The issuer's body is `IssuerBody(sessionId)`. The payment API's body is `Envelope(responseCode, responseDesc)`.
- The ghost field `Client.issuerCalls` counts the GET requests sent to the issuer. The ghost field
  `Client.sent` logs the requests sent to the payment API. With these, "no network call on a hit" and
  "exactly one request is sent" can be stated.
- Thrown errors are the `Failure` case of `Result<_, Error>`. `Message` gives the text of each error the
  module raises itself: `"Session key not found in response"`, `"M-Pesa API error"`, the response
  description, and the two status-text messages.
- The defaults of `mpesaRequest` (method `"GET"`, body `null`) are Dafny default parameter values. They
  follow the two reply inputs.

Facts about the code that the model keeps:

- The module checks `output_ResponseCode` on every OK payment-API reply whose body parses as an object. It always
  uses the fixed base URL `MPESA_API_BASE_URL`.
- It never retries. It fetches a key at most once per call, and only when the slot is empty or holds `""`.

## Model

| member | source | states |
|---|---|---|
| Mpesa.Message | src/lib/mpesa.ts:26-87 | The errors the module throws itself carry exactly the source's texts: "Failed to fetch session key: " and "M-Pesa API request failed: " followed by the status text, "Session key not found in response", and the API error's message. Errors passed on from the runtime (network, unparsable or `null` body) carry none. |
| Mpesa.Client.Storage | src/lib/mpesa.ts:4-48 | The secure store seen by the source holds at most the one key `mpesaSessionKey`, present exactly when the slot holds a value, and mapped to that value. |
| Mpesa.IssueSessionKey | src/lib/mpesa.ts:17-38 | On a miss, the result succeeds if and only if the issuer's reply is OK, its body is a JSON object, and it carries a non-empty `output_SessionID`. The key returned is that id. A non-OK reply fails with its status text. An object body without an id, or with an empty one, fails with "Session key not found in response". A `null` body fails with the passed-on TypeError (`NullBody`). |
| Mpesa.FetchSessionKeyStep | src/lib/mpesa.ts:11-38 | On a hit, the stored key is returned, the slot is unchanged and the issuer is not called. On a miss, the issuer is called once and its reply decides. A key that is returned is non-empty and is what the slot holds afterwards. A failure never writes the slot. |
| Mpesa.Client.FetchSessionKey | src/lib/mpesa.ts:9-43 | The method's result, new slot and issuer-call count are those of `FetchSessionKeyStep` on the old slot. No payment API request is sent. |
| Mpesa.Client.ClearSessionKey | src/lib/mpesa.ts:46-53 | The slot is empty afterwards, whatever it held. Nothing else changes. |
| Mpesa.BuildRequest | src/lib/mpesa.ts:68-77 | The URL is the API base followed by the endpoint: removing the base gives back the endpoint. The method is the one given. The headers are exactly Content-Type `application/json`, Origin `*`, and an Authorization header whose bearer token is the session key. The body is present if and only if one was given, and it is that body. |
| Mpesa.CheckResponseCode | src/lib/mpesa.ts:85-90 | Succeeds, returning the data unchanged, if and only if `output_ResponseCode` is `"INS-0"`. Otherwise it fails with an API error whose message is `output_ResponseDesc` when that is non-empty, and `"M-Pesa API error"` otherwise. |
| Mpesa.ResponseOutcome | src/lib/mpesa.ts:79-90 | Succeeds if and only if the transport is OK, the body is a JSON object, and the code is `"INS-0"`; the value is then the parsed data. A non-OK status fails with its status text. A `null` body fails with the passed-on TypeError (`NullBody`). An OK status with an object body falls through to the response-code check. |
| Mpesa.MpesaRequestStep | src/lib/mpesa.ts:61-90 | The key is obtained exactly as fetchSessionKey obtains it, asking the issuer only on a miss. A request is sent if and only if a key was obtained. The request carries the key the slot then holds: the cached one on a hit, the fresh one on a miss. Without a key, the call fails with the key's error. Success means the transport was OK, the code was `"INS-0"`, and the value is the parsed data. |
| Mpesa.Client.MpesaRequest | src/lib/mpesa.ts:56-95 | The method's result, new slot and issuer-call count are those of `MpesaRequestStep`. The log of sent requests grows by exactly the one request that step sends, or by nothing when no key was obtained. |
| Mpesa.C2BPayload | src/lib/mpesa.ts:104-113 | The payload has exactly the eight C2B fields. `input_Amount` is the amount. `input_CustomerMSISDN` is `"255"` followed by the phone number. `input_ThirdPartyConversationID` and `input_TransactionReference` are both the reference. Country, currency, provider code and items description are `"TZN"`, `"TZS"`, `"000000"` and `"Cart Items"`. Reading the payload back gives the original order. |
| Mpesa.ReadC2BPayload | src/lib/mpesa.ts:104-113 | Reading a body gives an order if and only if the body has the C2B shape: the eight fields, the fixed values, an MSISDN starting with `255`, and equal conversation and transaction references. |
| Mpesa.C2BPayloadIsUnique | src/lib/mpesa.ts:104-113 | Every body with the C2B shape is exactly the payload built from the order read out of it. |
| Mpesa.C2BPayloadInjective | src/lib/mpesa.ts:105-111 | Two different payment orders never give the same payload. |
| Mpesa.Client.InitiateC2BPayment | src/lib/mpesa.ts:98-120 | Is exactly one `MpesaRequest` step for the endpoint `/c2bPayment/singleStage/`, with method `POST` and the C2B payload of the order as body. |
| MpesaSessions.FetchAfterSuccessIsHit | src/lib/mpesa.ts:12-38 | After a fetch that succeeds, the next fetch returns the same key, whatever the issuer would reply. It does not call the issuer and leaves the slot as it is. |
| MpesaSessions.FetchAfterClearAsksIssuer | src/lib/mpesa.ts:46-48 | From any state, after a clear, a fetch always calls the issuer. It succeeds if and only if the issuer hands out a key; otherwise the slot stays empty. |
| MpesaSessions.RequestAfterFetchUsesCachedKey | src/lib/mpesa.ts:63-73 | An API request made after a successful fetch does not call the issuer. It leaves the slot unchanged, and its Authorization header carries the fetched key. |
| MpesaSessions.C2BRequestShape | src/lib/mpesa.ts:104-113 | When the C2B request is sent, its URL is the API base followed by `/c2bPayment/singleStage/`, its method is `POST`, and its body reads back as the order. |
| MpesaSessions.KeysComeFromIssuer | src/lib/mpesa.ts:12-73 | Over any sequence of fetches, clears and requests, the client never makes up a key. The key in the slot, and the bearer token of every request sent, is either the key stored at the start or one the issuer handed out to a call that actually asked it (a miss, not a hit or a clear). Requests already logged are kept unchanged. |
| MpesaSessions.WritesBoundedByClears | src/lib/mpesa.ts:12-48 | Over any sequence of calls, the cache writes a fresh key at most once more than the number of clears. It writes none beyond the clears when a key was stored at the start. |
| MpesaSessions.Perform | src/lib/mpesa.ts:9-95 | One fetch, clear or request made on a `Client` leaves its slot, issuer-call count and request log exactly as `Apply` describes. So the lemmas about sessions hold of the class. |
| MpesaSessions.PerformAll | src/lib/mpesa.ts:9-95 | Any sequence of calls made on a `Client`, in order, leaves its fields exactly as `Run` describes. |
| MpesaSessions.NoIssuerCallsOnceStored | src/lib/mpesa.ts:63-66 | While a key is stored and no clear happens, no fetch or request calls the issuer, and the slot keeps its key. |

## Left out

- The navigation guard and tab layout (`src/app/(shop)/_layout.tsx`) are not part of this model. They are declarative UI routing.
- Real `fetch`, `response.json()` and `JSON.stringify` are not modelled: their results are input values. The request body is kept as a JSON value and not serialised.
- `expo-secure-store` is not modelled. Its calls are field reads and writes. A get, set or delete that itself rejects (a storage-access failure) is not modelled.
- `console.error` logging is not modelled. It has no behaviour to state; every caught error is passed on unchanged.
- The text of `response.statusText` is not modelled. It is an opaque input carried into the error.
- Promises and asynchrony are not modelled, which hides the non-atomic check-then-act between two concurrent fetches.
- `Envelope` holds only `output_ResponseCode` and `output_ResponseDesc`. The payment API's other response fields are passed through by the source but are not modelled.
- JSON values that are not strings, in `output_SessionID`, `output_ResponseCode` or `output_ResponseDesc`, are not modelled.
- `Json` has only string and integer values. A general `Record<string, unknown>` body is narrowed to those.
- `amount` is an unbounded integer passed through unchanged, not a floating-point number. The source does no arithmetic on it.
- The issuer's URL and the headers of its GET request (`src/lib/mpesa.ts:5`, `:18-23`) are not modelled. The model only counts issuer calls in `Client.issuerCalls`.
