# Bitfinex funding request encoding, modelled in Dafny

This project models the request-encoding layer of the Bitfinex Go client for
funding commands:

- the funding-offer cancel commands of package `fundingoffer`
  (`CancelRequest`, `CancelAllRequest`). Each renders as a compact JSON object
  (`ToJSON`). Each also renders as a websocket command envelope
  `[0, "foc", null, <object>]` (`MarshalJSON`);
- the decisions of the REST `FundingService` methods `Offers`,
  `OfferHistory`, `Loans`, `LoansHistory`, `Credits`, `CreditsHistory`,
  `Trades`, `SubmitOffer`, `CancelOffer` and `KeepFunding`. Each method picks
  a permission scope, a request path and (for writes) a body. `KeepFunding`
  first checks the request's `Type`. Every method runs the chain encode →
  build signed request → send → decode and returns at the first error.

Everything here is pure: functions, datatypes and lemmas.

Modules:

- `Common`: Go's `int64`, `Option`, and `Result` for a Go `(value, error)` pair.
  An `Error` is its message.
- `Decimal`: base-10 rendering of integers, as `encoding/json` writes them.
  Also a strict parser for the integer form of a JSON number (section 6 of
  RFC 8259). Rendering and parsing are proved inverse, both ways.
- `GoJson`: `json.Marshal` of a flat struct. Only exported fields are
  written, in declaration order, keyed by their `json` tag, with no
  whitespace. Tags are plain names, as in every struct of the core.
- `JsonText`: reads the top-level elements of a JSON array text. A comma
  separates elements only outside strings and nested brackets. This is the
  reference the envelopes are checked against. It counts brackets without
  checking their order.
- `FundingOffer`: the two cancel requests, the envelope and its inverse.
- `Funding`: the keep-funding request, the per-method
  (permission, path, body) table, and the step chain. The request factory,
  transport and decoder are parameters.

Behaviour as written: `CancelAllRequest.ToJSON` builds an anonymous struct
whose only field, `currency`, is unexported. `encoding/json` skips unexported
fields, so the payload is always `{}` and the currency never reaches the
wire. The intended design has the payload carry the currency. The model
follows the code. `CancelAllPayloadIsEmpty` and `CancelAllIgnoresCurrency`
state the behaviour.

Compact output: `encoding/json` writes compact output, `{"id":12345}`; the
model follows the code.

## Model

| member | source | states |
|---|---|---|
| `Decimal.FormatInt` | pkg/models/fundingoffer/cancel.go:14-18 | the rendering of an integer field is a JSON integer (no leading zero, no `+`); it starts with `-` exactly for negative values |
| `Decimal.ParseInt` | pkg/models/fundingoffer/cancel.go:14-18 | the reference inverse of the integer rendering at these lines (the source has no parser): a text is accepted exactly when it is a JSON integer; a negative result comes from a leading `-` |
| `Decimal.NatDigits` | pkg/models/fundingoffer/cancel.go:14-18 | the digits of a natural number form a non-empty digit string whose first digit is `0` only for zero |
| `Decimal.DigitsValueOfNatDigits` | pkg/models/fundingoffer/cancel.go:14-18 | the digits rendered for `n` denote `n` |
| `Decimal.NatDigitsOfDigitsValue` | pkg/models/fundingoffer/cancel.go:14-18 | a canonical digit string is the rendering of its own value |
| `Decimal.ParseFormatInt` | pkg/models/fundingoffer/cancel.go:9-18 | parsing the rendering of any integer, negative ones included, gives it back |
| `Decimal.ParseIntIffFormat` | pkg/models/fundingoffer/cancel.go:9-18 | a text parses to `x` exactly when it is the rendering of `x` (or `-0` for zero): every id has one spelling |
| `GoJson.Marshal` | pkg/models/fundingoffer/cancel.go:18 | marshalling a struct of integer and string fields cannot fail and gives a text of the form `{...}` |
| `GoJson.MarshalEmptyIff` | pkg/models/fundingoffer/cancel.go:36-41 | the object is `{}` exactly when the struct has no exported field |
| `GoJson.MarshalIgnoresUnexported` | pkg/models/fundingoffer/cancel.go:36-41 | changing the value of an unexported field changes nothing in the output |
| `GoJson.MarshalTwoExported` | v2/rest/funding.go:13-16 | two exported fields are written in declaration order, separated by one comma, with no whitespace |
| `GoJson.MarshalOneExported` | pkg/models/fundingoffer/cancel.go:13-18 | one exported field gives a one-member object |
| `JsonText.ElementsOfJoin` | pkg/models/fundingoffer/cancel.go:28 | a bracketed, comma-joined list of single-element texts reads back as exactly those elements, trimmed |
| `FundingOffer.Envelope` | pkg/models/fundingoffer/cancel.go:28 | the format string writes the fixed prefix `[0, "foc", null, `, then the payload unchanged, then `]` |
| `FundingOffer.CancelRequest.Fields` | pkg/models/fundingoffer/cancel.go:13-17 | the anonymous struct has one exported field, tagged `id`, holding the request's id |
| `FundingOffer.CancelAllRequest.Fields` | pkg/models/fundingoffer/cancel.go:36-40 | the anonymous struct has one field, tagged `currency` and holding the currency, and that field is unexported |
| `FundingOffer.WrapPayload` | pkg/models/fundingoffer/cancel.go:24-28 | the envelope step fails, with the same error and no bytes, exactly when `ToJSON` fails; on success, unwrapping gives the payload back |
| `FundingOffer.UnwrapEnvelopeIff` | pkg/models/fundingoffer/cancel.go:28 | stripping the prefix `[0, "foc", null, ` and the final `]` gives `p` exactly when the text is the envelope of `p` |
| `FundingOffer.EnvelopeElements` | pkg/models/fundingoffer/cancel.go:28 | an envelope read as a JSON array has exactly four elements: `0`, `"foc"`, `null` and the payload |
| `FundingOffer.CancelRequest.ToJSON` | pkg/models/fundingoffer/cancel.go:12-19 | always succeeds, with exactly `{"id":` + decimal id + `}` |
| `FundingOffer.CancelRequest.MarshalJSON` | pkg/models/fundingoffer/cancel.go:23-29 | always succeeds; the text is the `"foc"` envelope around the `ToJSON` bytes |
| `FundingOffer.DecodeCancelPayloadIff` | pkg/models/fundingoffer/cancel.go:13-18 | the text between `{"id":` and `}` decodes to `x` exactly when the payload is the rendering of `x` |
| `FundingOffer.CancelRequestRoundTrip` | pkg/models/fundingoffer/cancel.go:8-29 | for every int64 id, the id is recovered from the `ToJSON` payload, and the `ToJSON` bytes from the envelope |
| `FundingOffer.CancelRequestEnvelope` | pkg/models/fundingoffer/cancel.go:23-29 | the cancel envelope has the four elements `0`, `"foc"`, `null` and the `ToJSON` object |
| `FundingOffer.CancelAllRequest.ToJSON` | pkg/models/fundingoffer/cancel.go:35-42 | always succeeds |
| `FundingOffer.CancelAllRequest.MarshalJSON` | pkg/models/fundingoffer/cancel.go:46-52 | always succeeds; the text is the `"foc"` envelope around the `ToJSON` bytes |
| `FundingOffer.CancelAllPayloadIsEmpty` | pkg/models/fundingoffer/cancel.go:35-42 | the payload is `{}` for every currency: the unexported field is dropped |
| `FundingOffer.CancelAllIgnoresCurrency` | pkg/models/fundingoffer/cancel.go:35-42 | two requests that differ only in currency give the same payload |
| `FundingOffer.CancelAllEnvelope` | pkg/models/fundingoffer/cancel.go:46-52 | the envelope is exactly `[0, "foc", null, {}]`, with the single-offer command code; it reads as `0`, `"foc"`, `null`, `{}` |
| `Funding.EncodeKeepFunding` | v2/rest/funding.go:192-199 | fails exactly when `Type` is not exactly `credit` or `loan`, with the error `Expected type: credit or loan, got: <Type>`; otherwise the body is `{"type":"<Type>","id":<ID>}` |
| `Funding.KeepFundingRequest.Fields` | v2/rest/funding.go:13-16 | the struct has two exported fields in the order `Type` then `ID`, tagged `type` and `id` |
| `Funding.IsKeepFundingType` | v2/rest/funding.go:192 | every accepted type (`credit` or `loan`, compared case-sensitively) is a non-empty lower-case word, so it is marshalled without escaping |
| `Funding.KeepFundingBody` | v2/rest/funding.go:13-16 | an accepted request marshals to `{"type":"<Type>","id":<ID>}`, keys from the tags in declaration order |
| `Funding.PermissionOf` | v2/rest/funding.go:27-202 | `PermissionRead` exactly for the seven query methods; `PermissionWrite` for `SubmitOffer`, `CancelOffer`, `KeepFunding` |
| `Funding.Encode` | v2/rest/funding.go:155-199 | a query always encodes to no body; `SubmitOffer` and `CancelOffer` pass their `ToJSON` error through unchanged, or use its bytes as the body; `KeepFunding` fails exactly when its type is rejected, with that error, and otherwise its body is the marshalled request |
| `Funding.SubmitOfferRejected` | v2/rest/funding.go:156-159 | a `ToJSON` failure of the offer is returned as is, with no request built and nothing sent |
| `Funding.CancelOfferRejected` | v2/rest/funding.go:174-177 | a `ToJSON` failure of the cancel request is returned as is, with no request built and nothing sent |
| `Funding.SubmitOfferRequestBuilt` | v2/rest/funding.go:156-163 | the first step builds a write-scoped request to `funding/offer/submit` whose body is exactly the `ToJSON` bytes |
| `Funding.CancelOfferRequestBuilt` | v2/rest/funding.go:174-181 | the first step builds a write-scoped request to `funding/offer/cancel` whose body is exactly the `ToJSON` bytes |
| `Funding.QueryRequestBuilt` | v2/rest/funding.go:26-138 | a query cannot fail before the request factory: its first step builds a read-scoped request on its path with no body |
| `Funding.WriteScopeIffBody` | v2/rest/funding.go:27-205 | a request is write-scoped exactly when it is built with a body |
| `Funding.Execute` | v2/rest/funding.go:26-216 | an encode failure returns that error and builds no request; otherwise the collaborator calls are a prefix of build → send → decode; a success means all three ran |
| `Funding.ErrorComesFromLastStep` | v2/rest/funding.go:26-216 | the returned error is the error of the last step that ran, and no step runs after a failed one |
| `Funding.KeepFundingRejected` | v2/rest/funding.go:191-194 | a rejected type returns the validation error with no request built and nothing sent |
| `Funding.KeepFundingRequestBuilt` | v2/rest/funding.go:196-205 | an accepted request is built write-scoped, on `funding/keep`, with the encoded body |
| `Funding.WritePaths` | v2/rest/funding.go:160-203 | the write endpoints post to `funding/offer/submit`, `funding/offer/cancel` and `funding/keep`, whatever their arguments |
| `Funding.ActivePaths` | v2/rest/funding.go:27-99 | the active queries use `funding/offers/`, `funding/loans/` or `funding/credits/` followed by the symbol; an empty symbol is dropped |
| `Funding.HistoryPaths` | v2/rest/funding.go:45-135 | each history path is its active path followed by `/hist`; trades use only `funding/trades/<symbol>/hist` |
| `Funding.NonEmpty` | v2/rest/funding.go:27-203 | the elements `path.Join` keeps are exactly the non-empty elements of its arguments, each non-empty, no more of them than were given; none is kept exactly when all are empty |
| `Funding.JoinPath` | v2/rest/funding.go:27-203 | `path.Join` gives the empty path exactly when every element is empty |
| `Funding.PathOf` | v2/rest/funding.go:27-203 | every method asks for a non-empty path |
| `Funding.PathsUnderFunding` | v2/rest/funding.go:27-203 | every endpoint's path starts with `funding/` |
| `Funding.QueryPathLayout` | v2/rest/funding.go:27-135 | every query path is `funding/<resource>`, then `/<symbol>` unless the symbol is empty, then `/hist` for the history forms and trades |
| `Funding.QueryPathsDistinct` | v2/rest/funding.go:27-135 | for one symbol, no two query methods use the same path |

## Left out

- Transport and signing: `NewAuthenticatedRequest`, `NewAuthenticatedRequestWithBytes` and `fs.Request` are foreign calls. In `Funding.Collaborators` they are functions whose outcomes are parameters. No nonce, signature or header is modelled.
- Response decoders: `NewFundingOfferSnapshotFromRaw`, `NewFundingLoanSnapshotFromRaw`, `NewFundingCreditSnapshotFromRaw`, `fundingtrade.SnapshotFromRaw` and `NewNotificationFromRaw` are not part of this model. Each is the `decode` collaborator, and its result is passed through unchanged.
- `FundingOfferRequest.ToJSON` and `FundingOfferCancelRequest.ToJSON` are not part of this model. `SubmitOffer` and `CancelOffer` carry the outcome of that call, bytes or error.
- `GoJson.Marshal`: `encoding/json` string escaping is not modelled. The function requires every exported key and string value to need no escaping. This holds for every struct the core marshals: the keep-funding type is `credit` or `loan`, and the cancel-all currency is never written.
- `GoJson.Key`: tag options (`json:"name,omitempty"`) and the skip tag `json:"-"` are not modelled; the whole tag is the key. No struct of the core uses either.
- `JsonText.Elements`: the scanner only tracks nesting depth, so it also accepts texts whose brackets balance in count but not in order (such as `}{`). Every text the core builds is well nested, so the property proved about the envelopes is unaffected.
- `Funding.PathOf`: `path.Join` cleaning is not modelled. Symbols must be one path segment (no `/`, not `.` or `..`); the empty symbol is allowed and dropped as `path.Join` drops it.
- `Funding.KeepFundingRequest`: the Go `int` field `ID` is taken as 64 bits wide, as on 64-bit platforms.
- Byte slices and Go strings are modelled as strings of Unicode characters. Every body the core encodes is ASCII. The `KeepFunding` error and the query paths repeat the caller's `Type` and symbol as given. A Go string that is not valid UTF-8 has no counterpart in the model.
- The `Synchronous` embedding in `FundingService` is plumbing and is left out.
