# ipstack client — a Dafny model of request building and response resolution

This project models the core of the Go client library for the ipstack
IP-geolocation service (`ipstack.go`): how a `Client` is built from a list
of arguments of mixed types, how its request template `tRequest` is
configured and copied, how the lookups `IP`, `IPs` and `Me` decide whether
to contact the service and which URL they request, how `do` wraps the
outcome of the request into the envelope `tResponse`, and how the two
resolution stages `CheckError` and `DecodeTo` turn that envelope into a
record or a single error. The package-level `DefaultClient` and `Init` are
modelled as explicit state in a `Package` object.

Modules, one per component of `ipstack.go`:

- `Foundation` (foundation.dfy): `Option`, `Result`, bytes.
- `Text` (text.dfy): the parts of Go's `strings` package the code relies on:
  `TrimSpace` with Go's white-space set, `Join`, and `Split` as the inverse of `Join`.
- `Errors` (errors.dfy): one constructor per error message of the library,
  the remote error `tError` (`ApiError`), its nil-safe accessors, the `%d`
  formatting of its code, and the downcast `APIError`.
- `Transport` (transport.dfy): the HTTP client (`HttpClient`, an object that
  records every URL requested through it; its replies are an oracle
  `serve(n, url)` for the n-th request) and `url.Values` (`Values`, a heap
  object, because a Go map is a reference that copies of a request share).
- `Responses` (responses.dfy): the envelope `tResponse` (`Envelope`), the
  envelope `do` builds (`Wrap`), `CheckError`, `DecodeTo`, and their chaining.
- `Requests` (requests.dfy): `tRequest` (`Request`) with `UseHTTPS`,
  `EnableSecuity` (here `EnableSecurity`), `Fields`, `copy`, `validate`,
  `do`, `IP`, `IPs` and `Me`; nil receivers are modelled by `Request?`.
- `Clients` (clients.dfy): `Client` with `R`, `IP`, `IPs`, `Me` (the cached
  self record), `validate` and `applyParams`; the argument classification of
  `New` (`Param`), `extractToken`, `extractHttpClient`, the `Param*`
  configurators, `New`, `Init`, and the package-level `R`, `IP`, `IPs`, `Me`.

Behaviour the model makes explicit:

- `UseHTTPS`, `EnableSecuity` and `Fields` change the request in place and
  return the same pointer; `EnableSecuity(false)` never clears the flag.
- `Fields` puts the new names first and then the previous non-empty value:
  `Fields("a")` then `Fields("b")` selects `"b,a"`.
- `copy` is shallow: the copy shares the `url.Values` map with the original,
  so `Fields` on a copy rewrites the original's "fields" entry, while the
  original's own built query string is unchanged (see Findings).
- `Client.IP`, `Client.IPs` and `Client.Me` use the base request itself, not a copy.
- `IP` rejects an empty or invalid address without a request; `IPs`
  silently drops such entries and fails only when none is left.
- The security fragment `&security=1` is appended after the encoded query.
- `CheckError` stores the raw JSON error but returns it wrapped as
  "Decode JSON error", so a later `DecodeTo` returns a different error than
  `CheckError` did; after `CheckError` has stored an error the envelope still
  holds the body, so the "error implies no raw data" property holds for the
  envelopes `do` builds (`Wrap`) and not after `CheckError`.
- A body that omits `success` counts as success.
- `Client.Me` decodes into a pointer, so a JSON `null` self body sets the
  cache to nil and `Me` returns no record and no error; the first lookup of
  `New` then succeeds with no cached record.

External collaborators are parameters: `url.Values.Encode` (`Encoder`),
`net.ParseIP` (`IPPredicate`), `json.Unmarshal` into the error shape
(`Prober`), into a record value (`Oracles.decodeOne`), into a record
pointer, where JSON `null` clears the pointer (`Oracles.decodeSelf`), and
into a record list (`Oracles.decodeMany`), the server's replies (`Server`),
and the zero `Response{}` (`Oracles.empty`). Decoded records are an opaque
type `RecordData` held by a `GeoRecord` object, so that `Client.Me` reusing
the cached record's storage is visible.

## Model

| member | source | states |
|---|---|---|
| `Text.TrimSpace` | ipstack.go:711-713 | the result is a contiguous block of the input with no white space at either end, and is empty exactly when the input is all white space |
| `Text.TrimSpaceCutsSpace` | ipstack.go:744 | what trimming removes before and after the result is white space only |
| `Text.TrimSpaceIdempotent` | ipstack.go:743-745 | trimming an already trimmed address changes nothing |
| `Text.JoinEnds` | ipstack.go:692 | `strings.Join` of no parts is ""; the first part opens the result and the last part closes it |
| `Text.JoinNested` | ipstack.go:688-692 | joining a list whose last element is a non-empty join equals joining the concatenation |
| `Text.SplitJoin` | ipstack.go:757 | splitting a comma-joined non-empty list of comma-free parts gives the parts back (no parts join to "", which splits to one empty part) |
| `Text.JoinSplit` | ipstack.go:757 | joining the pieces of a split gives the original string |
| `Errors.Code` | ipstack.go:935-940 | 0 for a nil `tError`, the code otherwise |
| `Errors.Type` | ipstack.go:955-960 | "" for a nil `tError`, the type otherwise |
| `Errors.Info` | ipstack.go:975-980 | "" for a nil `tError`, the info otherwise |
| `Errors.Message` | ipstack.go:988-993 | empty exactly for a nil `tError`; otherwise it starts with "[" and the decimal code |
| `Errors.DecimalRoundTrip` | ipstack.go:992 | the `%d` text of the code, negative codes included, reads back as the code |
| `Errors.APIError` | ipstack.go:1264-1272 | yields a record exactly when the error is a remote error, and then that error's record |
| `Errors.APIErrorAccessors` | ipstack.go:935-980 | the accessors after `APIError` give zero values for nil and non-remote errors and the fields of a remote one |
| `Transport.HttpClient.Get` | ipstack.go:818-830 | one GET: the URL is appended to the requests made and the reply is the server's reply to it |
| `Transport.FirstValue` | ipstack.go:688 | `url.Values.Get`: "" for a missing key or an empty value list, the first value otherwise |
| `Transport.Values.Set` | ipstack.go:692 | the key now has exactly the given value; other keys are unchanged |
| `Responses.Wrap` | ipstack.go:819-836 | `do`'s envelopes: a failed GET, a nil body and a failed read each carry their own error and no raw data; the error is absent exactly when the body was read, and then the body is carried |
| `Responses.Check` | ipstack.go:885-901 | passes an earlier error through; reports exactly when it stores; succeeds exactly when the body decodes and does not say success=false; a remote failure is stored and returned as the nested `tError`; a body that does not decode is stored as the raw decoder error and returned wrapped as "Decode JSON error"; stored and returned differ only in that case |
| `Responses.CheckError` | ipstack.go:880-902 | nil envelope gives "Nil RAW response object"; otherwise the new error slot and the result are those of `Check`, the body is untouched |
| `Responses.Decode` | ipstack.go:913-919 | an earlier error is returned without decoding; a nil destination fails; otherwise the decoder's value, or its error returned as it is |
| `Responses.DecodeTo` | ipstack.go:909-920 | nil envelope gives "Nil RAW response object"; otherwise `Decode` on the envelope's fields, which it does not change |
| `Responses.ResolveChain` | ipstack.go:880-920 | after a reporting `CheckError`, `DecodeTo` fails with the stored error (the reported one, or its unwrapped decoder error); after a silent one it is plain decoding |
| `Responses.RemoteFailureCode` | ipstack.go:896-899 | a body with success=false and code 104 gives a remote error whose `Code` is 104 |
| `Responses.Resolve` | ipstack.go:527-538 | transport errors surface unchanged, errors reported by `CheckError` win over decoding, a value comes exactly from a body passing both stages, and a body passing `CheckError` but not the decoder fails with the decoder's error |
| `Requests.UseHTTPS` | ipstack.go:650-661 | nil stays nil; otherwise the same request with the HTTPS endpoint for true and the HTTP endpoint for false, nothing else changed |
| `Requests.EnableSecurity` | ipstack.go:663-672 | nil stays nil; true sets the flag, false leaves it as it was; nothing else changes |
| `Requests.MergeFieldsOrder` | ipstack.go:686-692 | the new "fields" value starts with the first new name and ends with the previous value when that is non-empty; no names keep the previous value |
| `Requests.MergeFieldsAccumulates` | ipstack.go:686-692 | two successive `Fields` calls, each with at least one name and the first leaving a non-empty value, select what one call with the later names first would (a first call leaving "", such as `Fields("")`, is excluded: `Fields("")` then `Fields("b")` selects "b", not "b,") |
| `Requests.MergeFieldsExample` | ipstack.go:686-692 | `Fields("a")` then `Fields("b")` selects "b,a" |
| `Requests.Fields` | ipstack.go:680-695 | nil stays nil; no names change nothing; otherwise the shared map's "fields" entry becomes the new names then the previous non-empty value, joined by commas, and the built query is "?" plus the encoding of the whole map |
| `Requests.Copy` | ipstack.go:866-872 | nil stays nil; otherwise a new request with the same field values, sharing the query map |
| `Requests.Validate` | ipstack.go:788-796 | no error exactly when the request and its HTTP client are non-nil; the two error kinds otherwise |
| `Requests.RequestUrl` | ipstack.go:814-817 | endpoint, path and built query, followed by "&security=1" exactly when the flag is set |
| `Requests.Do` | ipstack.go:812-837 | exactly one GET of the request's URL for the path, and the fresh envelope is `Wrap` of its reply |
| `Requests.IPTarget` | ipstack.go:711-718 | accepts exactly a non-empty valid trimmed address and then uses the trimmed literal; "Empty IP" exactly for a blank input, "Invalid IP" with the trimmed text otherwise |
| `Requests.ValidIPs` | ipstack.go:742-751 | the kept entries of a batch: never more than the entries passed (what they are is stated by the three lemmas below) |
| `Requests.ValidIPsSound` | ipstack.go:743-754 | every kept batch entry is trimmed, non-empty and valid |
| `Requests.ValidIPsAppend` | ipstack.go:743-754 | filtering a concatenation filters each part, so kept entries stay in input order |
| `Requests.ValidIPsMembers` | ipstack.go:743-754 | an address is kept exactly when some input entry trims to it and is valid |
| `Requests.FilterValidIPs` | ipstack.go:743-754 | the loop collects exactly the kept entries, in order |
| `Requests.BatchTarget` | ipstack.go:737-757 | "No IP passed" exactly for no arguments, "No valid IP passed" exactly when arguments exist but none is kept, a path exactly when some entry is kept |
| `Requests.BatchTargetLists` | ipstack.go:757 | the batch path splits back into exactly the kept entries, in order |
| `Requests.SingleAndBatch` | ipstack.go:706-757 | a single address is accepted by `IP` exactly when the one-element batch is accepted by `IPs`, with the same path; rejected, they report different errors |
| `Requests.Lookup` | ipstack.go:708-718 | the common tail of the lookups: an invalid request or rejected target fails with no request, otherwise `do` |
| `Requests.IP` | ipstack.go:706-719 | request errors first; no request for an empty or invalid address; otherwise one request for the trimmed literal |
| `Requests.IPs` | ipstack.go:732-758 | request errors first; no request without arguments or without valid ones; otherwise one request for the valid entries joined by commas |
| `Requests.Me` | ipstack.go:765-772 | request errors first; otherwise one request for the path "check" |
| `Requests.FieldsOnCopyReachesOriginal` | ipstack.go:866-872 | as written: `Fields` on a copy rewrites the original's "fields" entry; the original's own fields, its built query included, stay |
| `Requests.SuccessiveCopiesAccumulate` | ipstack.go:513-518 | as written: `R().Fields("a")` then `R().Fields("b")` leaves the second copy and the base selecting "b,a" |
| `Requests.CopyDeep` | ipstack.go:861-872 | the full copy the documentation describes: a fresh request with a fresh map holding the same entries |
| `Requests.FieldsOnDeepCopyStaysLocal` | ipstack.go:861-872 | with a deep copy, `Fields` on the copy leaves the original and its map unchanged |
| `Clients.Validate` | ipstack.go:613-621 | no error exactly when the client and its base request are non-nil; "Nil client object" or "Incorrect internal state" otherwise |
| `Clients.R` | ipstack.go:513-518 | nil for an invalid client; otherwise a fresh shallow copy of the base request |
| `Clients.IP` | ipstack.go:522-538 | client errors first; otherwise the base request's lookup of the trimmed address, with no request when it is rejected, resolved by `Resolve` from a zero record |
| `Clients.IPs` | ipstack.go:544-560 | client errors first; otherwise the base request's batch lookup, with no request when nothing is kept, resolved by `Resolve` from an empty list |
| `Clients.Me` | ipstack.go:565-597 | client errors first, with nothing of the client changed (cache pointer and contents, base request, skip flag); otherwise (`Fetched`) cached record and no forced refresh: that record and no request; otherwise one self request decoded from the cached or a zero record; failure returns the old record unchanged with the error; a JSON `null` body clears the cache, leaves the old record as it was, and returns no record and no error; any other record becomes the cache, in the old record's storage when there was one |
| `Clients.ParamToken` | ipstack.go:1116-1125 | nil for a blank token, otherwise a closure that sets the trimmed token and nothing else |
| `Clients.ParamDisableFirstMeCall` | ipstack.go:1136-1142 | a closure that switches the first self lookup off and changes nothing else |
| `Clients.ParamUseHTTPS` | ipstack.go:1148-1154 | a closure that sets the HTTPS endpoint for true and the HTTP one for false, nothing else |
| `Clients.ParamFields` | ipstack.go:1162-1168 | a closure that does nothing for no names and otherwise merges the names into the "fields" entry and rebuilds the query |
| `Clients.ParamEnableSecurity` | ipstack.go:1174-1180 | a closure that turns the security module on, whatever names are passed |
| `Clients.Configured` | ipstack.go:1120-1180 | each kind of closure writes only its own part of the client: token, skip flag, endpoint, security flag, or the query |
| `Clients.ConfiguredAll` | ipstack.go:629-640 | a list without non-nil closures leaves the client's setup as it was |
| `Clients.ConfiguredSkip` | ipstack.go:629-640 | the first self lookup is off exactly when some argument is `ParamDisableFirstMeCall()` |
| `Clients.ConfiguredSecurity` | ipstack.go:629-640 | the security module is on exactly when some argument is a `ParamEnableSecurity` closure |
| `Clients.ConfiguredTokenWins` | ipstack.go:629-640 | among the configurators the last token-setting one decides the token |
| `Clients.Apply` | ipstack.go:1120-1180 | running one configurator changes the client's setup as `Configured` says and nothing else |
| `Clients.ApplyParams` | ipstack.go:629-640 | the non-nil configurators run in list order; other arguments are skipped |
| `Clients.LastToken` | ipstack.go:1075-1086 | without any string or []byte argument the token is "" |
| `Clients.LastTokenWins` | ipstack.go:1075-1086 | a string or []byte argument after which no other one follows is the token |
| `Clients.ExtractToken` | ipstack.go:1075-1086 | the last string or []byte argument, trimmed |
| `Clients.LastHttp` | ipstack.go:1098-1112 | the last http.Client value or non-nil *http.Client argument |
| `Clients.LastHttpWins` | ipstack.go:1098-1112 | a usable HTTP client argument with no usable one after it is the one taken |
| `Clients.LastHttpNone` | ipstack.go:1098-1112 | no client is taken exactly when no argument is an http.Client value or a non-nil *http.Client |
| `Clients.LastHttpPassed` | ipstack.go:1104-1108 | a client taken from a pointer argument is one of the arguments |
| `Clients.ExtractHttpClient` | ipstack.go:1098-1112 | nil without a usable argument; the pointer itself for a pointer; a fresh copy for a value |
| `Clients.TokenPriority` | ipstack.go:1028-1034 | a token set by a configurator wins over every string or []byte argument |
| `Clients.SettleToken` | ipstack.go:1031-1035 | the configured token, else the extracted one; construction can go on exactly when it is non-empty |
| `Clients.ChooseToken` | ipstack.go:1031-1035 | the configured token when it is non-empty, else the trimmed last string or []byte argument |
| `Clients.SettleClient` | ipstack.go:1039-1043 | the extracted HTTP client, else a fresh default client |
| `Clients.SettleQuery` | ipstack.go:1045-1050 | the HTTP endpoint when none was configured; access key and output format set in the map; the query rebuilt from it |
| `Clients.Prepare` | ipstack.go:1026-1050 | "Token ... is required" exactly when no token resolves; otherwise a fresh client in the state `PreparedAs` describes |
| `Clients.FirstFetch` | ipstack.go:1052-1056 | on a client with no cached record: exactly one self request resolved from a zero record; a failure comes back as "Test request error" wrapping it, a success caches the decoded record (none for a JSON `null`) |
| `Clients.Build` | ipstack.go:1026-1056 | "Token ... is required" exactly when no token resolves; otherwise (`FirstLookup`) the prepared client in the state `PreparedAs`; with the first lookup disabled, that client, no request and no record; otherwise exactly one self request on its HTTP client, resolved from a zero record: a failure gives "Test request error" wrapping it and no client, a success gives the client with the decoded record cached (none for a JSON `null`); HTTP client arguments other than the one taken are left as they were |
| `Clients.New` | ipstack.go:1026-1064 | what `Build` states (token error, `PreparedAs`, the first lookup and its outcome); the default client is set to the new client only when there was none; HTTP client arguments other than the one taken are left as they were |
| `Clients.Init` | ipstack.go:1206-1213 | the token error exactly when no token resolves; otherwise `New`'s outcome (`FirstLookup`) for the new client: it succeeds exactly when the first lookup is disabled or resolves, and then that client, in the state `PreparedAs` with the cache the lookup left, becomes the default client; on failure the default client stays; HTTP client arguments other than the one taken are left as they were |
| `Clients.PackageR` | ipstack.go:1217-1219 | the default client's `R`, nil when there is no valid default client |
| `Clients.PackageIP` | ipstack.go:1224-1229 | "DefaultClient client isn't initialized" without a default client, its `IP` otherwise |
| `Clients.PackageIPs` | ipstack.go:1234-1239 | "DefaultClient client isn't initialized" without a default client, its `IPs` otherwise |
| `Clients.PackageMe` | ipstack.go:1244-1249 | "DefaultClient client isn't initialized" without a default client; an invalid default client's error with nothing of that client changed (cache pointer and contents, base request, skip flag); otherwise `Fetched`, the outcome `Client.Me` states |

## Left out

- The HTTP transport: `client.Get`, reading and closing the body are one oracle reply per request (`Server`); timeouts, TLS and connection reuse are not modelled.
- JSON decoding: `json.Unmarshal` is an oracle; when decoding into the cached record fails part-way, Go may already have written some fields, which the model does not capture (the cached record keeps its old contents).
- `url.Values.Encode`: percent-escaping and key sorting are left to the `Encoder` parameter; the model only relies on its being a function of the map.
- `json.Unmarshal` into `tResponseError` (ipstack.go:892-893) is the unconstrained `Prober` oracle. Go rejects a JSON array there (an `UnmarshalTypeError`), so if the bulk reply of `IPs` is an array, `CheckError` would turn every successful batch lookup into "Decode JSON error". The model does not decide this: it assumes the oracle's verdict on the batch reply shape.
- `net.ParseIP`: an uninterpreted predicate; `SplitJoin`-based results assume it accepts no comma.
- Go strings are byte sequences; here they are sequences of Unicode characters, so input that is not valid UTF-8 is outside the model (where `strings.TrimSpace` meets an invalid byte, Go decodes it as a one-byte `RuneError` that is not white space and stops trimming there).
- `string([]byte)` for a byte token: the `TokenBytes` argument carries the already converted string; UTF-8 decoding is not modelled.
- The `Response` record and its sub-records (`float32`, `time.Time`, `interface{}` fields), the `Field*` constants and the `allFields` table: records are an opaque type.
- `fmt.Errorf` message texts: each message is a constructor of `Error`; only `tError.Error()`'s format is spelled out.
- `resp`/`resps` are folded into `Responses.Wrap` and the `EnvelopeState(None, Some(e))` envelopes the lookups build.
- A `tClientParam` called on a nil client is a no-op in Go; `New` never does that, so `Apply` requires a client with a base request.
- Concurrency: none in the code; the unsynchronised cache write of `Client.Me` is modelled sequentially.

## Findings

| source | as written | input that shows it | evidently intended | confidence | as-written member | corrected member |
|---|---|---|---|---|---|---|
| ipstack.go:861-872 | `copy` copies the struct, so the copy shares the `url.Values` map with the base request | `c.R().Fields("a")` then `c.R().Fields("b")`: the second request selects "b,a" and the base request's map holds "b,a" | the documentation of `copy` and `R` promises that configuring a copy does not affect the client's base request: a copy of the map too | high (not executed) | `Requests.SuccessiveCopiesAccumulate` | `Requests.FieldsOnDeepCopyStaysLocal` |

The corrected copy is `Requests.CopyDeep`. `Clients.R` keeps the shallow
`Requests.Copy`, because the model describes what the library does; the
base request's own built query string is not affected by the leak, only the
selector that later copies start from.
