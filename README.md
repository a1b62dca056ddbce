# go-sixpack client core, modelled in Dafny

This project models the struct-based client in `sixpack.go` for a sixpack A/B-testing server. The model covers:
- the grammar every experiment and alternative name must match;
- the checks `Test.Participate` makes before it contacts the server, and the order it makes them in;
- the query parameters that `Participate` and `Convert` build;
- how `Test.request` chooses the alternative it returns: the local default (the forced alternative, else the first one) on every failure, and the server's choice on a decoded reply;
- how the `*FromRequest` helpers choose a client id from the request's cookie.

Everything that leaves the process is an input to the model:
- the generated UUID (`Option<string>`, where `None` means generation failed);
- the parse/send/read/status/decode sequence of the round trip (the `Outcome` datatype, with the JSON result as a `Decoding` value);
- the clock that sets the cookie's expiry.

Files:
- `Wrappers.dfy` holds `Option`.
- `NameGrammar.dfy` holds `expRe`, written as the automaton the anchored expression compiles to: three states, of which Tail accepts and Dead is the reject state.
- `UrlValues.dfy` holds `url.Values`, as a class whose `Set` and `Add` methods update a `map<string, seq<string>>`.
- `Sixpack.dfy` holds `Test`, `Response`, `request`, `Participate` and `Convert`.
- `Identity.dfy` holds the cookie choice of `ParticipateFromRequest` and `ConvertFromRequest`.

Where the code and its documented design differ, the model follows the code, except at the one defect listed under Findings (the `null` body), where `Participate` and `Convert` use the corrected request and their contracts also state what the code as written does:
- The code does not check `force` against the name grammar.
- The code does not require the alternatives to be distinct.
- `Convert` falls back to the first alternative, because it never sends `force`.
- When id generation fails, `Convert` returns the empty string.

## Model

| member | source | states |
|---|---|---|
| NameGrammar.MatchStringIff | sixpack.go:28 | A name matches iff it is non-empty, starts with `a-z` or `0-9`, and every later character is `a-z`, `0-9`, `-`, `_` or a space |
| NameGrammar.TailRunAccepts | sixpack.go:28 | After the first character, the starred class accepts exactly the strings made only of tail characters |
| NameGrammar.RejectsEmptyAndUppercase | sixpack.go:28 | The empty string is rejected, and so is any string with an upper-case letter at any position |
| NameGrammar.RejectsSeparatorFirst | sixpack.go:28 | A leading `-`, `_` or space is rejected; the same character after a valid first character is accepted |
| UrlValues.Values.constructor | sixpack.go:109 | `url.Values{}` holds no parameters |
| UrlValues.Values.Set | sixpack.go:110-120 | `Set` replaces the key's values with exactly the one value and leaves every other key unchanged |
| UrlValues.Values.Add | sixpack.go:123-125 | `Add` appends the value after the key's existing values and leaves every other key unchanged |
| Sixpack.Request | sixpack.go:37-82 | The error is nil iff the status is not 500 and the body decodes. Then the alternative is the decoded `Alternative.Name` and the response is returned. On every failure (URL parse, transport, body read, HTTP 500, decode, `null` body) the alternative is the default: the forced value when non-empty, else `Alternatives[0]`. Each failure reports its own error kind; only a decode error passes on a (partly decoded) response. The `null` body case is the corrected behaviour; the code as written panics there |
| Sixpack.RequestAsWritten | sixpack.go:37-82 | The code as written panics exactly when there is no force and no alternative, or when a non-500 body decodes to `null`; whenever it returns an error, it returns the default |
| Sixpack.NullBodyPanicsAsWritten | sixpack.go:75-81 | A 200 status with the body `null` panics as written; the corrected request returns the default with an error |
| Sixpack.RequestAgreesWithWritten | sixpack.go:37-82 | Apart from the `null` body, the corrected request returns the same three results as the code as written |
| Sixpack.FirstBadName | sixpack.go:101-105 | Gives the index of the first alternative, in list order, that fails the grammar; it is None iff all of them match |
| Sixpack.ParticipateQueryShape | sixpack.go:109-125 | The `Set`/`Add` sequence of `Participate` yields `client_id`, `experiment` and `traffic_fraction` once each, `ip_address`/`user_agent`/`force` once each and only when non-empty, `alternatives` equal to the list in order, and no other key |
| Sixpack.ParticipateParams | sixpack.go:109-125 | The imperative builder, including the loop that appends each alternative, produces exactly the participate query described above |
| Sixpack.ParticipateQueryUnique | sixpack.go:109-125 | That description of the participate query fixes the whole map: two queries that satisfy it are equal |
| Sixpack.Participate | sixpack.go:84-128 | Checks run in order: id generation, experiment name, at least 2 alternatives, each alternative. The first check that fails returns `force`, its own error (for a bad alternative, the first bad one in list order) and no response, and sends nothing. Otherwise `/participate` is called with the participate query, and the result is that of the corrected request. It equals what the code as written returns on every outcome except a non-500 `null` body, where the code as written panics. Every error returns `force` or, on a failed round trip with no force, the first alternative |
| Sixpack.ConvertQueryShape | sixpack.go:159-170 | The `Set` sequence of `Convert` yields `client_id` and `experiment` once each, `ip_address`/`user_agent`/`kpi` once each and only when non-empty, and no other key |
| Sixpack.ConvertParams | sixpack.go:159-170 | The imperative builder produces exactly the convert query described above |
| Sixpack.ConvertQueryUnique | sixpack.go:159-170 | That description of the convert query fixes the whole map |
| Sixpack.Convert | sixpack.go:148-173 | A failed id generation returns "" and sends nothing. Otherwise `/convert` is called with the convert query, which never holds `alternatives`, `force` or `traffic_fraction`, and the result is that of the corrected request. It equals what the code as written returns on every outcome except a non-500 `null` body, where the code as written panics. Every failed round trip falls back to the first alternative |
| Sixpack.ExampleNamesValid | sixpack.go:93-105 | `test-package` and the alternatives a, b, c, d pass the grammar |
| Sixpack.ExampleParticipate | sixpack.go:109-125 | For that experiment, with client id `my-user-client-id`, fraction `0.55` and force `b`, the query is exactly the five-key map with alternatives `[a, b, c, d]`; a failed round trip returns `b` |
| Identity.FindCookie | sixpack.go:133 | `r.Cookie` returns a cookie with the requested name from the request; it returns none iff no cookie has that name |
| Identity.FindAfterOthers | sixpack.go:133 | Cookies with other names placed in front do not change which cookie is found |
| Identity.ResolveIdentityAsWritten | sixpack.go:133-140 | As written, a present `sixpack_client_id` cookie is reused in its serialised form `sixpack_client_id=<value>` and nothing is written. Otherwise the generated id is used and written as a cookie that expires 30 days later |
| Identity.ResolveIdentity | sixpack.go:133-140 | Corrected: a present cookie is reused by its value; otherwise the generated id is used and written as a cookie that expires 30 days later |
| Identity.ReusedIdentityDiffersAsWritten | sixpack.go:133-140 | As written, the id sent on a later call that carries the cookie back is `sixpack_client_id=<id>`, which differs from the id first sent |
| Identity.ReusedIdentityRoundTrip | sixpack.go:133-140 | Corrected, for a non-empty generated id, every later call that carries the cookie back sends that same id and writes no new cookie |

## Findings

| source | as written | input that shows it | evidently intended | confidence | as-written member | corrected member |
|---|---|---|---|---|---|---|
| sixpack.go:75-81 | `json.Unmarshal` into a nil `*Response` accepts the body `null`: `r` stays nil and the error is nil. Then `r.Alternative.Name` dereferences nil | any status other than 500 with the body `null` | fall back to the default alternative and report an error, as for every other bad reply | medium, not executed | Sixpack.NullBodyPanicsAsWritten | Sixpack.Request |
| sixpack.go:135 | a found cookie is reused as `cookie.String()`, which is `sixpack_client_id=<value>` | first call without a cookie, then a second call carrying back the cookie the first one set | reuse `cookie.Value`, so a visitor keeps one client id across calls | high, not executed | Identity.ReusedIdentityDiffersAsWritten | Identity.ReusedIdentityRoundTrip |

## Left out

- HTTP transport: the 250 ms dial timeout, the client, `client.Get`, reading the body and `Close` (sixpack.go:43-51, 61-70). These are I/O, so the `Outcome` value stands in for them.
- JSON decoding of `Response` (sixpack.go:75-79) comes from a library. It is the `Decoding` input, and the field mapping of the struct tags is not modelled.
- `url.Parse`, `ResolveReference` and `params.Encode()` (sixpack.go:53-59, 107, 157) are library calls. A failed parse of the base URL is an `Outcome`, the endpoint is recorded as a path, and the query is kept as a map rather than an encoded string.
- UUID generation (sixpack.go:86-90, 150-154) draws on a randomness source outside the process, so the model takes it as an input.
- The `%.2f` formatting of the float32 traffic fraction (sixpack.go:118) is floating point. `Test.fraction` holds the formatted text.
- `ParticipateFromRequest` and `ConvertFromRequest` (sixpack.go:130-190): only their cookie choice is modelled. Reading `RemoteAddr`, `UserAgent()` and the `sixpack-force-<name>` query parameter is plumbing of `http.Request`. The ignored UUID error at sixpack.go:137 and 182 is also left out, because with the UUID as an input it cannot fail there.
- Identity.ResolveIdentity: a cookie whose value is empty is reused as the empty id, so `Participate` would then generate a new, unpersisted id on every call; the round-trip lemma covers only the non-empty ids a UUID produces.
- Identity.Serialized: Go's quoting of cookie values that contain a space or a comma is not modelled.
- Sixpack.Request and Sixpack.Convert require a default to exist: a non-empty force or at least one alternative. The code as written panics without one (`six.Alternatives[0]` at sixpack.go:40). `Convert` never sends a force, so it requires an alternative whenever it reaches the request. RequestAsWritten models that panic.
- Error texts that come from libraries (URL, transport, read and JSON errors) are only error kinds. The texts `sixpack.go` builds itself are in `Sixpack.Message`.
- The option-based API that `sixpack_test.go` exercises (`NewClient`, `WithClientID`, …) is not part of this model: it does not exist in `sixpack.go`.
