# libdns-netlify client core, modelled in Dafny

This project models the REST client of the Netlify provider for libdns
(`client.go`): the shared authenticated round trip and its error
classification (`doAPIRequest`), the zone resolver with its in-memory cache
(`getZoneInfo`), and the three record operations (`getDNSRecords`,
`createRecord`, `updateRecord`).

Layout, one module per component:

- `wrappers.dfy` — `Option` and `Result`.
- `http.dfy` (`Http`) — requests, replies, the error taxonomy (encode,
  request construction, transport, body read, HTTP status, decode, zone
  count), bearer authorization, the classification of a reply, and the
  `Transport` class standing for the network: it logs every request with the
  reply it got. What the server answers may depend on everything sent before;
  no contract mentions it, so each reply is arbitrary to the client.
- `names.dfy` (`Names`) — `strings.TrimRight(name, ".")`.
- `dns.dfy` (`Dns`) — zones, caller records, wire records, Go's zero values,
  and `Library`, the foreign calls as arbitrary functions: URL parsing inside
  `http.NewRequestWithContext`, `libdns.AbsoluteName`, the `netlifyRecord`
  conversion, `json.Marshal` and `json.Unmarshal`.
- `records.dfy` (`Records`) — for each record operation, its `Plan`: fail
  before sending, or send one request of a stated shape.
- `zones.dfy` (`Zones`) — one call of `getZoneInfo` as a function of the
  cache, the name and the server's reply, with the lemmas about repeated
  resolution.
- `client.dfy` (`Client`) — class `Provider` with the token, the zones map it
  updates in place, and one method per Go function, each proved against the
  functions above: the transport log grows by exactly the request the plan
  sends (never more, so no retries), and the Go-style `(value, err)` result
  is the plan's outcome, with the zero value beside every error.

How the resolver treats names, as the code has it:

- The cache is looked up with the name exactly as given. Only the query and
  the stored key use the name with every trailing dot removed (`TrimRight`,
  not a single dot).
- Stored keys therefore never end in a dot, and a name ending in `.` is never
  served from the cache: every call with it sends a request when its URL
  parses, and a call that gets exactly one zone back overwrites the entry of
  the stripped name (`Zones.DottedNameAlwaysSends`, `Zones.ResolveAgain`).
  Every failure leaves the cache as it was (`Zones.FailureCachesNothing`).
- So resolving a name twice sends at most one request only when the name has
  no trailing dot. A successful resolution of `"example.com."` makes
  `"example.com"` a hit, not the other way round.
- An HTTP status error carries only the status code, not the response body.

## Model

| member | source | states |
|---|---|---|
| Http.Authorize | client.go:155 | the sent request keeps method, URL and body, keeps every other header, and has `Authorization: Bearer <token>` |
| Http.Classify | client.go:157-180 | fixed order: no response gives the transport error, else an unreadable body gives the read error, else status >= 400 gives an error with that code; success exactly when the body was read and status < 400, and then the bytes are returned unchanged |
| Http.Settle | client.go:28-38 | a failed round trip is returned verbatim; otherwise a decode failure gives a decode error with the decoder's text; success exactly when both steps succeed, with the decoded value |
| Http.Outcome | client.go:17-40 | success exactly when the plan sent its request and the reply settled into a decoded value, which is returned; a plan that gave up before sending returns its own error; a failure after sending is always a transport, read, status or decode error, never one raised before sending |
| Http.Transport.Do | client.go:157 | one round trip: the log grows by exactly this request and its reply |
| Names.TrimRightDots | client.go:117 | the result is a prefix of the name, everything cut off is '.', and the result does not end in '.' |
| Names.TrimRightDotsUnique | client.go:117 | those three properties determine the trimmed name |
| Names.TrimRightDotsIgnoresDots | client.go:117 | any number of extra trailing dots is removed, not just one |
| Names.TrimRightDotsFixed | client.go:117 | a name is unchanged by trimming exactly when it does not end in '.' |
| Records.ListQuery | client.go:77-82 | the filter always has `type` = record type and `name` = absolute name, has `content` exactly when matchContent, and then equal to the record value; no other keys |
| Records.ListQueryContentOnly | client.go:80-82 | the matchContent query is the plain query plus `content`, and the plain one is the other minus `content` |
| Records.CreatePlan | client.go:17-26 | encode failure aborts with the encode error; else a URL failure aborts with the request error; else a POST to `/dns_zones/{zone ID}/dns_records` with JSON content type and the encoding of the converted record as body |
| Records.UpdatePlan | client.go:46-58 | same error order; the request is a PATCH to `/dns_zones/{old zone ID}/dns_records/{old ID}` with JSON content type and the encoding of the new record |
| Records.ListPlan | client.go:77-89 | a GET with no body and no extra headers to `/zones/{zone ID}/dns_records` with the filter query; aborts only when the URL does not parse |
| Records.RecordPathInjective | client.go:46 | with zone IDs free of '/', two record paths are equal exactly when zone IDs and record IDs are |
| Records.UpdateTargetsOldRecord | client.go:43-46 | two updates hit the same URL exactly when the old records share zone ID and ID, whatever the new records are |
| Zones.ZonePlan | client.go:117-126 | the zone query is a GET to `/dns_zones` with `name` = trimmed name and nothing else; it aborts exactly when the URL does not parse |
| Zones.ZoneSent | client.go:111-129 | a request goes out exactly when the name as given is not cached and the URL parses; it is that GET with only the bearer header |
| Zones.Resolve | client.go:106-147 | a hit returns the cached zone with the cache unchanged; every failure (request, transport, read, status, decode, a count other than one, reported with the count and the trimmed name) returns the zero zone and leaves the cache as it was; success exactly when one zone came back, which is returned and stored under the trimmed name, every other entry untouched |
| Zones.ResolveKeepsKeysTrimmed | client.go:145 | from a cache whose keys have no trailing dot, the same holds after a resolution, and the only key added is the trimmed name |
| Zones.DottedNameAlwaysSends | client.go:114-119 | in such a cache a name ending in '.' never hits: the query is sent whenever its URL parses |
| Zones.ResolveAgain | client.go:114-146 | after a successful miss, resolving the same name again sends nothing exactly when it has no trailing dot, and otherwise sends the same query again; the trimmed name now hits and gives the stored zone |
| Zones.FailureCachesNothing | client.go:122-142 | after a failed resolution the cache is unchanged, so the next call sends the same request again |
| Client.Provider.DoAPIRequest | client.go:154-181 | exactly one round trip, of the request with the bearer header; the result is the classification of its reply |
| Client.Provider.CreateRecord | client.go:16-41 | the log grows by the create plan's request or not at all; the result is the plan's outcome, the zero record beside every error |
| Client.Provider.UpdateRecord | client.go:45-74 | the same, for the update plan |
| Client.Provider.GetDNSRecords | client.go:76-104 | the query built field by field is the list filter; the log grows by the list plan's request or not at all; the result is the decoded list, or the empty (nil) list beside every error |
| Client.Provider.GetZoneInfo | client.go:106-147 | the map is allocated whatever happens; the log grows by the request the resolver sends (none on a hit); zone, error and new cache are those of `Zones.Resolve`; a cache of trimmed keys stays so |

## Left out

- Concurrency: the `zonesMu` lock; resolution is a sequential method.
- Context cancellation and deadlines: no context is modelled; a cancelled call
  shows up only as a transport error the server model may return.
- Logging through `p.Logger`: it does not affect control flow.
- The real round trip (`http.DefaultClient.Do`, `io.ReadAll`): the
  `Transport` class answers from an arbitrary function of the history;
  closing the body is not modelled.
- JSON encoding and decoding, URL parsing, `libdns.AbsoluteName` and the
  `netlifyRecord` conversion: arbitrary functions in `Dns.Library`. Which
  fields an update sends (empty fields omitted, so PATCH changes only the
  given ones) is decided by the JSON tags of `netlifyDNSRecord`, which are
  not part of this model.
- Percent-encoding and key ordering in `url.Values.Encode`: a URL is kept as
  its path and its query map.
- The error texts built with `fmt.Errorf` are kept as structured errors
  carrying the same values (status code; count and trimmed name).
- The second, unreachable error check after reading the body
  (client.go:171-174) has no counterpart; it cannot change the result.
