# HTTP proxy and pooled-dispatch prototypes, modelled in Dafny

This project models four small Go servers. Their shared concern is moving HTTP
traffic between a client and an upstream server.

- **Pooled dispatch** (`GoProject_Nethttp`).
  - `/connect` opens a pool of TCP connections to one `host:port`. It
    installs the pool in a process-wide registry, and any earlier pool for
    that key is closed.
  - `/send` frames one raw HTTP/1.1 request by hand. It sends the request on
    up to `len(pool)` pool connections, chosen round robin by the pool's
    `lastUsed` cursor.
  - It answers with the responses in task order, or with every failure
    message joined by `"; "`.
- **Single connection** (`GoProject_Fashttp`).
  - `/open` stores one connection under `hostname:port`. It overwrites an
    earlier entry without closing it.
  - `/send` assembles a POST for the stored connection and reads until the
    peer closes. It answers with the body of the response.
- **Forward proxy** (`GoForwardProxy`).
  - CONNECT (section 9.3.6 of RFC 9110) hijacks the client connection and
    dials the target. It acknowledges with `HTTP/1.1 200 Connection
    Established`, then starts one copy in each direction.
  - Any other method is relayed through an HTTP client. Headers are copied
    additively and the upstream status is passed through.
- **Logging relay** (`GoHttpProxy`).
  - It reads and rebuffers the inbound body, and forwards the request with
    the same header map.
  - It gunzips the upstream body only when the first `Content-Encoding`
    value is `gzip`.
  - It copies every upstream header except `Content-Encoding`, then the
    status and the bytes it holds.

## How the model is built

Sockets are connection ids in a `Sockets.Network` object. The object keeps the
set of open ids, the next fresh id and an event log of dials, writes, closes
and started copies.

Everything the programs get from outside is a parameter of the operation:
- whether a dial, hijack or write succeeds;
- what `url.Parse`, the JSON decoder and `json.Marshal` produce;
- what the HTTP client, `http.ReadResponse` and the gzip decoder return;
- what each `conn.Read` yields.

The state the programs mutate are classes with `modifies` frames:
- the pool registry and each pool's cursor (`Nethttp.Registry`,
  `Nethttp.HostConnections`);
- the single-connection registry (`Fashttp.Registry`);
- header maps and the response writer (`HttpModel`);
- the relay's inbound request body (`HttpProxy.Request`).

The loops stay loops:
- the dial loop with its rollback;
- the dispatch loop writing `responses[index]` into an array;
- the read-until-EOF loop;
- the header copy loops, which visit keys in an order left open, as Go's map
  order is.

Both hand-built requests are proved to be serializations of an HTTP/1.1
message (section 2.1 of RFC 9112). An independent reader
(`Framing.Parse`) gets back the start line, the fields in order and the
body. The `Content-Length` value (section 8.6 of RFC 9110) reads back as
the body's length.

## Model

| member | source | states |
|---|---|---|
| Common.Dec | GoProject_Nethttp/main.go:226 | `%d` of a length is a non-empty string of decimal digits with no leading zero |
| Common.ParseDecDec | GoProject_Nethttp/main.go:226 | reading the rendered length back as a decimal gives the length itself |
| Common.DecIsPlain | GoProject_Fashttp/src/main.go:55 | a rendered length holds no CR, LF or colon, so it is a safe field value |
| Common.JoinKeepsParts | GoProject_Nethttp/main.go:271 | `strings.Join` keeps every part intact at its offset, each separated from the next by exactly the separator, and nothing follows the last part |
| Framing.SplitLine | GoProject_Nethttp/main.go:223 | reads back the CRLF-terminated lines main.go:223 writes: the first line, when found, holds no CR and is followed by CRLF and the rest; when none is found the text has no CR, or its first CR lacks its LF |
| Framing.SplitField | GoProject_Nethttp/main.go:229 | reads back the `key: value` lines main.go:229 writes: a field line splits at its first colon into a colon-free name and a value that print back to the same line |
| Framing.ParseSerialize | GoProject_Nethttp/main.go:223-232 | reading a serialized message gives back the same start line, the same fields in order and the same body, when no part holds a CR and no name a colon |
| Framing.BodyAfterSerialize | GoProject_Fashttp/src/main.go:55-56 | cutting a serialized message at its first CRLF CRLF leaves exactly the body, whatever the body holds |
| Framing.FieldValue | GoProject_Nethttp/main.go:226 | reads back the `Content-Length` field main.go:226 writes: a field value is found if and only if a field of that name exists, and it is the value of the first one |
| Sockets.Network.Dial | GoProject_Nethttp/main.go:106 | a successful dial opens a fresh id, never one already open, and logs it; a failed dial changes nothing |
| Sockets.Network.Close | GoProject_Nethttp/main.go:110 | closing removes the id from the open set and logs the close |
| Sockets.Network.Write | GoProject_Fashttp/src/main.go:89 | every write attempt is logged with the connection and the exact bytes: as written when it goes through, as failed otherwise; the result says which |
| Sockets.WriteEvent | GoProject_Nethttp/main.go:143 | the logged event of a write names its connection and bytes, and records a completed write exactly when the write went through |
| Sockets.Network.Adopt | GoForwardProxy/main.go:110 | a hijacked client connection gets a fresh id, never one already open, that joins the open set; nothing is logged |
| Sockets.Network.StartCopy | GoForwardProxy/main.go:128-129 | starting a copy logs its destination and source and changes nothing else |
| Sockets.Network.CloseAll | GoProject_Nethttp/main.go:109-111 | closing a slice of connections removes exactly its ids from the open set and logs one close per element, in order |
| HttpModel.FirstValue | GoHttpProxy/src/main.go:62 | `Header.Get` is the first value listed under the key, or empty when the key is absent or its list is empty |
| HttpModel.HeaderMap.Add | GoForwardProxy/main.go:73 | `Header.Add` appends the value after the key's earlier values and leaves every other key alone |
| HttpModel.HeaderMap.Put | GoHttpProxy/src/main.go:89 | assigning a key's value list replaces that key's list and leaves every other key alone |
| HttpModel.AddValues | GoForwardProxy/main.go:72-74 | adding a value list with `Add` leaves the key's earlier values followed by the list; an empty list changes nothing |
| HttpModel.AddAll | GoForwardProxy/main.go:71-75 | copying with `Add` in any key order is additive: each key ends with its earlier values followed by all of the source's values in order, and only keys with a non-empty source list appear |
| HttpModel.ResponseWriter.WriteHeader | GoForwardProxy/main.go:93 | only the first status written takes effect |
| HttpModel.ResponseWriter.Write | GoForwardProxy/main.go:96 | writing the body appends the bytes to what was written before and sets status 200 if no status was written yet |
| HttpModel.ResponseWriter.Error | GoForwardProxy/main.go:66 | `http.Error` writes the status, unless one was already written, then the message and a newline |
| Nethttp.HostConnections.GetNextConnection | GoProject_Nethttp/main.go:54-60 | the cursor becomes `(old + 1) mod len` and stays in `[0, len)`; the returned connection is the one in the new slot; the slice is unchanged |
| Nethttp.StepIsMod | GoProject_Nethttp/main.go:58 | the wraparound step is the source's `(lastUsed + 1) % len` |
| Nethttp.SelectionsAt | GoProject_Nethttp/main.go:58 | the `j`-th selection after cursor `c` returns slot `(c + j + 1) mod n` |
| Nethttp.RoundRobin | GoProject_Nethttp/main.go:58 | from any cursor, `n` consecutive selections return each of the `n` slots exactly once, and the next selection returns the first slot again |
| Nethttp.NormalizeCount | GoProject_Nethttp/main.go:81-83 | a count of zero or less becomes 1; a positive count is kept |
| Nethttp.FirstFailure | GoProject_Nethttp/main.go:105-107 | the index of the first failing dial attempt: every earlier attempt succeeds, and the attempt itself fails unless all `n` succeed |
| Nethttp.DialPool | GoProject_Nethttp/main.go:101-116 | the pool succeeds if and only if no attempt fails, and then holds `n` fresh connections with cursor 0; on failure every connection opened in the call is closed again and the error is the attempt number counting from 1; exactly as many ids are used as attempts went through, and the log gains one dial per successful attempt, in order, then on failure one close per opened connection |
| Nethttp.DialedEventsAt | GoProject_Nethttp/main.go:104-107 | the `j`-th logged dial of the loop is attempt `j`, and it gets the id `j` places after the first |
| Nethttp.DialUntilFailure | GoProject_Nethttp/main.go:104-114 | the dial attempts run up to the first failure: the connections opened are consecutive fresh ids, each logged as a dial of the host in order, and the count is the first failing attempt |
| Nethttp.Install | GoProject_Nethttp/main.go:119-127 | the host's entry becomes the new pool, every connection of the pool it replaces is closed and logged as closed in slice order, nothing else is logged, the other hosts keep their pools, and the registry stays consistent with the open sockets |
| Nethttp.OpenPool | GoProject_Nethttp/main.go:81-127 | open with the normalized count: on a failed attempt the registry and open set are unchanged and the attempt is named; on success the new pool of exactly that many connections replaces the old one, whose connections are closed, and the count is reported; the ids used and the logged dials and closes are exactly those of the dial loop, then those of the replaced pool |
| Nethttp.ConnectKey | GoProject_Nethttp/main.go:91-98 | `/connect` keys a host by itself when it names a port, otherwise by `host:443` for https and `host:80` for every other scheme |
| Nethttp.KeysAgree | GoProject_Nethttp/main.go:192-200 | `SendKey`, the `/send` key, equals the `/connect` key if and only if the host names a port or the scheme is https; a port-less http URL is opened as `host:80` and looked up as `host:` |
| Nethttp.RequestMethod | GoProject_Nethttp/main.go:217-220 | the request method is the caller's, or POST when the caller named none |
| Nethttp.BuildRequestLayout | GoProject_Nethttp/main.go:223-232 | `BuildRequest`, the request `/send` writes, is the serialization of the message with request line `M path HTTP/1.1`, the Host, Content-Type and Content-Length fields, then the caller's fields in order, then the body |
| Nethttp.BuildRequestParses | GoProject_Nethttp/main.go:223-232 | a message reader gets back that request line, those fields and the body; the first Content-Length value reads as the body's length |
| Nethttp.Clamp | GoProject_Nethttp/main.go:235-241 | the task count lies in `[1, len(pool)]`: zero or less becomes 1, too many becomes `len(pool)`, anything in range is kept |
| Nethttp.SendSingle | GoProject_Nethttp/main.go:140-165 | a response exists if and only if the write, the head read and the body read all succeed, and it carries what they read; otherwise the first failing step decides the error and its prefix |
| Nethttp.CursorMod | GoProject_Nethttp/main.go:252 | after `k` selections from cursor `c` the cursor stands at `(c + k) mod n` |
| Nethttp.OutcomesFollowSelections | GoProject_Nethttp/main.go:250-253 | task `i` runs on the connection of the `i`-th round-robin selection |
| Nethttp.TaskWritesAt | GoProject_Nethttp/main.go:248-256 | the `i`-th logged write of a dispatch is task `i`'s write |
| Nethttp.TaskWritesFollowSelections | GoProject_Nethttp/main.go:250-253 | the write (main.go:143) of task `i` sends the request to the connection of the `i`-th round-robin selection, and goes through exactly when that task reports no write error |
| Nethttp.ErrorMessagesOf | GoProject_Nethttp/main.go:266-270 | no message is collected if and only if every task succeeded, and the messages collected are exactly those of the failed tasks |
| Nethttp.CollectedAs | GoProject_Nethttp/main.go:266-280 | the messages and stored responses produce the prescribed reply: 500 with `部分请求失败: ` and every message joined by `"; "` if any task failed, else the responses in task order with the task count |
| Nethttp.RunTasks | GoProject_Nethttp/main.go:244-262 | after `n` tasks the cursor has advanced `n` steps; the log gains exactly the `n` task writes of `TaskWrites`, in task order; slot `i` of the fresh response array holds task `i`'s response, or nothing if it failed; the failure messages are collected in task order |
| Nethttp.Record | GoProject_Nethttp/main.go:253-258 | the end of task `i` appends its failure message, or stores its response in slot `i`, keeping every other slot and message |
| Nethttp.RunTask | GoProject_Nethttp/main.go:250-256 | one task advances the cursor one step, writes the request once (the write of main.go:143) to the connection it reached, logging the attempt, and yields `sendSingleRequest`'s outcome on that connection |
| Nethttp.Dispatch | GoProject_Nethttp/main.go:243-280 | the reply is a 500 with `部分请求失败: ` and all failure messages joined by `"; "` if and only if some task failed, else the `n` responses in task order and count `n`; the socket log gains exactly the `n` task writes |
| Nethttp.TasksUseDistinctSlots | GoProject_Nethttp/main.go:239-241 | because the count never exceeds the pool size, no two tasks of one dispatch use the same connection slot |
| Nethttp.CheckTarget | GoProject_Nethttp/main.go:64-89 | the checks run in the source's order: 405 for a method other than POST, 400 for undecodable JSON, then an empty target URL, then an unparsable one; the target passes if and only if all checks pass |
| Nethttp.Connect | GoProject_Nethttp/main.go:63-137 | a rejected request changes nothing: no pool, no open connection, no id and no socket event; otherwise a failed dial answers 500 naming the attempt and leaves the registry alone, and success answers with the count and the key of the installed pool; either way the ids used and the socket log are exactly those of the dial loop, plus the closes of the replaced pool on success |
| Nethttp.Send | GoProject_Nethttp/main.go:168-281 | a rejected request, a missing or empty pool under the `/send` key, and a body that cannot be marshaled each answer without writing anything: the socket log and every cursor are unchanged; otherwise the built request is dispatched on the clamped number of connections of that pool, the log gains exactly those task writes, and no other pool's cursor moves |
| Fashttp.AssembleLayout | GoProject_Fashttp/src/main.go:53-57 | `AssembleHTTPRequest`'s request is the serialization of request line `M path?params HTTP/1.1`, the Host and Content-Length fields and the body; the `?` is there even with no parameters |
| Fashttp.AssembleParses | GoProject_Fashttp/src/main.go:53-57 | a message reader gets back that request line, the two fields and the body, and the text after the first CRLF CRLF is exactly the body, when the inputs hold no CR |
| Fashttp.AssembledLength | GoProject_Fashttp/src/main.go:55 | the Content-Length value reads back as the body's length |
| Fashttp.ParseURLStr | GoProject_Fashttp/src/main.go:117-137 | a parse failure is reported with the `failed to parse URL: ` prefix; otherwise the key joins host name and port with one colon, and path and query pass through unchanged |
| Fashttp.LastColon | GoProject_Fashttp/src/main.go:134 | the index found is a colon with no colon after it; none is found only in a colon-free string |
| Fashttp.KeyRoundTrip | GoProject_Fashttp/src/main.go:134 | splitting the key at its last colon returns the host name and the port, whenever the port holds no colon |
| Fashttp.TrimSpaceSlice | GoProject_Fashttp/src/main.go:29 | `TrimSpace`, the model of `strings.TrimSpace`, keeps a contiguous part of its input |
| Fashttp.TrimLeftDropsSpace | GoProject_Fashttp/src/main.go:29 | everything trimmed from the front is white space |
| Fashttp.TrimRightDropsSpace | GoProject_Fashttp/src/main.go:29 | everything trimmed from the back is white space |
| Fashttp.TrimSpaceDropsSpace | GoProject_Fashttp/src/main.go:29 | everything trimming drops, before and after the part it keeps, is white space |
| Fashttp.TrimSpaceEnds | GoProject_Fashttp/src/main.go:29 | a trimmed string neither starts nor ends with white space |
| Fashttp.TrimSpaceIdempotent | GoProject_Fashttp/src/main.go:29 | trimming twice is trimming once |
| Fashttp.StopIndex | GoProject_Fashttp/src/main.go:144-155 | the read loop stops at the first read that reports an error; every read before it reported none |
| Fashttp.ReadFullResponse | GoProject_Fashttp/src/main.go:140-167 | at the end of the stream the buffer is the in-order concatenation of every read's bytes, including those returned with the end; any other error aborts with that error; with no error yet the loop is still waiting |
| Fashttp.ConcatKeepsReads | GoProject_Fashttp/src/main.go:146-148 | each read's bytes stand in the buffer, unchanged, right after the bytes of the reads before it |
| Fashttp.Open | GoProject_Fashttp/src/main.go:21-50 | 405 for a method other than POST, 400 with the parse error, 500 for a failed dial, each with the registry unchanged and no socket opened or logged; otherwise exactly one dial is logged and one id used, and the new connection is stored under the key, replacing any previous entry without closing it, and no other key changes; every stored connection stays open and under one key only, and the open connections no key names grow by exactly the one displaced |
| Fashttp.OverwriteLeaks | GoProject_Fashttp/src/main.go:44 | storing a new connection keeps every stored connection open and under one key; a free key leaks nothing, and a taken key leaks exactly the connection it named, which stays open while no key names it |
| Fashttp.Send | GoProject_Fashttp/src/main.go:60-114 | 405, 400 with the parse error, and 400 for an unknown key write nothing; otherwise a POST with empty parameters is written to the stored connection, the attempt is logged whether or not it goes through, and the registry is unchanged |
| Fashttp.SendAnswer | GoProject_Fashttp/src/main.go:89-111 | a failed write answers 500; the handler waits if and only if the write succeeded and no read has ended the stream; it answers 200 if and only if the stream ended cleanly and the buffered response's body was read, and then that body is the answer |
| ForwardProxy.RouteOf | GoForwardProxy/main.go:52-58 | CONNECT, and only CONNECT, goes to the tunnel; every other method goes to the relay |
| ForwardProxy.HandleHTTP | GoForwardProxy/main.go:62-99 | a request that cannot be built, or a failed round trip, answers 502 with the header untouched; the outbound request carries the method, URL and body and exactly the inbound non-empty value lists; the response headers are added additively, the upstream status is written, and the body is passed through |
| ForwardProxy.TunnelEvents | GoForwardProxy/main.go:117-129 | a failed dial only closes the client; a successful one starts with the dial of the target, then the logged attempt to write the acknowledgment |
| ForwardProxy.TunnelEventsOrdered | GoForwardProxy/main.go:117-129 | the only write attempt is the exact acknowledgment to the client and it precedes both copies; it goes through exactly when the dial and the write succeed; one copy runs each way; no write is attempted and no copy starts unless the dial succeeded |
| ForwardProxy.OpenTunnel | GoForwardProxy/main.go:110-129 | the socket log grows by exactly the tunnel's events; a failed dial leaves the open set as it was, and a successful one adds the client and the target |
| ForwardProxy.HandleHTTPS | GoForwardProxy/main.go:102-130 | a writer that cannot be hijacked answers 500 and a failed hijack answers 503, both without touching any socket; after a hijack the writer is not written to |
| ForwardProxy.Transfer | GoForwardProxy/main.go:133-137 | once the copy ends, both ends are closed, the source first |
| ForwardProxy.ServeHTTP | GoForwardProxy/main.go:49-59 | the route is chosen by the method alone and the chosen handler runs with its own outcomes: for CONNECT the 500 and 503 refusals or the tunnel's socket events, otherwise the 502 answers or the relayed headers, status and body; the relay touches no socket and the tunnel no header |
| HttpProxy.Restored | GoHttpProxy/src/main.go:21-28 | with `ReadAll` as the model of `io.ReadAll`: after a successful read the body yields exactly the bytes read; after a failed read it yields nothing but the same error; an absent body stays absent |
| HttpProxy.RestoreBody | GoHttpProxy/src/main.go:21-28 | the request's body field is replaced by its restored form |
| HttpProxy.ResponseBytes | GoHttpProxy/src/main.go:62-79 | without the gzip marker (`IsGzip`: the first `Content-Encoding` value is `gzip`) the bytes are the raw body's; with it they are the inflated bytes, or the rest of the raw body when the gzip header cannot be read |
| HttpProxy.DecoderOnlyForGzip | GoHttpProxy/src/main.go:62 | without the gzip marker the decoder is never consulted: any two decoders give the same bytes |
| HttpProxy.CopyExceptEncoding | GoHttpProxy/src/main.go:87-91 | every upstream key except `Content-Encoding` is set with its whole value list, replacing what was there; `Content-Encoding` and every other key keep their earlier values |
| HttpProxy.Handle | GoHttpProxy/src/main.go:11-96 | the outbound request carries the inbound method, URL, restored body and the inbound header map itself; a request that cannot be built, or a failed round trip, answers 500; otherwise the headers are filtered, the upstream status is written unchanged, and the body written is the bytes held after the decode or read step |

## Left out

- Go strings and `[]byte` are both modelled as `seq<char>`, one character per byte. `Content-Length` counts bytes, so the proved length equals the byte count only for single-byte text; the multi-byte UTF-8 encoding of other characters is not modelled.
- Integers are unbounded. Go's `int` is 64 bits. A `/connect` count too large for `make([]net.Conn, 0, req.Count)` (GoProject_Nethttp/main.go:102) makes Go panic, but the model dials anyway.
- HttpProxy.Restored: after a failed read Go leaves the partly read `req.Body` in place (GoHttpProxy/src/main.go:23-27 reassigns it only on success). The model assumes that such a reader yields nothing more and ends with the same error, so its contract for that case is weaker than a model of partial reads.
- Socket I/O is represented only by outcomes and log events: bytes are never moved, and `io.Copy` in the tunnel is recorded only as a started copy.
- Concurrency is left out: goroutines, `sync.WaitGroup`, the mutexes and `errChan`. The tasks of a `/send` dispatch run one after another in task order, each taking its connection in one atomic step.
- Nethttp.ErrorMessages: failure messages are collected in task order. Go collects them in completion order, so the set of messages is the same but the order is not modelled.
- The case of a pool replaced by `/connect` while a `/send` is still using it is left out (GoProject_Nethttp/main.go:202-204, 252). It needs interleaving.
- `url.Parse`, `encoding/json`, `json.Marshal`, `http.ReadResponse`, `io.ReadAll` on a response body, `http.NewRequest`, the HTTP client and `compress/gzip` are foreign code. Their results are parameters; the gzip decoder is a parameter function of the body.
- Nethttp.Connect and Nethttp.Send: the 405 and 400 replies and the failed dial's 500 carry a reason rather than the exact message text (GoProject_Nethttp/main.go:65-112, 170-213); the 500 of a failed dispatch carries its exact text. The dial error's own text is not modelled, and neither is the JSON encoding of a successful reply.
- Nethttp.Send: the JSON body is taken as the text `json.Marshal` produced. The marshal error's text is not modelled.
- `http.Error` also sets `Content-Type` and `X-Content-Type-Options` headers. This is not modelled; the writer's header map is left as it was.
- Header names are compared exactly as written. The canonical-case rewriting of `Header.Add`, `Header.Get` and `Header.Set` is not modelled.
- Go's map iteration order is not modelled. The caller headers of a `/send` are given as a sequence in the order the loop visits them (GoProject_Nethttp/main.go:228); the header copy loops pick their keys nondeterministically.
- `TimeTaken`, the start time, every timeout constant in `NewForwardProxy` and `main`, and all logging are not modelled.
- Fashttp.TrimSpace: only ASCII white space is trimmed. The Unicode white space that `strings.TrimSpace` also removes is not modelled.
- Fashttp.ReadFullResponse: a peer that never closes the connection blocks the Go loop forever. The model represents this as a finite sequence of reads that all succeed, ending in `Waiting`, and the handler then gives `NoAnswer`.
- Fashttp.ReadFullResponse: on a read error the Go code discards the buffer. The model returns only the error.
- `requestHandler`'s routing by path (`/open`, `/send`, otherwise 404) and the `main` functions are left out. They are a switch around the handlers and server startup.
- HttpProxy.Handle: the ignored result of `io.Copy` to the client is not modelled; the model treats the whole body as written. The `/test-post` endpoint in `main` is left out.
- GoReverseProxy, GoTemplate, GoTest and the test files are not part of this model. They are thin wrappers over library code, I/O glue, or live-network tests.
