# Sensor HTTP client, modelled in Dafny

The sensor firmware reports a tripped sensor by sending an HTTP request over
lwIP's raw TCP API. It does this with one short-lived connection per request.
The client exists in two versions:

- **`sensor/http_client.h`**, the general version. It has three parts:
  - a request builder, `http_client_create_request`, which renders
    `"<method> <path> HTTP/1.1\r\nContent-Length: <n>\r\n\r\n<body>"`;
  - a callback state machine: close, result, the sent, connected, poll and
    error handlers, and open;
  - a driver, `http_client_request`, which returns `ERR_MEM`, `ERR_CONN` or
    `ERR_OK`.
- **`sensor/picow_http_client.c`**, the version the firmware's main loop
  calls. It has the same state machine as `tcp_client_*` and `make_request`.
  It sends a fixed request line with no Content-Length header and arms a poll
  timeout.

The project has four modules:

- `Lwip` (`lwip.dfy`) is the transport.
  - A `Pcb` class stands for a `struct tcp_pcb`. It holds the callback
    argument, the four callback slots, the poll interval, the connect
    callback, the endpoint, the bytes queued by `tcp_write`, and whether the
    block is alive, closed or aborted.
  - Whatever lwIP decides is a parameter of the operation that asks for it:
    whether a block can be allocated, and what `tcp_connect` and `tcp_close`
    return.
  - `tcp_close` and `tcp_abort` may only be applied to a live block. A client
    therefore verifies only if it never releases a block twice, given that
    error callbacks arrive on a live block (see "Left out"). That a block is
    released at all is stated separately, by the contracts of the close
    routines and of the drivers.
- `HttpRequest` (`http_request.dfy`) is the builder.
  - It is a pure function. Each C string is modelled by its contents.
  - `okAllocs` counts how many of the builder's five `malloc` calls succeed.
  - `Decimal` renders the `%d` of the body length. `ParseDecimal` reads it
    back, and the two are proved inverse on canonical digit strings.
  - `ParseFrame` is an independent reader of the wire format, which the
    source does not contain. It is proved to accept exactly the frames the
    builder produces from a method without a space and a path without a
    carriage return, and to give back their method, path and body. Other
    built frames are misread or rejected.
- `HttpClient` (`http_client.dfy`) covers the header version.
  - The `Client` class holds the fields of `struct HTTP_Client` that the code
    uses.
  - Each lwIP callback is a method. It may be invoked only while the block is
    alive and the callback is registered in its slot.
  - Two ghost fields record what C leaves implicit. `reports` is the
    sequence of statuses handed to `http_result`, which is the outcome the
    client announces. `freed` says whether the record was passed to `free`.
  - The drivers also return, as a ghost value, the block their open
    allocated, so that their contracts can say what became of it.
- `PicowClient` (`picow_client.dfy`) covers the `.c` version in the same
  terms.

The model keeps the source's behaviour where it is questionable. The
contracts state it:

- After a successful open, both drivers free their record while the live
  block still carries it as callback argument, with its callbacks registered
  (`SendRequest` and `MakeRequest`, `freed` together with `pcb.arg`). A
  callback that fires later uses freed memory.
- After a failed open, both drivers report the failure and close. The block
  the open allocated, if any, ends unregistered and freed or aborted. The
  record itself is never freed.
- lwIP calls the error callback for a block it has freed or is about to
  free. Both error handlers then report and close, and the close calls
  `tcp_arg` through `tcp_close` on that block, which releases it a second
  time
  (sensor/http_client.h:92-97 with 34-50, sensor/picow_http_client.c:122-127
  with 64-79). The model does not capture this; see "Left out".
- In the header version the frame is queued even when `tcp_connect` failed.
  Its length is cut to `tcp_write`'s 16-bit parameter (`WriteLength`).
- The header version registers a NULL poll callback, so nothing in it ever
  times out (`Client.Open` ensures `pollFn == Null`).
- The `.c` version's sent handler answers `ERR_OK` even after its close has
  aborted the block (`TcpClient.Sent`).
- The builder returns NULL on any failed allocation and leaks the buffers
  allocated before it (`OutOfMemory(leaked)`).
- `http_client_init` ignores both of its arguments.
- The `.c` version's template has no Content-Length header. It is no frame
  the builder produces, and the reader rejects it (`TemplateIsNoBuiltFrame`,
  `TemplateUnreadable`).

The code also leaves some things undone:

- The builder validates neither method nor path. The round trip through the
  reader holds for methods without a space and paths without a carriage
  return, which is what `ParseFrameRoundTrip` requires.
- Neither driver has a single release point for the record. They free it
  early or not at all, as described above.

## Model

| member | source | states |
|---|---|---|
| Lwip.NewPcb | sensor/http_client.h:102 | `tcp_new_ip_type`: a fresh live block with nothing registered exactly when allocation succeeds, NULL otherwise |
| Lwip.Pcb.constructor | sensor/http_client.h:102 | a new block is alive, with no argument, empty slots, no poll interval and nothing queued |
| Lwip.Pcb.SetArg | sensor/http_client.h:38 | `tcp_arg` on a live block sets the argument and nothing else |
| Lwip.Pcb.SetSent | sensor/http_client.h:39 | `tcp_sent` on a live block sets the sent slot and nothing else |
| Lwip.Pcb.SetRecv | sensor/http_client.h:40 | `tcp_recv` on a live block sets the receive slot and nothing else |
| Lwip.Pcb.SetErr | sensor/http_client.h:41 | `tcp_err` on a live block sets the error slot and nothing else |
| Lwip.Pcb.SetPoll | sensor/http_client.h:42 | `tcp_poll` on a live block sets the poll slot and its interval and nothing else |
| Lwip.Pcb.Connect | sensor/http_client.h:117 | `tcp_connect` on a live block records endpoint and connect callback and returns lwIP's answer |
| Lwip.Pcb.Write | sensor/http_client.h:118 | `tcp_write` with copy semantics appends exactly the first `len` bytes to what is queued |
| Lwip.Pcb.Close | sensor/http_client.h:43 | `tcp_close` on a live block frees it on success and leaves it alive on an error |
| Lwip.Pcb.Abort | sensor/http_client.h:46 | `tcp_abort` on a live block frees it and signals the error slot it holds at that moment |
| Lwip.CloseCode | sensor/http_client.h:43-49 | a close routine answers `ERR_OK` exactly when `tcp_close` succeeded, else `ERR_ABRT` |
| Lwip.ReleasedState | sensor/http_client.h:43-48 | a released block is never alive: freed by `tcp_close` exactly when it succeeded, otherwise aborted with no error callback left to signal |
| HttpRequest.Decimal | sensor/http_client.h:190 | `%d` of a length gives canonical digits: at least one, and no leading zero unless the length is 0 |
| HttpRequest.DecimalRoundTrip | sensor/http_client.h:190 | the rendered length reads back as the length |
| HttpRequest.CanonicalRoundTrip | sensor/http_client.h:190 | every canonical digit string is the rendering of the number it denotes |
| HttpRequest.FrameFormat | sensor/http_client.h:185-190 | the frame is the format string with method, path, body length and body filled in |
| HttpRequest.FrameIsCString | sensor/http_client.h:190 | a frame built from C strings contains no NUL |
| HttpRequest.CreateRequest | sensor/http_client.h:157-193 | a request exactly when all five allocations succeed, NULL plus the count of leaked buffers otherwise; method, path and body equal the inputs and the frame is theirs |
| HttpRequest.FrameLayout | sensor/http_client.h:185-190 | the frame starts with the request line and ends with the blank line and the body; its digits denote the body length; its length is the input lengths plus the digit count plus 32 |
| HttpRequest.SensorActivatedFrame | sensor/http_client.h:190 | POST to the sensor's path with body "activated" yields exactly the text with Content-Length 9 |
| HttpRequest.ParseFrameRoundTrip | sensor/http_client.h:190 | reading a built frame whose method has no space and whose path has no CR gives back method, path and body |
| HttpRequest.ParseFrameSound | sensor/http_client.h:190 | everything the reader accepts is a built frame with such a method and path |
| HttpRequest.ParseFrameInverse | sensor/http_client.h:190 | both directions: the reader yields a message exactly for the built frames of that message |
| HttpClient.WriteLength | sensor/http_client.h:118 | the length handed to `tcp_write` is `strlen` cut to 16 bits: the full length exactly when the frame is shorter than 64 KiB |
| HttpClient.Client.constructor | sensor/http_client.h:129 | a new record holds no block, has reported nothing and is not freed |
| HttpClient.Client.Close | sensor/http_client.h:34-53 | with no block, `ERR_OK` and no change, so a second close is a no-op; otherwise every slot and the argument are cleared, the block is freed or aborted, the handle becomes NULL and the answer is `ERR_OK` or `ERR_ABRT` |
| HttpClient.Client.Result | sensor/http_client.h:55-65 | for every status: the status is reported once and the connection is closed, with close's answer returned |
| HttpClient.Client.Sent | sensor/http_client.h:67-72 | for any length: reports 0 and closes; at most one outcome is kept |
| HttpClient.Client.Connected | sensor/http_client.h:74-84 | on `ERR_OK` only `connected` is raised, leaving the block and its registrations untouched; on an error the error is reported and the connection closed |
| HttpClient.Client.Poll | sensor/http_client.h:86-90 | reports -1 and closes |
| HttpClient.Client.Error | sensor/http_client.h:92-97 | `ERR_ABRT` changes nothing; any other error is reported and closes |
| HttpClient.Client.Register | sensor/http_client.h:108-112 | argument this client, sent and error handlers set, receive NULL, poll NULL with interval 0 |
| HttpClient.Client.Open | sensor/http_client.h:99-126 | no block: false and nothing registered; otherwise a fresh live block registered as above, connected to the client's endpoint, `buffer_len` 0, the frame's first `WriteLength` bytes queued, and true exactly when `tcp_connect` succeeded |
| HttpClient.Init | sensor/http_client.h:128-136 | a fresh record exactly when `malloc` succeeds, whatever the host and port |
| HttpClient.SendRequest | sensor/http_client.h:138-155 | exactly one of `ERR_MEM` (no record), `ERR_CONN` (reported, record not freed, and the block the open allocated, if any, unregistered and freed or aborted) or `ERR_OK` (record freed while the block it opened stays live, carrying it as argument, with the sent and error handlers registered, no receive or poll handler, poll interval 0, and `buffer_len` 0), with port, address and a copy of the request stored before the open |
| HttpClient.QueuedFrameReadsBack | sensor/http_client.h:118 | what is queued for a built request under 64 KiB reads back as its method, path and body |
| PicowClient.TemplateFits | sensor/picow_http_client.c:152-154 | the template has no conversion and its 40 bytes fit the 1024-byte buffer |
| PicowClient.TemplateIsNoBuiltFrame | sensor/picow_http_client.c:153 | the template lacks the Content-Length header, so no method, path and body build it |
| PicowClient.TemplateUnreadable | sensor/picow_http_client.c:153 | the wire-format reader rejects the template |
| PicowClient.TcpClient.constructor | sensor/picow_http_client.c:163 | the `calloc`ed record is all zero: no block, address 0.0.0.0, `buffer_len` 0, not connected |
| PicowClient.TcpClient.Close | sensor/picow_http_client.c:64-82 | with no block, `ERR_OK` and no change; otherwise all five registrations cleared, block freed or aborted, handle NULL, answer `ERR_OK` or `ERR_ABRT` |
| PicowClient.TcpClient.Result | sensor/picow_http_client.c:85-95 | for every status: reported once, closed, close's answer returned |
| PicowClient.TcpClient.Sent | sensor/picow_http_client.c:97-104 | reports 0, closes, and answers `ERR_OK` even when the close aborted the block |
| PicowClient.TcpClient.Connected | sensor/picow_http_client.c:106-115 | on `ERR_OK` only `connected` is raised; on an error it is reported, the connection closed and close's answer returned |
| PicowClient.TcpClient.Poll | sensor/picow_http_client.c:117-120 | reports -1 and closes |
| PicowClient.TcpClient.Err | sensor/picow_http_client.c:122-127 | `ERR_ABRT` changes nothing; any other error is reported and closes |
| PicowClient.TcpClient.Register | sensor/picow_http_client.c:138-142 | argument this record, poll handler with interval `POLL_TIME_S * 2` = 10, sent and error handlers, receive NULL |
| PicowClient.TcpClient.Open | sensor/picow_http_client.c:129-159 | no block: false and nothing registered; otherwise registered as above, connected to port 8000 at the record's address, `buffer_len` 0, exactly the template queued, true exactly when `tcp_connect` succeeded |
| PicowClient.Init | sensor/picow_http_client.c:162-170 | a fresh zeroed record aimed at the server address exactly when `calloc` succeeds |
| PicowClient.MakeRequest | sensor/picow_http_client.c:172-182 | no record: nothing; failed open: -1 reported, record not freed, and the block the open allocated, if any, unregistered and freed or aborted; otherwise the record is freed at once while the block it opened stays live, carrying it as argument, with the poll handler at interval 10, the sent and error handlers, no receive handler, `buffer_len` 0 and `connected` false |

## Left out

- `main` in sensor/picow_http_client.c and all of test/test.c are left out. They are ADC sampling with floating-point voltages, GPIO, WiFi bring-up and an endless loop.
- `dump_bytes` is left out. It is compiled out and only prints.
- server/src/main.rs is not part of this model. It is the receiving web server.
- `printf` logging is left out. `reports` stands for the outcome the result routine prints.
- IP text conversion (`ipaddr_aton`, `ip4addr_aton`, `ipaddr_ntoa`) is left out. The parsed address is a parameter, and a failed conversion, which the source ignores, is not modelled.
- `cyw43_arch_lwip_begin/end` locking is left out.
- lwIP's asynchronous dispatch is left out. Each callback is modelled as a separate call.
- The unused receive `buffer` is left out. Only `buffer_len` is touched by the source.
- The answer of `tcp_write` is left out. The source ignores it, and the model always queues the bytes.
- Memory layout is left out. `malloc`, `calloc` and `free` become a success flag and the `freed` field. A callback that runs on a freed record is not treated as an error; that is the use-after-free described above.
- HttpClient.Client.Error: lwIP calls the error callback for a block it has freed or is about to free; the model delivers the callback on a live block, so the close that follows, which in C releases that block a second time, is modelled as an ordinary close.
- PicowClient.TcpClient.Err: same as `HttpClient.Client.Error`, for the same reason.
- HttpClient.Client.Open: the read of `client->pcb->remote_ip` before `pcb` is assigned (sensor/http_client.h:101-102) is undefined behaviour on uninitialised memory; the model abstracts the address-family argument and does not read the old handle.
- HttpClient.Client.constructor: `malloc` leaves the record uninitialised; the model starts it with fixed values and promises only the ones listed.
- HttpRequest.CreateRequest: `sprintf(NULL, …)` at sensor/http_client.h:185, used to measure the frame, is undefined in C; the model takes it to give the frame's length.
- HttpRequest.CreateRequest: the leaked buffers are counted, not tracked one by one.
- HttpRequest.Decimal: `%d` is given `strlen`'s `size_t`; the model renders the exact length and does not model what a 32-bit `int` conversion would print for bodies of 2^31 bytes or more.
- PicowClient.TcpClient.Open: `snprintf` is modelled only for this template, which has no conversion; the mismatch between the bound of 2048 and the 1024-byte buffer is stated by `TemplateFits`, not modelled in general.
