/** The connection state machine of sensor/http_client.h.  A `Client` is one
    `struct HTTP_Client`: the control block it holds (or NULL), the endpoint,
    the `buffer_len` counter, the `connected` flag and its copy of the
    request.  Every terminal event goes through `Result` into `Close`, which
    unregisters the client from the block, closes it (falling back to an
    abort) and drops the handle.  Two fields record what C does not keep in
    the record: `reports`, the statuses handed to `http_result` (what the
    client announces as the outcome), and `freed`, whether the record has
    been handed to `free`. */
module HttpClient {
  import opened Lwip
  import opened HttpRequest

  type U32 = x: int | 0 <= x < 0x1_0000_0000

  /** What `tcp_write` is handed for a frame: `strlen` of it, cut to the
      16-bit length parameter. */
  function WriteLength(s: string): (n: U16)
    ensures n <= |s|
    ensures n == |s| <==> |s| < 0x1_0000
  {
    |s| % 0x1_0000
  }

  class Client {
    var pcb: Pcb?
    var remoteAddr: IpAddr
    var port: U16
    var bufferLen: U32
    var connected: bool
    var request: Request
    ghost var reports: seq<int>
    ghost var freed: bool

    /** A held block is alive and carries this client as its argument. */
    ghost predicate Valid()
      reads this, pcb
    {
      pcb != null ==> pcb.state == Active && pcb.arg == this
    }

    /** At most one outcome is ever reported, and none while a block is held. */
    ghost predicate SingleOutcome()
      reads this
    {
      |reports| <= 1 && (pcb != null ==> reports == [])
    }

    /** The record `malloc` hands out.  Its contents are indeterminate in C;
        only the absence of a block, of reports and of a `free` is promised. */
    constructor ()
      ensures pcb == null && reports == [] && !freed
    {
      pcb := null;
      remoteAddr := IpAddr([]);
      port := 0;
      bufferLen := 0;
      connected := false;
      request := Request("", "", "", "");
      reports := [];
      freed := false;
    }

    /** `http_client_close` (sensor/http_client.h:34-53). */
    method Close(closeErr: ErrT) returns (e: ErrT)
      requires Valid()
      modifies this`pcb, pcb
      ensures pcb == null && Valid()
      ensures ReleasedBy(old(pcb), closeErr, e)
    {
      e := ERR_OK;
      if pcb != null {
        var p := pcb;
        p.SetArg(null);
        p.SetSent(Null);
        p.SetRecv(Null);
        p.SetErr(Null);
        p.SetPoll(Null, 0);
        e := p.Close(closeErr);
        if e != ERR_OK {
          p.Abort();
          e := ERR_ABRT;
        }
        pcb := null;
      }
    }

    /** `http_result` (sensor/http_client.h:55-65): announce `status`, then
        close, whatever the status. */
    method Result(status: int, closeErr: ErrT) returns (e: ErrT)
      requires Valid()
      modifies this`pcb, this`reports, pcb
      ensures reports == old(reports) + [status]
      ensures pcb == null && Valid()
      ensures ReleasedBy(old(pcb), closeErr, e)
    {
      reports := reports + [status];
      e := Close(closeErr);
    }

    /** `http_client_sent` (sensor/http_client.h:67-72): the first
        acknowledgement, of any length, ends the exchange with success. */
    method Sent(len: U16, closeErr: ErrT) returns (e: ErrT)
      requires Valid() && pcb != null && pcb.sentFn == HttpClientSent
      modifies this`pcb, this`reports, pcb
      ensures reports == old(reports) + [0]
      ensures old(SingleOutcome()) ==> SingleOutcome()
      ensures pcb == null && Valid()
      ensures ReleasedBy(old(pcb), closeErr, e)
    {
      e := Result(0, closeErr);
    }

    /** `http_client_connected` (sensor/http_client.h:74-84): a failed
        connect is reported and closes; a successful one only raises
        `connected`. */
    method Connected(err: ErrT, closeErr: ErrT) returns (e: ErrT)
      requires Valid() && pcb != null && pcb.connectedFn == HttpClientConnected
      modifies this`connected, this`pcb, this`reports, pcb
      ensures err == ERR_OK ==>
                e == ERR_OK && connected && pcb == old(pcb) && reports == old(reports)
                && unchanged(pcb)
      ensures err != ERR_OK ==>
                connected == old(connected) && reports == old(reports) + [err as int]
                && pcb == null && ReleasedBy(old(pcb), closeErr, e)
      ensures old(SingleOutcome()) ==> SingleOutcome()
      ensures Valid()
    {
      if err != ERR_OK {
        e := Result(err, closeErr);
        return;
      }
      connected := true;
      e := ERR_OK;
    }

    /** `http_client_poll` (sensor/http_client.h:86-90): a poll is reported
        as the failure -1 and closes. */
    method Poll(closeErr: ErrT) returns (e: ErrT)
      requires Valid() && pcb != null && pcb.pollFn == HttpClientPoll
      modifies this`pcb, this`reports, pcb
      ensures reports == old(reports) + [-1]
      ensures old(SingleOutcome()) ==> SingleOutcome()
      ensures pcb == null && Valid()
      ensures ReleasedBy(old(pcb), closeErr, e)
    {
      e := Result(-1, closeErr);
    }

    /** `http_client_error` (sensor/http_client.h:92-97): an abort is
        ignored; any other error is reported and closes. */
    method Error(err: ErrT, closeErr: ErrT)
      requires Valid() && pcb != null && pcb.errFn == HttpClientError
      modifies this`pcb, this`reports, pcb
      ensures err == ERR_ABRT ==> pcb == old(pcb) && reports == old(reports) && unchanged(pcb)
      ensures err != ERR_ABRT ==>
                reports == old(reports) + [err as int] && pcb == null
                && ReleasedBy(old(pcb), closeErr, CloseCode(closeErr))
      ensures old(SingleOutcome()) ==> SingleOutcome()
      ensures Valid()
    {
      if err != ERR_ABRT {
        var _ := Result(err, closeErr);
      }
    }

    /** The registrations of sensor/http_client.h:108-112: no poll handler. */
    method Register(p: Pcb)
      requires p.state == Active
      modifies p`arg, p`sentFn, p`recvFn, p`errFn, p`pollFn, p`pollInterval
      ensures p.arg == this && p.sentFn == HttpClientSent && p.recvFn == Null
      ensures p.errFn == HttpClientError && p.pollFn == Null && p.pollInterval == 0
    {
      p.SetArg(this);
      p.SetSent(HttpClientSent);
      p.SetRecv(Null);
      p.SetErr(HttpClientError);
      p.SetPoll(Null, 0);
    }

    /** `http_client_open` (sensor/http_client.h:99-126).  `pcbOk` is whether
        `tcp_new_ip_type` allocates a block, `connectErr` what `tcp_connect`
        returns.  The frame is queued whatever `tcp_connect` answered. */
    method Open(pcbOk: bool, connectErr: ErrT) returns (ok: bool)
      modifies this`pcb, this`bufferLen
      ensures ok <==> pcbOk && connectErr == ERR_OK
      ensures !pcbOk ==> pcb == null && bufferLen == old(bufferLen)
      ensures pcbOk ==>
                pcb != null && fresh(pcb) && pcb.state == Active && pcb.arg == this
                && pcb.sentFn == HttpClientSent && pcb.recvFn == Null
                && pcb.errFn == HttpClientError && pcb.pollFn == Null && pcb.pollInterval == 0
                && pcb.connectedFn == HttpClientConnected
                && pcb.remoteAddr == remoteAddr && pcb.remotePort == port
                && pcb.written == request.completeRequest[..WriteLength(request.completeRequest)]
                && bufferLen == 0
      ensures Valid()
    {
      var p := NewPcb(pcbOk);
      pcb := p;
      if p == null {
        return false;
      }
      Register(p);
      bufferLen := 0;
      var err := p.Connect(remoteAddr, port, HttpClientConnected, connectErr);
      p.Write(request.completeRequest, WriteLength(request.completeRequest));
      ok := err == ERR_OK;
    }
  }

  /** `http_client_init` (sensor/http_client.h:128-136): allocates a record
      (`mallocOk` says whether `malloc` succeeds) and uses neither argument. */
  method Init(host: string, port: U16, mallocOk: bool) returns (c: Client?)
    ensures (c != null) == mallocOk
    ensures c != null ==> fresh(c) && c.pcb == null && c.reports == [] && !c.freed
  {
    if !mallocOk {
      return null;
    }
    c := new Client();
  }

  /** `http_client_request` (sensor/http_client.h:138-155), returning next to
      the error code the record it allocated, so that what becomes of it can
      be stated, and the block its open allocated, `block`: after a failed
      open the record is reported and never freed, and the block, if one
      was allocated, is unregistered and freed or aborted; after a successful
      open the record is freed while that block, still live, carries it as
      its argument with its callbacks registered.  `addr` is what
      `ipaddr_aton` makes of the text `host`. */
  method SendRequest(host: string, addr: IpAddr, port: U16, request: Request,
                     mallocOk: bool, pcbOk: bool, connectErr: ErrT, closeErr: ErrT)
    returns (e: ErrT, client: Client?, ghost block: Pcb?)
    ensures e == ERR_MEM <==> !mallocOk
    ensures e == ERR_CONN <==> mallocOk && !(pcbOk && connectErr == ERR_OK)
    ensures e == ERR_OK <==> mallocOk && pcbOk && connectErr == ERR_OK
    ensures (client != null) == mallocOk
    ensures client != null ==>
              fresh(client) && client.request == request && client.port == port
              && client.remoteAddr == addr && client.Valid() && client.SingleOutcome()
    ensures (block != null) == (mallocOk && pcbOk)
    ensures block != null ==>
              fresh(block) && block.connectedFn == HttpClientConnected
              && block.remoteAddr == addr && block.remotePort == port
              && block.written == request.completeRequest[..WriteLength(request.completeRequest)]
    ensures e == ERR_CONN ==> client.reports == [ERR_CONN as int] && client.pcb == null && !client.freed
    ensures e == ERR_CONN && block != null ==>
              block.Unregistered() && block.state == ReleasedState(closeErr)
    ensures e == ERR_OK ==> client.pcb == block
    ensures e == ERR_OK ==>
              client.freed && client.reports == [] && client.pcb != null && fresh(client.pcb)
              && client.pcb.arg == client && client.pcb.sentFn == HttpClientSent
              && client.pcb.recvFn == Null && client.pcb.errFn == HttpClientError
              && client.pcb.pollFn == Null && client.pcb.pollInterval == 0
              && client.pcb.connectedFn == HttpClientConnected && client.bufferLen == 0
              && client.pcb.remoteAddr == addr && client.pcb.remotePort == port
              && client.pcb.written == request.completeRequest[..WriteLength(request.completeRequest)]
  {
    block := null;
    client := Init(host, port, mallocOk);
    if client == null {
      return ERR_MEM, null, null;
    }
    client.request := request;
    client.port := port;
    client.remoteAddr := addr;
    var ok := client.Open(pcbOk, connectErr);
    block := client.pcb;
    if !ok {
      var _ := client.Result(ERR_CONN, closeErr);
      return ERR_CONN, client, block;
    }
    client.freed := true;
    e := ERR_OK;
  }

  /** What the driver queues for a built request is the whole frame as long
      as the frame is shorter than 64 KiB, and then a reader of the wire
      format gets back the method, path and body the request was built from. */
  lemma QueuedFrameReadsBack(r: Request)
    requires WellFormed(r) && ' ' !in r.httpMethod && '\r' !in r.path
    requires |r.completeRequest| < 0x1_0000
    ensures var f := r.completeRequest;
            ParseFrame(f[..WriteLength(f)]) == Some(Message(r.httpMethod, r.path, r.body))
  {
    var f := r.completeRequest;
    assert f[..WriteLength(f)] == f;
    ParseFrameRoundTrip(r.httpMethod, r.path, r.body);
  }
}
