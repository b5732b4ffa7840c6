/** The connection state machine of sensor/picow_http_client.c, the version
    the firmware's main loop calls.  It differs from the header version in
    three ways: it sends a fixed request line with no Content-Length header,
    it arms a poll timeout, and its sent handler answers success whatever the
    close that follows returned.  As there, `reports` records the statuses
    handed to `tcp_result`, and `freed` whether the record went to `free`. */
module PicowClient {
  import opened Lwip
  import opened HttpRequest

  /** `TCP_PORT` */
  const TcpPort: U16 := 8000

  /** `POLL_TIME_S * 2`: lwIP's poll interval counts coarse timer ticks of
      half a second, so the handler fires after about `POLL_TIME_S`, five
      seconds. */
  const PollInterval: U8 := 10

  /** The size of the stack buffer `req` the template is printed into. */
  const ReqCapacity := 1024

  /** The request line the client sends, followed by the blank line. */
  const RequestTemplate: string := "POST /api/v1/sensor/sensor1 HTTP/1.1\r\n\r\n"

  /** The template has no conversion, so `snprintf` copies it as it is; its
      40 bytes fit the 1024-byte buffer, so the bound of 2048 passed with it
      never comes into play. */
  lemma TemplateFits()
    ensures '%' !in RequestTemplate
    ensures |RequestTemplate| == 40 < ReqCapacity
  {
  }

  /** The template is no frame the header version's builder produces: every
      such frame carries the Content-Length header, and the template has no
      letter 'C' at all. */
  lemma TemplateIsNoBuiltFrame(httpMethod: string, path: string, body: string)
    ensures Frame(httpMethod, path, body) != RequestTemplate
  {
    FrameLayout(httpMethod, path, body);
    var f := Frame(httpMethod, path, body);
    var a := |httpMethod| + |path| + 12;
    assert f[a] == LengthName[0];
    assert 'C' !in RequestTemplate;
  }

  /** Hence a reader that insists on a Content-Length header rejects it. */
  lemma TemplateUnreadable()
    ensures ParseFrame(RequestTemplate) == None
  {
    if ParseFrame(RequestTemplate).Some? {
      ParseFrameSound(RequestTemplate);
      var m := ParseFrame(RequestTemplate).value;
      TemplateIsNoBuiltFrame(m.httpMethod, m.path, m.body);
    }
  }

  /** `TCP_CLIENT_T`. */
  class TcpClient {
    var tcpPcb: Pcb?
    var remoteAddr: IpAddr
    var bufferLen: int
    var connected: bool
    ghost var reports: seq<int>
    ghost var freed: bool

    /** A held block is alive and carries this record as its argument. */
    ghost predicate Valid()
      reads this, tcpPcb
    {
      tcpPcb != null ==> tcpPcb.state == Active && tcpPcb.arg == this
    }

    /** At most one outcome is ever reported, and none while a block is held. */
    ghost predicate SingleOutcome()
      reads this
    {
      |reports| <= 1 && (tcpPcb != null ==> reports == [])
    }

    /** The record `calloc` hands out: every field zero. */
    constructor ()
      ensures tcpPcb == null && remoteAddr == IpAddr([0, 0, 0, 0]) && bufferLen == 0
      ensures !connected && reports == [] && !freed
    {
      tcpPcb := null;
      remoteAddr := IpAddr([0, 0, 0, 0]);
      bufferLen := 0;
      connected := false;
      reports := [];
      freed := false;
    }

    /** `tcp_client_close` (sensor/picow_http_client.c:64-82). */
    method Close(closeErr: ErrT) returns (e: ErrT)
      requires Valid()
      modifies this`tcpPcb, tcpPcb
      ensures tcpPcb == null && Valid()
      ensures ReleasedBy(old(tcpPcb), closeErr, e)
    {
      e := ERR_OK;
      if tcpPcb != null {
        var p := tcpPcb;
        p.SetArg(null);
        p.SetPoll(Null, 0);
        p.SetSent(Null);
        p.SetRecv(Null);
        p.SetErr(Null);
        e := p.Close(closeErr);
        if e != ERR_OK {
          p.Abort();
          e := ERR_ABRT;
        }
        tcpPcb := null;
      }
    }

    /** `tcp_result` (sensor/picow_http_client.c:85-95): announce `status`,
        then close, whatever the status. */
    method Result(status: int, closeErr: ErrT) returns (e: ErrT)
      requires Valid()
      modifies this`tcpPcb, this`reports, tcpPcb
      ensures reports == old(reports) + [status]
      ensures tcpPcb == null && Valid()
      ensures ReleasedBy(old(tcpPcb), closeErr, e)
    {
      reports := reports + [status];
      e := Close(closeErr);
    }

    /** `tcp_client_sent` (sensor/picow_http_client.c:97-104): reports
        success and closes, and answers `ERR_OK` even when the close had to
        abort the block. */
    method Sent(len: U16, closeErr: ErrT) returns (e: ErrT)
      requires Valid() && tcpPcb != null && tcpPcb.sentFn == TcpClientSent
      modifies this`tcpPcb, this`reports, tcpPcb
      ensures e == ERR_OK
      ensures reports == old(reports) + [0]
      ensures old(SingleOutcome()) ==> SingleOutcome()
      ensures tcpPcb == null && Valid()
      ensures ReleasedBy(old(tcpPcb), closeErr, CloseCode(closeErr))
      ensures closeErr != ERR_OK ==> old(tcpPcb).state.Aborted?
    {
      var _ := Result(0, closeErr);
      e := ERR_OK;
    }

    /** `tcp_client_connected` (sensor/picow_http_client.c:106-115): a failed
        connect is reported and closes; a successful one only raises
        `connected`. */
    method Connected(err: ErrT, closeErr: ErrT) returns (e: ErrT)
      requires Valid() && tcpPcb != null && tcpPcb.connectedFn == TcpClientConnected
      modifies this`connected, this`tcpPcb, this`reports, tcpPcb
      ensures err == ERR_OK ==>
                e == ERR_OK && connected && tcpPcb == old(tcpPcb) && reports == old(reports)
                && unchanged(tcpPcb)
      ensures err != ERR_OK ==>
                connected == old(connected) && reports == old(reports) + [err as int]
                && tcpPcb == null && ReleasedBy(old(tcpPcb), closeErr, e)
      ensures old(SingleOutcome()) ==> SingleOutcome()
      ensures Valid()
    {
      if err != ERR_OK {
        e := Result(err, closeErr);
        return;
      }
      connected := true;
      e := ERR_OK;
    }

    /** `tcp_client_poll` (sensor/picow_http_client.c:117-120): the timeout
        is reported as the failure -1 and closes. */
    method Poll(closeErr: ErrT) returns (e: ErrT)
      requires Valid() && tcpPcb != null && tcpPcb.pollFn == TcpClientPoll
      modifies this`tcpPcb, this`reports, tcpPcb
      ensures reports == old(reports) + [-1]
      ensures old(SingleOutcome()) ==> SingleOutcome()
      ensures tcpPcb == null && Valid()
      ensures ReleasedBy(old(tcpPcb), closeErr, e)
    {
      e := Result(-1, closeErr);
    }

    /** `tcp_client_err` (sensor/picow_http_client.c:122-127): an abort is
        ignored; any other error is reported and closes. */
    method Err(err: ErrT, closeErr: ErrT)
      requires Valid() && tcpPcb != null && tcpPcb.errFn == TcpClientErr
      modifies this`tcpPcb, this`reports, tcpPcb
      ensures err == ERR_ABRT ==>
                tcpPcb == old(tcpPcb) && reports == old(reports) && unchanged(tcpPcb)
      ensures err != ERR_ABRT ==>
                reports == old(reports) + [err as int] && tcpPcb == null
                && ReleasedBy(old(tcpPcb), closeErr, CloseCode(closeErr))
      ensures old(SingleOutcome()) ==> SingleOutcome()
      ensures Valid()
    {
      if err != ERR_ABRT {
        var _ := Result(err, closeErr);
      }
    }

    /** The registrations of sensor/picow_http_client.c:138-142. */
    method Register(p: Pcb)
      requires p.state == Active
      modifies p`arg, p`pollFn, p`pollInterval, p`sentFn, p`recvFn, p`errFn
      ensures p.arg == this && p.pollFn == TcpClientPoll && p.pollInterval == PollInterval
      ensures p.sentFn == TcpClientSent && p.recvFn == Null && p.errFn == TcpClientErr
    {
      p.SetArg(this);
      p.SetPoll(TcpClientPoll, PollInterval);
      p.SetSent(TcpClientSent);
      p.SetRecv(Null);
      p.SetErr(TcpClientErr);
    }

    /** `tcp_client_open` (sensor/picow_http_client.c:129-159).  `pcbOk` is
        whether `tcp_new_ip_type` allocates a block, `connectErr` what
        `tcp_connect` returns.  The template is queued whatever `tcp_connect`
        answered. */
    method Open(pcbOk: bool, connectErr: ErrT) returns (ok: bool)
      modifies this`tcpPcb, this`bufferLen
      ensures ok <==> pcbOk && connectErr == ERR_OK
      ensures !pcbOk ==> tcpPcb == null && bufferLen == old(bufferLen)
      ensures pcbOk ==>
                tcpPcb != null && fresh(tcpPcb) && tcpPcb.state == Active && tcpPcb.arg == this
                && tcpPcb.pollFn == TcpClientPoll && tcpPcb.pollInterval == PollInterval
                && tcpPcb.sentFn == TcpClientSent && tcpPcb.recvFn == Null
                && tcpPcb.errFn == TcpClientErr && tcpPcb.connectedFn == TcpClientConnected
                && tcpPcb.remoteAddr == remoteAddr && tcpPcb.remotePort == TcpPort
                && tcpPcb.written == RequestTemplate && bufferLen == 0
      ensures Valid()
    {
      var p := NewPcb(pcbOk);
      tcpPcb := p;
      if p == null {
        return false;
      }
      Register(p);
      bufferLen := 0;
      var err := p.Connect(remoteAddr, TcpPort, TcpClientConnected, connectErr);
      var reqLen := |RequestTemplate|;
      assert [] + RequestTemplate[..reqLen] == RequestTemplate;
      p.Write(RequestTemplate, reqLen);
      ok := err == ERR_OK;
    }
  }

  /** `tcp_client_init` (sensor/picow_http_client.c:162-170): a zeroed record
      (`callocOk` says whether `calloc` succeeds) aimed at the server address,
      which the firmware fixes at build time. */
  method Init(serverIp: IpAddr, callocOk: bool) returns (state: TcpClient?)
    ensures (state != null) == callocOk
    ensures state != null ==>
              fresh(state) && state.tcpPcb == null && state.remoteAddr == serverIp
              && state.bufferLen == 0 && !state.connected && state.reports == [] && !state.freed
  {
    if !callocOk {
      return null;
    }
    state := new TcpClient();
    state.remoteAddr := serverIp;
  }

  /** `make_request` (sensor/picow_http_client.c:172-182), returning the
      record it allocated and the block its open allocated, `block`, so that
      what becomes of them can be stated: after a failed open the record is
      reported as the failure -1 and never freed, and the block, if one was
      allocated, is unregistered and freed or aborted; after a successful
      open the record is freed while that block, still live, carries it as
      its argument with its callbacks registered. */
  method MakeRequest(serverIp: IpAddr, callocOk: bool, pcbOk: bool, connectErr: ErrT,
                     closeErr: ErrT)
    returns (state: TcpClient?, ghost block: Pcb?)
    ensures (state != null) == callocOk
    ensures (block != null) == (callocOk && pcbOk)
    ensures block != null ==>
              fresh(block) && block.connectedFn == TcpClientConnected
              && block.remoteAddr == serverIp && block.remotePort == TcpPort
              && block.written == RequestTemplate
    ensures state != null ==>
              fresh(state) && state.remoteAddr == serverIp && state.Valid() && state.SingleOutcome()
    ensures state != null && !(pcbOk && connectErr == ERR_OK) ==>
              state.reports == [-1] && state.tcpPcb == null && !state.freed
              && (block != null ==> block.Unregistered() && block.state == ReleasedState(closeErr))
    ensures state != null && pcbOk && connectErr == ERR_OK ==>
              state.freed && state.reports == [] && state.tcpPcb == block && block != null
              && state.tcpPcb.arg == state && state.tcpPcb.pollFn == TcpClientPoll
              && state.tcpPcb.pollInterval == PollInterval && state.tcpPcb.recvFn == Null
              && state.tcpPcb.sentFn == TcpClientSent && state.tcpPcb.errFn == TcpClientErr
              && state.tcpPcb.connectedFn == TcpClientConnected
              && state.bufferLen == 0 && !state.connected
              && state.tcpPcb.remoteAddr == serverIp && state.tcpPcb.remotePort == TcpPort
              && state.tcpPcb.written == RequestTemplate
  {
    block := null;
    state := Init(serverIp, callocOk);
    if state == null {
      return;
    }
    var ok := state.Open(pcbOk, connectErr);
    block := state.tcpPcb;
    if !ok {
      var _ := state.Result(-1, closeErr);
      return;
    }
    state.freed := true;
  }
}
