/** The part of lwIP's raw TCP API that the sensor's HTTP clients use, modelled
    as an abstract transport.  A `Pcb` is one protocol control block (a
    `struct tcp_pcb`): the user argument and the four callback slots the client
    registers, the connect callback handed to `tcp_connect`, the bytes handed to
    `tcp_write`, and whether the block is still alive.  Everything lwIP decides
    for itself (whether an allocation succeeds, what `tcp_connect` and
    `tcp_close` return) is a parameter of the operation that asks for it. */
module Lwip {

  /** `err_t` is a signed 8-bit integer. */
  type ErrT = x: int | -128 <= x < 128

  // The codes the clients produce or test for, with the values of lwIP's err.h.
  const ERR_OK: ErrT := 0
  const ERR_MEM: ErrT := -1
  const ERR_CONN: ErrT := -11
  const ERR_ABRT: ErrT := -13

  type U8 = x: int | 0 <= x < 0x100
  type U16 = x: int | 0 <= x < 0x1_0000

  /** An `ip_addr_t`; its text form and conversions are not modelled. */
  datatype IpAddr = IpAddr(octets: seq<bv8>)

  /** What a callback slot holds: NULL or one of the clients' handlers. */
  datatype Callback =
    | Null
    | HttpClientSent | HttpClientConnected | HttpClientPoll | HttpClientError
    | TcpClientSent | TcpClientConnected | TcpClientPoll | TcpClientErr

  /** A control block is alive until `tcp_close` succeeds or `tcp_abort` runs.
      An abort signals the error callback registered at that moment with
      `ERR_ABRT`; `Aborted` records which one that was. */
  datatype PcbState = Active | Closed | Aborted(signalled: Callback)

  class Pcb {
    var arg: object?
    var sentFn: Callback
    var recvFn: Callback
    var errFn: Callback
    var pollFn: Callback
    var pollInterval: U8
    var connectedFn: Callback
    var remoteAddr: IpAddr
    var remotePort: U16
    var written: seq<char>
    var state: PcbState

    /** A block as `tcp_new_ip_type` hands it out: alive, nothing registered. */
    ghost predicate Unwired()
      reads this
    {
      state == Active && arg == null && sentFn == Null && recvFn == Null && errFn == Null
      && pollFn == Null && pollInterval == 0 && connectedFn == Null && written == []
    }

    /** What a client's close leaves behind: every slot and the argument cleared. */
    ghost predicate Unregistered()
      reads this
    {
      arg == null && sentFn == Null && recvFn == Null && errFn == Null && pollFn == Null
      && pollInterval == 0
    }

    constructor ()
      ensures Unwired()
    {
      arg := null;
      sentFn, recvFn, errFn, pollFn, connectedFn := Null, Null, Null, Null, Null;
      pollInterval := 0;
      written := [];
      state := Active;
    }

    /** `tcp_arg` */
    method SetArg(a: object?)
      requires state == Active
      modifies this`arg
      ensures arg == a
    {
      arg := a;
    }

    /** `tcp_sent` */
    method SetSent(f: Callback)
      requires state == Active
      modifies this`sentFn
      ensures sentFn == f
    {
      sentFn := f;
    }

    /** `tcp_recv` */
    method SetRecv(f: Callback)
      requires state == Active
      modifies this`recvFn
      ensures recvFn == f
    {
      recvFn := f;
    }

    /** `tcp_err` */
    method SetErr(f: Callback)
      requires state == Active
      modifies this`errFn
      ensures errFn == f
    {
      errFn := f;
    }

    /** `tcp_poll`: the poll callback and its interval, in coarse timer ticks. */
    method SetPoll(f: Callback, interval: U8)
      requires state == Active
      modifies this`pollFn, this`pollInterval
      ensures pollFn == f && pollInterval == interval
    {
      pollFn, pollInterval := f, interval;
    }

    /** `tcp_connect`: records the endpoint and the connect callback; `result`
        is what lwIP returns. */
    method Connect(addr: IpAddr, port: U16, f: Callback, result: ErrT) returns (e: ErrT)
      requires state == Active
      modifies this`remoteAddr, this`remotePort, this`connectedFn
      ensures remoteAddr == addr && remotePort == port && connectedFn == f
      ensures e == result
    {
      remoteAddr, remotePort, connectedFn := addr, port, f;
      e := result;
    }

    /** `tcp_write` with `TCP_WRITE_FLAG_COPY`: the first `len` bytes of `data`
        are copied into the send queue. */
    method Write(data: seq<char>, len: U16)
      requires state == Active
      requires len <= |data|
      modifies this`written
      ensures written == old(written) + data[..len]
    {
      written := written + data[..len];
    }

    /** `tcp_close`: frees the block when lwIP reports success; on an error the
        block stays alive. */
    method Close(result: ErrT) returns (e: ErrT)
      requires state == Active
      modifies this`state
      ensures e == result
      ensures state == if result == ERR_OK then Closed else Active
    {
      e := result;
      if result == ERR_OK {
        state := Closed;
      }
    }

    /** `tcp_abort`: frees the block and signals its error callback. */
    method Abort()
      requires state == Active
      modifies this`state
      ensures state == Aborted(errFn)
    {
      state := Aborted(errFn);
    }
  }

  /** `tcp_new_ip_type`: `ok` says whether lwIP could allocate a block. */
  method NewPcb(ok: bool) returns (p: Pcb?)
    ensures (p != null) == ok
    ensures p != null ==> fresh(p) && p.Unwired()
  {
    if ok {
      p := new Pcb();
    } else {
      p := null;
    }
  }

  /** What a client's close routine returns for a given `tcp_close` result:
      success, or `ERR_ABRT` once it has fallen back to `tcp_abort`. */
  function CloseCode(closeErr: ErrT): (e: ErrT)
    ensures e == ERR_OK || e == ERR_ABRT
    ensures e == ERR_OK <==> closeErr == ERR_OK
  {
    if closeErr == ERR_OK then ERR_OK else ERR_ABRT
  }

  /** The state a close routine leaves a live block in, for a given
      `tcp_close` result: freed by `tcp_close`, or aborted with no error
      callback left to signal. */
  function ReleasedState(closeErr: ErrT): (s: PcbState)
    ensures s != Active
    ensures s.Aborted? ==> s.signalled == Null
    ensures s == Closed <==> closeErr == ERR_OK
  {
    if closeErr == ERR_OK then Closed else Aborted(Null)
  }

  /** How a close routine leaves the block `p` it held, where `e` is what it
      returned and `closeErr` what `tcp_close` answered: with no block there
      is nothing to do and the answer is success; otherwise every slot is
      cleared, the block is freed by `tcp_close` or aborted, and the endpoint,
      the connect callback and the queued bytes are as they were. */
  twostate predicate ReleasedBy(p: Pcb?, closeErr: ErrT, e: ErrT)
    reads p
  {
    if p == null then e == ERR_OK
    else
      e == CloseCode(closeErr) && p.Unregistered() && p.state == ReleasedState(closeErr)
      && p.connectedFn == old(p.connectedFn) && p.written == old(p.written)
      && p.remoteAddr == old(p.remoteAddr) && p.remotePort == old(p.remotePort)
  }
}
