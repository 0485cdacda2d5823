/** TcpConnection.h and TcpConnection.cc: the connection object, updating its state, its two buffers
    and its channel in place. Every method is proved to compute the function of the same name in
    `ConnectionModel` on `View()`, and to leave every other descriptor's registration alone. */
module Connections {
  import opened Kernel
  import opened Buffers
  import opened Pollers
  import M = ConnectionModel
  import E = ConnectionEffects

  /** Both buffers begin with the default size. */
  const START := Layout(CHEAP_PREPEND + INITIAL_SIZE, CHEAP_PREPEND, CHEAP_PREPEND)

  /** At most one operation more on a buffer; if it is an append, one of at most `n` bytes. */
  predicate Grows(before: seq<Op>, after: seq<Op>, n: nat) {
    after == before ||
    (|after| == |before| + 1 && after[..|before|] == before && !after[|before|].ReadFd?
     && (after[|before|].Append? ==> after[|before|].len <= n))
  }

  class TcpConnection {
    const name: string
    const cfg: M.Config
    const channel: Channel
    const inputBuffer: Buffer
    const outputBuffer: Buffer
    var state: M.State

    // The socket's side: the outgoing stream and the number of shutdown(SHUT_WR) calls.
    var taken: Bytes
    var fins: nat

    // What the connection has told the user, the server and its loop.
    var ups: nat
    var downs: nat
    var closes: nat
    var queued: seq<M.Note>

    ghost var accepted: Bytes
    ghost var received: Bytes
    ghost var consumed: Bytes

    ghost predicate Valid()
      reads this, channel, channel.poller, channel.poller.known, channel.poller.epoll, inputBuffer, outputBuffer
    {
      && channel.Ready()
      && inputBuffer.Valid() && outputBuffer.Valid() && inputBuffer.initial == outputBuffer.initial == START
      && inputBuffer != outputBuffer && inputBuffer.buffer != outputBuffer.buffer
    }

    ghost function KernelEntry(): Option<Interest>
      reads channel.poller.epoll
    {
      var interest := channel.poller.epoll.interest;
      if channel.fd in interest && interest[channel.fd].ptr == channel then Some(interest[channel.fd].mask) else None
    }

    ghost function View(): M.Conn
      requires Valid()
      reads this, channel, channel.poller, channel.poller.known, channel.poller.epoll
      reads inputBuffer, inputBuffer.buffer, outputBuffer, outputBuffer.buffer
    {
      M.Conn(cfg, state, channel.tied, channel.events, channel.index, KernelEntry(),
             inputBuffer.Contents(), outputBuffer.Contents(), accepted, taken, received, consumed,
             fins, ups, downs, closes, queued)
    }

    /** Other descriptors keep their registrations. */
    ghost predicate OthersKept(channels: map<int, Channel>, interest: map<int, Registration>)
      reads channel.poller, channel.poller.epoll
    {
      && channel.poller.channels - {channel.fd} == channels - {channel.fd}
      && channel.poller.epoll.interest - {channel.fd} == interest - {channel.fd}
    }

    constructor (poller: EPollPoller, name: string, sockfd: int, cfg: M.Config)
      requires poller.Valid() && sockfd !in poller.channels
      modifies poller`known
      ensures Valid() && View() == M.Fresh(cfg)
      ensures this.name == name && this.cfg == cfg && channel.poller == poller && channel.fd == sockfd
      ensures fresh(channel) && fresh(inputBuffer) && fresh(outputBuffer)
      ensures fresh(inputBuffer.buffer) && fresh(outputBuffer.buffer)
      ensures poller.known == old(poller.known) + {channel}
    {
      this.name := name;
      this.cfg := cfg;
      state := M.Connecting;
      channel := new Channel(poller, sockfd);
      inputBuffer := new Buffer();
      outputBuffer := new Buffer();
      taken, fins, ups, downs, closes, queued := [], 0, 0, 0, 0, [];
      accepted, received, consumed := [], [], [];
      new;
      assert channel.index == New;
    }

    method SetState(s: M.State)
      requires Valid()
      modifies `state
      ensures Valid() && View() == old(View()).(state := s)
    {
      state := s;
    }

    method Tie()
      requires Valid()
      modifies channel`tied
      ensures Valid() && View() == old(View()).(tied := true)
    {
      channel.tied := true;
    }

    /** The kernel takes bytes of the outgoing stream. */
    method Transfer(bytes: Bytes)
      requires Valid()
      modifies `taken
      ensures Valid() && View() == old(View()).(taken := old(taken) + bytes)
    {
      taken := taken + bytes;
    }

    ghost method CountAccepted(msg: Bytes)
      requires Valid()
      modifies `accepted
      ensures Valid() && View() == old(View()).(accepted := old(accepted) + msg)
    {
      accepted := accepted + msg;
    }

    /** `connectionCallback_`, which sees the state through `connected()`. */
    method ConnectionCallback(calls: seq<M.Call>)
      requires Valid()
      modifies this, channel, channel.poller`channels, channel.poller.epoll
      modifies inputBuffer, outputBuffer, outputBuffer.buffer
      ensures Valid()
      ensures View() == M.DoCalls(if old(state) == M.Connected then old(View()).(ups := old(ups) + 1)
                                  else old(View()).(downs := old(downs) + 1), calls)
      ensures OthersKept(old(channel.poller.channels), old(channel.poller.epoll.interest))
      ensures inputBuffer.buffer == old(inputBuffer.buffer)
      ensures outputBuffer.buffer == old(outputBuffer.buffer) || fresh(outputBuffer.buffer)
    {
      CountCallback();
      RunCallback(calls);
    }

    method CountCallback()
      requires Valid()
      modifies `ups, `downs
      ensures Valid()
      ensures View() == if old(state) == M.Connected then old(View()).(ups := old(ups) + 1)
                        else old(View()).(downs := old(downs) + 1)
    {
      if state == M.Connected {
        ups := ups + 1;
      } else {
        downs := downs + 1;
      }
    }

    method EnableReading()
      requires Valid()
      modifies channel, channel.poller`channels, channel.poller.epoll
      ensures Valid() && View() == M.EnableReading(old(View()))
      ensures OthersKept(old(channel.poller.channels), old(channel.poller.epoll.interest))
    {
      channel.EnableReading();
    }

    method EnableWriting()
      requires Valid()
      modifies channel, channel.poller`channels, channel.poller.epoll
      ensures Valid() && View() == M.EnableWriting(old(View()))
      ensures OthersKept(old(channel.poller.channels), old(channel.poller.epoll.interest))
    {
      channel.EnableWriting();
    }

    method DisableWriting()
      requires Valid()
      modifies channel, channel.poller`channels, channel.poller.epoll
      ensures Valid() && View() == M.DisableWriting(old(View()))
      ensures OthersKept(old(channel.poller.channels), old(channel.poller.epoll.interest))
    {
      channel.DisableWriting();
    }

    method DisableAll()
      requires Valid()
      modifies channel, channel.poller`channels, channel.poller.epoll
      ensures Valid() && View() == M.DisableAll(old(View()))
      ensures OthersKept(old(channel.poller.channels), old(channel.poller.epoll.interest))
    {
      channel.DisableAll();
    }

    method QueueWriteComplete()
      requires Valid()
      modifies `queued
      ensures Valid() && View() == M.Notify(old(View()))
    {
      if cfg.onWriteComplete {
        queued := queued + [M.WriteComplete];
      }
    }

    method Enqueue(rest: Bytes)
      requires Valid()
      modifies this, channel, channel.poller`channels, channel.poller.epoll, outputBuffer, outputBuffer.buffer
      ensures Valid() && View() == M.Enqueue(old(View()), rest)
      ensures outputBuffer.history == old(outputBuffer.history) + [Op.Append(|rest|)]
      ensures OthersKept(old(channel.poller.channels), old(channel.poller.epoll.interest))
      ensures outputBuffer.buffer == old(outputBuffer.buffer) || fresh(outputBuffer.buffer)
    {
      hide Run, Buffer.Contents, Channel.Ready;
      var oldLen := outputBuffer.ReadableBytes();
      if oldLen + |rest| >= cfg.mark && oldLen < cfg.mark && cfg.onHighWater {
        queued := queued + [M.HighWater(oldLen + |rest|)];
      }
      outputBuffer.Append(rest);
      if !channel.IsWriting() {
        EnableWriting();
      }
    }

    /** The direct write of `sendInLoop`. */
    method WriteDirectly(msg: Bytes, w: WriteChoice) returns (nwrote: nat, faultError: bool)
      requires Valid()
      modifies `taken, `queued
      ensures Valid()
      ensures var r := Write(old(fins) > 0, |msg|, w);
              && nwrote == (if r.Wrote? then r.n else 0) && faultError == M.IsFault(r)
              && View() == if r.Failed? then old(View())
                           else var c := old(View()).(taken := old(taken) + msg[..r.n]);
                                if r.n == |msg| then M.Notify(c) else c
    {
      nwrote := 0;
      faultError := false;
      var r := Write(fins > 0, |msg|, w);
      if r.Wrote? {
        nwrote := r.n;
        Transfer(msg[..nwrote]);
        if |msg| - nwrote == 0 {
          QueueWriteComplete();
        }
      } else if r.e != EWOULDBLOCK {
        if r.e == EPIPE || r.e == ECONNRESET {
          faultError := true;
        }
      }
    }

    method SendInLoop(msg: Bytes, w: WriteChoice)
      requires Valid()
      modifies this, channel, channel.poller`channels, channel.poller.epoll, outputBuffer, outputBuffer.buffer
      ensures Valid() && View() == M.SendInLoop(old(View()), msg, w)
      ensures Grows(old(outputBuffer.history), outputBuffer.history, |msg|)
      ensures OthersKept(old(channel.poller.channels), old(channel.poller.epoll.interest))
      ensures outputBuffer.buffer == old(outputBuffer.buffer) || fresh(outputBuffer.buffer)
    {
      hide Channel.Ready, Buffer.Contents, Run, M.Enqueue;
      var nwrote: nat := 0;
      var faultError := false;
      if state == M.Disconnected {
        return;
      }
      if !channel.IsWriting() && outputBuffer.ReadableBytes() == 0 {
        nwrote, faultError := WriteDirectly(msg, w);
      }
      if !faultError {
        assert nwrote == 0 ==> msg[nwrote..] == msg;
        Keep(msg, nwrote);
      }
    }

    /** The end of `sendInLoop`: what the direct write left over waits in the output buffer. */
    method Keep(msg: Bytes, nwrote: nat)
      requires Valid() && nwrote <= |msg|
      modifies this, channel, channel.poller`channels, channel.poller.epoll, outputBuffer, outputBuffer.buffer
      ensures Valid()
      ensures var c := old(View()).(accepted := old(accepted) + msg);
              View() == if msg[nwrote..] == [] then c else M.Enqueue(c, msg[nwrote..])
      ensures Grows(old(outputBuffer.history), outputBuffer.history, |msg|)
      ensures OthersKept(old(channel.poller.channels), old(channel.poller.epoll.interest))
      ensures outputBuffer.buffer == old(outputBuffer.buffer) || fresh(outputBuffer.buffer)
    {
      CountAccepted(msg);
      if |msg| - nwrote > 0 {
        Enqueue(msg[nwrote..]);
      }
    }

    method Send(msg: Bytes, w: WriteChoice)
      requires Valid()
      modifies this, channel, channel.poller`channels, channel.poller.epoll, outputBuffer, outputBuffer.buffer
      ensures Valid() && View() == M.Send(old(View()), msg, w)
      ensures Grows(old(outputBuffer.history), outputBuffer.history, |msg|)
      ensures OthersKept(old(channel.poller.channels), old(channel.poller.epoll.interest))
      ensures outputBuffer.buffer == old(outputBuffer.buffer) || fresh(outputBuffer.buffer)
    {
      if state == M.Connected {
        SendInLoop(msg, w);
      }
    }

    method ShutdownInLoop()
      requires Valid()
      modifies `fins
      ensures Valid() && View() == M.ShutdownInLoop(old(View()))
    {
      if !channel.IsWriting() {
        fins := fins + 1;
      }
    }

    method Shutdown()
      requires Valid()
      modifies `state, `fins
      ensures Valid() && View() == M.Shutdown(old(View()))
    {
      if state == M.Connected {
        SetState(M.Disconnecting);
        ShutdownInLoop();
      }
    }

    method HandleWrite(w: WriteChoice)
      requires Valid()
      modifies this, channel, channel.poller`channels, channel.poller.epoll, outputBuffer
      ensures Valid() && View() == M.HandleWrite(old(View()), w)
      ensures Grows(old(outputBuffer.history), outputBuffer.history, 0)
      ensures OthersKept(old(channel.poller.channels), old(channel.poller.epoll.interest))
      ensures outputBuffer.buffer == old(outputBuffer.buffer)
    {
      hide Run, Buffer.InBounds, Write, Channel.Ready;
      if channel.IsWriting() {
        var before := outputBuffer.Contents();
        var r := outputBuffer.WriteFd(fins > 0, w);
        if r.Wrote? && r.n > 0 {
          Transfer(before[..r.n]);
          if outputBuffer.ReadableBytes() == 0 {
            DisableWriting();
            QueueWriteComplete();
            if state == M.Disconnecting {
              ShutdownInLoop();
            }
          }
        }
      }
    }

    /** The message callback's `retrieve` on the input buffer. */
    method Retrieve(len: nat)
      requires Valid()
      modifies `consumed, inputBuffer`readerIndex, inputBuffer`writerIndex, inputBuffer`history
      ensures Valid() && View() == M.Retrieve(old(View()), len)
    {
      ghost var n := Min(len, |inputBuffer.Contents()|);
      consumed := consumed + inputBuffer.Contents()[..n];
      inputBuffer.Retrieve(len);
    }

    /** A user callback: any finite sequence of calls on this connection. */
    method RunCallback(calls: seq<M.Call>)
      requires Valid()
      modifies this, channel, channel.poller`channels, channel.poller.epoll
      modifies inputBuffer, outputBuffer, outputBuffer.buffer
      ensures Valid() && View() == M.DoCalls(old(View()), calls)
      ensures OthersKept(old(channel.poller.channels), old(channel.poller.epoll.interest))
      ensures inputBuffer.buffer == old(inputBuffer.buffer)
      ensures outputBuffer.buffer == old(outputBuffer.buffer) || fresh(outputBuffer.buffer)
    {
      for i := 0 to |calls|
        invariant Valid() && M.DoCalls(View(), calls[i..]) == M.DoCalls(old(View()), calls)
        invariant OthersKept(old(channel.poller.channels), old(channel.poller.epoll.interest))
        invariant inputBuffer.buffer == old(inputBuffer.buffer)
        invariant outputBuffer.buffer == old(outputBuffer.buffer) || fresh(outputBuffer.buffer)
      {
        RunCall(calls[i]);
        assert calls[i..][1..] == calls[i + 1..];
      }
    }

    method RunCall(call: M.Call)
      requires Valid()
      modifies this, channel, channel.poller`channels, channel.poller.epoll
      modifies inputBuffer, outputBuffer, outputBuffer.buffer
      ensures Valid() && View() == M.DoCall(old(View()), call)
      ensures OthersKept(old(channel.poller.channels), old(channel.poller.epoll.interest))
      ensures inputBuffer.buffer == old(inputBuffer.buffer)
      ensures outputBuffer.buffer == old(outputBuffer.buffer) || fresh(outputBuffer.buffer)
    {
      hide Channel.Ready, Buffer.Contents, Run, M.Send, M.Shutdown, M.Retrieve;
      match call
      case CallSend(msg, w) => Send(msg, w);
      case CallShutdown => Shutdown();
      case CallRetrieve(len) => Retrieve(len);
    }

    method HandleClose(calls: seq<M.Call>)
      requires Valid()
      modifies this, channel, channel.poller`channels, channel.poller.epoll
      modifies inputBuffer, outputBuffer, outputBuffer.buffer
      ensures Valid() && View() == M.HandleClose(old(View()), calls)
      ensures OthersKept(old(channel.poller.channels), old(channel.poller.epoll.interest))
      ensures inputBuffer.buffer == old(inputBuffer.buffer)
      ensures outputBuffer.buffer == old(outputBuffer.buffer) || fresh(outputBuffer.buffer)
    {
      hide Buffer.Contents, Channel.Ready;
      SetState(M.Disconnected);
      DisableAll();
      ConnectionCallback(calls);
      CloseCallback();
    }

    /** `closeCallback_`; what the server does about it is `Servers.TcpServer.RemoveConnection`. */
    method CloseCallback()
      requires Valid()
      modifies `closes
      ensures Valid() && View() == old(View()).(closes := old(closes) + 1)
    {
      closes := closes + 1;
    }

    /** `readv` delivers at most what the buffer and its overflow area hold; `got` is what it did. */
    method HandleRead(arrival: Arrival, calls: seq<M.Call>) returns (got: Arrival)
      requires Valid()
      modifies this, channel, channel.poller`channels, channel.poller.epoll
      modifies inputBuffer, inputBuffer.buffer, outputBuffer, outputBuffer.buffer
      ensures Valid() && View() == M.HandleRead(old(View()), got, calls)
      ensures got == Delivered(arrival, old(inputBuffer.Shape()))
      ensures Read(arrival, got)
      ensures arrival.Data? && arrival.bytes != [] ==>
                closes == old(closes) && received == old(received) + got.bytes && got.bytes != []
      ensures OthersKept(old(channel.poller.channels), old(channel.poller.epoll.interest))
      ensures inputBuffer.buffer == old(inputBuffer.buffer) || fresh(inputBuffer.buffer)
      ensures outputBuffer.buffer == old(outputBuffer.buffer) || fresh(outputBuffer.buffer)
    {
      ghost var before := View();
      var n;
      n, got := Receive(arrival);
      if n > 0 {
        E.ReadReads(before, got, calls);
        RunCallback(calls);
      } else if n == 0 {
        HandleClose(calls);
      }
    }

    method Receive(arrival: Arrival) returns (n: int, got: Arrival)
      requires Valid()
      modifies `received, inputBuffer, inputBuffer.buffer
      ensures Valid() && got == Delivered(arrival, old(inputBuffer.Shape()))
      ensures n == (match got case Data(bytes) => |bytes| case EndOfStream => 0 case ReadError => -1)
      ensures Read(arrival, got)
      ensures View() == if got.Data? then old(View()).(input := old(View()).input + got.bytes,
                                                       received := old(View()).received + got.bytes)
                        else old(View())
      ensures n == 0 ==> View() == old(View())
      ensures inputBuffer.buffer == old(inputBuffer.buffer) || fresh(inputBuffer.buffer)
    {
      hide Channel.Ready, Run;
      n := inputBuffer.ReadFd(arrival);
      got := if arrival.Data? then Data(arrival.bytes[..n]) else arrival;
      if got.Data? {
        received := received + got.bytes;
      }
      assert n == 0 ==> received == old(received) && inputBuffer.Contents() == old(inputBuffer.Contents());
    }

    /** `Channel::handleEventWithGuard` with the four callbacks the constructor bound. */
    method HandleEvent(revents: Revents, env: M.Env) returns (got: Arrival)
      requires Valid()
      modifies this, channel, channel.poller`channels, channel.poller.epoll
      modifies inputBuffer, inputBuffer.buffer, outputBuffer, outputBuffer.buffer
      ensures Valid() && View() == M.HandleEvent(old(View()), revents, env.(arrival := got))
      ensures Read(env.arrival, got)
      ensures OthersKept(old(channel.poller.channels), old(channel.poller.epoll.interest))
      ensures inputBuffer.buffer == old(inputBuffer.buffer) || fresh(inputBuffer.buffer)
      ensures outputBuffer.buffer == old(outputBuffer.buffer) || fresh(outputBuffer.buffer)
    {
      got := env.arrival;
      if revents.epollhup && !revents.epollin {
        HandleClose(env.closeCalls);
      }
      if revents.epollin || revents.epollpri {
        got := HandleRead(env.arrival, env.readCalls);
      }
      if revents.epollout {
        HandleWrite(env.w);
      }
    }

    method ConnectEstablished(calls: seq<M.Call>)
      requires Valid() && state == M.Connecting
      modifies this, channel, channel.poller`channels, channel.poller.epoll
      modifies inputBuffer, outputBuffer, outputBuffer.buffer
      ensures Valid() && View() == M.ConnectEstablished(old(View()), calls)
      ensures OthersKept(old(channel.poller.channels), old(channel.poller.epoll.interest))
      ensures inputBuffer.buffer == old(inputBuffer.buffer)
      ensures outputBuffer.buffer == old(outputBuffer.buffer) || fresh(outputBuffer.buffer)
    {
      hide Channel.Ready, M.Enqueue;
      Register();
      ConnectionCallback(calls);
    }

    method Register()
      requires Valid()
      modifies `state, channel, channel.poller`channels, channel.poller.epoll
      ensures Valid() && View() == M.EnableReading(old(View()).(state := M.Connected, tied := true))
      ensures OthersKept(old(channel.poller.channels), old(channel.poller.epoll.interest))
    {
      SetState(M.Connected);
      Tie();
      EnableReading();
    }

    method ConnectDestroyed(calls: seq<M.Call>)
      requires Valid() && channel.index != New
      modifies this, channel, channel.poller`channels, channel.poller.epoll
      modifies inputBuffer, outputBuffer, outputBuffer.buffer
      ensures Valid() && View() == M.ConnectDestroyed(old(View()), calls)
      ensures OthersKept(old(channel.poller.channels), old(channel.poller.epoll.interest))
      ensures inputBuffer.buffer == old(inputBuffer.buffer)
      ensures outputBuffer.buffer == old(outputBuffer.buffer) || fresh(outputBuffer.buffer)
    {
      hide Buffer.Contents, Channel.Ready;
      if state == M.Connected {
        SetState(M.Disconnected);
        DisableAll();
        M.CallsStayRegistered(View().(downs := downs + 1), calls);
        ConnectionCallback(calls);
      }
      RemoveChannel();
    }

    method RemoveChannel()
      requires Valid() && channel.index != New
      modifies channel, channel.poller`channels, channel.poller.epoll
      ensures Valid() && View() == M.RemoveChannel(old(View()))
      ensures OthersKept(old(channel.poller.channels), old(channel.poller.epoll.interest))
    {
      channel.Remove();
    }

    /** However long a connection lives, the array behind each of its buffers stays within the larger
        of the default size and the most that was ever readable plus the longest append plus 7. */
    lemma BuffersStayWithin(peak: nat, longest: nat)
      requires Valid()
      ensures Bounded(START, outputBuffer.history, peak, longest) ==>
                || outputBuffer.buffer.Length <= START.size
                || outputBuffer.buffer.Length <= peak + longest + CHEAP_PREPEND - 1
      ensures Bounded(START, inputBuffer.history, peak, longest) ==>
                || inputBuffer.buffer.Length <= START.size
                || inputBuffer.buffer.Length <= peak + longest + CHEAP_PREPEND - 1
    {
      if Bounded(START, outputBuffer.history, peak, longest) {
        outputBuffer.StaysWithin(peak, longest);
      }
      if Bounded(START, inputBuffer.history, peak, longest) {
        inputBuffer.StaysWithin(peak, longest);
      }
    }
  }

  /** What one read makes of what has arrived: its beginning, all of it up to 64 KiB, and never the end
      of the stream instead of data. */
  predicate Read(arrival: Arrival, got: Arrival) {
    if arrival.Data? then got.Data? && got.bytes <= arrival.bytes && |got.bytes| >= Min(|arrival.bytes|, 65536)
    else got == arrival
  }

  function Delivered(arrival: Arrival, shape: Layout): Arrival
    requires shape.Valid()
  {
    if arrival.Data? then Data(arrival.bytes[..Min(|arrival.bytes|, shape.ReadLimit())]) else arrival
  }
}
