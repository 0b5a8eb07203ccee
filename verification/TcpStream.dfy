/** The sending side of a connection, net/TcpConnection.cpp: bytes are written at once, or kept in the
    output buffer and written as the socket accepts them, whatever the socket answers. */
module TcpStream {
  import opened Buffers

  datatype ConnState = Connecting | Connected | Disconnecting | Disconnected

  /** What `write` answers: a count, EWOULDBLOCK, EPIPE or ECONNRESET, or another error. */
  datatype WriteResult = Wrote(n: nat) | WouldBlock | Fault | Failed

  /** Callbacks queued on the loop. */
  datatype Notice = WriteComplete | HighWater(size: nat)

  /** `wire` is what the socket has taken; `asked` and `swept` record that `shutdown` was called and
      that `shutdownInLoop` has run. */
  datatype Conn = Conn(
    state: ConnState,
    writing: bool,
    output: seq<byte>,
    wire: seq<byte>,
    halfClosed: bool,
    notices: seq<Notice>,
    asked: bool,
    swept: bool)

  /** Set by the user before the connection is established. */
  datatype Setup = Setup(highWaterMark: nat, onComplete: bool, onHighWater: bool)

  datatype Action =
    | Send(data: seq<byte>, r: WriteResult)
    | Writable(r: WriteResult)
    | Shutdown
    | ShutdownInLoop
    | ForceClose
    | Close

  function Init(): Conn { Conn(Connected, false, [], [], false, [], false, false) }

  /** `sendInLoop` tries the socket first when nothing is waiting, line 92. */
  predicate Tries(c: Conn) { c.state != Disconnected && !c.writing && c.output == [] }

  predicate Possible(c: Conn, r: WriteResult, len: nat) {
    (r.Wrote? ==> r.n <= len) && (c.halfClosed ==> r.Fault?)
  }

  /** Only what the environment guarantees: counts are in range, and a socket shut down for writing
      answers EPIPE. */
  predicate Enabled(c: Conn, a: Action) {
    match a
    case Send(data, r) => Tries(c) ==> Possible(c, r, |data|)
    case Writable(r) => c.writing ==> Possible(c, r, |c.output|)
    case Shutdown => true
    case ShutdownInLoop => c.asked
    case ForceClose => true
    case Close => c.state == Connected || c.state == Disconnecting
  }

  function Count(r: WriteResult): nat { if r.Wrote? then r.n else 0 }

  function Notified(u: Setup, oldLen: nat, remaining: nat): seq<Notice> {
    if oldLen + remaining >= u.highWaterMark && oldLen < u.highWaterMark && u.onHighWater then [HighWater(oldLen + remaining)] else []
  }

  /** Lines 81-128. */
  function Sent(u: Setup, c: Conn, data: seq<byte>, r: WriteResult): Conn
    requires Enabled(c, Send(data, r))
  {
    if c.state == Disconnected then c
    else if Tries(c) then
      var n := Count(r);
      var c1 := c.(wire := c.wire + data[..n],
                   notices := c.notices + if r.Wrote? && n == |data| && u.onComplete then [WriteComplete] else []);
      if r.Fault? || n == |data| then c1 else Kept(u, c1, data[n..])
    else if data == [] then c
    else Kept(u, c, data)
  }

  /** Lines 115-126. */
  function Kept(u: Setup, c: Conn, rest: seq<byte>): Conn {
    c.(notices := c.notices + Notified(u, |c.output|, |rest|), output := c.output + rest, writing := true)
  }

  /** Lines 141-146. */
  function HalfClosed(c: Conn): Conn { if c.writing then c else c.(halfClosed := true) }

  /** Lines 229-256. */
  function Written(u: Setup, c: Conn, r: WriteResult): Conn
    requires Enabled(c, Writable(r))
  {
    var n := Count(r);
    if !c.writing || n == 0 then c
    else
      var c1 := c.(wire := c.wire + c.output[..n], output := c.output[n..]);
      if c1.output != [] then c1
      else
        var c2 := c1.(writing := false, notices := c.notices + if u.onComplete then [WriteComplete] else []);
        if c.state == Disconnecting then HalfClosed(c2) else c2
  }

  function Apply(u: Setup, c: Conn, a: Action): Conn
    requires Enabled(c, a)
  {
    match a
    case Send(data, r) => Sent(u, c, data, r)
    case Writable(r) => Written(u, c, r)
    case Shutdown => if c.state == Connected then c.(state := Disconnecting, asked := true) else c
    case ShutdownInLoop => HalfClosed(c).(swept := true)
    case ForceClose => if c.state == Connected || c.state == Disconnecting then c.(state := Disconnecting) else c
    case Close => c.(state := Disconnected, writing := false)
  }

  ghost predicate StepOk(u: Setup, cs: seq<Conn>, acts: seq<Action>, i: nat)
    requires |cs| == |acts| + 1 && i < |acts|
  {
    Enabled(cs[i], acts[i]) && cs[i + 1] == Apply(u, cs[i], acts[i])
  }

  ghost predicate IsRun(u: Setup, cs: seq<Conn>, acts: seq<Action>) {
    && |cs| == |acts| + 1 && cs[0] == Init()
    && forall i {:trigger StepOk(u, cs, acts, i)} :: 0 <= i < |acts| ==> StepOk(u, cs, acts, i)
  }

  // ---------------------------------------------------------------- what a run promises

  /** The bytes a step takes on: the whole message, unless the connection is closed or the socket
      answers the first write with a fault. */
  function Taken(c: Conn, a: Action): seq<byte> {
    if a.Send? && c.state != Disconnected && !(Tries(c) && a.r.Fault?) then a.data else []
  }

  /** The accepted messages of the first `n` steps, one after the other. */
  ghost function Accepted(cs: seq<Conn>, acts: seq<Action>, n: nat): seq<byte>
    requires n <= |acts| < |cs|
  {
    if n == 0 then [] else Accepted(cs, acts, n - 1) + Taken(cs[n - 1], acts[n - 1])
  }

  ghost predicate Inv(c: Conn) {
    && (c.state != Disconnected ==> (c.writing <==> c.output != []))
    && (c.state == Disconnected ==> !c.writing)
    && (c.halfClosed && c.state != Disconnected ==> c.output == [])
    && (c.asked ==> c.state == Disconnecting || c.state == Disconnected)
    && (c.swept ==> c.asked)
    && (c.swept && c.state == Disconnecting ==> c.halfClosed || c.output != [])
    && c.state != Connecting
  }

  lemma StepInv(u: Setup, c: Conn, a: Action)
    requires Inv(c) && Enabled(c, a)
    ensures Inv(Apply(u, c, a))
  {
  }

  lemma Split(data: seq<byte>, n: nat)
    requires n <= |data|
    ensures data[..n] + data[n..] == data
  {
  }

  lemma SentStream(u: Setup, c: Conn, data: seq<byte>, r: WriteResult)
    requires Inv(c) && Enabled(c, Send(data, r))
    ensures var c' := Sent(u, c, data, r);
            c'.wire + c'.output == c.wire + c.output + Taken(c, Send(data, r)) && c.wire <= c'.wire
  {
    var c', n := Sent(u, c, data, r), Count(r);
    var taken := Taken(c, Send(data, r));
    if !Tries(c) {
      assert c'.wire == c.wire && c'.output == c.output + taken;
      Regroup(c.wire, c.output, taken);
    } else if r.Fault? {
      assert taken == [] && c'.wire == c.wire + data[..0] == c.wire && c'.output == c.output;
    } else {
      assert taken == data && c'.wire == c.wire + data[..n] && c'.output == data[n..];
      Split(data, n);
      Regroup(c.wire, data[..n], data[n..]);
      assert c.wire + c.output == c.wire;
    }
  }

  lemma Regroup(a: seq<byte>, b: seq<byte>, c: seq<byte>)
    ensures a + (b + c) == a + b + c
  {
  }

  lemma WrittenStream(u: Setup, c: Conn, r: WriteResult)
    requires Enabled(c, Writable(r))
    ensures var c' := Written(u, c, r);
            c'.wire + c'.output == c.wire + c.output && c.wire <= c'.wire
  {
    if c.writing {
      Split(c.output, Count(r));
    }
  }

  /** Each step keeps the invariant, moves bytes between buffer and wire in order, and adds exactly
      the message it took on. */
  lemma StepKeepsStream(u: Setup, c: Conn, a: Action)
    requires Inv(c) && Enabled(c, a)
    ensures Inv(Apply(u, c, a))
    ensures Apply(u, c, a).wire + Apply(u, c, a).output == c.wire + c.output + Taken(c, a)
    ensures c.wire <= Apply(u, c, a).wire
  {
    StepInv(u, c, a);
    match a
    case Send(data, r) => SentStream(u, c, data, r);
    case Writable(r) => WrittenStream(u, c, r);
    case Shutdown =>
    case ShutdownInLoop =>
    case ForceClose =>
    case Close =>
  }

  lemma {:induction false} RunStream(u: Setup, cs: seq<Conn>, acts: seq<Action>, n: nat)
    requires IsRun(u, cs, acts) && n <= |acts|
    ensures Inv(cs[n]) && cs[n].wire + cs[n].output == Accepted(cs, acts, n)
  {
    if n > 0 {
      RunStream(u, cs, acts, n - 1);
      assert StepOk(u, cs, acts, n - 1);
      StepKeepsStream(u, cs[n - 1], acts[n - 1]);
    }
  }

  /** Stream preservation: in every run, whatever the socket answers, the bytes on the wire followed by
      the output buffer are the accepted messages in order, and until the connection is closed write
      interest is on exactly when bytes are waiting. */
  lemma StreamPreserved(u: Setup, cs: seq<Conn>, acts: seq<Action>, n: nat)
    requires IsRun(u, cs, acts) && n <= |acts|
    ensures cs[n].wire + cs[n].output == Accepted(cs, acts, n)
    ensures cs[n].state != Disconnected ==> (cs[n].writing <==> cs[n].output != [])
  {
    RunStream(u, cs, acts, n);
  }

  /** The wire grows by exactly the bytes that the socket says it took, from the front of the message when
      nothing was waiting and the loop is not already waiting to write, from the front of the buffer when it
      is; no other step adds a byte. */
  lemma WireGrowsByAnswer(u: Setup, c: Conn, a: Action)
    requires Inv(c) && Enabled(c, a)
    ensures Apply(u, c, a).wire == c.wire +
              if a.Send? && c.state != Disconnected && !c.writing && c.output == [] && a.r.Wrote? then a.data[..a.r.n]
              else if a.Writable? && c.writing && a.r.Wrote? then c.output[..a.r.n]
              else []
    ensures a.Writable? ==> Apply(u, c, a).output == if c.writing && a.r.Wrote? then c.output[a.r.n..] else c.output
  {
  }

  /** When the socket takes all that is waiting, the buffer is empty, write interest is off, and a shutdown
      that waited for this takes place. */
  lemma LastWriteDrains(u: Setup, c: Conn, a: Action)
    requires Inv(c) && Enabled(c, a) && c.writing && a == Writable(Wrote(|c.output|))
    ensures var c' := Apply(u, c, a);
            && c'.output == [] && !c'.writing && c'.wire == c.wire + c.output && c'.state == c.state
            && (c'.halfClosed <==> c.state == Disconnecting)
  {
  }

  /** `shutdown` of a connected connection turns it to disconnecting, and its `shutdownInLoop`, whenever it
      runs before the connection is closed, half-closes the socket at once if nothing waits to be written,
      and otherwise leaves that to the last write. */
  lemma ShutdownTakesEffect(u: Setup, cs: seq<Conn>, acts: seq<Action>, i: nat, n: nat)
    requires IsRun(u, cs, acts) && i < n < |acts| && acts[i] == Shutdown && cs[i].state == Connected
    requires acts[n] == ShutdownInLoop && cs[n].state != Disconnected
    ensures cs[i + 1].state == Disconnecting && cs[n + 1].state == Disconnecting
    ensures cs[n + 1].halfClosed <==> cs[n].output == []
    ensures cs[n + 1].output != [] ==> cs[n + 1].writing
  {
    RunStream(u, cs, acts, i);
    assert StepOk(u, cs, acts, i) && StepOk(u, cs, acts, n);
    RunStream(u, cs, acts, n);
    RunStream(u, cs, acts, n + 1);
    AskedStays(u, cs, acts, i + 1, n);
  }

  lemma {:induction false} AskedStays(u: Setup, cs: seq<Conn>, acts: seq<Action>, i: nat, n: nat)
    requires IsRun(u, cs, acts) && i <= n <= |acts| && cs[i].asked
    ensures cs[n].asked
  {
    if i < n {
      AskedStays(u, cs, acts, i, n - 1);
      assert StepOk(u, cs, acts, n - 1);
    }
  }

  /** Step `i` writes, and the socket takes at least one byte. */
  ghost predicate Accepts(acts: seq<Action>, i: nat)
    requires i < |acts|
  {
    acts[i].Writable? && acts[i].r.Wrote? && acts[i].r.n > 0
  }

  lemma {:induction false} DrainingSoFar(u: Setup, cs: seq<Conn>, acts: seq<Action>, i: nat, m: nat, n: nat)
    requires IsRun(u, cs, acts) && i <= m <= n <= |acts| && cs[i].writing
    requires forall k :: i <= k < n ==> Accepts(acts, k)
    ensures Inv(cs[m]) && cs[m].state == cs[i].state && (|cs[m].output| + (m - i) <= |cs[i].output| || cs[m].output == [])
    ensures cs[m].wire + cs[m].output == cs[i].wire + cs[i].output
    ensures cs[m].output == [] ==> (cs[m].halfClosed <==> cs[m].state == Disconnecting)
  {
    RunStream(u, cs, acts, i);
    if i < m {
      DrainingSoFar(u, cs, acts, i, m - 1, n);
      assert StepOk(u, cs, acts, m - 1) && Accepts(acts, m - 1);
      StepKeepsStream(u, cs[m - 1], acts[m - 1]);
    }
  }

  /** The buffer drains: if from step `i` on the loop only writes and the socket takes at least one byte each
      time, then after as many steps as there are bytes waiting all of them are on the wire, write interest
      is off, and the half-close has happened if and only if a shutdown was waiting. */
  lemma AcceptingSocketDrains(u: Setup, cs: seq<Conn>, acts: seq<Action>, i: nat, n: nat)
    requires IsRun(u, cs, acts) && i <= n <= |acts| && cs[i].writing && n - i >= |cs[i].output|
    requires forall k :: i <= k < n ==> Accepts(acts, k)
    ensures cs[n].output == [] && !cs[n].writing && cs[n].wire == cs[i].wire + cs[i].output == Accepted(cs, acts, n)
    ensures cs[n].halfClosed <==> cs[i].state == Disconnecting
  {
    DrainingSoFar(u, cs, acts, i, n, n);
    RunStream(u, cs, acts, n);
    assert cs[n].wire + [] == cs[n].wire;
  }

  /** A half-close, before the connection is closed, happens with every accepted byte on the wire; no
      byte follows it, and no message is accepted after it. */
  lemma {:induction false} HalfCloseIsLast(u: Setup, cs: seq<Conn>, acts: seq<Action>, m: nat, n: nat)
    requires IsRun(u, cs, acts) && m <= n <= |acts| && cs[m].halfClosed && cs[m].state != Disconnected
    ensures cs[n].halfClosed && cs[n].output == []
    ensures cs[n].wire == cs[m].wire == Accepted(cs, acts, m) == Accepted(cs, acts, n)
  {
    RunStream(u, cs, acts, m);
    if m < n {
      HalfCloseIsLast(u, cs, acts, m, n - 1);
      RunStream(u, cs, acts, n - 1);
      assert StepOk(u, cs, acts, n - 1);
      StepKeepsStream(u, cs[n - 1], acts[n - 1]);
    }
  }

  /** An orderly shutdown is not forgotten: once `shutdownInLoop` has run and the connection is not
      closed, the half-close has happened or bytes are still waiting with write interest on. */
  lemma ShutdownCompletes(u: Setup, cs: seq<Conn>, acts: seq<Action>, n: nat)
    requires IsRun(u, cs, acts) && n <= |acts| && cs[n].swept && cs[n].state != Disconnected
    ensures cs[n].halfClosed <==> cs[n].output == []
    ensures !cs[n].halfClosed ==> cs[n].writing
  {
    RunStream(u, cs, acts, n);
  }

  /** The high-water notice is queued exactly when a step lifts the buffered length over the mark. */
  lemma HighWaterOnCrossing(u: Setup, c: Conn, a: Action)
    requires Inv(c) && Enabled(c, a) && u.onHighWater
    ensures var c' := Apply(u, c, a);
            HighWater(|c'.output|) in c'.notices[|c.notices|..] <==> |c.output| < u.highWaterMark <= |c'.output|
    ensures c.notices <= Apply(u, c, a).notices
  {
  }

  /** The write-complete notice is queued exactly when a write leaves nothing waiting, and then every
      accepted byte is on the wire. */
  lemma CompleteWhenDrained(u: Setup, c: Conn, a: Action)
    requires Inv(c) && Enabled(c, a) && u.onComplete
    ensures var c' := Apply(u, c, a);
            WriteComplete in c'.notices[|c.notices|..]
            <==> c'.output == [] && ((a.Send? && Tries(c) && a.r.Wrote?) || (a.Writable? && c.writing))
    ensures var c' := Apply(u, c, a);
            WriteComplete in c'.notices[|c.notices|..] ==> c'.wire == c.wire + c.output + Taken(c, a)
  {
    StepKeepsStream(u, c, a);
  }

  /** Exactly when a half-close drops bytes: a step of any kind newly shuts the socket down with bytes
      waiting if and only if it is `shutdownInLoop` on a connection already closed, the state its
      guard does not look at, whose buffer is not empty. */
  lemma BytesDroppedIffClosed(u: Setup, c: Conn, a: Action)
    requires Inv(c) && Enabled(c, a)
    ensures !c.halfClosed && Apply(u, c, a).halfClosed && Apply(u, c, a).output != []
            <==> a == ShutdownInLoop && c.state == Disconnected && c.output != [] && !c.halfClosed
  {
    StepInv(u, c, a);
  }

  /** The same over runs: an accepted byte is missing from the wire at a half-close if and only if the
      half-close came from a `shutdownInLoop` after the connection was closed with bytes waiting. */
  lemma HalfCloseCompleteIffOpen(u: Setup, cs: seq<Conn>, acts: seq<Action>, n: nat)
    requires IsRun(u, cs, acts) && n < |acts| && !cs[n].halfClosed && cs[n + 1].halfClosed
    ensures cs[n + 1].wire == Accepted(cs, acts, n + 1) <==> !(cs[n].state == Disconnected && cs[n].output != [])
  {
    RunStream(u, cs, acts, n);
    RunStream(u, cs, acts, n + 1);
    assert StepOk(u, cs, acts, n);
    BytesDroppedIffClosed(u, cs[n], acts[n]);
    var w, o := cs[n + 1].wire, cs[n + 1].output;
    assert w + o == Accepted(cs, acts, n + 1);
    assert |w + o| == |w| + |o|;
    if o == [] { assert w + o == w; }
  }

  /** After `close` the buffer may still hold bytes; a `shutdownInLoop` that was queued before then shuts
      the socket down although they were never written. */
  lemma LateShutdownDropsBytes(u: Setup, b: byte)
    ensures exists cs: seq<Conn>, acts :: IsRun(u, cs, acts)
              && cs[|acts|].halfClosed && cs[|acts|].output == [b] && cs[|acts|].wire == []
  {
    var c0 := Init();
    var acts := [Send([b], WouldBlock), Shutdown, Close, ShutdownInLoop];
    var c1 := Apply(u, c0, acts[0]);
    var c2 := Apply(u, c1, acts[1]);
    var c3 := Apply(u, c2, acts[2]);
    var cs := [c0, c1, c2, c3, Apply(u, c3, acts[3])];
    assert StepOk(u, cs, acts, 0) && StepOk(u, cs, acts, 1) && StepOk(u, cs, acts, 2) && StepOk(u, cs, acts, 3);
    assert IsRun(u, cs, acts);
  }

  // ---------------------------------------------------------------- the object

  /** The fields of TcpConnection that sending touches; `wire` and the socket's half-close stand for
      the kernel's side. */
  class TcpConnection {
    var state: ConnState
    var writing: bool
    var halfClosed: bool
    var notices: seq<Notice>
    const outputBuffer: Buffer
    const setup: Setup
    ghost var wire: seq<byte>
    ghost var asked: bool
    ghost var swept: bool

    ghost predicate Valid()
      reads this, outputBuffer
    {
      outputBuffer.Valid() && Inv(View())
    }

    ghost function View(): Conn
      requires outputBuffer.Valid()
      reads this, outputBuffer
    {
      Conn(state, writing, outputBuffer.Contents(), wire, halfClosed, notices, asked, swept)
    }

    constructor (u: Setup)
      ensures Valid() && View() == Init() && fresh(outputBuffer) && setup == u
    {
      state, writing, halfClosed, notices := Connected, false, false, [];
      wire, asked, swept := [], false, false;
      setup := u;
      outputBuffer := new Buffer(INITIAL_SIZE);
    }

    /** Lines 81-128. */
    method SendInLoop(data: seq<byte>, r: WriteResult)
      requires Valid() && Enabled(View(), Send(data, r))
      modifies this, outputBuffer
      ensures Valid() && View() == Apply(setup, old(View()), Send(data, r))
      ensures wire == old(wire) +
                if old(state) != Disconnected && !old(writing) && old(outputBuffer.Contents()) == [] && r.Wrote?
                then data[..r.n] else []
    {
      WireGrowsByAnswer(setup, View(), Send(data, r));
      StepInv(setup, View(), Send(data, r));
      var nwrote, remaining, faultError := 0, |data|, false;
      if state == Disconnected {
        return;
      }
      if !writing && outputBuffer.writerIndex - outputBuffer.readerIndex == 0 {
        match r
        case Wrote(n) =>
          nwrote, remaining := n, |data| - n;
          wire := wire + data[..n];
          if remaining == 0 && setup.onComplete {
            notices := notices + [WriteComplete];
          }
        case WouldBlock =>
        case Failed =>
        case Fault => faultError := true;
      }
      if !faultError && remaining > 0 {
        Keep(data[nwrote..]);
      }
    }

    /** Lines 115-126. */
    method Keep(rest: seq<byte>)
      requires outputBuffer.Valid()
      modifies this`notices, this`writing, outputBuffer
      ensures outputBuffer.Valid() && View() == Kept(setup, old(View()), rest)
    {
      var oldLen := outputBuffer.writerIndex - outputBuffer.readerIndex;
      if oldLen + |rest| >= setup.highWaterMark && oldLen < setup.highWaterMark && setup.onHighWater {
        notices := notices + [HighWater(oldLen + |rest|)];
      }
      outputBuffer.Append(rest);
      if !writing {
        writing := true;
      }
    }

    /** Lines 229-256. */
    method HandleWrite(r: WriteResult)
      requires Valid() && Enabled(View(), Writable(r))
      modifies this, outputBuffer
      ensures Valid() && View() == Apply(setup, old(View()), Writable(r))
      ensures wire == old(wire) + if old(writing) && r.Wrote? then old(outputBuffer.Contents())[..r.n] else []
      ensures wire + outputBuffer.Contents() == old(wire + outputBuffer.Contents())
      ensures old(writing) && r == Wrote(|old(outputBuffer.Contents())|) ==>
                outputBuffer.Contents() == [] && !writing && (halfClosed <==> state == Disconnecting)
    {
      StepInv(setup, View(), Writable(r));
      WrittenStream(setup, View(), r);
      WireGrowsByAnswer(setup, View(), Writable(r));
      if writing && r == Wrote(|outputBuffer.Contents()|) { LastWriteDrains(setup, View(), Writable(r)); }
      if writing && r.Wrote? && r.n > 0 {
        wire := wire + outputBuffer.Contents()[..r.n];
        outputBuffer.Retrieve(r.n);
        if outputBuffer.writerIndex - outputBuffer.readerIndex == 0 {
          writing := false;
          if setup.onComplete {
            notices := notices + [WriteComplete];
          }
          if state == Disconnecting {
            ShutdownWrite();
          }
        }
      }
    }

    /** Lines 141-146. */
    method ShutdownWrite()
      modifies this`halfClosed
      ensures halfClosed == (old(halfClosed) || !writing)
    {
      if !writing {
        halfClosed := true;
      }
    }

    /** Lines 134-139, called on the loop thread: `runInLoop` runs the functor at once. */
    method ShutdownHere()
      requires Valid()
      modifies this
      ensures Valid()
      ensures old(state) != Connected ==> View() == old(View())
      ensures old(state) == Connected ==>
                View() == Apply(setup, Apply(setup, old(View()), Shutdown), ShutdownInLoop)
      ensures old(state) == Connected && outputBuffer.Contents() == [] ==> halfClosed
    {
      if state == Connected {
        StepInv(setup, View(), Shutdown);
        state, asked := Disconnecting, true;
        StepInv(setup, View(), ShutdownInLoop);
        swept := true;
        ShutdownWrite();
      }
    }

    /** Lines 260-262. */
    method HandleClose()
      requires Valid() && Enabled(View(), Close)
      modifies this
      ensures Valid() && View() == Apply(setup, old(View()), Close)
    {
      StepInv(setup, View(), Close);
      state := Disconnected;
      writing := false;
    }
  }
}
