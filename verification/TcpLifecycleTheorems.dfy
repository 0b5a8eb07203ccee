/** What the connection protocol promises over whole runs, when it fails, and the server object that
    follows it. */
module TcpLifecycleTheorems {
  import opened TcpLifecycle

  /** A step of a run in which every call sets the state before the connection it tested is closed.
      Calls on the connection's own loop always do (`OwnCallIsFresh`). */
  ghost predicate StepOk(ss: seq<State>, acts: seq<Action>, i: nat)
    requires |ss| == |acts| + 1 && i < |acts|
  {
    Shape(ss[i]) && Enabled(ss[i], acts[i]) && Fresh(ss[i], acts[i]) && ss[i + 1] == Apply(ss[i], acts[i])
  }

  ghost predicate IsRun(ss: seq<State>, acts: seq<Action>) {
    |ss| == |acts| + 1 && forall i {:trigger StepOk(ss, acts, i)} :: 0 <= i < |acts| ==> StepOk(ss, acts, i)
  }

  /** Some run leads from `s` to `s'`. */
  ghost predicate Continues(s: State, s': State) {
    exists ss, acts :: IsRun(ss, acts) && ss[0] == s && ss[|acts|] == s'
  }

  ghost predicate Reachable(s: State) { exists ioLoops :: Continues(Init(ioLoops), s) }

  lemma {:induction false} RunInv(ss: seq<State>, acts: seq<Action>, n: nat)
    requires IsRun(ss, acts) && n <= |acts| && Inv(ss[0]) && ChecksOk(ss[0])
    ensures Inv(ss[n]) && ChecksOk(ss[n])
  {
    if n > 0 {
      RunInv(ss, acts, n - 1);
      assert StepOk(ss, acts, n - 1);
      StepInv(ss[n - 1], acts[n - 1]);
      StepChecks(ss[n - 1], acts[n - 1]);
    }
  }

  lemma ContinuesInv(s: State, s': State)
    requires Continues(s, s') && Inv(s) && ChecksOk(s)
    ensures Inv(s') && ChecksOk(s')
  {
    var ss, acts :| IsRun(ss, acts) && ss[0] == s && ss[|acts|] == s';
    RunInv(ss, acts, |acts|);
  }

  lemma ReachableInv(s: State)
    requires Reachable(s)
    ensures Inv(s) && ChecksOk(s)
  {
    var ioLoops :| Continues(Init(ioLoops), s);
    InitInv(ioLoops);
    ContinuesInv(Init(ioLoops), s);
  }

  lemma ContinuesSelf(s: State)
    ensures Continues(s, s)
  {
    assert IsRun([s], []);
  }

  lemma ContinuesStep(s: State, s': State, a: Action)
    requires Continues(s, s') && Shape(s') && Enabled(s', a) && Fresh(s', a)
    ensures Continues(s, Apply(s', a))
  {
    var ss, acts :| IsRun(ss, acts) && ss[0] == s && ss[|acts|] == s';
    var ss', acts' := ss + [Apply(s', a)], acts + [a];
    forall i | 0 <= i < |acts'| ensures StepOk(ss', acts', i) {
      if i < |acts| { assert StepOk(ss, acts, i); }
    }
    assert IsRun(ss', acts');
  }

  lemma InitReachable(ioLoops: nat)
    ensures Reachable(Init(ioLoops))
  {
    ContinuesSelf(Init(ioLoops));
  }

  lemma ReachableStep(s: State, a: Action)
    requires Reachable(s) && Shape(s) && Enabled(s, a) && Fresh(s, a)
    ensures Reachable(Apply(s, a))
  {
    var ioLoops :| Continues(Init(ioLoops), s);
    ContinuesStep(Init(ioLoops), s, a);
  }

  /** In every interleaving in which calls from other threads set the state in time, no assertion of the
      code fails: `connectEstablished` finds the connection connecting, `handleClose` finds it open, the
      erase finds exactly one entry, `Channel::remove` finds no event enabled, and the destructor finds
      the connection disconnected. */
  lemma NoAssertionFails(s: State, a: Action)
    requires Reachable(s) && Shape(s) && Enabled(s, a)
    ensures Safe(s, a)
  {
    ReachableInv(s);
    InvSafe(s, a);
  }

  /** The user sees one "up", and at most one "down", after it; the connection is destroyed at most
      once, after it has gone down and left the map. */
  lemma OneUpOneDown(s: State, c: nat)
    requires Reachable(s) && c < |s.conns|
    ensures s.conns[c].downs <= s.conns[c].ups <= 1 && s.conns[c].destroyed <= s.conns[c].downs
    ensures s.conns[c].ups == 0 <==> s.conns[c].state == Connecting
    ensures s.conns[c].downs == 1 <==> s.conns[c].state == Disconnected
    ensures s.conns[c].destroyed == 1 ==> Name(c) !in s.registry
    ensures s.conns[c].listening <==> s.conns[c].Open()
  {
    ReachableInv(s);
    assert ConnOk(s, c);
  }

  /** The removal functor erases exactly one entry, this connection's own. */
  lemma EraseFindsOne(s: State, l: nat)
    requires Reachable(s) && Shape(s) && Enabled(s, RunTask(l)) && s.queues[l][0].Remove?
    ensures var name, s' := Name(s.queues[l][0].c), Apply(s, RunTask(l));
            && name in s.registry && s.registry[name] == s.queues[l][0].c
            && |s'.registry| == |s.registry| - 1 && name !in s'.registry
  {
    ReachableInv(s);
    InvSafe(s, RunTask(l));
    var name, s' := Name(s.queues[l][0].c), Apply(s, RunTask(l));
    assert s'.registry.Keys == s.registry.Keys - {name};
    KeysCount(s.registry);
    KeysCount(s'.registry);
  }

  lemma KeysCount(m: map<string, nat>)
    ensures |m| == |m.Keys|
    decreases |m|
  {
    if m.Keys != {} {
      var k :| k in m.Keys;
      var m' := m - {k};
      assert m'.Keys == m.Keys - {k};
    }
  }

  /** `connectDestroyed` runs once, when the connection is already down and forgotten, so that its
      branch for a connection still connected is never taken. */
  lemma DestroyedLast(s: State, l: nat)
    requires Reachable(s) && Shape(s) && Enabled(s, RunTask(l)) && s.queues[l][0].Destroy?
    ensures var c := s.queues[l][0].c;
            && c < |s.conns| && l == s.conns[c].loop && s.conns[c].state == Disconnected && s.conns[c].destroyed == 0
            && Name(c) !in s.registry && Apply(s, RunTask(l)).conns[c] == s.conns[c].(destroyed := 1)
  {
    ReachableInv(s);
    var t := s.queues[l][0];
    assert t in s.queues[l] && Count(s, t) > 0 && ConnOk(s, t.c);
  }

  /** Nothing is forgotten: when no functor is queued, the map holds exactly the open connections and
      every other connection has been destroyed. */
  lemma NothingLeftBehind(s: State)
    requires Reachable(s) && forall l :: 0 <= l < |s.queues| ==> s.queues[l] == []
    ensures forall c :: 0 <= c < |s.conns| ==> s.conns[c].Open() || (s.conns[c].state == Disconnected && s.conns[c].destroyed == 1)
    ensures forall name :: name in s.registry <==> exists c: nat :: c < |s.conns| && s.conns[c].Open() && Name(c) == name
  {
    ReachableInv(s);
    forall c | 0 <= c < |s.conns| ensures s.conns[c].Open() || (s.conns[c].state == Disconnected && s.conns[c].destroyed == 1) {
      assert ConnOk(s, c);
      assert Count(s, Establish(c)) == 0 && Count(s, Remove(c)) == 0 && Count(s, Destroy(c)) == 0;
    }
    forall name ensures name in s.registry <==> exists c: nat :: c < |s.conns| && s.conns[c].Open() && Name(c) == name {
      if name in s.registry {
        var c := s.registry[name];
        assert ConnOk(s, c) && Count(s, Remove(c)) == 0;
      }
      if c: nat :| c < |s.conns| && s.conns[c].Open() && Name(c) == name {
        assert ConnOk(s, c);
      }
    }
  }

  /** Connections are dealt to the io loops in turn. */
  lemma DealtInTurn(s: State, c: nat)
    requires Reachable(s) && c < |s.conns|
    ensures s.conns[c].loop == if s.ioLoops == 0 then 0 else 1 + c % s.ioLoops
  {
    ReachableInv(s);
  }

  // ---------------------------------------------------------------- the server

  /** TcpServer, its connections and the loops' queues, updated in place. */
  class TcpServer {
    const ioLoops: nat
    var next: nat
    var nextConnId: nat
    var conns: seq<Conn>
    var connections: map<string, nat>
    var queues: seq<seq<Task>>
    ghost var delayed: multiset<nat>
    ghost var checked: map<nat, (nat, Call)>

    ghost function View(): State
      reads this
    {
      State(ioLoops, next, conns, connections, queues, delayed, checked)
    }

    ghost predicate Valid()
      reads this
    {
      Inv(View()) && nextConnId == |conns| + 1
    }

    constructor (numThreads: nat)
      ensures Valid() && View() == Init(numThreads)
    {
      ioLoops, next, nextConnId := numThreads, 0, 1;
      conns, connections, queues := [], map[], seq(numThreads + 1, _ => []);
      delayed, checked := multiset{}, map[];
      new;
      InitInv(numThreads);
    }

    /** Lines 105-117. */
    method GetNextLoop() returns (loop: nat)
      requires Shape(View())
      modifies this`next
      ensures (loop, next) == NextLoop(old(View()))
    {
      loop := 0;
      if ioLoops != 0 {
        loop := 1 + next;
        next := next + 1;
        if next >= ioLoops {
          next := 0;
        }
      }
    }

    /** Lines 155-178. */
    method NewConnection() returns (connName: string)
      requires Valid() && LoopFree(View(), 0)
      modifies this
      ensures Valid() && View() == Apply(old(View()), Accept)
      ensures connName !in old(connections) && connections == old(connections)[connName := old(|conns|)]
      ensures conns[|conns| - 1].loop == if ioLoops == 0 then 0 else 1 + old(|conns|) % ioLoops
    {
      AcceptInv(View());
      InvSafe(View(), Accept);
      connName := "#" + Decimal(nextConnId);
      nextConnId := nextConnId + 1;
      var ioLoop := GetNextLoop();
      var conn := |conns|;
      conns := conns + [Conn(ioLoop, Connecting, false, 0, 0, 0, false)];
      connections := connections[connName := conn];
      if ioLoop == 0 {
        ConnectEstablished(conn);
      } else {
        queues := queues[ioLoop := queues[ioLoop] + [Establish(conn)]];
      }
    }

    /** Lines 195-202 of net/TcpConnection.cpp. */
    method ConnectEstablished(conn: nat)
      requires conn < |conns| && conns[conn].state == Connecting
      modifies this`conns
      ensures View() == Established(old(View()), conn)
    {
      conns := conns[conn := conns[conn].(state := Connected, listening := true, ups := conns[conn].ups + 1)];
    }

    /** Lines 258-267 of net/TcpConnection.cpp, and lines 180-182. */
    method HandleClose(conn: nat)
      requires conn < |conns| && conns[conn].Open() && conns[conn].loop < |queues|
      requires conns[conn].loop == 0 ==> Name(conn) in connections
      modifies this`conns, this`connections, this`queues
      ensures View() == Closed(old(View()), conn)
    {
      conns := conns[conn := conns[conn].(state := Disconnected, listening := false, downs := conns[conn].downs + 1)];
      if conns[conn].loop == 0 {
        RemoveConnectionInLoop(conn);
      } else {
        queues := queues[0 := queues[0] + [Remove(conn)]];
      }
    }

    /** Lines 184-194; the erased count is the assertion's 1. */
    method RemoveConnectionInLoop(conn: nat)
      requires conn < |conns| && conns[conn].loop < |queues| && Name(conn) in connections
      modifies this`connections, this`queues
      ensures View() == Removed(old(View()), conn)
    {
      connections := connections - {Name(conn)};
      queues := queues[conns[conn].loop := queues[conns[conn].loop] + [Destroy(conn)]];
    }

    /** Lines 204-211 of net/TcpConnection.cpp. */
    method ConnectDestroyed(conn: nat)
      requires conn < |conns| && (!conns[conn].listening || conns[conn].state == Connected)
      modifies this`conns
      ensures View() == Destroyed(old(View()), conn) && !conns[conn].listening
    {
      var d := conns[conn];
      if d.state == Connected {
        d := d.(state := Disconnected, listening := false, downs := d.downs + 1);
      }
      conns := conns[conn := d.(destroyed := d.destroyed + 1)];
    }

    /** Lines 148-155 of net/TcpConnection.cpp, called on the connection's own loop. */
    method ForceClose(conn: nat)
      requires Valid() && conn < |conns| && Enabled(View(), Check(conns[conn].loop, conn, Force))
      modifies this`conns, this`queues
      ensures Valid()
      ensures var s1 := Apply(old(View()), Check(old(conns)[conn].loop, conn, Force));
              View() == if old(conns)[conn].Open() then Ending(old(View()), conn, Force) else s1
    {
      if conns[conn].state == Connected || conns[conn].state == Disconnecting {
        EndingInv(View(), View(), conn, Force);
        conns := conns[conn := conns[conn].(state := Disconnecting)];
        queues := queues[conns[conn].loop := queues[conns[conn].loop] + [ForceCloseInLoop(conn)]];
      }
    }

    /** A loop runs its oldest functor. */
    method RunTask(l: nat)
      requires Valid() && Enabled(View(), TcpLifecycle.RunTask(l))
      modifies this
      ensures Valid() && View() == Apply(old(View()), TcpLifecycle.RunTask(l))
    {
      InvSafe(View(), TcpLifecycle.RunTask(l));
      StepInv(View(), TcpLifecycle.RunTask(l));
      var t := queues[l][0];
      queues := queues[l := queues[l][1..]];
      match t
      case Establish(c) => ConnectEstablished(c);
      case Remove(c) => RemoveConnectionInLoop(c);
      case Destroy(c) => ConnectDestroyed(c);
      case ForceCloseInLoop(c) =>
        if conns[c].state == Connected || conns[c].state == Disconnecting {
          HandleClose(c);
        }
    }
  }
}
