/** The life of a connection across loops, net/TcpServer.cpp and net/TcpConnection.cpp: the base loop
    accepts and forgets connections, an io loop runs each of them, and both talk through queued
    functors. Loop 0 is the base loop. */
module TcpLifecycle {
  datatype ConnState = Connecting | Connected | Disconnecting | Disconnected

  /** A connection: its state, whether its channel listens to events, how often `connectDestroyed` has
      run, how often the user was told "up" and "down", and whether the object has been deleted. */
  datatype Conn = Conn(loop: nat, state: ConnState, listening: bool, destroyed: nat, ups: nat, downs: nat, deleted: bool) {
    predicate Open() { state == Connected || state == Disconnecting }
  }

  datatype Task = Establish(c: nat) | Remove(c: nat) | Destroy(c: nat) | ForceCloseInLoop(c: nat)

  /** The calls that test `state_` and then set it. */
  datatype Call = Shutdown | Force | ForceLater

  /** Connection `c` is the c-th accepted. `delayed` are the timers of `forceCloseWithDelay`;
      `checked` are the threads that have passed the test of `state_` in a call and have not set it
      yet. Thread `l` below the number of loops is loop l's own thread, calling on a connection of its
      loop; every other call comes from a thread with another number. */
  datatype State = State(
    ioLoops: nat,
    next: nat,
    conns: seq<Conn>,
    registry: map<string, nat>,
    queues: seq<seq<Task>>,
    delayed: multiset<nat>,
    checked: map<nat, (nat, Call)>)

  datatype Action =
    | Accept
    | RunTask(l: nat)
    | PeerClosed(c: nat)
    | DelayOver(c: nat)
    | Check(t: nat, c: nat, call: Call)
    | Set(t: nat)
    | Delete(c: nat)

  function Init(ioLoops: nat): State { State(ioLoops, 0, [], map[], seq(ioLoops + 1, _ => []), multiset{}, map[]) }

  // ---------------------------------------------------------------- names

  /** `%d` of a number that is not negative. */
  function Decimal(n: nat): (r: string)
    ensures |r| > 0 && forall i :: 0 <= i < |r| ==> '0' <= r[i] <= '9'
  {
    if n < 10 then [('0' as int + n) as char] else Decimal(n / 10) + [('0' as int + n % 10) as char]
  }

  lemma {:induction false} DecimalInjective(m: nat, n: nat)
    requires Decimal(m) == Decimal(n)
    ensures m == n
  {
    var a, b := Decimal(m), Decimal(n);
    assert a[|a| - 1] == b[|b| - 1];
    assert m % 10 == n % 10;
    if m >= 10 && n >= 10 {
      assert Decimal(m / 10) == a[..|a| - 1] == Decimal(n / 10);
      DecimalInjective(m / 10, n / 10);
    }
  }

  /** Lines 157-160 of net/TcpServer.cpp: `nextConnId_` starts at 1. */
  function Name(c: nat): string { "#" + Decimal(c + 1) }

  lemma NamesAreUnique(c: nat, d: nat)
    ensures Name(c) == Name(d) <==> c == d
  {
    if Name(c) == Name(d) {
      assert Decimal(c + 1) == Name(c)[1..] == Decimal(d + 1);
      DecimalInjective(c + 1, d + 1);
    }
  }

  // ---------------------------------------------------------------- steps

  ghost predicate Shape(s: State) {
    && |s.queues| == s.ioLoops + 1 && (forall c :: 0 <= c < |s.conns| ==> s.conns[c].loop < |s.queues|)
    && (forall l, t :: 0 <= l < |s.queues| && t in s.queues[l] ==> t.c < |s.conns|)
    && (forall t :: t in s.checked ==> s.checked[t].0 < |s.conns|)
    && (forall c: nat :: c in s.delayed ==> c < |s.conns|)
    && s.next < (if s.ioLoops == 0 then 1 else s.ioLoops)
  }

  /** `getNextLoop`, lines 105-117. */
  function NextLoop(s: State): (nat, nat) {
    if s.ioLoops == 0 then (0, s.next)
    else (1 + s.next, if s.next + 1 >= s.ioLoops then 0 else s.next + 1)
  }

  function Posted(s: State, l: nat, t: Task): State
    requires l < |s.queues|
  {
    s.(queues := s.queues[l := s.queues[l] + [t]])
  }

  /** `connectEstablished`, lines 195-202 of net/TcpConnection.cpp. */
  function Established(s: State, c: nat): State
    requires c < |s.conns|
  {
    s.(conns := s.conns[c := s.conns[c].(state := Connected, listening := true, ups := s.conns[c].ups + 1)])
  }

  /** `newConnection`, lines 155-178. */
  function Accepted(s: State): State
    requires |s.queues| == s.ioLoops + 1 && s.next < (if s.ioLoops == 0 then 1 else s.ioLoops)
  {
    var (l, next) := NextLoop(s);
    var c := |s.conns|;
    var s1 := s.(next := next, conns := s.conns + [Conn(l, Connecting, false, 0, 0, 0, false)], registry := s.registry[Name(c) := c]);
    if l == 0 then Established(s1, c) else Posted(s1, l, Establish(c))
  }

  /** `removeConnectionInLoop`, lines 184-194. */
  function Removed(s: State, c: nat): State
    requires c < |s.conns| && s.conns[c].loop < |s.queues|
  {
    Posted(s.(registry := s.registry - {Name(c)}), s.conns[c].loop, Destroy(c))
  }

  /** `handleClose`, lines 258-267, and `removeConnection`, which runs at once when the connection
      lives on the base loop. */
  function Closed(s: State, c: nat): State
    requires c < |s.conns| && s.conns[c].loop < |s.queues| && |s.queues| > 0
  {
    var s1 := s.(conns := s.conns[c := s.conns[c].(state := Disconnected, listening := false, downs := s.conns[c].downs + 1)]);
    if s.conns[c].loop == 0 then Removed(s1, c) else Posted(s1, 0, Remove(c))
  }

  /** `forceCloseInLoop`, lines 166-171. */
  function ForceClosed(s: State, c: nat): State
    requires c < |s.conns| && s.conns[c].loop < |s.queues| && |s.queues| > 0
  {
    if s.conns[c].Open() then Closed(s, c) else s
  }

  /** `connectDestroyed`, lines 204-211. */
  function Destroyed(s: State, c: nat): State
    requires c < |s.conns|
  {
    var d := s.conns[c];
    var e := if d.state == Connected then d.(state := Disconnected, listening := false, downs := d.downs + 1) else d;
    s.(conns := s.conns[c := e.(destroyed := e.destroyed + 1)])
  }

  function WithState(s: State, c: nat, state: ConnState): State
    requires c < |s.conns|
  {
    s.(conns := s.conns[c := s.conns[c].(state := state)])
  }

  /** What follows a passed test: `setState(kDisconnecting)`, and for a forced close its functor, at once
      or after a delay. */
  function Ending(s: State, c: nat, call: Call): State
    requires c < |s.conns| && s.conns[c].loop < |s.queues|
  {
    var s1 := WithState(s, c, Disconnecting);
    match call
    case Shutdown => s1
    case Force => Posted(s1, s.conns[c].loop, ForceCloseInLoop(c))
    case ForceLater => s1.(delayed := s.delayed + multiset{c})
  }

  /** The tests of lines 135, 149 and 158. */
  predicate Guard(d: Conn, call: Call) { d.state == Connected || (call != Shutdown && d.state == Disconnecting) }

  /** Loop `l` is not inside one of its own calls. */
  predicate LoopFree(s: State, l: nat) { l !in s.checked }

  /** Neither the map nor a functor, a timer or a call under way refers to the connection any more. */
  ghost predicate Unreferenced(s: State, c: nat) {
    && (Name(c) in s.registry ==> s.registry[Name(c)] != c) && c !in s.delayed
    && (forall l, t :: 0 <= l < |s.queues| && t in s.queues[l] ==> t.c != c)
    && (forall t :: t in s.checked ==> s.checked[t].0 != c)
  }

  ghost predicate Enabled(s: State, a: Action) {
    match a
    case Accept => LoopFree(s, 0)
    case RunTask(l) => l < |s.queues| && s.queues[l] != [] && LoopFree(s, l)
    case PeerClosed(c) => c < |s.conns| && s.conns[c].listening && LoopFree(s, s.conns[c].loop)
    case DelayOver(c) => c < |s.conns| && c in s.delayed && LoopFree(s, s.conns[c].loop)
    case Check(t, c, _) =>
      c < |s.conns| && !s.conns[c].deleted && t !in s.checked && (t < |s.queues| ==> t == s.conns[c].loop)
    case Set(t) => t in s.checked
    case Delete(c) => c < |s.conns| && s.conns[c].destroyed > 0 && !s.conns[c].deleted && Unreferenced(s, c)
  }

  /** The assertions of the code that the step runs into. */
  ghost predicate Safe(s: State, a: Action)
    requires Shape(s) && Enabled(s, a)
  {
    match a
    case RunTask(l) =>
      var t := s.queues[l][0];
      (match t
       case Establish(c) => s.conns[c].state == Connecting
       case Remove(c) => Name(c) in s.registry && s.registry[Name(c)] == c
       case Destroy(c) => !s.conns[c].listening || s.conns[c].state == Connected
       case ForceCloseInLoop(c) => s.conns[c].Open() && s.conns[c].loop == 0 ==> Name(c) in s.registry)
    case PeerClosed(c) => s.conns[c].Open() && (s.conns[c].loop == 0 ==> Name(c) in s.registry)
    case DelayOver(c) => s.conns[c].Open() && s.conns[c].loop == 0 ==> Name(c) in s.registry
    case Accept => Name(|s.conns|) !in s.registry
    case Check(_, _, _) => true
    case Set(_) => true
    case Delete(c) => s.conns[c].state == Disconnected
  }

  function Popped(s: State, l: nat): State
    requires l < |s.queues| && s.queues[l] != []
  {
    s.(queues := s.queues[l := s.queues[l][1..]])
  }

  function Executed(s: State, t: Task): State
    requires t.c < |s.conns| && s.conns[t.c].loop < |s.queues| && |s.queues| > 0
  {
    match t
    case Establish(c) => Established(s, c)
    case Remove(c) => Removed(s, c)
    case Destroy(c) => Destroyed(s, c)
    case ForceCloseInLoop(c) => ForceClosed(s, c)
  }

  ghost function Apply(s: State, a: Action): State
    requires Shape(s) && Enabled(s, a)
  {
    match a
    case Accept => Accepted(s)
    case RunTask(l) =>
      assert s.queues[l][0] in s.queues[l];
      Executed(Popped(s, l), s.queues[l][0])
    case PeerClosed(c) => Closed(s, c)
    case DelayOver(c) => ForceClosed(s.(delayed := s.delayed - multiset{c}), c)
    case Check(t, c, call) => if Guard(s.conns[c], call) then s.(checked := s.checked[t := (c, call)]) else s
    case Set(t) => Ending(s.(checked := s.checked - {t}), s.checked[t].0, s.checked[t].1)
    case Delete(c) => s.(conns := s.conns[c := s.conns[c].(deleted := true)])
  }

  /** When a call sets `state_`, the connection has not been closed since its test. */
  ghost predicate Fresh(s: State, a: Action)
    requires Shape(s) && Enabled(s, a)
  {
    a.Set? ==> s.conns[s.checked[a.t].0].Open()
  }

  // ---------------------------------------------------------------- invariant

  ghost function Home(s: State, t: Task): nat
    requires t.c < |s.conns|
  {
    if t.Remove? then 0 else s.conns[t.c].loop
  }

  /** How often a task is queued. */
  ghost function Count(s: State, t: Task): nat
    requires Shape(s) && t.c < |s.conns|
  {
    multiset(s.queues[Home(s, t)])[t]
  }

  ghost predicate Registered(s: State, c: nat) { Name(c) in s.registry && s.registry[Name(c)] == c }

  /** Exactly what is queued for a connection, and what the user has been told, in each of its stages. */
  ghost predicate ConnOk(s: State, c: nat)
    requires Shape(s) && c < |s.conns|
  {
    var d, e, r, x := s.conns[c], Count(s, Establish(c)), Count(s, Remove(c)), Count(s, Destroy(c));
    match d.state
    case Connecting => !d.listening && d.ups == 0 && d.downs == 0 && d.destroyed == 0
                       && e == 1 && r == 0 && x == 0 && Registered(s, c) && d.loop != 0 && !d.deleted
    case Disconnected => !d.listening && d.ups == 1 && d.downs == 1 && e == 0 && r + x + d.destroyed == 1
                         && (Registered(s, c) <==> r == 1) && (Name(c) in s.registry <==> r == 1)
                         && (d.loop == 0 ==> r == 0) && (d.deleted ==> d.destroyed == 1)
    case Connected => Up(s, c)
    case Disconnecting => Up(s, c)
  }

  ghost predicate Up(s: State, c: nat)
    requires Shape(s) && c < |s.conns|
  {
    var d := s.conns[c];
    d.listening && d.ups == 1 && d.downs == 0 && d.destroyed == 0 && Registered(s, c) && !d.deleted
    && Count(s, Establish(c)) == 0 && Count(s, Remove(c)) == 0 && Count(s, Destroy(c)) == 0
  }

  ghost predicate AtHome(s: State)
    requires Shape(s)
  {
    forall l, t :: 0 <= l < |s.queues| && t in s.queues[l] ==> l == Home(s, t)
  }

  ghost predicate NamesOk(s: State) {
    forall name :: name in s.registry ==> s.registry[name] < |s.conns| && Name(s.registry[name]) == name
  }

  ghost predicate RoundRobin(s: State) {
    if s.ioLoops == 0 then s.next == 0 && forall c :: 0 <= c < |s.conns| ==> s.conns[c].loop == 0
    else s.next == |s.conns| % s.ioLoops && forall c :: 0 <= c < |s.conns| ==> s.conns[c].loop == 1 + c % s.ioLoops
  }

  ghost predicate Inv(s: State) {
    Shape(s) && AtHome(s) && NamesOk(s) && RoundRobin(s) && forall c :: 0 <= c < |s.conns| ==> ConnOk(s, c)
  }

  lemma InitInv(ioLoops: nat)
    ensures Inv(Init(ioLoops))
  {
  }

  /** On a state that keeps the invariant no assertion of the code fails. */
  lemma InvSafe(s: State, a: Action)
    requires Inv(s) && Enabled(s, a)
    ensures Safe(s, a)
  {
    match a
    case Accept =>
      if Name(|s.conns|) in s.registry {
        NamesAreUnique(|s.conns|, s.registry[Name(|s.conns|)]);
      }
    case RunTask(l) =>
      var t := s.queues[l][0];
      assert t in s.queues[l] && Count(s, t) > 0;
      assert ConnOk(s, t.c);
    case PeerClosed(c) => assert ConnOk(s, c);
    case DelayOver(c) => assert ConnOk(s, c);
    case Delete(c) => assert ConnOk(s, c);
    case Check(_, _, _) =>
    case Set(_) =>
  }

  // ---------------------------------------------------------------- preservation

  ghost predicate SameNamesBut(s: State, s': State, c: nat) {
    && (forall name :: name != Name(c) ==> (name in s'.registry <==> name in s.registry))
    && (forall name :: name != Name(c) && name in s.registry ==> s'.registry[name] == s.registry[name])
  }

  /** A step about connection `c` leaves everything said about the others alone. */
  lemma OthersKept(s: State, s': State, c: nat)
    requires Inv(s) && Shape(s') && |s'.conns| == |s.conns| && s'.ioLoops == s.ioLoops && s'.next == s.next
    requires forall d :: 0 <= d < |s.conns| ==> s'.conns[d].loop == s.conns[d].loop
    requires forall d :: 0 <= d < |s.conns| && d != c ==> s'.conns[d] == s.conns[d]
    requires SameNamesBut(s, s', c)
    requires forall t: Task :: t.c < |s.conns| && t.c != c ==> Count(s', t) == Count(s, t)
    ensures RoundRobin(s')
    ensures forall d :: 0 <= d < |s'.conns| && d != c ==> ConnOk(s', d)
  {
    forall d | 0 <= d < |s'.conns| && d != c ensures ConnOk(s', d) {
      assert ConnOk(s, d);
      NamesAreUnique(c, d);
    }
  }

  lemma PostedCount(s: State, l: nat, t: Task)
    requires Shape(s) && AtHome(s) && t.c < |s.conns| && l == Home(s, t)
    ensures Shape(Posted(s, l, t)) && AtHome(Posted(s, l, t))
    ensures forall u: Task :: u.c < |s.conns| ==> Count(Posted(s, l, t), u) == Count(s, u) + if u == t then 1 else 0
  {
    var s' := Posted(s, l, t);
    forall k, u | 0 <= k < |s'.queues| && u in s'.queues[k] ensures k == Home(s', u) {
      assert u in s.queues[k] || (k == l && u == t);
      assert k == Home(s, u);
      assert Home(s, u) == Home(s', u);
    }
  }

  lemma PoppedCount(s: State, l: nat)
    requires Shape(s) && AtHome(s) && l < |s.queues| && s.queues[l] != []
    ensures s.queues[l][0].c < |s.conns| && l == Home(s, s.queues[l][0])
    ensures Shape(Popped(s, l)) && AtHome(Popped(s, l))
    ensures forall u: Task :: u.c < |s.conns| ==> Count(s, u) == Count(Popped(s, l), u) + if u == s.queues[l][0] then 1 else 0
  {
    var q, s' := s.queues[l], Popped(s, l);
    assert q == [q[0]] + q[1..];
    assert q[0] in q;
    forall k, u | 0 <= k < |s'.queues| && u in s'.queues[k] ensures k == Home(s', u) && u.c < |s'.conns| {
      assert u in s.queues[k] && k == Home(s, u) == Home(s', u);
    }
  }

  /** Where a step that concerns connection `c` alone has to arrive. */
  ghost predicate Arrived(s: State, s': State, c: nat)
    requires Inv(s) && c < |s.conns|
  {
    && Shape(s') && AtHome(s') && NamesOk(s') && |s'.conns| == |s.conns| && s'.ioLoops == s.ioLoops && s'.next == s.next
    && (forall d :: 0 <= d < |s.conns| ==> s'.conns[d].loop == s.conns[d].loop)
    && (forall d :: 0 <= d < |s.conns| && d != c ==> s'.conns[d] == s.conns[d])
    && SameNamesBut(s, s', c)
    && (forall t: Task :: t.c < |s.conns| && t.c != c ==> Count(s', t) == Count(s, t))
    && ConnOk(s', c)
  }

  lemma ArrivedInv(s: State, s': State, c: nat)
    requires Inv(s) && c < |s.conns| && Arrived(s, s', c)
    ensures Inv(s')
  {
    OthersKept(s, s', c);
    forall d | 0 <= d < |s'.conns| ensures ConnOk(s', d) {
      if d != c { assert ConnOk(s', d); }
    }
  }

  /** Changing one connection's record moves no task. */
  lemma RecordKeepsQueues(s: State, s': State, c: nat, d: Conn)
    requires Shape(s) && AtHome(s) && c < |s.conns| && s' == s.(conns := s.conns[c := d]) && d.loop == s.conns[c].loop
    ensures Shape(s') && AtHome(s')
    ensures forall t: Task :: t.c < |s.conns| ==> Count(s', t) == Count(s, t)
  {
    forall k, u | 0 <= k < |s'.queues| && u in s'.queues[k] ensures k == Home(s', u) {
      assert u in s.queues[k] && k == Home(s, u) == Home(s', u);
    }
  }

  lemma ForgottenName(s: State, s': State, c: nat)
    requires NamesOk(s) && s' == s.(registry := s.registry - {Name(c)})
    ensures NamesOk(s') && SameNamesBut(s, s', c) && Name(c) !in s'.registry
  {
  }

  /** `handleClose` of an open connection. `s1` is `s` up to forced closes of `c` that have been taken
      out of a queue. */
  ghost predicate UpToForced(s: State, s1: State, c: nat) {
    && Inv(s) && c < |s.conns| && s.conns[c].Open() && Shape(s1) && AtHome(s1)
    && s1 == s.(queues := s1.queues, delayed := s1.delayed)
    && forall t: Task :: t.c < |s.conns| && !(t.ForceCloseInLoop? && t.c == c) ==> Count(s1, t) == Count(s, t)
  }

  lemma ClosedArrives(s: State, s1: State, c: nat)
    requires UpToForced(s, s1, c)
    ensures Arrived(s, Closed(s1, c), c)
  {
    if s.conns[c].loop == 0 {
      ClosedOnBase(s, s1, c);
    } else {
      ClosedElsewhere(s, s1, c);
    }
  }

  lemma ClosedElsewhere(s: State, s1: State, c: nat)
    requires UpToForced(s, s1, c) && s.conns[c].loop != 0
    ensures Arrived(s, Closed(s1, c), c)
  {
    ClosedCounts(s1, c);
    ClosedConnOk(s, Closed(s1, c), c);
  }

  lemma ClosedCounts(s: State, c: nat)
    requires Shape(s) && AtHome(s) && c < |s.conns| && s.conns[c].loop != 0
    ensures Shape(Closed(s, c)) && AtHome(Closed(s, c))
    ensures forall u: Task :: u.c < |s.conns| ==> Count(Closed(s, c), u) == Count(s, u) + if u == Remove(c) then 1 else 0
  {
    var d := s.conns[c];
    var s2 := s.(conns := s.conns[c := d.(state := Disconnected, listening := false, downs := d.downs + 1)]);
    RecordKeepsQueues(s, s2, c, s2.conns[c]);
    PostedCount(s2, 0, Remove(c));
  }

  lemma ClosedConnOk(s: State, s': State, c: nat)
    requires Shape(s) && Shape(s') && c < |s.conns| && ConnOk(s, c) && s.conns[c].Open() && s.conns[c].loop != 0 && c < |s'.conns|
    requires s'.conns[c] == s.conns[c].(state := Disconnected, listening := false, downs := s.conns[c].downs + 1)
    requires s'.registry == s.registry && Count(s', Establish(c)) == Count(s, Establish(c))
    requires Count(s', Remove(c)) == Count(s, Remove(c)) + 1 && Count(s', Destroy(c)) == Count(s, Destroy(c))
    ensures ConnOk(s', c)
  {
  }

  lemma ClosedOnBase(s: State, s1: State, c: nat)
    requires UpToForced(s, s1, c) && s.conns[c].loop == 0
    ensures Arrived(s, Closed(s1, c), c)
  {
    var d := s.conns[c];
    var s2 := s1.(conns := s1.conns[c := d.(state := Disconnected, listening := false, downs := d.downs + 1)]);
    assert ConnOk(s, c);
    RecordKeepsQueues(s1, s2, c, s2.conns[c]);
    RemovedCounts(s2, c);
  }

  lemma RemovedCounts(s: State, c: nat)
    requires Shape(s) && AtHome(s) && NamesOk(s) && c < |s.conns|
    ensures var s' := Removed(s, c);
            && Shape(s') && AtHome(s') && NamesOk(s') && SameNamesBut(s, s', c) && Name(c) !in s'.registry
            && forall u: Task :: u.c < |s.conns| ==> Count(s', u) == Count(s, u) + if u == Destroy(c) then 1 else 0
  {
    var s1 := s.(registry := s.registry - {Name(c)});
    ForgottenName(s, s1, c);
    SameQueues(s, s1);
    PostedCount(s1, s.conns[c].loop, Destroy(c));
  }

  lemma SameQueues(s: State, s': State)
    requires Shape(s) && AtHome(s) && Shape(s') && s'.queues == s.queues && s'.conns == s.conns
    ensures AtHome(s') && forall t: Task :: t.c < |s.conns| ==> Count(s', t) == Count(s, t)
  {
    forall k, u | 0 <= k < |s'.queues| && u in s'.queues[k] ensures k == Home(s', u) {
      assert u in s.queues[k] && k == Home(s, u) == Home(s', u);
    }
  }

  lemma EstablishTask(s: State, l: nat)
    requires Inv(s) && Enabled(s, RunTask(l)) && s.queues[l][0].Establish?
    ensures Inv(Apply(s, RunTask(l)))
  {
    var c, s1 := s.queues[l][0].c, Popped(s, l);
    PoppedCount(s, l);
    assert ConnOk(s, c);
    RecordKeepsQueues(s1, Established(s1, c), c, Established(s1, c).conns[c]);
    ArrivedInv(s, Established(s1, c), c);
  }

  lemma RemoveTask(s: State, l: nat)
    requires Inv(s) && Enabled(s, RunTask(l)) && s.queues[l][0].Remove?
    ensures Inv(Apply(s, RunTask(l)))
  {
    var c, s1 := s.queues[l][0].c, Popped(s, l);
    PoppedCount(s, l);
    assert ConnOk(s, c);
    RemovedCounts(s1, c);
    RemovedArrives(s, s1, c);
    ArrivedInv(s, Removed(s1, c), c);
  }

  lemma RemovedArrives(s: State, s1: State, c: nat)
    requires Inv(s) && c < |s.conns| && Shape(s1) && s1 == s.(queues := s1.queues) && Count(s, Remove(c)) == 1
    requires forall t: Task :: t.c < |s.conns| ==> Count(s, t) == Count(s1, t) + if t == Remove(c) then 1 else 0
    requires var s' := Removed(s1, c);
             && Shape(s') && AtHome(s') && NamesOk(s') && SameNamesBut(s1, s', c) && Name(c) !in s'.registry
             && forall u: Task :: u.c < |s.conns| ==> Count(s', u) == Count(s1, u) + if u == Destroy(c) then 1 else 0
    ensures Arrived(s, Removed(s1, c), c)
  {
    assert ConnOk(s, c);
  }

  lemma DestroyTask(s: State, l: nat)
    requires Inv(s) && Enabled(s, RunTask(l)) && s.queues[l][0].Destroy?
    ensures Inv(Apply(s, RunTask(l)))
  {
    var c, s1 := s.queues[l][0].c, Popped(s, l);
    PoppedCount(s, l);
    assert ConnOk(s, c);
    RecordKeepsQueues(s1, Destroyed(s1, c), c, Destroyed(s1, c).conns[c]);
    ArrivedInv(s, Destroyed(s1, c), c);
  }

  lemma ForceCloseTask(s: State, l: nat)
    requires Inv(s) && Enabled(s, RunTask(l)) && s.queues[l][0].ForceCloseInLoop?
    ensures Inv(Apply(s, RunTask(l)))
  {
    var c, s1 := s.queues[l][0].c, Popped(s, l);
    PoppedCount(s, l);
    assert ConnOk(s, c);
    if s.conns[c].Open() {
      ClosedArrives(s, s1, c);
      ArrivedInv(s, Closed(s1, c), c);
    } else {
      ForceCloseIdles(s, s1, l);
    }
  }

  /** On a connection already down the functor does nothing. */
  lemma ForceCloseIdles(s: State, s1: State, l: nat)
    requires Inv(s) && Enabled(s, RunTask(l)) && s.queues[l][0].ForceCloseInLoop? && s1 == Popped(s, l)
    ensures Inv(s1)
  {
    PoppedCount(s, l);
    assert ConnOk(s, s.queues[l][0].c);
    ArrivedInv(s, s1, s.queues[l][0].c);
  }

  lemma CloseInv(s: State, c: nat)
    requires Inv(s) && c < |s.conns| && s.conns[c].Open()
    ensures Inv(Closed(s, c))
  {
    ClosedArrives(s, s, c);
    ArrivedInv(s, Closed(s, c), c);
  }

  lemma DelayInv(s: State, c: nat)
    requires Inv(s) && Enabled(s, DelayOver(c))
    ensures Inv(Apply(s, DelayOver(c)))
  {
    var s1 := s.(delayed := s.delayed - multiset{c});
    SameQueues(s, s1);
    assert ConnOk(s, c);
    if s.conns[c].Open() {
      ClosedArrives(s, s1, c);
      ArrivedInv(s, Closed(s1, c), c);
    } else {
      ArrivedInv(s, s1, c);
    }
  }

  /** Setting the state of an open connection to `kDisconnecting`, and queueing a forced close. */
  lemma EndingInv(s: State, s1: State, c: nat, call: Call)
    requires Inv(s) && c < |s.conns| && s.conns[c].Open() && s1 == s.(checked := s1.checked) && Shape(s1)
    ensures Inv(Ending(s1, c, call))
  {
    ConnsKept(s, s1);
    var s2 := WithState(s1, c, Disconnecting);
    MarkedInv(s1, c);
    if call.Force? {
      ForcedInv(s2, c);
    } else {
      ConnsKept(s2, Ending(s1, c, call));
    }
  }

  lemma MarkedInv(s: State, c: nat)
    requires Inv(s) && c < |s.conns| && s.conns[c].Open()
    ensures Inv(WithState(s, c, Disconnecting))
  {
    var s' := WithState(s, c, Disconnecting);
    assert ConnOk(s, c);
    RecordKeepsQueues(s, s', c, s'.conns[c]);
    ArrivedInv(s, s', c);
  }

  lemma ForcedInv(s: State, c: nat)
    requires Inv(s) && c < |s.conns|
    ensures Inv(Posted(s, s.conns[c].loop, ForceCloseInLoop(c)))
  {
    assert ConnOk(s, c);
    PostedCount(s, s.conns[c].loop, ForceCloseInLoop(c));
    ArrivedInv(s, Posted(s, s.conns[c].loop, ForceCloseInLoop(c)), c);
  }

  lemma DeleteInv(s: State, c: nat)
    requires Inv(s) && Enabled(s, Delete(c))
    ensures Inv(Apply(s, Delete(c)))
  {
    var s' := Apply(s, Delete(c));
    assert ConnOk(s, c);
    RecordKeepsQueues(s, s', c, s'.conns[c]);
    ArrivedInv(s, s', c);
  }

  lemma ConnsKept(s: State, s': State)
    requires Inv(s) && Shape(s') && s' == s.(delayed := s'.delayed, checked := s'.checked)
    ensures Inv(s')
  {
    SameQueues(s, s');
    forall d | 0 <= d < |s'.conns| ensures ConnOk(s', d) {
      assert ConnOk(s, d);
    }
  }

  // ---------------------------------------------------------------- accepting

  /** The new connection, before it is established or its functor queued. */
  function Entered(s: State): State {
    var (l, next) := NextLoop(s);
    s.(next := next, conns := s.conns + [Conn(l, Connecting, false, 0, 0, 0, false)], registry := s.registry[Name(|s.conns|) := |s.conns|])
  }

  lemma NextLoopRobin(s: State)
    requires Shape(s) && RoundRobin(s)
    ensures RoundRobin(Entered(s)) && Shape(Entered(s))
  {
    if s.ioLoops > 0 {
      ModStep(|s.conns|, s.ioLoops);
    }
  }

  lemma ModStep(n: nat, k: nat)
    requires k > 0
    ensures (n + 1) % k == if n % k + 1 == k then 0 else n % k + 1
  {
    var q, r := n / k, n % k;
    assert n == q * k + r;
    if r + 1 == k {
      assert n + 1 == (q + 1) * k;
      ModUnique(n + 1, k, q + 1, 0);
    } else {
      ModUnique(n + 1, k, q, r + 1);
    }
  }

  lemma {:induction false} MulGrows(a: nat, b: nat, k: nat)
    requires a < b
    ensures a * k + k <= b * k
  {
    assert b * k == (b - 1) * k + k;
    if a + 1 < b { MulGrows(a, b - 1, k); }
  }

  lemma QuotientUnique(k: nat, q: nat, r: nat, p: nat, m: nat)
    requires r < k && m < k && q * k + r == p * k + m
    ensures q == p
  {
    if q < p { MulGrows(q, p, k); }
    if p < q { MulGrows(p, q, k); }
  }

  lemma ModUnique(n: nat, k: nat, q: nat, r: nat)
    requires k > 0 && r < k && n == q * k + r
    ensures n % k == r
  {
    assert n == (n / k) * k + n % k;
    QuotientUnique(k, q, r, n / k, n % k);
  }

  lemma EnteredInv(s: State)
    requires Inv(s)
    ensures var s1, c := Entered(s), |s.conns|;
            && Shape(s1) && AtHome(s1) && NamesOk(s1) && RoundRobin(s1) && Registered(s1, c)
            && Count(s1, Establish(c)) == 0 && Count(s1, Remove(c)) == 0 && Count(s1, Destroy(c)) == 0
            && forall d :: 0 <= d < c ==> ConnOk(s1, d)
  {
    var s1, c := Entered(s), |s.conns|;
    NextLoopRobin(s);
    forall k, u | 0 <= k < |s1.queues| && u in s1.queues[k] ensures k == Home(s1, u) {
      assert u in s.queues[k] && u.c < c && k == Home(s, u) == Home(s1, u);
    }
    assert Establish(c) !in s1.queues[Home(s1, Establish(c))];
    assert Remove(c) !in s1.queues[0];
    assert Destroy(c) !in s1.queues[Home(s1, Destroy(c))];
    forall d | 0 <= d < c ensures ConnOk(s1, d) {
      assert ConnOk(s, d);
      NamesAreUnique(c, d);
    }
  }

  lemma AcceptInv(s: State)
    requires Inv(s)
    ensures Inv(Accepted(s))
  {
    var s1, c := Entered(s), |s.conns|;
    var l := s1.conns[c].loop;
    EnteredInv(s);
    assert Entering(s1, c);
    if l == 0 {
      EnteredHere(s1, c);
    } else {
      EnteredElsewhere(s1, c);
    }
  }

  /** Connection `c` has just been entered in the map, and its first functor has yet to be run or queued. */
  ghost predicate Entering(s1: State, c: nat) {
    && Shape(s1) && AtHome(s1) && NamesOk(s1) && RoundRobin(s1) && Registered(s1, c) && |s1.conns| == c + 1
    && s1.conns[c] == Conn(s1.conns[c].loop, Connecting, false, 0, 0, 0, false)
    && Count(s1, Establish(c)) == 0 && Count(s1, Remove(c)) == 0 && Count(s1, Destroy(c)) == 0
    && forall d :: 0 <= d < c ==> ConnOk(s1, d)
  }

  lemma EnteredHere(s1: State, c: nat)
    requires Entering(s1, c) && s1.conns[c].loop == 0
    ensures Inv(Established(s1, c))
  {
    var s' := Established(s1, c);
    RecordKeepsQueues(s1, s', c, s'.conns[c]);
    EnteredThen(s1, s', c);
  }

  lemma EnteredElsewhere(s1: State, c: nat)
    requires Entering(s1, c) && s1.conns[c].loop != 0
    ensures Inv(Posted(s1, s1.conns[c].loop, Establish(c)))
  {
    var s' := Posted(s1, s1.conns[c].loop, Establish(c));
    PostedCount(s1, s1.conns[c].loop, Establish(c));
    EnteredThen(s1, s', c);
  }

  lemma EnteredThen(s1: State, s': State, c: nat)
    requires Shape(s1) && Shape(s') && |s1.conns| == c + 1 == |s'.conns| && s'.registry == s1.registry
    requires s'.ioLoops == s1.ioLoops && s'.next == s1.next && s'.conns[c].loop == s1.conns[c].loop
    requires AtHome(s') && NamesOk(s1) && RoundRobin(s1)
    requires forall d :: 0 <= d < c ==> s'.conns[d] == s1.conns[d] && ConnOk(s1, d)
    requires forall u: Task :: u.c < c ==> Count(s', u) == Count(s1, u)
    requires ConnOk(s', c)
    ensures Inv(s')
  {
    forall d | 0 <= d < c ensures ConnOk(s', d) {
      ConnSame(s1, s', d);
    }
  }

  lemma ConnSame(s: State, s': State, d: nat)
    requires Shape(s) && Shape(s') && d < |s.conns| && d < |s'.conns| && s'.conns[d] == s.conns[d] && s'.registry == s.registry
    requires forall u: Task :: u.c == d ==> Count(s', u) == Count(s, u)
    requires ConnOk(s, d)
    ensures ConnOk(s', d)
  {
  }

  lemma StepInv(s: State, a: Action)
    requires Inv(s) && Enabled(s, a) && Fresh(s, a)
    ensures Inv(Apply(s, a))
  {
    match a
    case Accept => AcceptInv(s);
    case RunTask(l) =>
      match s.queues[l][0] {
        case Establish(_) => EstablishTask(s, l);
        case Remove(_) => RemoveTask(s, l);
        case Destroy(_) => DestroyTask(s, l);
        case ForceCloseInLoop(_) => ForceCloseTask(s, l);
      }
    case PeerClosed(c) =>
      assert ConnOk(s, c);
      CloseInv(s, c);
    case DelayOver(c) => DelayInv(s, c);
    case Delete(c) => DeleteInv(s, c);
    case Check(t, c, call) => ConnsKept(s, Apply(s, a));
    case Set(t) => EndingInv(s, s.(checked := s.checked - {t}), s.checked[t].0, s.checked[t].1);
  }

  // ---------------------------------------------------------------- calls under way

  /** A call under way concerns a live connection; a loop's own call, one of its own that is open. */
  ghost predicate CheckOk(s: State, t: nat)
    requires t in s.checked
  {
    var c := s.checked[t].0;
    c < |s.conns| && !s.conns[c].deleted && s.conns[c].state != Connecting
    && (t < |s.queues| ==> t == s.conns[c].loop && s.conns[c].Open())
  }

  ghost predicate ChecksOk(s: State) { forall t :: t in s.checked ==> CheckOk(s, t) }

  /** A step about connection `c` that closes it only while its loop makes no call of its own. */
  lemma ChecksAfter(s: State, s': State, c: nat)
    requires ChecksOk(s) && c < |s.conns| && |s'.queues| == |s.queues| && |s'.conns| >= |s.conns|
    requires forall d :: 0 <= d < |s.conns| && d != c ==> s'.conns[d] == s.conns[d]
    requires s'.conns[c].loop == s.conns[c].loop && (s'.conns[c].state == Connecting ==> s.conns[c].state == Connecting)
    requires s'.conns[c].Open() || LoopFree(s, s.conns[c].loop)
    requires s'.conns[c].deleted ==> s.conns[c].deleted
    requires forall t :: t in s'.checked ==> t in s.checked && s'.checked[t] == s.checked[t]
    ensures ChecksOk(s')
  {
    forall t | t in s'.checked ensures CheckOk(s', t) {
      assert CheckOk(s, t);
    }
  }

  lemma TaskChecks(s: State, l: nat)
    requires Inv(s) && ChecksOk(s) && Enabled(s, RunTask(l))
    ensures ChecksOk(Apply(s, RunTask(l)))
  {
    var t := s.queues[l][0];
    assert t in s.queues[l] && l == Home(s, t);
    if t.Remove? {
      SameChecks(s, Apply(s, RunTask(l)));
    } else {
      ChecksAfter(s, Apply(s, RunTask(l)), t.c);
    }
  }

  lemma SameChecks(s: State, s': State)
    requires ChecksOk(s) && s'.checked == s.checked && s.conns <= s'.conns && |s'.queues| == |s.queues|
    ensures ChecksOk(s')
  {
    forall t | t in s'.checked ensures CheckOk(s', t) {
      assert CheckOk(s, t);
    }
  }

  lemma CloseChecks(s: State, s1: State, c: nat)
    requires Shape(s) && ChecksOk(s) && c < |s.conns| && LoopFree(s, s.conns[c].loop)
    requires s1 == s.(delayed := s1.delayed)
    ensures ChecksOk(ForceClosed(s1, c))
  {
    ChecksAfter(s, ForceClosed(s1, c), c);
  }

  lemma CheckChecks(s: State, t: nat, c: nat, call: Call)
    requires Shape(s) && ChecksOk(s) && Enabled(s, Check(t, c, call))
    ensures ChecksOk(Apply(s, Check(t, c, call)))
  {
    var s' := Apply(s, Check(t, c, call));
    forall u | u in s'.checked ensures CheckOk(s', u) {
      if u in s.checked { assert CheckOk(s, u); }
    }
  }

  lemma SetChecks(s: State, t: nat)
    requires Shape(s) && ChecksOk(s) && Enabled(s, Set(t))
    ensures ChecksOk(Apply(s, Set(t)))
  {
    ChecksAfter(s, Apply(s, Set(t)), s.checked[t].0);
  }

  lemma DeleteChecks(s: State, c: nat)
    requires Shape(s) && ChecksOk(s) && Enabled(s, Delete(c))
    ensures ChecksOk(Apply(s, Delete(c)))
  {
    forall u | u in s.checked ensures CheckOk(Apply(s, Delete(c)), u) {
      assert CheckOk(s, u);
    }
  }

  lemma StepChecks(s: State, a: Action)
    requires Inv(s) && ChecksOk(s) && Enabled(s, a)
    ensures ChecksOk(Apply(s, a))
  {
    match a
    case Accept => AcceptChecks(s);
    case RunTask(l) => TaskChecks(s, l);
    case PeerClosed(c) =>
      assert ConnOk(s, c);
      CloseChecks(s, s, c);
    case DelayOver(c) => CloseChecks(s, s.(delayed := s.delayed - multiset{c}), c);
    case Check(t, c, call) => CheckChecks(s, t, c, call);
    case Set(t) => SetChecks(s, t);
    case Delete(c) => DeleteChecks(s, c);
  }

  lemma AcceptChecks(s: State)
    requires Shape(s) && ChecksOk(s)
    ensures ChecksOk(Accepted(s))
  {
    forall t | t in s.checked ensures CheckOk(Accepted(s), t) {
      assert CheckOk(s, t);
    }
  }

  /** A loop's own call is never late. */
  lemma OwnCallIsFresh(s: State, t: nat)
    requires Shape(s) && ChecksOk(s) && t in s.checked && t < |s.queues|
    ensures Fresh(s, Set(t))
  {
    assert CheckOk(s, t);
  }
}
