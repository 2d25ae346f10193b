/** The poll-driven splice relay between a client socket (sock1) and a proxy socket (sock2).

    Download runs sock2 -> pipe_a -> sock1, upload runs sock1 -> pipe_b -> sock2.  The kernel is an
    adversary: a run is driven by a sequence of rounds that say how each poll and splice answers. */
module Relay {
  import opened Net

  const SPLICE_MAX: nat := 1048576

  // ---------- what the kernel may answer ----------

  datatype Revents = Revents(pollin: bool, pollout: bool, hup: bool, err: bool)

  const QUIET := Revents(false, false, false, false)

  /** A splice out of a socket: at most `n + 1` bytes, EAGAIN, or another error. */
  datatype Read = ReadUpTo(n: nat) | ReadAgain | ReadFails

  /** A splice into a socket: at most `n` bytes, EAGAIN, or another error. */
  datatype Write = WriteUpTo(n: nat) | WriteAgain | WriteFails

  datatype Round =
    | Interrupted
    | PollFails
    | Timeout
    | Ready(client: Revents, proxy: Revents, downRead: Read, downWrite: Write, upRead: Read, upWrite: Write)

  /** What poll reports for one descriptor.  A descriptor set to -1 reports nothing; POLLIN and POLLOUT
      are reported only when asked for; POLLHUP and POLLERR need not be asked for; and a hung-up socket
      that still holds unread bytes is readable. */
  function Poll(live: bool, wantIn: bool, wantOut: bool, offered: Revents, unread: seq<byte>): (r: Revents) {
    if !live then QUIET
    else Revents(wantIn && (offered.pollin || (offered.hup && unread != [])), wantOut && offered.pollout,
                 offered.hup, offered.err)
  }

  /** Bytes that a socket splice moves: none exactly when the peer's stream has ended. */
  function ReadCount(unread: seq<byte>, n: nat): (k: nat)
    ensures k <= |unread| && k <= SPLICE_MAX && (k == 0 <==> unread == [])
  {
    Min(n + 1, Min(|unread|, SPLICE_MAX))
  }

  // ---------- one direction of the relay ----------

  datatype Ending = Eof | ReadError | Hangup

  datatype Event = Took(data: seq<byte>) | Gave(data: seq<byte>) | Ended(how: Ending) | HalfClosed

  /** `unread` is what the source peer has yet to hand over, `pipe` what lies between the two splices. */
  datatype Flow = Flow(unread: seq<byte>, pipe: seq<byte>, done: bool, shut: bool, log: seq<Event>)

  function Taken(log: seq<Event>): seq<byte> {
    if log == [] then []
    else Taken(log[..|log| - 1]) + (if log[|log| - 1].Took? then log[|log| - 1].data else [])
  }

  function Given(log: seq<Event>): seq<byte> {
    if log == [] then []
    else Given(log[..|log| - 1]) + (if log[|log| - 1].Gave? then log[|log| - 1].data else [])
  }

  predicate HasEnded(log: seq<Event>) {
    log != [] && (log[|log| - 1].Ended? || HasEnded(log[..|log| - 1]))
  }

  predicate HasHalfClosed(log: seq<Event>) {
    log != [] && (log[|log| - 1].HalfClosed? || HasHalfClosed(log[..|log| - 1]))
  }

  /** When event `e` may follow the history `before` of its direction. */
  predicate Allowed(before: seq<Event>, e: Event) {
    match e
    case Took(_) => !HasEnded(before)
    case Gave(data) => !HasHalfClosed(before) && Given(before) + data <= Taken(before)
    case Ended(_) => !HasEnded(before)
    case HalfClosed => HasEnded(before) && Given(before) == Taken(before) && !HasHalfClosed(before)
  }

  predicate Ordered(log: seq<Event>) {
    log == [] || (Ordered(log[..|log| - 1]) && Allowed(log[..|log| - 1], log[|log| - 1]))
  }

  /** Everything one direction keeps at every point of every run. */
  ghost predicate FlowInv(input: seq<byte>, f: Flow) {
    && input == Taken(f.log) + f.unread
    && Taken(f.log) == Given(f.log) + f.pipe
    && (f.done <==> HasEnded(f.log))
    && (f.shut <==> HasHalfClosed(f.log))
    && (f.shut ==> f.done && f.pipe == [])
    && Ordered(f.log)
  }

  function Noted(f: Flow, e: Event): Flow { f.(log := f.log + [e]) }

  // POLLHUP without POLLIN on the source
  function Hang(f: Flow, source: Revents): Flow {
    if source.hup && !source.pollin && !f.done then Noted(f, Ended(Hangup)).(done := true) else f
  }

  function Pull(f: Flow, source: Revents, answer: Read): Flow {
    if f.done || f.pipe != [] || !source.pollin then f
    else match answer
      case ReadAgain => f
      case ReadFails => Noted(f, Ended(ReadError)).(done := true)
      case ReadUpTo(n) =>
        var k := ReadCount(f.unread, n);
        if k == 0 then Noted(f, Ended(Eof)).(done := true)
        else Noted(f, Took(f.unread[..k])).(pipe := f.unread[..k], unread := f.unread[k..])
  }

  predicate PushFails(f: Flow, sink: Revents, answer: Write) {
    f.pipe != [] && sink.pollout && answer.WriteFails?
  }

  function Push(f: Flow, sink: Revents, answer: Write): Flow {
    if f.pipe == [] || !sink.pollout || !answer.WriteUpTo? then f
    else
      var k := Min(answer.n, |f.pipe|);
      if k == 0 then f else Noted(f, Gave(f.pipe[..k])).(pipe := f.pipe[k..])
  }

  function HalfClose(f: Flow): Flow {
    if f.done && f.pipe == [] && !f.shut then Noted(f, HalfClosed).(shut := true) else f
  }

  // ---------- the loop ----------

  datatype Exit = Running | NothingToPoll | PollError | IdleTimeout | SocketError | WriteError | Finished

  datatype Sys = Sys(down: Flow, up: Flow) {
    predicate Drained() { down.done && up.done && down.pipe == [] && up.pipe == [] }

    predicate ClientLive() { !up.done || down.pipe != [] || up.pipe != [] }
    predicate ProxyLive() { !down.done || up.pipe != [] || down.pipe != [] }
    predicate ClientIn() { !up.done && up.pipe == [] }
    predicate ClientOut() { down.pipe != [] }
    predicate ProxyIn() { !down.done && down.pipe == [] }
    predicate ProxyOut() { up.pipe != [] }

    /** Some event is requested on a descriptor that is not -1. */
    predicate Pollable() {
      (ClientLive() && (ClientIn() || ClientOut())) || (ProxyLive() && (ProxyIn() || ProxyOut()))
    }

    function ClientEvents(r: Round): Revents
      requires r.Ready?
    {
      Poll(ClientLive(), ClientIn(), ClientOut(), r.client, up.unread)
    }

    function ProxyEvents(r: Round): Revents
      requires r.Ready?
    {
      Poll(ProxyLive(), ProxyIn(), ProxyOut(), r.proxy, down.unread)
    }
  }

  function Start(fromClient: seq<byte>, fromProxy: seq<byte>): Sys {
    Sys(Flow(fromProxy, [], false, false, []), Flow(fromClient, [], false, false, []))
  }

  /** One round, seen as two directions that only meet in the shared poll and in the early exits. */
  function Step(s: Sys, r: Round): (Sys, Exit) {
    if !s.ClientLive() && !s.ProxyLive() then (s, NothingToPoll)
    else if !(s.ClientIn() || s.ClientOut()) && !(s.ProxyIn() || s.ProxyOut()) then (s, NothingToPoll)
    else match r
      case Interrupted => (s, Running)
      case PollFails => (s, PollError)
      case Timeout => (s, IdleTimeout)
      case Ready(_, _, _, _, _, _) => Serve(s, r, s.ClientEvents(r), s.ProxyEvents(r))
  }

  function Serve(s: Sys, r: Round, client: Revents, proxy: Revents): (Sys, Exit)
    requires r.Ready?
  {
    if client.err || proxy.err then (s, SocketError)
    else
      var d := Pull(Hang(s.down, proxy), proxy, r.downRead);
      var u0 := Hang(s.up, client);
      if PushFails(d, client, r.downWrite) then (Sys(d, u0), WriteError)
      else
        var d1 := Push(d, client, r.downWrite);
        var u := Pull(u0, client, r.upRead);
        if PushFails(u, proxy, r.upWrite) then (Sys(d1, u), WriteError)
        else
          var s1 := Sys(HalfClose(d1), HalfClose(Push(u, proxy, r.upWrite)));
          (s1, if s1.Drained() then Finished else Running)
  }

  /** The state and exit after all of `rounds`, or at the first exit; `Running` if there was none. */
  function Run(s: Sys, rounds: seq<Round>): (Sys, Exit)
    decreases |rounds|
  {
    if rounds == [] then (s, Running)
    else
      var (s1, exit) := Step(s, rounds[0]);
      if exit == Running then Run(s1, rounds[1..]) else (s1, exit)
  }

  /** Splice from a source socket into the pipe of one direction; `bytes` counts what the pipe holds. */
  method SpliceIn(f: Flow, bytes: nat, source: Revents, answer: Read) returns (g: Flow, left: nat)
    requires bytes == |f.pipe|
    ensures g == Pull(f, source, answer) && left == |g.pipe|
  {
    g, left := f, bytes;
    if !f.done && bytes == 0 && source.pollin {
      match answer {
        case ReadUpTo(n) =>
          var k := ReadCount(f.unread, n);
          if k > 0 {
            g, left := Noted(f, Took(f.unread[..k])).(pipe := f.unread[..k], unread := f.unread[k..]), k;
          } else {
            g := Noted(f, Ended(Eof)).(done := true);
          }
        case ReadAgain =>
        case ReadFails => g := Noted(f, Ended(ReadError)).(done := true);
      }
    }
  }

  /** Splice from the pipe of one direction into its sink socket. */
  method SpliceOut(f: Flow, bytes: nat, sink: Revents, answer: Write) returns (g: Flow, left: nat, failed: bool)
    requires bytes == |f.pipe|
    ensures failed == PushFails(f, sink, answer)
    ensures g == Push(f, sink, answer) && left == |g.pipe|
  {
    g, left, failed := f, bytes, false;
    if bytes > 0 && sink.pollout {
      match answer {
        case WriteUpTo(n) =>
          var k := Min(n, bytes);
          if k > 0 {
            g, left := Noted(f, Gave(f.pipe[..k])).(pipe := f.pipe[k..]), bytes - k;
          }
        case WriteAgain =>
        case WriteFails => failed := true;
      }
    }
  }

  /** The relay loop.  `down` and `up` carry the done and half-close flags and, for the kernel's side,
      unread data, pipe contents and history; the two byte counts are the loop's own bookkeeping. */
  method TransferHandler(fromClient: seq<byte>, fromProxy: seq<byte>, rounds: seq<Round>)
    returns (exit: Exit, down: Flow, up: Flow)
    ensures (Sys(down, up), exit) == Run(Start(fromClient, fromProxy), rounds)
  {
    var pipeABytes, pipeBBytes := 0, 0;
    down, up := Flow(fromProxy, [], false, false, []), Flow(fromClient, [], false, false, []);
    exit := Running;
    var i := 0;
    while i < |rounds| && exit == Running
      invariant 0 <= i <= |rounds|
      invariant pipeABytes == |down.pipe| && pipeBBytes == |up.pipe|
      invariant Run(Start(fromClient, fromProxy), rounds)
                == if exit == Running then Run(Sys(down, up), rounds[i..]) else (Sys(down, up), exit)
      decreases |rounds| - i, exit == Running
    {
      assert rounds[i..][0] == rounds[i] && rounds[i..][1..] == rounds[i + 1..];
      var live1 := !up.done || pipeABytes > 0 || pipeBBytes > 0;
      var live2 := !down.done || pipeBBytes > 0 || pipeABytes > 0;
      var in2, out1 := !down.done && pipeABytes == 0, pipeABytes > 0;
      var in1, out2 := !up.done && pipeBBytes == 0, pipeBBytes > 0;
      if !live1 && !live2 {
        exit := NothingToPoll;
      } else if !in1 && !out1 && !in2 && !out2 {
        exit := NothingToPoll;
      } else {
        match rounds[i] {
          case Interrupted =>
          case PollFails => exit := PollError;
          case Timeout => exit := IdleTimeout;
          case Ready(offered1, offered2, _, _, _, _) =>
            var revents1 := Poll(live1, in1, out1, offered1, up.unread);
            var revents2 := Poll(live2, in2, out2, offered2, down.unread);
            exit, down, up, pipeABytes, pipeBBytes :=
              ServeRound(down, up, pipeABytes, pipeBBytes, rounds[i], revents1, revents2);
        }
      }
      i := i + 1;
    }
  }

  /** What the loop does once poll has answered. */
  method ServeRound(down0: Flow, up0: Flow, pipeA: nat, pipeB: nat, r: Round, revents1: Revents, revents2: Revents)
    returns (exit: Exit, down: Flow, up: Flow, pipeABytes: nat, pipeBBytes: nat)
    requires r.Ready? && pipeA == |down0.pipe| && pipeB == |up0.pipe|
    ensures (Sys(down, up), exit) == Serve(Sys(down0, up0), r, revents1, revents2)
    ensures pipeABytes == |down.pipe| && pipeBBytes == |up.pipe|
  {
    exit, down, up, pipeABytes, pipeBBytes := Running, down0, up0, pipeA, pipeB;
    if revents1.err { return SocketError, down, up, pipeABytes, pipeBBytes; }
    if revents2.err { return SocketError, down, up, pipeABytes, pipeBBytes; }
    down := Hang(down, revents2);
    up := Hang(up, revents1);

    var failed;
    down, pipeABytes := SpliceIn(down, pipeABytes, revents2, r.downRead);
    down, pipeABytes, failed := SpliceOut(down, pipeABytes, revents1, r.downWrite);
    if failed { return WriteError, down, up, pipeABytes, pipeBBytes; }

    up, pipeBBytes := SpliceIn(up, pipeBBytes, revents1, r.upRead);
    up, pipeBBytes, failed := SpliceOut(up, pipeBBytes, revents2, r.upWrite);
    if failed { return WriteError, down, up, pipeABytes, pipeBBytes; }

    down := HalfClose(down);
    up := HalfClose(up);
    if up.done && down.done && pipeABytes == 0 && pipeBBytes == 0 { exit := Finished; }
  }

  // ---------- each step of one direction keeps the invariant ----------

  lemma Snoc(log: seq<Event>, e: Event)
    ensures Taken(log + [e]) == Taken(log) + (if e.Took? then e.data else [])
    ensures Given(log + [e]) == Given(log) + (if e.Gave? then e.data else [])
    ensures HasEnded(log + [e]) <==> HasEnded(log) || e.Ended?
    ensures HasHalfClosed(log + [e]) <==> HasHalfClosed(log) || e.HalfClosed?
    ensures Ordered(log + [e]) <==> Ordered(log) && Allowed(log, e)
  {
    var log1 := log + [e];
    assert log1[..|log1| - 1] == log && log1[|log1| - 1] == e;
  }

  lemma HangKeeps(input: seq<byte>, f: Flow, source: Revents)
    requires FlowInv(input, f)
    ensures FlowInv(input, Hang(f, source))
  {
    Snoc(f.log, Ended(Hangup));
  }

  lemma PullKeeps(input: seq<byte>, f: Flow, source: Revents, answer: Read)
    requires FlowInv(input, f)
    ensures FlowInv(input, Pull(f, source, answer))
  {
    Snoc(f.log, Ended(ReadError));
    Snoc(f.log, Ended(Eof));
    if answer.ReadUpTo? && f.pipe == [] {
      var k := ReadCount(f.unread, answer.n);
      Snoc(f.log, Took(f.unread[..k]));
      assert Taken(f.log) + f.unread[..k] + f.unread[k..] == input;
    }
  }

  lemma PushKeeps(input: seq<byte>, f: Flow, sink: Revents, answer: Write)
    requires FlowInv(input, f)
    ensures FlowInv(input, Push(f, sink, answer))
  {
    if answer.WriteUpTo? {
      var k := Min(answer.n, |f.pipe|);
      Snoc(f.log, Gave(f.pipe[..k]));
      assert Given(f.log) + f.pipe[..k] + f.pipe[k..] == Taken(f.log);
    }
  }

  lemma HalfCloseKeeps(input: seq<byte>, f: Flow)
    requires FlowInv(input, f)
    ensures FlowInv(input, HalfClose(f))
  {
    Snoc(f.log, HalfClosed);
  }

  // ---------- runs ----------

  ghost predicate SysInv(fromClient: seq<byte>, fromProxy: seq<byte>, s: Sys) {
    FlowInv(fromProxy, s.down) && FlowInv(fromClient, s.up)
  }

  /** A direction that is done and drained has been half-closed: holds whenever the loop is at its head. */
  predicate Settled(s: Sys) {
    (s.down.done && s.down.pipe == [] ==> s.down.shut) && (s.up.done && s.up.pipe == [] ==> s.up.shut)
  }

  /** The stages of one direction within one round, in the order the loop takes them. */
  lemma StagesKeep(input: seq<byte>, f: Flow, source: Revents, read: Read, sink: Revents, write: Write)
    requires FlowInv(input, f)
    ensures FlowInv(input, Hang(f, source))
    ensures FlowInv(input, Pull(Hang(f, source), source, read))
    ensures FlowInv(input, Push(Pull(Hang(f, source), source, read), sink, write))
    ensures FlowInv(input, HalfClose(Push(Pull(Hang(f, source), source, read), sink, write)))
  {
    HangKeeps(input, f, source);
    PullKeeps(input, Hang(f, source), source, read);
    PushKeeps(input, Pull(Hang(f, source), source, read), sink, write);
    HalfCloseKeeps(input, Push(Pull(Hang(f, source), source, read), sink, write));
  }

  lemma StepKeeps(fromClient: seq<byte>, fromProxy: seq<byte>, s: Sys, r: Round)
    requires FlowInv(fromProxy, s.down) && FlowInv(fromClient, s.up)
    ensures FlowInv(fromProxy, Step(s, r).0.down) && FlowInv(fromClient, Step(s, r).0.up)
  {
    if r.Ready? {
      var client, proxy := s.ClientEvents(r), s.ProxyEvents(r);
      StagesKeep(fromProxy, s.down, proxy, r.downRead, client, r.downWrite);
      StagesKeep(fromClient, s.up, client, r.upRead, proxy, r.upWrite);
      ServeStages(s, r, client, proxy);
    }
  }

  /** Each direction leaves the round after one of its own stages. */
  lemma ServeStages(s: Sys, r: Round, client: Revents, proxy: Revents)
    requires r.Ready?
    ensures var t := Serve(s, r, client, proxy).0;
            var d, u := Pull(Hang(s.down, proxy), proxy, r.downRead), Pull(Hang(s.up, client), client, r.upRead);
            && (t.down == s.down || t.down == d
                || t.down == Push(d, client, r.downWrite) || t.down == HalfClose(Push(d, client, r.downWrite)))
            && (t.up == s.up || t.up == Hang(s.up, client) || t.up == u || t.up == HalfClose(Push(u, proxy, r.upWrite)))
  {
  }

  lemma StepSettles(s: Sys, r: Round)
    requires Settled(s) && Step(s, r).1 in {Running, Finished}
    ensures Settled(Step(s, r).0)
  {
  }

  lemma {:induction false} RunKeeps(fromClient: seq<byte>, fromProxy: seq<byte>, s: Sys, rounds: seq<Round>)
    requires SysInv(fromClient, fromProxy, s) && Settled(s)
    ensures SysInv(fromClient, fromProxy, Run(s, rounds).0)
    ensures Run(s, rounds).1 in {Running, Finished} ==> Settled(Run(s, rounds).0)
    ensures Run(s, rounds).1 == Finished ==> Run(s, rounds).0.Drained()
    decreases |rounds|
  {
    if rounds != [] {
      StepKeeps(fromClient, fromProxy, s, rounds[0]);
      var (s1, exit) := Step(s, rounds[0]);
      if exit in {Running, Finished} {
        StepSettles(s, rounds[0]);
      }
      if exit == Running {
        RunKeeps(fromClient, fromProxy, s1, rounds[1..]);
      }
    }
  }

  lemma StartInv(fromClient: seq<byte>, fromProxy: seq<byte>)
    ensures SysInv(fromClient, fromProxy, Start(fromClient, fromProxy)) && Settled(Start(fromClient, fromProxy))
  {
    assert Taken([]) == [] && Given([]) == [];
  }

  /** Conservation: whatever the kernel answers and however the loop leaves, each direction has delivered
      a prefix of what it took, the rest lies in its pipe, and what it took is a prefix of what was sent. */
  lemma RelayConserves(fromClient: seq<byte>, fromProxy: seq<byte>, rounds: seq<Round>)
    ensures var s := Run(Start(fromClient, fromProxy), rounds).0;
            && Given(s.down.log) + s.down.pipe == Taken(s.down.log)
            && Given(s.up.log) + s.up.pipe == Taken(s.up.log)
            && Taken(s.down.log) + s.down.unread == fromProxy
            && Taken(s.up.log) + s.up.unread == fromClient
            && Ordered(s.down.log) && Ordered(s.up.log)
  {
    StartInv(fromClient, fromProxy);
    RunKeeps(fromClient, fromProxy, Start(fromClient, fromProxy), rounds);
  }

  lemma {:induction false} OrderedPrefix(log: seq<Event>, i: nat)
    requires Ordered(log) && i <= |log|
    ensures Ordered(log[..i])
  {
    if i < |log| {
      OrderedPrefix(log[..|log| - 1], i);
      assert log[..|log| - 1][..i] == log[..i];
    } else {
      assert log[..i] == log;
    }
  }

  lemma AllowedAt(log: seq<Event>, i: nat)
    requires Ordered(log) && i < |log|
    ensures Allowed(log[..i], log[i])
  {
    OrderedPrefix(log, i + 1);
    assert log[..i + 1][..i] == log[..i];
  }

  /** Half-close ordering, for any history the relay can produce: SHUT_WR comes only when the source is
      done and everything taken was delivered, and it is the direction's last act: nothing is taken,
      written or shut again after it. */
  lemma {:induction false} HalfCloseIsLast(log: seq<Event>, i: nat)
    requires Ordered(log) && i < |log| && log[i] == HalfClosed
    ensures i == |log| - 1
    ensures HasEnded(log[..i]) && Given(log[..i]) == Taken(log[..i]) && !HasHalfClosed(log[..i])
  {
    AllowedAt(log, i);
    if i + 1 < |log| {
      assert log[..i + 1] == log[..i] + [HalfClosed];
      Snoc(log[..i], HalfClosed);
      AllowedAt(log, i + 1);
      assert false;
    }
  }

  /** The normal exit leaves nothing behind: all that was taken was delivered and both sides were told. */
  lemma FinishedDeliversAll(fromClient: seq<byte>, fromProxy: seq<byte>, rounds: seq<Round>)
    requires Run(Start(fromClient, fromProxy), rounds).1 == Finished
    ensures var s := Run(Start(fromClient, fromProxy), rounds).0;
            && Given(s.down.log) == Taken(s.down.log) && HasHalfClosed(s.down.log)
            && Given(s.up.log) == Taken(s.up.log) && HasHalfClosed(s.up.log)
  {
    StartInv(fromClient, fromProxy);
    RunKeeps(fromClient, fromProxy, Start(fromClient, fromProxy), rounds);
  }

  // ---------- never stuck, bounded progress ----------

  lemma {:induction false} NeverStuck(s: Sys, rounds: seq<Round>)
    requires !s.Drained()
    ensures Run(s, rounds).1 != NothingToPoll
    ensures Run(s, rounds).1 == Running ==> !Run(s, rounds).0.Drained() && Run(s, rounds).0.Pollable()
    decreases |rounds|
  {
    assert s.Pollable();
    if rounds != [] {
      var (s1, exit) := Step(s, rounds[0]);
      if exit == Running {
        NeverStuck(s1, rounds[1..]);
      }
    }
  }

  /** At every loop head some event is requested on a live descriptor, so the two early exits at the
      top of the loop are never taken. */
  lemma RelayNeverStuck(fromClient: seq<byte>, fromProxy: seq<byte>, rounds: seq<Round>)
    ensures Run(Start(fromClient, fromProxy), rounds).1 != NothingToPoll
    ensures Run(Start(fromClient, fromProxy), rounds).1 == Running
        ==> Run(Start(fromClient, fromProxy), rounds).0.Pollable()
  {
    NeverStuck(Start(fromClient, fromProxy), rounds);
  }

  predicate Moved(f: Flow, g: Flow) { f.unread != g.unread || f.pipe != g.pipe || f.done != g.done }

  predicate Progressed(s: Sys, t: Sys) { Moved(s.down, t.down) || Moved(s.up, t.up) }

  /** Rounds of the run that move a byte or set a done flag. */
  function ProgressRounds(s: Sys, rounds: seq<Round>): nat
    decreases |rounds|
  {
    if rounds == [] then 0
    else
      var (s1, exit) := Step(s, rounds[0]);
      (if Progressed(s, s1) then 1 else 0) + (if exit == Running then ProgressRounds(s1, rounds[1..]) else 0)
  }

  function Work(f: Flow): nat { 2 * |f.unread| + |f.pipe| + (if f.done then 0 else 1) }

  lemma FlowWork(f: Flow, source: Revents, read: Read, sink: Revents, write: Write)
    ensures var g := Pull(Hang(f, source), source, read); var h := HalfClose(Push(g, sink, write));
            && (Moved(f, Hang(f, source)) ==> Work(Hang(f, source)) < Work(f)) && Work(Hang(f, source)) <= Work(f)
            && (Moved(f, g) ==> Work(g) < Work(f)) && Work(g) <= Work(f)
            && (Moved(f, Push(g, sink, write)) ==> Work(Push(g, sink, write)) < Work(f))
            && Work(Push(g, sink, write)) <= Work(f)
            && (Moved(f, h) ==> Work(h) < Work(f)) && Work(h) <= Work(f)
  {
  }

  lemma StepWork(s: Sys, r: Round)
    ensures var t := Step(s, r).0;
            && Work(t.down) + Work(t.up) <= Work(s.down) + Work(s.up)
            && (Progressed(s, t) ==> Work(t.down) + Work(t.up) < Work(s.down) + Work(s.up))
  {
    if r.Ready? {
      var client, proxy := s.ClientEvents(r), s.ProxyEvents(r);
      FlowWork(s.down, proxy, r.downRead, client, r.downWrite);
      FlowWork(s.up, client, r.upRead, proxy, r.upWrite);
    }
  }

  lemma {:induction false} ProgressWithinWork(s: Sys, rounds: seq<Round>)
    ensures ProgressRounds(s, rounds) <= Work(s.down) + Work(s.up)
    decreases |rounds|
  {
    if rounds != [] {
      StepWork(s, rounds[0]);
      if Step(s, rounds[0]).1 == Running {
        ProgressWithinWork(Step(s, rounds[0]).0, rounds[1..]);
      }
    }
  }

  /** However the kernel slices the streams, the useful rounds number at most twice the bytes sent plus two. */
  lemma RelayProgressBounded(fromClient: seq<byte>, fromProxy: seq<byte>, rounds: seq<Round>)
    ensures ProgressRounds(Start(fromClient, fromProxy), rounds) <= 2 * (|fromClient| + |fromProxy|) + 2
  {
    ProgressWithinWork(Start(fromClient, fromProxy), rounds);
  }

  // ---------- what a round has to do ----------

  /** Bytes that wait in the download pipe are written when the client socket is writable: as many as the
      kernel takes, from the front, and the rest stays. */
  lemma DownloadWrites(s: Sys, r: Round, n: nat)
    requires r.Ready? && !r.client.err && !r.proxy.err
    requires s.down.pipe != [] && r.client.pollout && r.downWrite == WriteUpTo(n)
    ensures var t, k := Step(s, r).0.down, Min(n, |s.down.pipe|);
            Given(t.log) == Given(s.down.log) + s.down.pipe[..k] && t.pipe == s.down.pipe[k..]
                && t.unread == s.down.unread
  {
    var client, proxy := s.ClientEvents(r), s.ProxyEvents(r);
    FlowWrites(s.down, proxy, r.downRead, client, n);
    assert Step(s, r) == Serve(s, r, client, proxy);
  }

  /** In a round without errors and failed writes the upload goes through all its stages. */
  lemma UploadStages(s: Sys, r: Round)
    requires !s.Drained() && r.Ready? && !r.client.err && !r.proxy.err && Step(s, r).1 != WriteError
    ensures var client, proxy := s.ClientEvents(r), s.ProxyEvents(r);
            Step(s, r).0.up == HalfClose(Push(Pull(Hang(s.up, client), client, r.upRead), proxy, r.upWrite))
  {
    assert s.Pollable();
    ServeUploads(s, r, s.ClientEvents(r), s.ProxyEvents(r));
  }

  lemma ServeUploads(s: Sys, r: Round, client: Revents, proxy: Revents)
    requires r.Ready? && !client.err && !proxy.err && Serve(s, r, client, proxy).1 != WriteError
    ensures Serve(s, r, client, proxy).0.up
            == HalfClose(Push(Pull(Hang(s.up, client), client, r.upRead), proxy, r.upWrite))
  {
  }

  /** The same for the upload, in every round in which no write fails. */
  lemma UploadWrites(s: Sys, r: Round, n: nat)
    requires r.Ready? && !r.client.err && !r.proxy.err && Step(s, r).1 != WriteError
    requires s.up.pipe != [] && r.proxy.pollout && r.upWrite == WriteUpTo(n)
    ensures var t, k := Step(s, r).0.up, Min(n, |s.up.pipe|);
            Given(t.log) == Given(s.up.log) + s.up.pipe[..k] && t.pipe == s.up.pipe[k..] && t.unread == s.up.unread
  {
    UploadStages(s, r);
    FlowWrites(s.up, s.ClientEvents(r), r.upRead, s.ProxyEvents(r), n);
  }

  lemma HangMovesNothing(f: Flow, source: Revents)
    ensures var g := Hang(f, source);
            Given(g.log) == Given(f.log) && Taken(g.log) == Taken(f.log) && g.pipe == f.pipe && g.unread == f.unread
  {
    Snoc(f.log, Ended(Hangup));
  }

  lemma HalfCloseMovesNothing(f: Flow)
    ensures var g := HalfClose(f);
            Given(g.log) == Given(f.log) && Taken(g.log) == Taken(f.log) && g.pipe == f.pipe && g.unread == f.unread
  {
    Snoc(f.log, HalfClosed);
  }

  lemma PushMoves(f: Flow, sink: Revents, n: nat)
    requires f.pipe != [] && sink.pollout
    ensures var g, k := Push(f, sink, WriteUpTo(n)), Min(n, |f.pipe|);
            Given(g.log) == Given(f.log) + f.pipe[..k] && g.pipe == f.pipe[k..] && g.unread == f.unread
  {
    var k := Min(n, |f.pipe|);
    Snoc(f.log, Gave(f.pipe[..k]));
    if k == 0 {
      assert Given(f.log) + f.pipe[..k] == Given(f.log) && f.pipe[k..] == f.pipe;
    }
  }

  lemma FlowWrites(f: Flow, source: Revents, read: Read, sink: Revents, n: nat)
    requires f.pipe != [] && sink.pollout
    ensures var g := Push(Pull(Hang(f, source), source, read), sink, WriteUpTo(n)); var k := Min(n, |f.pipe|);
            && Given(g.log) == Given(f.log) + f.pipe[..k] && g.pipe == f.pipe[k..] && g.unread == f.unread
            && Given(HalfClose(g).log) == Given(g.log) && HalfClose(g).pipe == g.pipe && HalfClose(g).unread == g.unread
  {
    var h := Hang(f, source);
    HangMovesNothing(f, source);
    assert Pull(h, source, read) == h;
    PushMoves(h, sink, n);
    HalfCloseMovesNothing(Push(h, sink, WriteUpTo(n)));
  }

  /** Bytes that the proxy has sent are taken when the download pipe is empty and the socket readable. */
  lemma DownloadReads(s: Sys, r: Round, n: nat)
    requires r.Ready? && !r.client.err && !r.proxy.err
    requires !s.down.done && s.down.pipe == [] && s.down.unread != [] && r.proxy.pollin && r.downRead == ReadUpTo(n)
    ensures var t, k := Step(s, r).0.down, Min(n + 1, Min(|s.down.unread|, 1048576));
            Taken(t.log) == Taken(s.down.log) + s.down.unread[..k] && t.unread == s.down.unread[k..]
  {
    var client, proxy := s.ClientEvents(r), s.ProxyEvents(r);
    FlowReads(s.down, proxy, n, client, r.downWrite);
    ServeStages(s, r, client, proxy);
    assert Step(s, r) == Serve(s, r, client, proxy);
  }

  /** The same for the upload, in every round in which no write fails. */
  lemma UploadReads(s: Sys, r: Round, n: nat)
    requires r.Ready? && !r.client.err && !r.proxy.err && Step(s, r).1 != WriteError
    requires !s.up.done && s.up.pipe == [] && s.up.unread != [] && r.client.pollin && r.upRead == ReadUpTo(n)
    ensures var t, k := Step(s, r).0.up, Min(n + 1, Min(|s.up.unread|, 1048576));
            Taken(t.log) == Taken(s.up.log) + s.up.unread[..k] && t.unread == s.up.unread[k..]
  {
    UploadStages(s, r);
    FlowReads(s.up, s.ClientEvents(r), n, s.ProxyEvents(r), r.upWrite);
  }

  lemma FlowReads(f: Flow, source: Revents, n: nat, sink: Revents, write: Write)
    requires !f.done && f.pipe == [] && f.unread != [] && source.pollin
    ensures var g := Pull(Hang(f, source), source, ReadUpTo(n)); var h := Push(g, sink, write);
            var k := Min(n + 1, Min(|f.unread|, 1048576));
            && Taken(g.log) == Taken(f.log) + f.unread[..k] && g.unread == f.unread[k..]
            && Taken(h.log) == Taken(g.log) && h.unread == g.unread
            && Taken(HalfClose(h).log) == Taken(g.log) && HalfClose(h).unread == g.unread
  {
    var g := Pull(Hang(f, source), source, ReadUpTo(n));
    var h := Push(g, sink, write);
    Snoc(f.log, Took(f.unread[..ReadCount(f.unread, n)]));
    if write.WriteUpTo? {
      Snoc(g.log, Gave(g.pipe[..Min(write.n, |g.pipe|)]));
    }
    HalfCloseMovesNothing(h);
  }

  /** What ends a source: a hangup that is not reported readable, the end of its stream, or a failed read. */
  predicate Ends(f: Flow, source: Revents, read: Read) {
    || (source.hup && !source.pollin)
    || (source.pollin && f.pipe == [] && (read == ReadFails || (read.ReadUpTo? && f.unread == [])))
  }

  /** Each direction's source is done after a round exactly when it was before or the round ends it. */
  lemma SourcesEndIff(s: Sys, r: Round)
    requires r.Ready? && Step(s, r).1 in {Running, Finished}
    ensures Step(s, r).0.down.done <==> s.down.done || Ends(s.down, s.ProxyEvents(r), r.downRead)
    ensures Step(s, r).0.up.done <==> s.up.done || Ends(s.up, s.ClientEvents(r), r.upRead)
  {
    var client, proxy := s.ClientEvents(r), s.ProxyEvents(r);
    FlowEnds(s.down, proxy, r.downRead, client, r.downWrite);
    FlowEnds(s.up, client, r.upRead, proxy, r.upWrite);
    assert Step(s, r) == Serve(s, r, client, proxy);
  }

  lemma FlowEnds(f: Flow, source: Revents, read: Read, sink: Revents, write: Write)
    ensures HalfClose(Push(Pull(Hang(f, source), source, read), sink, write)).done <==> f.done || Ends(f, source, read)
  {
  }

  /** An interrupted poll changes nothing and the loop goes on; a failed one and an idle minute end it as it
      is, and so does an error on a live socket. */
  lemma RoundsThatMoveNothing(s: Sys, rounds: seq<Round>)
    requires !s.Drained()
    ensures Step(s, Interrupted) == (s, Running) && Run(s, [Interrupted] + rounds) == Run(s, rounds)
    ensures Step(s, PollFails) == (s, PollError) && Step(s, Timeout) == (s, IdleTimeout)
    ensures forall r: Round :: r.Ready? && ((s.ClientLive() && r.client.err) || (s.ProxyLive() && r.proxy.err)) ==>
              Step(s, r) == (s, SocketError)
  {
    assert s.Pollable();
    assert ([Interrupted] + rounds)[1..] == rounds;
  }

  /** A failed write ends the relay, and the bytes it was to write stay in the pipe. */
  lemma FailedWriteEndsRelay(s: Sys, r: Round)
    requires r.Ready? && !r.client.err && !r.proxy.err
    requires s.down.pipe != [] && r.client.pollout && r.downWrite == WriteFails
    ensures Step(s, r).1 == WriteError && Step(s, r).0.down.pipe == s.down.pipe
  {
    assert Step(s, r) == Serve(s, r, s.ClientEvents(r), s.ProxyEvents(r));
  }

  // ---------- a willing kernel sees the relay to its end ----------

  /** Both sockets are readable and writable, without hangup or error, and every splice moves something. */
  predicate Willing(r: Round) {
    && r.Ready? && r.client == Revents(true, true, false, false) && r.proxy == Revents(true, true, false, false)
    && r.downRead.ReadUpTo? && r.upRead.ReadUpTo?
    && r.downWrite.WriteUpTo? && r.downWrite.n > 0 && r.upWrite.WriteUpTo? && r.upWrite.n > 0
  }

  /** A source is given up only at the end of its stream. */
  predicate Patient(s: Sys) { (s.down.done ==> s.down.unread == []) && (s.up.done ==> s.up.unread == []) }

  lemma FlowAdvances(f: Flow, source: Revents, read: Read, sink: Revents, write: Write)
    requires f.done ==> f.unread == []
    requires read.ReadUpTo? && write.WriteUpTo? && write.n > 0 && !source.hup
    requires !f.done && f.pipe == [] ==> source.pollin
    requires f.pipe != [] ==> sink.pollout
    ensures var g := HalfClose(Push(Pull(Hang(f, source), source, read), sink, write));
            && (g.done ==> g.unread == [])
            && Work(g) <= Work(f) && (!f.done || f.pipe != [] ==> Work(g) < Work(f))
  {
  }

  lemma WillingStep(s: Sys, r: Round)
    requires !s.Drained() && Patient(s) && Willing(r)
    ensures var (t, exit) := Step(s, r);
            && Patient(t) && Work(t.down) + Work(t.up) < Work(s.down) + Work(s.up)
            && exit == if t.Drained() then Finished else Running
  {
    var client, proxy := s.ClientEvents(r), s.ProxyEvents(r);
    FlowAdvances(s.down, proxy, r.downRead, client, r.downWrite);
    FlowAdvances(s.up, client, r.upRead, proxy, r.upWrite);
    assert Step(s, r) == Serve(s, r, client, proxy);
  }

  lemma {:induction false} WillingRun(s: Sys, rounds: seq<Round>)
    requires !s.Drained() && Patient(s) && forall i :: 0 <= i < |rounds| ==> Willing(rounds[i])
    requires |rounds| >= Work(s.down) + Work(s.up)
    ensures Run(s, rounds).1 == Finished && Patient(Run(s, rounds).0)
    decreases |rounds|
  {
    assert Work(s.down) + Work(s.up) > 0;
    WillingStep(s, rounds[0]);
    var (t, exit) := Step(s, rounds[0]);
    if exit == Running {
      WillingRun(t, rounds[1..]);
    }
  }

  /** When the kernel is willing, twice as many rounds as bytes were sent, plus two, end the relay by its
      normal exit with everything delivered both ways. */
  lemma WillingKernelGetsAll(fromClient: seq<byte>, fromProxy: seq<byte>, rounds: seq<Round>)
    requires forall i :: 0 <= i < |rounds| ==> Willing(rounds[i])
    requires |rounds| >= 2 * (|fromClient| + |fromProxy|) + 2
    ensures var (s, exit) := Run(Start(fromClient, fromProxy), rounds);
            exit == Finished && Given(s.down.log) == fromProxy && Given(s.up.log) == fromClient
  {
    var s0 := Start(fromClient, fromProxy);
    WillingRun(s0, rounds);
    StartInv(fromClient, fromProxy);
    RunKeeps(fromClient, fromProxy, s0, rounds);
    FinishedDeliversAll(fromClient, fromProxy, rounds);
    RelayConserves(fromClient, fromProxy, rounds);
    var s := Run(s0, rounds).0;
    assert s.down.unread == [] && s.up.unread == [];
    assert Taken(s.down.log) + [] == Taken(s.down.log) && Taken(s.up.log) + [] == Taken(s.up.log);
  }

  // ---------- exactly when the normal exit delivers all that was sent ----------

  /** The source is given up with bytes still unread: a hangup is seen while POLLIN is not asked for
      because the pipe is still full, or a read fails. */
  predicate CutsShort(f: Flow, source: Revents, read: Read) {
    && !f.done && f.unread != []
    && ((source.hup && !source.pollin) || (source.pollin && f.pipe == [] && read == ReadFails))
  }

  predicate DownCut(s: Sys, rounds: seq<Round>)
    decreases |rounds|
  {
    rounds != []
    && var r := rounds[0];
      || (r.Ready? && CutsShort(s.down, s.ProxyEvents(r), r.downRead))
      || (Step(s, r).1 == Running && DownCut(Step(s, r).0, rounds[1..]))
  }

  predicate UpCut(s: Sys, rounds: seq<Round>)
    decreases |rounds|
  {
    rounds != []
    && var r := rounds[0];
      || (r.Ready? && CutsShort(s.up, s.ClientEvents(r), r.upRead))
      || (Step(s, r).1 == Running && UpCut(Step(s, r).0, rounds[1..]))
  }

  /** A hangup can only cut a direction short while its pipe is still full. */
  lemma CutOnlyWhilePipeFull(s: Sys, r: Round)
    requires r.Ready? && r.downRead != ReadFails && r.upRead != ReadFails
    ensures CutsShort(s.down, s.ProxyEvents(r), r.downRead) ==> s.down.pipe != []
    ensures CutsShort(s.up, s.ClientEvents(r), r.upRead) ==> s.up.pipe != []
  {
  }

  /** One direction over one round: once done its source is never read again; it becomes done with
      bytes unread exactly when the round cuts it short. */
  lemma FlowLoses(f: Flow, source: Revents, read: Read, sink: Revents, write: Write)
    ensures var g := HalfClose(Push(Pull(Hang(f, source), source, read), sink, write));
            && (f.done ==> g.done && g.unread == f.unread)
            && (CutsShort(f, source, read) ==> g.done && g.unread != [])
            && (!f.done && g.done && g.unread != [] ==> CutsShort(f, source, read))
  {
  }

  lemma StepLoses(s: Sys, r: Round)
    requires r.Ready? && Step(s, r).1 in {Running, Finished}
    ensures var t := Step(s, r).0;
            && (s.down.done ==> t.down.done && t.down.unread == s.down.unread)
            && (CutsShort(s.down, s.ProxyEvents(r), r.downRead) ==> t.down.done && t.down.unread != [])
            && (!s.down.done && t.down.done && t.down.unread != [] ==> CutsShort(s.down, s.ProxyEvents(r), r.downRead))
            && (s.up.done ==> t.up.done && t.up.unread == s.up.unread)
            && (CutsShort(s.up, s.ClientEvents(r), r.upRead) ==> t.up.done && t.up.unread != [])
            && (!s.up.done && t.up.done && t.up.unread != [] ==> CutsShort(s.up, s.ClientEvents(r), r.upRead))
  {
    var client, proxy := s.ClientEvents(r), s.ProxyEvents(r);
    FlowLoses(s.down, proxy, r.downRead, client, r.downWrite);
    FlowLoses(s.up, client, r.upRead, proxy, r.upWrite);
  }

  lemma {:induction false} RestIsLostIffCut(s: Sys, rounds: seq<Round>)
    requires Run(s, rounds).1 == Finished
    ensures if s.down.done then Run(s, rounds).0.down.unread == s.down.unread && !DownCut(s, rounds)
            else (Run(s, rounds).0.down.unread != [] <==> DownCut(s, rounds))
    ensures if s.up.done then Run(s, rounds).0.up.unread == s.up.unread && !UpCut(s, rounds)
            else (Run(s, rounds).0.up.unread != [] <==> UpCut(s, rounds))
    decreases |rounds|
  {
    var r := rounds[0];
    var (t, exit) := Step(s, r);
    if r.Ready? {
      StepLoses(s, r);
    }
    if exit == Running {
      RestIsLostIffCut(t, rounds[1..]);
    }
  }

  /** On the normal exit a direction has delivered all that its peer sent exactly when no round of the
      run gave its source up early. */
  lemma FinishedDeliversEverythingSentIff(fromClient: seq<byte>, fromProxy: seq<byte>, rounds: seq<Round>)
    requires Run(Start(fromClient, fromProxy), rounds).1 == Finished
    ensures var s0 := Start(fromClient, fromProxy); var s := Run(s0, rounds).0;
            && (Given(s.down.log) == fromProxy <==> !DownCut(s0, rounds))
            && (Given(s.up.log) == fromClient <==> !UpCut(s0, rounds))
  {
    var s0 := Start(fromClient, fromProxy);
    RestIsLostIffCut(s0, rounds);
    RelayConserves(fromClient, fromProxy, rounds);
    FinishedDeliversAll(fromClient, fromProxy, rounds);
    var s := Run(s0, rounds).0;
    assert |Taken(s.down.log)| + |s.down.unread| == |fromProxy|;
    assert |Taken(s.up.log)| + |s.up.unread| == |fromClient|;
  }

  /** A run on which the normal exit loses a byte: the client has finished, the first of two proxy bytes
      sits in the pipe, and the hangup that follows ends the download with the second byte unread. */
  function LossyRun(): seq<Round> {
    var nothing := QUIET;
    [ Ready(Revents(true, false, false, false), Revents(true, false, false, false),
            ReadUpTo(0), WriteAgain, ReadUpTo(0), WriteAgain),
      Ready(nothing, Revents(false, false, true, false), ReadAgain, WriteAgain, ReadAgain, WriteAgain),
      Ready(Revents(false, true, false, false), nothing, ReadAgain, WriteUpTo(1), ReadAgain, WriteAgain) ]
  }

  lemma LossySteps(b: byte, c: byte) returns (s1: Sys, s2: Sys, s3: Sys)
    ensures Step(Start([], [b, c]), LossyRun()[0]) == (s1, Running)
    ensures Step(s1, LossyRun()[1]) == (s2, Running)
    ensures Step(s2, LossyRun()[2]) == (s3, Finished) && s3.down.unread == [c]
  {
    var s0 := Start([], [b, c]);
    s1 := Step(s0, LossyRun()[0]).0;
    assert s0.down.unread[..1] == [b] && s0.down.unread[1..] == [c];
    assert s1.down.pipe == [b] && s1.down.unread == [c] && s1.up.done && s1.up.pipe == [];
    s2 := Step(s1, LossyRun()[1]).0;
    assert s2.down.pipe == [b] && s2.down.unread == [c] && s2.down.done && s2.up == s1.up;
    s3 := Step(s2, LossyRun()[2]).0;
    assert s2.down.pipe[1..] == [];
  }

  lemma HangupLosesBytes(b: byte, c: byte)
    ensures var (s, exit) := Run(Start([], [b, c]), LossyRun());
            exit == Finished && Given(s.down.log) == [b] && s.down.unread == [c]
  {
    var rounds := LossyRun();
    var s1, s2, s3 := LossySteps(b, c);
    assert rounds[1..][0] == rounds[1] && rounds[1..][1..][0] == rounds[2];
    assert Run(s2, rounds[1..][1..]) == (s3, Finished);
    assert Run(s1, rounds[1..]) == (s3, Finished);
    FinishedDeliversAll([], [b, c], rounds);
    RelayConserves([], [b, c], rounds);
    assert Taken(s3.down.log) == [b] by {
      assert Taken(s3.down.log) + [c] == [b, c];
      assert |Taken(s3.down.log)| == 1 && Taken(s3.down.log)[0] == (Taken(s3.down.log) + [c])[0];
    }
  }
}
