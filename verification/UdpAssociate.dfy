/** The life cycle of the SOCKS5 UDP association: a TCP control socket and a UDP send socket that are
    opened, replaced and torn down while the relay loop runs. */
module UdpAssociate {
  import opened Net

  const RETRY_MS := 5000
  const CLOSED := -1

  /** Descriptors, numbered by order of opening so that each opening can be told apart. */
  class Descriptors {
    var next: nat
    ghost var open: set<int>
    ghost var closed: seq<int>

    /** Every descriptor ever opened is either open or has been closed, and closed only once. */
    ghost predicate Valid()
      reads this
    {
      && (forall fd :: 0 <= fd < next <==> fd in open || fd in closed)
      && (forall fd :: fd in open ==> fd !in closed)
      && (forall i, j :: 0 <= i < j < |closed| ==> closed[i] != closed[j])
    }

    constructor ()
      ensures Valid() && open == {} && closed == []
    {
      next, open, closed := 0, {}, [];
    }

    method Socket(ok: bool) returns (fd: int)
      requires Valid()
      modifies this
      ensures Valid() && closed == old(closed)
      ensures if ok then fd >= 0 && fd !in old(open) && open == old(open) + {fd} else fd == CLOSED && open == old(open)
      ensures next == (if ok then old(next) + 1 else old(next)) && (ok ==> fd == old(next))
    {
      if !ok {
        return CLOSED;
      }
      fd := next;
      next, open := next + 1, open + {fd};
    }

    method Close(fd: int)
      requires Valid() && fd in open
      modifies this
      ensures Valid() && open == old(open) - {fd} && closed == old(closed) + [fd] && next == old(next)
    {
      open, closed := open - {fd}, closed + [fd];
    }
  }

  /** How far an attempt to set up the association gets. */
  datatype Attempt = Attempt(tcpSocket: bool, resolved: bool, connected: bool, associated: bool, udpSocket: bool)

  /** `Unusable` is a datagram that is too short, fragmented or not IPv4. */
  datatype Recv = Data | Unusable | WouldBlock | Fails

  /** One turn of the relay loop as poll, the sockets and the clock answer it. */
  datatype Round =
    | Quiet
    | Ready(now: uint64, controlEvent: bool, controlDead: bool, clientIn: bool, clientData: bool, attempt: Attempt,
            known: bool, fits: bool, sendFails: bool, proxyIn: bool, proxyRecv: Recv, proxyHangup: bool)

  /** The clock of the rounds never runs backwards, starting from `from`. */
  predicate Monotone(from: uint64, rounds: seq<Round>)
    decreases |rounds|
  {
    rounds == [] || (if rounds[0].Quiet? then Monotone(from, rounds[1..])
                     else from <= rounds[0].now && Monotone(rounds[0].now, rounds[1..]))
  }

  // ---------- what a turn does, from its events ----------

  predicate Succeeds(a: Attempt) { a.tcpSocket && a.resolved && a.connected && a.associated && a.udpSocket }

  /** Client data arrives while 5000 ms have passed since the last attempt. */
  predicate Tries(r: Round, lastAttempt: uint64) {
    r.Ready? && r.clientIn && r.clientData && r.now - lastAttempt >= 5000
  }

  /** A client datagram goes as far as the send to the proxy, and the send fails. */
  predicate SendBreaks(r: Round) { r.Ready? && r.clientIn && r.clientData && r.known && r.fits && r.sendFails }

  /** The turn goes on to the proxy's answers: no client datagram ended it. */
  predicate GoesOn(r: Round) { r.Ready? && (r.clientIn ==> r.clientData && r.known && r.fits) }

  /** The turn of a connected relay ends the association: the control socket is dead, a send fails, a receive
      fails, or the send socket hangs up and no answer ended the turn before. */
  predicate Breaks(r: Round) {
    && r.Ready?
    && (|| (r.controlEvent && r.controlDead)
        || SendBreaks(r)
        || (GoesOn(r) && r.proxyIn && r.proxyRecv == Fails)
        || (GoesOn(r) && r.proxyHangup && (!r.proxyIn || r.proxyRecv == Data)))
  }

  /** The association as the relay's fields tell it, with the times of all attempts. */
  datatype Link = Link(connected: bool, lastAttempt: uint64, attempts: seq<uint64>)

  function After(l: Link, r: Round): Link {
    if l.connected then l.(connected := !Breaks(r))
    else if Tries(r, l.lastAttempt) then Link(Succeeds(r.attempt) && !SendBreaks(r), r.now, l.attempts + [r.now])
    else l
  }

  function Run(l: Link, rounds: seq<Round>): Link {
    if rounds == [] then l else After(Run(l, rounds[..|rounds| - 1]), rounds[|rounds| - 1])
  }

  /** Round `i` of the run connects. */
  predicate Connects(l: Link, rounds: seq<Round>, i: nat) {
    && i < |rounds|
    && var before := Run(l, rounds[..i]);
      && !before.connected && Tries(rounds[i], before.lastAttempt)
      && Succeeds(rounds[i].attempt) && !SendBreaks(rounds[i])
  }

  predicate NoBreakFrom(rounds: seq<Round>, i: nat) { forall j :: i <= j < |rounds| ==> !Breaks(rounds[j]) }

  /** After a run the relay is connected exactly when some round connected it, or it was connected to begin
      with, and no round since has broken the association. */
  lemma {:induction false} ConnectedIff(l: Link, rounds: seq<Round>)
    ensures Run(l, rounds).connected
            <==> || (l.connected && NoBreakFrom(rounds, 0))
                 || exists i: nat :: Connects(l, rounds, i) && NoBreakFrom(rounds, i + 1)
  {
    if rounds != [] {
      var n := |rounds| - 1;
      var before, last := rounds[..n], rounds[n];
      ConnectedIff(l, before);
      forall i: nat | i < n
        ensures Connects(l, rounds, i) == Connects(l, before, i)
      {
        assert before[..i] == rounds[..i];
      }
      forall i: nat | i <= n
        ensures NoBreakFrom(rounds, i) == (NoBreakFrom(before, i) && !Breaks(last))
      {
        assert forall j :: 0 <= j < n ==> before[j] == rounds[j];
      }
      if Run(l, rounds).connected {
        if Run(l, before).connected {
          if !(l.connected && NoBreakFrom(before, 0)) {
            var i: nat :| Connects(l, before, i) && NoBreakFrom(before, i + 1);
            assert Connects(l, rounds, i) && NoBreakFrom(rounds, i + 1);
          }
        } else {
          assert Connects(l, rounds, n) && NoBreakFrom(rounds, n + 1);
        }
      } else {
        forall i: nat | Connects(l, rounds, i)
          ensures !NoBreakFrom(rounds, i + 1)
        {
          assert i == n || Connects(l, before, i);
        }
      }
    }
  }

  class UdpRelay {
    const fds: Descriptors
    var relay: int
    var control: int
    var send: int
    var connected: bool
    var lastAttempt: uint64
    ghost var attempts: seq<uint64>  // when each connection attempt was made

    ghost predicate Valid()
      reads this, fds
    {
      && fds.Valid()
      && (connected <==> control >= 0 && send >= 0)
      && (control >= 0 <==> send >= 0)
      && Tidy() && Spaced()
    }

    ghost function State(): Link
      reads this
    {
      Link(connected, lastAttempt, attempts)
    }

    /** The open descriptors are exactly those the relay still knows, each under one name. */
    ghost predicate Tidy()
      reads this, fds
    {
      && CLOSED <= relay && CLOSED <= control && CLOSED <= send
      && fds.open == {relay, control, send} - {CLOSED}
      && (control >= 0 ==> control != relay && control != send) && (send >= 0 ==> send != relay)
    }

    ghost predicate Spaced()
      reads this
    {
      && (forall i, j :: 0 <= i < j < |attempts| ==> attempts[j] - attempts[i] >= RETRY_MS)
      && (forall i :: 0 <= i < |attempts| ==> attempts[i] <= lastAttempt)
    }

    constructor ()
      ensures Valid() && fresh(fds) && fds.open == {} && fds.closed == []
      ensures attempts == [] && !connected && lastAttempt == 0
    {
      fds := new Descriptors();
      relay, control, send, connected, lastAttempt, attempts := CLOSED, CLOSED, CLOSED, false, 0, [];
    }

    method CloseBoth()
      requires fds.Valid() && Tidy()
      modifies this, fds
      ensures fds.Valid() && Tidy() && control == send == CLOSED
      ensures relay == old(relay) && connected == old(connected)
      ensures lastAttempt == old(lastAttempt) && attempts == old(attempts)
      ensures fds.closed == old(fds.closed) + (if old(control) >= 0 then [old(control)] else [])
                            + (if old(send) >= 0 then [old(send)] else [])
      ensures fds.next == old(fds.next)
    {
      if control >= 0 {
        fds.Close(control);
        control := CLOSED;
      }
      if send >= 0 {
        fds.Close(send);
        send := CLOSED;
      }
    }

    method Teardown()
      requires Valid()
      modifies this, fds
      ensures Valid() && !connected && control == send == CLOSED && relay == old(relay)
      ensures lastAttempt == old(lastAttempt) && attempts == old(attempts)
      ensures fds.closed == old(fds.closed) + (if old(connected) then [old(control), old(send)] else [])
      ensures fds.next == old(fds.next)
    {
      connected := false;
      CloseBoth();
    }

    /** Tries to set the association up, at most once every 5000 ms.  Both callers call it only while
        not connected. */
    method Establish(now: uint64, a: Attempt) returns (ok: bool)
      requires Valid() && !connected && lastAttempt <= now
      modifies this, fds
      ensures Valid() && ok == connected && relay == old(relay)
      ensures ok <==> now - old(lastAttempt) >= 5000 && a == Attempt(true, true, true, true, true)
      ensures attempts == if now - old(lastAttempt) >= 5000 then old(attempts) + [now] else old(attempts)
      ensures lastAttempt == if now - old(lastAttempt) >= 5000 then now else old(lastAttempt)
      ensures ok ==> fds.closed == old(fds.closed) && control >= old(fds.next) && send >= old(fds.next)
      ensures now - old(lastAttempt) < 5000 ==> fds.closed == old(fds.closed) && fds.next == old(fds.next)
    {
      if Elapsed(now, lastAttempt) < RETRY_MS {
        return false;
      }
      lastAttempt, attempts := now, attempts + [now];
      CloseBoth();
      ok := Connect(a);
    }

    /** Opens the control socket, negotiates over it and opens the send socket; whatever was opened is
        closed again when a later step fails. */
    method Connect(a: Attempt) returns (ok: bool)
      requires fds.Valid() && Tidy() && control == send == CLOSED && !connected
      modifies this, fds
      ensures fds.Valid() && Tidy() && ok == connected == (a == Attempt(true, true, true, true, true))
      ensures (control >= 0 <==> ok) && (send >= 0 <==> ok)
      ensures ok ==> fds.closed == old(fds.closed) && control >= old(fds.next) && send >= old(fds.next)
      ensures relay == old(relay) && lastAttempt == old(lastAttempt) && attempts == old(attempts)
    {
      var tcp := fds.Socket(a.tcpSocket);
      if tcp < 0 {
        return false;
      }
      if !a.resolved {
        fds.Close(tcp);
        return false;
      }
      if !a.connected {
        fds.Close(tcp);
        return false;
      }
      if !a.associated {
        fds.Close(tcp);
        return false;
      }
      control := tcp;
      send := fds.Socket(a.udpSocket);
      if send < 0 {
        fds.Close(control);
        control := CLOSED;
        return false;
      }
      connected := true;
      return true;
    }

    /** One turn of the relay loop.  The descriptors to watch are fixed before the turn starts, so the
        proxy branch may run on a send socket that the client branch has just closed. */
    method Turn(r: Round)
      requires Valid() && (r.Ready? ==> lastAttempt <= r.now)
      modifies this, fds
      ensures Valid() && relay == old(relay) && State() == After(old(State()), r)
      // an association that ends closes both its sockets, each once
      ensures old(connected) && Breaks(r) ==>
                && !connected && control == send == CLOSED
                && fds.closed == old(fds.closed) + [old(control), old(send)] && fds.next == old(fds.next)
      // client data while unconnected makes one attempt once 5000 ms have passed; success opens both sockets
      ensures !old(connected) && Tries(r, old(lastAttempt)) ==>
                && attempts == old(attempts) + [r.now] && lastAttempt == r.now
                && (connected <==> Succeeds(r.attempt) && !SendBreaks(r))
                && (connected ==> fds.closed == old(fds.closed) && control >= old(fds.next) && send >= old(fds.next))
      // every other turn leaves everything as it was
      ensures (if old(connected) then !Breaks(r) else !Tries(r, old(lastAttempt))) ==>
                && State() == old(State()) && control == old(control) && send == old(send)
                && fds.closed == old(fds.closed) && fds.next == old(fds.next)
    {
      var watchSend := connected && send >= 0;
      var watchControl := connected && control >= 0;
      if r.Quiet? {
        return;
      }
      if watchControl && r.controlEvent {
        if r.controlDead {
          Teardown();
          return;
        }
      }
      if r.clientIn {
        if !r.clientData {
          return;
        }
        if !connected {
          var ok := Establish(r.now, r.attempt);
          if !ok {
            return;
          }
        }
        if !r.known {
          return;
        }
        if !r.fits {
          return;
        }
        if r.sendFails {
          Teardown();
        }
      }
      if watchSend && r.proxyIn {
        // receiving on a closed descriptor fails outright
        var got := if send < 0 then Fails else r.proxyRecv;
        match got {
          case Fails =>
            Teardown();
            return;
          case WouldBlock => return;
          case Unusable => return;
          case Data =>
        }
      }
      if watchSend && r.proxyHangup {
        Teardown();
      }
    }

    /** The relay loop over any sequence of rounds. */
    method Loop(rounds: seq<Round>)
      requires Valid() && Monotone(lastAttempt, rounds)
      modifies this, fds
      ensures Valid() && relay == old(relay) && State() == Run(old(State()), rounds)
    {
      ghost var clock := lastAttempt;
      for i := 0 to |rounds|
        invariant Valid() && relay == old(relay)
        invariant lastAttempt <= clock && Monotone(clock, rounds[i..])
        invariant State() == Run(old(State()), rounds[..i])
      {
        assert rounds[i..][0] == rounds[i] && rounds[i..][1..] == rounds[i + 1..];
        assert rounds[..i + 1][..i] == rounds[..i];
        Turn(rounds[i]);
        if rounds[i].Ready? {
          clock := rounds[i].now;
        }
      }
      assert rounds[..|rounds|] == rounds;
    }

    /** The relay thread from start to end: it makes a first attempt, further ones as the rounds ask for
        them, and when it is done every descriptor it ever opened has been closed exactly once. */
    method Serve(relaySocket: bool, bound: bool, now: uint64, first: Attempt, rounds: seq<Round>)
      requires Valid() && !connected && fds.open == {} && lastAttempt <= now && Monotone(now, rounds)
      modifies this, fds
      ensures fds.Valid() && fds.open == {} && !connected
      ensures forall fd :: 0 <= fd < fds.next <==> fd in fds.closed
      ensures forall i, j :: 0 <= i < j < |fds.closed| ==> fds.closed[i] != fds.closed[j]
      ensures forall i, j :: 0 <= i < j < |attempts| ==> attempts[j] - attempts[i] >= RETRY_MS
      ensures attempts == if relaySocket && bound then Run(Started(old(State()), now, first), rounds).attempts
                          else old(attempts)
    {
      relay := fds.Socket(relaySocket);
      if relay < 0 {
        return;
      }
      if !bound {
        fds.Close(relay);
        relay := CLOSED;
        return;
      }
      connected := Establish(now, first);
      MonotoneEarlier(lastAttempt, now, rounds);
      Loop(rounds);
      Teardown();
      if relay >= 0 {
        fds.Close(relay);
      }
    }
  }

  /** The association after the attempt that the relay makes when it starts. */
  function Started(l: Link, now: uint64, first: Attempt): Link {
    if now - l.lastAttempt >= 5000 then Link(Succeeds(first), now, l.attempts + [now]) else l
  }

  lemma {:induction false} MonotoneEarlier(from: uint64, now: uint64, rounds: seq<Round>)
    requires from <= now && Monotone(now, rounds)
    ensures Monotone(from, rounds)
    decreases |rounds|
  {
    if rounds != [] && rounds[0].Quiet? {
      MonotoneEarlier(from, now, rounds[1..]);
    }
  }
}
