/**
 The RabbitMQ connection and channel objects. The network is an object of its own that makes and
 kills connections; what it does next is an input. Between two operations of one user, others may
 have used the manager.
 */
module RabbitMq {
  import opened Wrappers
  import opened Errors
  import opened ConnectionProtocol

  const MANAGER_CLOSED := External("rabbitmq connection closed", [])
  const CONNECTION_DEAD := External("channel/connection is not open", [])

  /** One dial: `None` for success. */
  type DialOutcome = Option<Error>

  function Successes(outcomes: seq<DialOutcome>): (oks: seq<bool>)
    ensures |oks| == |outcomes|
    ensures forall i :: 0 <= i < |oks| ==> oks[i] == outcomes[i].None?
  {
    seq(|outcomes|, i requires 0 <= i < |outcomes| => outcomes[i].None?)
  }

  /** What is reported when no dial succeeds: the error of the last. */
  function LastDialError(outcomes: seq<DialOutcome>): Error
    requires outcomes != [] && outcomes[|outcomes| - 1].Some?
  {
    Wrap(Annotated, "dial rabbitmq after 5 attempts", outcomes[|outcomes| - 1].value)
  }

  class Network {
    var live: set<nat>
    var next: nat
    var dials: nat

    constructor ()
      ensures live == {} && next == 0 && dials == 0
    {
      live, next, dials := {}, 0, 0;
    }

    method Dial(outcome: DialOutcome) returns (r: Result<nat, Error>)
      modifies this
      ensures dials == old(dials) + 1
      ensures outcome.Some? ==> r == Failure(outcome.value) && live == old(live) && next == old(next)
      ensures outcome.None? ==> r == Success(old(next)) && live == old(live) + {old(next)} && next == old(next) + 1
    {
      dials := dials + 1;
      if outcome.Some? {
        return Failure(outcome.value);
      }
      r := Success(next);
      live, next := live + {next}, next + 1;
    }
  }

  /** What an opening call returns: the connection, or why there is none. */
  function OpenResult(s: Shared, outcomes: seq<DialOutcome>): Result<nat, Error>
    requires |outcomes| == DIAL_ATTEMPTS
  {
    match OpenAnswer(s, Successes(outcomes))
    case Connection(id) => Success(id)
    case ManagerClosed => Failure(MANAGER_CLOSED)
    case DialFailed => Failure(LastDialError(outcomes))
  }

  class RabbitMqConnection {
    const net: Network
    var conn: Option<nat>
    var closed: bool

    constructor (net: Network)
      ensures this.net == net && conn == None && !closed
    {
      this.net := net;
      conn, closed := None, false;
    }

    function Abs(): Shared
      reads this, net
    {
      Shared(conn, closed, net.live, net.next, net.dials)
    }

    /** Up to five dials; the error of the last is reported when all fail. */
    method ReconnectLocked(outcomes: seq<DialOutcome>) returns (err: Option<Error>)
      requires |outcomes| == DIAL_ATTEMPTS
      modifies this, net
      ensures old(closed) ==> Abs() == old(Abs()) && err == Some(MANAGER_CLOSED)
      ensures !old(closed) ==>
                var i := FirstSuccess(Successes(outcomes));
                if i < DIAL_ATTEMPTS then
                  err.None? && Abs() == Dialled(old(Abs()).(dials := old(Abs()).dials + i))
                else
                  && err == Some(LastDialError(outcomes))
                  && Abs() == old(Abs()).(dials := old(Abs()).dials + DIAL_ATTEMPTS)
    {
      if closed {
        return Some(MANAGER_CLOSED);
      }
      var lastErr: Option<Error> := None;
      for attempt := 0 to DIAL_ATTEMPTS
        invariant forall k :: 0 <= k < attempt ==> outcomes[k].Some?
        invariant attempt > 0 ==> lastErr == outcomes[attempt - 1]
        invariant Abs() == old(Abs()).(dials := old(Abs()).dials + attempt)
      {
        var dialled := net.Dial(outcomes[attempt]);
        if dialled.Success? {
          conn := Some(dialled.value);
          assert FirstSuccess(Successes(outcomes)) == attempt;
          return None;
        }
        lastErr := Some(dialled.error);
      }
      return Some(Wrap(Annotated, "dial rabbitmq after 5 attempts", lastErr.value));
    }

    method OpenConnection(outcomes: seq<DialOutcome>) returns (r: Result<nat, Error>)
      requires |outcomes| == DIAL_ATTEMPTS
      modifies this, net
      ensures Abs() == Opened(old(Abs()), Successes(outcomes))
      ensures r == OpenResult(old(Abs()), outcomes)
      ensures r.Success? ==> Abs().conn == Some(r.value) && r.value in Abs().live
    {
      if closed {
        return Failure(MANAGER_CLOSED);
      }
      if conn.Some? && conn.value in net.live {
        return Success(conn.value);
      }
      var err := ReconnectLocked(outcomes);
      if err.Some? {
        return Failure(err.value);
      }
      return Success(conn.value);
    }

    /** Closing is irreversible and leaves the manager's connection closed, whatever closing an open one reports. */
    method Close(outcome: Option<Error>) returns (err: Option<Error>)
      modifies this, net
      ensures err == if old(HasLiveConnection(Abs())) then outcome else None
      ensures Abs() == Closed(old(Abs()))
      ensures closed && (old(SharedOk(Abs())) ==> net.live == {})
    {
      closed := true;
      if conn.None? || conn.value !in net.live {
        return None;
      }
      net.live := net.live - {conn.value};
      return outcome;
    }

    /** Whatever other users and the network have made of the manager meanwhile. */
    method Meanwhile(to: Shared)
      requires SharedOk(Abs())
      modifies this, net
      ensures SharedOk(Abs())
      ensures Abs() == After(old(Abs()), to)
    {
      if MayBecome(Abs(), to) {
        conn, closed := to.conn, to.closed;
        net.live, net.next, net.dials := to.live, to.next, to.dials;
      }
    }
  }

  /** Closed stays closed, numbers are not reused, the dead stay dead. */
  predicate MayBecome(s: Shared, t: Shared) {
    && SharedOk(t)
    && (s.closed ==> t.closed && t.dials == s.dials)
    && s.next <= t.next && s.dials <= t.dials
    && (forall id :: id in t.live && id < s.next ==> id in s.live)
  }

  function After(s: Shared, to: Shared): Shared {
    if MayBecome(s, to) then to else s
  }

  /** What others may have made of the manager is what a run of the protocol allows. */
  lemma {:induction false} RunsAreMeanwhile(trace: seq<State>, labels: seq<Label>, j: nat, k: nat)
    requires IsRun(trace, labels) && j <= k < |trace|
    ensures MayBecome(trace[j].shared, trace[k].shared)
    decreases k - j
  {
    ConnectionSafety(trace, labels, j);
    ConnectionSafety(trace, labels, k);
    if j < k {
      RunsAreMeanwhile(trace, labels, j, k - 1);
      ConnectionSafety(trace, labels, k - 1);
      OneStepMeanwhile(trace[k - 1], labels[k - 1]);
    }
  }

  lemma OneStepMeanwhile(s: State, l: Label)
    requires Ok(s)
    ensures MayBecome(s.shared, Next(s, l).shared)
  {
    NextOk(s, l);
  }

  // ---------- Channels ----------

  datatype Channel = Channel(conn: nat)

  /**
   What one attempt at a channel meets: the outcomes of dials, what others do between getting the
   connection and using it, the network's refusal if any, and what happens before a failed attempt
   is looked into.
   */
  datatype Try = Try(dials: seq<DialOutcome>, meanwhile: Shared, refusal: Option<Error>, after: Shared)

  /** The outcome of opening a channel: whose channel it is or the error, the attempts and the dials made. */
  datatype Opening = Opening(shared: Shared, channel: Result<nat, Error>, tries: nat, dials: int)

  /** What asking this connection for a channel returns. */
  function ChannelOf(s: Shared, id: nat, refusal: Option<Error>): Result<nat, Error> {
    if id !in s.live then Failure(CONNECTION_DEAD)
    else if refusal.Some? then Failure(refusal.value)
    else Success(id)
  }

  function FirstTry(s: Shared, t: Try): Opening
    requires |t.dials| == DIAL_ATTEMPTS
  {
    var after := Opened(s, Successes(t.dials));
    match OpenResult(s, t.dials)
    case Failure(e) => Opening(after, Failure(e), 0, after.dials - s.dials)
    case Success(id) =>
      var used := After(after, t.meanwhile);
      Opening(used, ChannelOf(used, id, t.refusal), 1, after.dials - s.dials)
  }

  function OpenTwice(s: Shared, first: Try, second: Try): Opening
    requires |first.dials| == |second.dials| == DIAL_ATTEMPTS
  {
    var one := FirstTry(s, first);
    if one.channel.Success? || one.tries == 0 then one
    else
      var seen := After(one.shared, first.after);
      if OpenResult(s, first.dials).value in seen.live then one.(shared := seen)
      else
        var two := FirstTry(seen, second);
        Opening(two.shared, two.channel, one.tries + two.tries, one.dials + two.dials)
  }

  class RabbitMqChannel {
    const connection: RabbitMqConnection
    var channel: Option<Channel>
    var tries: nat // attempts at a channel made through this object

    constructor (connection: RabbitMqConnection)
      ensures this.connection == connection && channel == None && tries == 0
    {
      this.connection := connection;
      channel, tries := None, 0;
    }

    /** `conn.Channel()`: fails on a dead connection, and may be refused on a live one. */
    method TryChannel(conn: nat, refusal: Option<Error>) returns (r: Result<Channel, Error>)
      modifies this`tries
      ensures tries == old(tries) + 1
      ensures var c := ChannelOf(connection.Abs(), conn, refusal);
              r == if c.Success? then Success(Channel(conn)) else Failure(c.error)
    {
      tries := tries + 1;
      if conn !in connection.net.live {
        return Failure(CONNECTION_DEAD);
      }
      if refusal.Some? {
        return Failure(refusal.value);
      }
      return Success(Channel(conn));
    }

    /** `dialled` is the number of dials this call made itself. */
    method OpenChannel(first: Try, second: Try) returns (err: Option<Error>, dialled: int)
      requires |first.dials| == |second.dials| == DIAL_ATTEMPTS
      requires SharedOk(connection.Abs())
      modifies this, connection, connection.net
      ensures var r := OpenTwice(old(connection.Abs()), first, second);
              && connection.Abs() == r.shared
              && tries == old(tries) + r.tries && dialled == r.dials
              && err == (if r.channel.Success? then None else Some(r.channel.error))
              && channel == if r.channel.Success? then Some(Channel(r.channel.value)) else old(channel)
      ensures SharedOk(connection.Abs())
    {
      hide Opened, OpenAnswer, MayBecome;
      ghost var start := connection.Abs();
      OpenedIsOk(start, Successes(first.dials));
      var dialsBefore := connection.net.dials;
      var conn := connection.OpenConnection(first.dials);
      dialled := connection.net.dials - dialsBefore;
      if conn.Failure? {
        return Some(conn.error), dialled;
      }
      connection.Meanwhile(first.meanwhile);
      var ch := TryChannel(conn.value, first.refusal);
      if ch.Failure? {
        connection.Meanwhile(first.after);
        if conn.value in connection.net.live {
          return Some(ch.error), dialled;
        }
        OpenedIsOk(connection.Abs(), Successes(second.dials));
        dialsBefore := connection.net.dials;
        conn := connection.OpenConnection(second.dials);
        dialled := dialled + connection.net.dials - dialsBefore;
        if conn.Failure? {
          return Some(conn.error), dialled;
        }
        connection.Meanwhile(second.meanwhile);
        ch := TryChannel(conn.value, second.refusal);
        if ch.Failure? {
          return Some(ch.error), dialled;
        }
      }
      channel := Some(ch.value);
      err := None;
    }

    /** The same, with any error wrapped. */
    method ReopenChannel(first: Try, second: Try) returns (err: Option<Error>, dialled: int)
      requires |first.dials| == |second.dials| == DIAL_ATTEMPTS
      requires SharedOk(connection.Abs())
      modifies this, connection, connection.net
      ensures var r := OpenTwice(old(connection.Abs()), first, second);
              && connection.Abs() == r.shared
              && tries == old(tries) + r.tries && dialled == r.dials
              && err == (if r.channel.Success? then None
                         else Some(Wrap(MqUnexpected, "unexpected error when reopening channel", r.channel.error)))
              && channel == if r.channel.Success? then Some(Channel(r.channel.value)) else old(channel)
      ensures SharedOk(connection.Abs())
    {
      err, dialled := OpenChannel(first, second);
      if err.Some? {
        err := Some(Wrap(MqUnexpected, "unexpected error when reopening channel", err.value));
      }
    }
  }

  /** One opening call keeps the manager in order and makes at most five dials. */
  lemma OpenedIsOk(s: Shared, oks: seq<bool>)
    requires SharedOk(s) && |oks| == DIAL_ATTEMPTS
    ensures SharedOk(Opened(s, oks))
    ensures s.dials <= Opened(s, oks).dials <= s.dials + DIAL_ATTEMPTS
    ensures s.closed ==> Opened(s, oks) == s && OpenAnswer(s, oks).ManagerClosed?
  {
  }

  /**
   Opening a channel makes at most two attempts and ten dials; there is a second attempt, and a
   sixth dial, only if the first connection is dead when the first failure is looked into; a
   successful opening leaves the channel on the connection obtained last, which was open; and on a
   closed manager nothing is tried.
   */
  lemma OpenChannelBounds(s: Shared, first: Try, second: Try)
    requires |first.dials| == |second.dials| == DIAL_ATTEMPTS && SharedOk(s)
    ensures var r := OpenTwice(s, first, second);
            var one := FirstTry(s, first);
            var seen := After(one.shared, first.after);
            && SharedOk(r.shared)
            && r.tries <= 2 && 0 <= r.dials <= 10
            && (r.tries == 2 || r.dials > DIAL_ATTEMPTS ==>
                  && one.channel.Failure? && OpenResult(s, first.dials).Success?
                  && OpenResult(s, first.dials).value !in seen.live)
            && (r.channel.Success? ==>
                  && r.channel.value in r.shared.live
                  && r.channel == if r.tries == 1 then OpenResult(s, first.dials) else OpenResult(seen, second.dials))
            && (s.closed ==> r.tries == 0 && r.dials == 0 && r.channel == Failure(MANAGER_CLOSED) && r.shared == s)
  {
    OpenedIsOk(s, Successes(first.dials));
    var seen := After(FirstTry(s, first).shared, first.after);
    OpenedIsOk(seen, Successes(second.dials));
  }

  /**
   When the retry is made, and what it comes to. Without a connection to begin with there is no
   attempt. A first attempt that succeeds, or fails on a connection found open, is the result. One
   that fails on a connection found dead is followed by a second opening: its error is the result if
   it fails, and otherwise the second attempt is, on the connection it obtained.
   */
  lemma DeadConnectionIsRetried(s: Shared, first: Try, second: Try)
    requires |first.dials| == |second.dials| == 5
    ensures var r, got := OpenTwice(s, first, second), OpenResult(s, first.dials);
            if got.Failure? then
              r.channel == Failure(got.error) && r.tries == 0 && r.shared == Opened(s, Successes(first.dials))
            else
              var used := After(Opened(s, Successes(first.dials)), first.meanwhile);
              var ch, seen := ChannelOf(used, got.value, first.refusal), After(used, first.after);
              if ch.Success? then r.channel == ch && r.tries == 1 && r.shared == used
              else if got.value in seen.live then r.channel == ch && r.tries == 1 && r.shared == seen
              else
                var open, again := Opened(seen, Successes(second.dials)), OpenResult(seen, second.dials);
                if again.Failure? then r.channel == Failure(again.error) && r.tries == 1 && r.shared == open
                else
                  var reused := After(open, second.meanwhile);
                  && r.channel == ChannelOf(reused, again.value, second.refusal)
                  && r.tries == 2 && r.shared == reused
  {
  }

  /** The error of an opening that fails: the manager is closed, or the wrapped error of the fifth dial. */
  lemma OpeningFailsWith(s: Shared, outcomes: seq<DialOutcome>)
    requires |outcomes| == 5
    ensures OpenResult(s, outcomes).Failure? <==>
              s.closed || (!HasLiveConnection(s) && forall i :: 0 <= i < 5 ==> outcomes[i].Some?)
    ensures s.closed ==> OpenResult(s, outcomes) == Failure(External("rabbitmq connection closed", []))
    ensures !s.closed && OpenResult(s, outcomes).Failure? ==>
              outcomes[4].Some?
              && OpenResult(s, outcomes).error == Wrap(Annotated, "dial rabbitmq after 5 attempts", outcomes[4].value)
  {
    OpeningInNumbers(s, Successes(outcomes));
  }

  /**
   The retry is there to succeed: if the connection of a failed attempt is dead, the manager not
   closed, a dial of the second round gets through, its connection is still open when used and the
   network does not refuse, then the channel is opened on that second connection.
   */
  lemma RetrySucceeds(s: Shared, first: Try, second: Try)
    requires |first.dials| == |second.dials| == 5 && OpenResult(s, first.dials).Success?
    requires var id := OpenResult(s, first.dials).value;
             var used := After(Opened(s, Successes(first.dials)), first.meanwhile);
             var seen := After(used, first.after);
             && ChannelOf(used, id, first.refusal).Failure? && id !in seen.live
             && !seen.closed && !HasLiveConnection(seen) && (exists i :: 0 <= i < 5 && second.dials[i].None?)
             && seen.next in After(Opened(seen, Successes(second.dials)), second.meanwhile).live
             && second.refusal.None?
    ensures var seen := After(After(Opened(s, Successes(first.dials)), first.meanwhile), first.after);
            OpenTwice(s, first, second).channel == Success(seen.next) && OpenTwice(s, first, second).tries == 2
  {
    var seen := After(After(Opened(s, Successes(first.dials)), first.meanwhile), first.after);
    DeadConnectionIsRetried(s, first, second);
    OpeningFailsWith(seen, second.dials);
    OpeningInNumbers(seen, Successes(second.dials));
  }
}
