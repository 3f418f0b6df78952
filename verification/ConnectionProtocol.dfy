/**
 The connection manager under any interleaving: users take the mutex to open or close, the holder
 of the mutex dials up to five times, and connections may die at any moment, also while the mutex
 is held. Connections are numbered in the order in which dialling produced them.
 */
module ConnectionProtocol {
  import opened Wrappers

  const DIAL_ATTEMPTS: nat := 5

  /** The manager's fields, the connections now open, and the dials made so far. */
  datatype Shared = Shared(conn: Option<nat>, closed: bool, live: set<nat>, next: nat, dials: nat)

  predicate HasLiveConnection(s: Shared) {
    s.conn.Some? && s.conn.value in s.live
  }

  /** Who holds the mutex, the attempt to be made next, and the dials made before it was taken. */
  datatype Mutex = Free | Held(user: nat, attempt: nat, dialsBefore: nat)

  datatype Answer = Connection(id: nat) | ManagerClosed | DialFailed

  /** What an opening call returned, and how many dials it made. */
  datatype Returned = Returned(user: nat, answer: Answer, dials: int)

  datatype State = State(shared: Shared, mutex: Mutex, returned: seq<Returned>)

  datatype Label = Open(user: nat) | Dial(ok: bool) | Close | Die(id: nat)

  function Dialled(s: Shared): Shared {
    s.(conn := Some(s.next), live := s.live + {s.next}, next := s.next + 1, dials := s.dials + 1)
  }

  function Closed(s: Shared): Shared {
    s.(closed := true, live := if s.conn.Some? then s.live - {s.conn.value} else s.live)
  }

  function Next(s: State, l: Label): State {
    match l
    case Open(u) =>
      if !s.mutex.Free? then s
      else if s.shared.closed then s.(returned := s.returned + [Returned(u, ManagerClosed, 0)])
      else if HasLiveConnection(s.shared) then
        s.(returned := s.returned + [Returned(u, Connection(s.shared.conn.value), 0)])
      else s.(mutex := Held(u, 1, s.shared.dials))
    case Dial(ok) =>
      if s.mutex.Free? then s
      else if ok then
        State(Dialled(s.shared), Free,
              s.returned + [Returned(s.mutex.user, Connection(s.shared.next),
                                     s.shared.dials + 1 - s.mutex.dialsBefore)])
      else
        var shared := s.shared.(dials := s.shared.dials + 1);
        if s.mutex.attempt < DIAL_ATTEMPTS
        then State(shared, s.mutex.(attempt := s.mutex.attempt + 1), s.returned)
        else State(shared, Free,
                   s.returned + [Returned(s.mutex.user, DialFailed, shared.dials - s.mutex.dialsBefore)])
    case Close => if s.mutex.Free? then s.(shared := Closed(s.shared)) else s
    case Die(id) => s.(shared := s.shared.(live := s.shared.live - {id}))
  }

  /** Only the manager's connection can be open, and none once the manager is closed. */
  predicate SharedOk(s: Shared) {
    && (forall id :: id in s.live ==> s.conn == Some(id))
    && (s.conn.Some? ==> s.conn.value < s.next)
    && (s.closed ==> s.live == {})
  }

  ghost predicate Ok(s: State) {
    && SharedOk(s.shared)
    && (s.mutex.Held? ==>
          && !s.shared.closed && s.shared.live == {}
          && 1 <= s.mutex.attempt <= DIAL_ATTEMPTS
          && s.shared.dials == s.mutex.dialsBefore + s.mutex.attempt - 1)
    && (forall i :: 0 <= i < |s.returned| ==> ReturnedOk(s.returned[i]))
  }

  ghost predicate ReturnedOk(r: Returned) {
    match r.answer
    case Connection(_) => 0 <= r.dials <= DIAL_ATTEMPTS
    case ManagerClosed => r.dials == 0
    case DialFailed => r.dials == DIAL_ATTEMPTS
  }

  lemma NextOk(s: State, l: Label)
    requires Ok(s)
    ensures Ok(Next(s, l))
    ensures s.shared.closed ==>
              Next(s, l).shared.closed && Next(s, l).shared.dials == s.shared.dials
  {
  }

  ghost predicate Init(s: State) {
    s.mutex.Free? && s.returned == [] && SharedOk(s.shared)
  }

  ghost predicate IsRun(trace: seq<State>, labels: seq<Label>) {
    && |trace| == |labels| + 1
    && Init(trace[0])
    && forall k :: 0 <= k < |labels| ==> trace[k + 1] == Next(trace[k], labels[k])
  }

  /**
   In every reachable state at most one dialled connection is open, it is the manager's own, none is
   open once the manager is closed, and no opening call has made more than five dials.
   */
  lemma {:induction false} ConnectionSafety(trace: seq<State>, labels: seq<Label>, k: nat)
    requires IsRun(trace, labels) && k < |trace|
    ensures Ok(trace[k])
    ensures |trace[k].shared.live| <= 1
    ensures trace[k].shared.closed ==> trace[k].shared.live == {}
    ensures forall i :: 0 <= i < |trace[k].returned| ==> trace[k].returned[i].dials <= 5
    ensures forall i :: 0 <= i < |trace[k].returned| && trace[k].returned[i].answer.DialFailed? ==>
              trace[k].returned[i].dials == 5
  {
    if k > 0 {
      ConnectionSafety(trace, labels, k - 1);
      NextOk(trace[k - 1], labels[k - 1]);
    }
    var live := trace[k].shared.live;
    if live != {} {
      var id :| id in live;
      assert live == {id};
    }
  }

  /** Once `Close` has run no dial is ever made again and no connection is open. */
  lemma {:induction false} ClosedForGood(trace: seq<State>, labels: seq<Label>, j: nat, k: nat)
    requires IsRun(trace, labels) && j <= k < |trace| && trace[j].shared.closed
    ensures trace[k].shared.closed && trace[k].shared.live == {}
    ensures trace[k].shared.dials == trace[j].shared.dials
    decreases k - j
  {
    ConnectionSafety(trace, labels, k);
    if j < k {
      ClosedForGood(trace, labels, j, k - 1);
      ConnectionSafety(trace, labels, k - 1);
      NextOk(trace[k - 1], labels[k - 1]);
    }
  }

  /** An opening call that finds the connection open returns that connection and dials nothing. */
  lemma OpenConnectionIsReused(trace: seq<State>, labels: seq<Label>, k: nat, u: nat)
    requires IsRun(trace, labels) && k < |labels| && labels[k] == Open(u)
    requires trace[k].mutex.Free? && trace[k].shared.live != {}
    ensures trace[k + 1].shared == trace[k].shared && trace[k + 1].mutex.Free?
    ensures exists id :: trace[k].shared.live == {id}
              && trace[k + 1].returned == trace[k].returned + [Returned(u, Connection(id), 0)]
  {
    ConnectionSafety(trace, labels, k);
    var id :| id in trace[k].shared.live;
    assert trace[k].shared.live == {id};
  }

  // ---------- One call without interruption ----------

  function Steps(s: State, labels: seq<Label>): State
    decreases |labels|
  {
    if labels == [] then s else Steps(Next(s, labels[0]), labels[1..])
  }

  function DialLabels(oks: seq<bool>): seq<Label> {
    if oks == [] then [] else [Dial(oks[0])] + DialLabels(oks[1..])
  }

  /** Where the first of the outcomes is a success, or their number. */
  function FirstSuccess(oks: seq<bool>): (i: nat)
    ensures i <= |oks|
    ensures i < |oks| ==> oks[i]
    ensures forall k :: 0 <= k < i ==> !oks[k]
  {
    if oks == [] || oks[0] then 0 else 1 + FirstSuccess(oks[1..])
  }

  /** The shared state after one opening call whose dials come out as given. */
  function Opened(s: Shared, oks: seq<bool>): Shared
    requires |oks| == DIAL_ATTEMPTS
  {
    if s.closed || HasLiveConnection(s) then s
    else
      var i := FirstSuccess(oks);
      if i < DIAL_ATTEMPTS then Dialled(s.(dials := s.dials + i)) else s.(dials := s.dials + DIAL_ATTEMPTS)
  }

  function OpenAnswer(s: Shared, oks: seq<bool>): Answer
    requires |oks| == DIAL_ATTEMPTS
  {
    if s.closed then ManagerClosed
    else if HasLiveConnection(s) then Connection(s.conn.value)
    else if FirstSuccess(oks) < DIAL_ATTEMPTS then Connection(s.next)
    else DialFailed
  }

  lemma {:induction false} DialsRun(s: State, oks: seq<bool>)
    requires s.mutex.Held? && 1 <= s.mutex.attempt <= DIAL_ATTEMPTS && |oks| == DIAL_ATTEMPTS + 1 - s.mutex.attempt
    ensures var t, i := Steps(s, DialLabels(oks)), FirstSuccess(oks);
            t == if i < |oks| then
                   State(Dialled(s.shared.(dials := s.shared.dials + i)), Free,
                         s.returned + [Returned(s.mutex.user, Connection(s.shared.next),
                                                s.shared.dials + i + 1 - s.mutex.dialsBefore)])
                 else
                   State(s.shared.(dials := s.shared.dials + |oks|), Free,
                         s.returned + [Returned(s.mutex.user, DialFailed,
                                                s.shared.dials + |oks| - s.mutex.dialsBefore)])
    decreases |oks|
  {
    var t := Next(s, Dial(oks[0]));
    assert DialLabels(oks)[1..] == DialLabels(oks[1..]);
    if oks[0] || s.mutex.attempt == DIAL_ATTEMPTS {
      FreeDialsStutter(t, oks[1..]);
    } else {
      DialsRun(t, oks[1..]);
    }
  }

  lemma {:induction false} FreeDialsStutter(s: State, oks: seq<bool>)
    requires s.mutex.Free?
    ensures Steps(s, DialLabels(oks)) == s
    decreases |oks|
  {
    if oks != [] {
      assert DialLabels(oks)[1..] == DialLabels(oks[1..]);
      FreeDialsStutter(s, oks[1..]);
    }
  }

  lemma DialsAfterTaking(s: State, u: nat, oks: seq<bool>)
    requires s.mutex.Free? && !s.shared.closed && !HasLiveConnection(s.shared) && |oks| == DIAL_ATTEMPTS
    ensures var t := Steps(s.(mutex := Held(u, 1, s.shared.dials)), DialLabels(oks));
            && t.shared == Opened(s.shared, oks) && t.mutex.Free?
            && t.returned == s.returned + [Returned(u, OpenAnswer(s.shared, oks),
                                                    Opened(s.shared, oks).dials - s.shared.dials)]
  {
    DialsRun(s.(mutex := Held(u, 1, s.shared.dials)), oks);
  }

  /** An opening call computed in one go is the protocol's steps of taking the mutex and dialling. */
  lemma OpenedIsProtocolRun(s: State, u: nat, oks: seq<bool>)
    requires s.mutex.Free? && |oks| == DIAL_ATTEMPTS
    ensures var t := Steps(Next(s, Open(u)), DialLabels(oks));
            && t.shared == Opened(s.shared, oks) && t.mutex.Free?
            && t.returned == s.returned + [Returned(u, OpenAnswer(s.shared, oks),
                                                    Opened(s.shared, oks).dials - s.shared.dials)]
  {
    if s.shared.closed || HasLiveConnection(s.shared) {
      FreeDialsStutter(Next(s, Open(u)), oks);
    } else {
      DialsAfterTaking(s, u, oks);
    }
  }

  /**
   Opening, in numbers. A closed manager refuses. A live connection is returned as it is. Otherwise up
   to five dials are made, one after the other until one succeeds: that connection is returned and is
   open; if all five fail, so does the opening, and the manager keeps what it had.
   */
  lemma OpeningInNumbers(s: Shared, oks: seq<bool>)
    requires |oks| == 5
    ensures s.closed ==> OpenAnswer(s, oks) == ManagerClosed && Opened(s, oks) == s
    ensures !s.closed && HasLiveConnection(s) ==>
              OpenAnswer(s, oks) == Connection(s.conn.value) && Opened(s, oks) == s
    ensures !s.closed && !HasLiveConnection(s) && (exists i :: 0 <= i < 5 && oks[i]) ==>
              exists i :: 0 <= i < 5 && oks[i] && (forall j :: 0 <= j < i ==> !oks[j])
                && OpenAnswer(s, oks) == Connection(s.next)
                && Opened(s, oks)
                   == Shared(Some(s.next), false, s.live + {s.next}, s.next + 1, s.dials + i + 1)
    ensures !s.closed && !HasLiveConnection(s) && !(exists i :: 0 <= i < 5 && oks[i]) ==>
              OpenAnswer(s, oks) == DialFailed && Opened(s, oks) == s.(dials := s.dials + 5)
  {
    var i := FirstSuccess(oks);
    assert i < 5 ==> oks[i];
  }
}
