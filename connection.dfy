/** The WebSocket connection controller: one socket at a time, reconnection
    with exponential back-off after an unforced close, and a manual
    disconnect that stops reconnection until the next send. */
module Connection {
  import opened Options

  const MaxReconnectAttempts := 5

  /** The first reconnection delay, in milliseconds. */
  const ReconnectDelay := 2000

  /** `b^n`; positive for a positive base, which makes the division in
      `BackoffDelay` well defined. */
  function Pow(b: nat, n: nat): (r: nat)
    ensures r >= 1 || b == 0
  {
    if n == 0 then 1 else b * Pow(b, n - 1)
  }

  /** `RECONNECT_DELAY * 1.5^attempts`, computed exactly as
      `2000 * 3^n / 2^n`; for the attempts allowed the division is exact. */
  function BackoffDelay(attempts: nat): nat
    requires attempts < MaxReconnectAttempts
  {
    ReconnectDelay * Pow(3, attempts) / Pow(2, attempts)
  }

  /** The delays of the five reconnection attempts. */
  const BackoffDelays: seq<nat> := [2000, 3000, 4500, 6750, 10125]

  /** Each delay is exactly `2000 * 1.5^n` (no rounding: `2^n` divides
      `2000 * 3^n` for `n < 5`), as listed in `BackoffDelays`. */
  lemma BackoffDelayExact(n: nat)
    requires n < MaxReconnectAttempts
    ensures BackoffDelay(n) * Pow(2, n) == ReconnectDelay * Pow(3, n)
    ensures BackoffDelay(n) == BackoffDelays[n]
  {
    if n == 0 {
    } else if n == 1 {
      assert Pow(3, 1) == 3 && Pow(2, 1) == 2;
    } else if n == 2 {
      assert Pow(3, 2) == 9 && Pow(2, 2) == 4;
    } else if n == 3 {
      assert Pow(3, 3) == 27 && Pow(2, 3) == 8;
    } else {
      assert Pow(3, 4) == 81 && Pow(2, 4) == 16;
    }
  }

  /** Each delay is one and a half times the one before. */
  lemma BackoffGrowsByHalf(n: nat)
    requires n + 1 < MaxReconnectAttempts
    ensures 2 * BackoffDelay(n + 1) == 3 * BackoffDelay(n)
  {
    BackoffDelayExact(n);
    BackoffDelayExact(n + 1);
  }

  /** What an unforced close does with `attempts` failures so far: the delay
      of the reconnection it schedules, or nothing once the attempts are
      used up. */
  function ReconnectPlan(attempts: nat): (r: Option<nat>)
    ensures r.Some? <==> attempts < MaxReconnectAttempts
    ensures r.Some? ==> r.value in BackoffDelays
  {
    if attempts < MaxReconnectAttempts then
      BackoffDelayExact(attempts);
      Some(BackoffDelay(attempts))
    else None
  }

  /** The plan of an unforced close, read off the table of delays. */
  lemma PlanIsListed(attempts: nat)
    ensures ReconnectPlan(attempts) ==
      if attempts < MaxReconnectAttempts then Some(BackoffDelays[attempts]) else None
  {
    if attempts < MaxReconnectAttempts {
      BackoffDelayExact(attempts);
    }
  }

  /** The delays scheduled by `k` unforced closes in a row, with no open in
      between, starting from `attempts` failures. */
  function CloseRun(attempts: nat, k: nat): seq<nat>
    decreases k
  {
    if k == 0 then []
    else match ReconnectPlan(attempts)
      case None => []
      case Some(d) => [d] + CloseRun(attempts + 1, k - 1)
  }

  /** A non-empty slice is its first element followed by the rest. */
  lemma SliceCons(s: seq<nat>, lo: nat, hi: nat)
    requires lo < hi <= |s|
    ensures s[lo..hi] == [s[lo]] + s[lo + 1..hi]
  {
  }

  /** Consecutive closes schedule the delays of any table the plan follows,
      from the current attempt to the last one. */
  lemma {:induction false} CloseRunFollows(table: seq<nat>, attempts: nat, k: nat)
    requires |table| == MaxReconnectAttempts && attempts <= MaxReconnectAttempts
    requires forall a :: 0 <= a < |table| ==> ReconnectPlan(a) == Some(table[a])
    ensures CloseRun(attempts, k) ==
      table[attempts..if attempts + k < MaxReconnectAttempts then attempts + k else MaxReconnectAttempts]
    decreases k
  {
    var hi := if attempts + k < MaxReconnectAttempts then attempts + k else MaxReconnectAttempts;
    if k > 0 && attempts < MaxReconnectAttempts {
      var hi' := if attempts + 1 + (k - 1) < MaxReconnectAttempts then attempts + 1 + (k - 1) else MaxReconnectAttempts;
      assert hi' == hi;
      assert ReconnectPlan(attempts) == Some(table[attempts]);
      CloseRunFollows(table, attempts + 1, k - 1);
      SliceCons(table, attempts, hi);
    } else {
      assert k > 0 ==> ReconnectPlan(attempts).None?;
    }
  }

  /** From a fresh or just-opened connection, consecutive closes schedule
      2000, 3000, 4500, 6750 and 10125 ms and then nothing more. */
  lemma CloseRunIsBackoff(attempts: nat, k: nat)
    requires attempts <= MaxReconnectAttempts
    ensures CloseRun(attempts, k) ==
      BackoffDelays[attempts..if attempts + k < MaxReconnectAttempts then attempts + k else MaxReconnectAttempts]
  {
    forall a | 0 <= a < |BackoffDelays| ensures ReconnectPlan(a) == Some(BackoffDelays[a]) {
      PlanIsListed(a);
    }
    CloseRunFollows(BackoffDelays, attempts, k);
  }

  /** `WebSocket.readyState`. */
  datatype ReadyState = Connecting | Open | Closing | Closed

  /** How a socket's state may move on its own. */
  predicate CanAdvance(from: ReadyState, to: ReadyState) {
    match from
    case Connecting => to != Connecting
    case Open => to == Closing || to == Closed
    case Closing => to == Closed
    case Closed => false
  }

  class Connection {
    /** The state of the page's current socket, if one was created. */
    var socket: Option<ReadyState>
    var isProcessing: bool
    var reconnectAttempts: nat
    /** The handle of the last reconnection timer scheduled. */
    var reconnectTimeout: Option<nat>
    /** The reconnection timers still pending: handle to delay. */
    var timers: map<nat, nat>
    var nextHandle: nat
    var forcedDisconnect: bool
    /** The messages written to the socket, oldest first. */
    var sent: seq<string>
    /** The messages waiting for the one-second retry of a send, oldest
        first. */
    var retries: seq<string>

    ghost predicate Valid()
      reads this
    {
      && reconnectAttempts <= MaxReconnectAttempts
      && 0 < nextHandle
      && (forall h :: h in timers ==> 0 < h < nextHandle && timers[h] in BackoffDelays)
      && (reconnectTimeout.Some? ==> 0 < reconnectTimeout.value < nextHandle)
    }

    /** The page's initial state: no socket, nothing pending. */
    constructor ()
      ensures Valid()
      ensures socket.None? && !isProcessing && reconnectAttempts == 0
      ensures reconnectTimeout.None? && timers == map[] && !forcedDisconnect
      ensures sent == [] && retries == []
    {
      socket := None;
      isProcessing := false;
      reconnectAttempts := 0;
      reconnectTimeout := None;
      timers := map[];
      nextHandle := 1;
      forcedDisconnect := false;
      sent := [];
      retries := [];
    }

    /** The socket is open or still opening. */
    predicate Live()
      reads this
    {
      socket == Some(Open) || socket == Some(Connecting)
    }

    /** `connectWebSocket`: nothing after a manual disconnect; otherwise
        the pending reconnection timer is cancelled, and a new socket is
        opened unless the current one is open or opening. */
    method Connect()
      requires Valid()
      modifies this
      ensures Valid()
      ensures old(forcedDisconnect) ==> unchanged(this)
      ensures !old(forcedDisconnect) ==>
        && reconnectTimeout.None?
        && timers == (if old(reconnectTimeout).Some? then old(timers) - {old(reconnectTimeout).value} else old(timers))
        && socket == (if old(Live()) then old(socket) else Some(Connecting))
      ensures isProcessing == old(isProcessing) && reconnectAttempts == old(reconnectAttempts)
      ensures forcedDisconnect == old(forcedDisconnect) && nextHandle == old(nextHandle)
      ensures sent == old(sent) && retries == old(retries)
    {
      if forcedDisconnect {
        return;
      }
      if reconnectTimeout.Some? {
        timers := timers - {reconnectTimeout.value};
        reconnectTimeout := None;
      }
      if Live() {
        return;
      }
      // closing a socket that is already closing or closed has no effect
      socket := Some(Connecting);
    }

    /** `onopen`: the failure count is reset. */
    method OnOpen()
      requires Valid()
      modifies this
      ensures Valid()
      ensures reconnectAttempts == 0
      ensures socket == old(socket) && isProcessing == old(isProcessing)
      ensures reconnectTimeout == old(reconnectTimeout) && timers == old(timers) && nextHandle == old(nextHandle)
      ensures forcedDisconnect == old(forcedDisconnect) && sent == old(sent) && retries == old(retries)
    {
      reconnectAttempts := 0;
    }

    /** `onclose`: after a manual disconnect nothing happens. Otherwise a
        reconnection is scheduled with the back-off delay while attempts
        remain; once they are used up, a pending request is abandoned. */
    method OnClose()
      requires Valid()
      modifies this
      ensures Valid()
      ensures old(forcedDisconnect) ==> unchanged(this)
      ensures !old(forcedDisconnect) ==>
        match ReconnectPlan(old(reconnectAttempts))
        case Some(delay) =>
          && reconnectAttempts == old(reconnectAttempts) + 1
          && reconnectTimeout == Some(old(nextHandle))
          && timers == old(timers)[old(nextHandle) := delay]
          && nextHandle == old(nextHandle) + 1
          && isProcessing == old(isProcessing)
        case None =>
          && reconnectAttempts == old(reconnectAttempts)
          && reconnectTimeout == old(reconnectTimeout) && timers == old(timers)
          && nextHandle == old(nextHandle)
          && !isProcessing
      ensures socket == old(socket) && forcedDisconnect == old(forcedDisconnect)
      ensures sent == old(sent) && retries == old(retries)
    {
      if !forcedDisconnect {
        if reconnectAttempts < MaxReconnectAttempts {
          BackoffDelayExact(reconnectAttempts);
          var delay := BackoffDelay(reconnectAttempts);
          reconnectAttempts := reconnectAttempts + 1;
          reconnectTimeout := Some(nextHandle);
          timers := timers[nextHandle := delay];
          nextHandle := nextHandle + 1;
        } else {
          if isProcessing {
            isProcessing := false;
          }
        }
      }
    }

    /** `onerror`: a pending request is abandoned. */
    method OnError()
      requires Valid()
      modifies this
      ensures Valid()
      ensures !isProcessing
      ensures socket == old(socket) && reconnectAttempts == old(reconnectAttempts)
      ensures reconnectTimeout == old(reconnectTimeout) && timers == old(timers) && nextHandle == old(nextHandle)
      ensures forcedDisconnect == old(forcedDisconnect) && sent == old(sent) && retries == old(retries)
    {
      isProcessing := false;
    }

    /** A reconnection timer fires and runs `connectWebSocket`. */
    method FireTimer(handle: nat)
      requires Valid() && handle in timers
      modifies this
      ensures Valid()
      ensures old(forcedDisconnect) ==>
        socket == old(socket) && reconnectTimeout == old(reconnectTimeout) && timers == old(timers) - {handle}
      ensures !old(forcedDisconnect) ==>
        && socket == (if old(Live()) then old(socket) else Some(Connecting))
        && reconnectTimeout.None?
        && timers == (if old(reconnectTimeout).Some? then old(timers) - {handle, old(reconnectTimeout).value}
                      else old(timers) - {handle})
      ensures isProcessing == old(isProcessing) && reconnectAttempts == old(reconnectAttempts)
      ensures nextHandle == old(nextHandle)
      ensures forcedDisconnect == old(forcedDisconnect) && sent == old(sent) && retries == old(retries)
    {
      timers := timers - {handle};
      Connect();
    }

    /** `cleanupWebSocket`: a manual disconnect. Reconnection is switched
        off, the pending reconnection timer is cancelled and a live socket
        starts closing. */
    method Cleanup()
      requires Valid()
      modifies this
      ensures Valid()
      ensures forcedDisconnect && reconnectTimeout.None?
      ensures timers == if old(reconnectTimeout).Some? then old(timers) - {old(reconnectTimeout).value} else old(timers)
      ensures socket == if old(Live()) then Some(Closing) else old(socket)
      ensures isProcessing == old(isProcessing) && reconnectAttempts == old(reconnectAttempts)
      ensures nextHandle == old(nextHandle) && sent == old(sent) && retries == old(retries)
    {
      forcedDisconnect := true;
      if reconnectTimeout.Some? {
        timers := timers - {reconnectTimeout.value};
        reconnectTimeout := None;
      }
      if Live() {
        socket := Some(Closing);
      }
    }

    /** The browser moves the current socket to its next state. */
    method Advance(next: ReadyState)
      requires socket.Some? && CanAdvance(socket.value, next)
      modifies this
      ensures socket == Some(next)
      ensures isProcessing == old(isProcessing) && reconnectAttempts == old(reconnectAttempts)
      ensures reconnectTimeout == old(reconnectTimeout) && timers == old(timers) && nextHandle == old(nextHandle)
      ensures forcedDisconnect == old(forcedDisconnect) && sent == old(sent) && retries == old(retries)
    {
      socket := Some(next);
    }

    /** The transmitting half of `sendMessage`: reconnection is allowed
        again; an open socket takes the message at once and the request is
        pending, otherwise a connection is started and the message waits for
        the one-second retry. */
    method Transmit(message: string)
      requires Valid()
      modifies this
      ensures Valid()
      ensures !forcedDisconnect
      ensures old(socket) == Some(Open) ==>
        && sent == old(sent) + [message] && isProcessing
        && retries == old(retries) && socket == old(socket)
        && reconnectTimeout == old(reconnectTimeout) && timers == old(timers)
      ensures old(socket) != Some(Open) ==>
        && sent == old(sent) && isProcessing == old(isProcessing)
        && retries == old(retries) + [message]
        && socket == (if old(Live()) then old(socket) else Some(Connecting))
        && reconnectTimeout.None?
        && timers == (if old(reconnectTimeout).Some? then old(timers) - {old(reconnectTimeout).value} else old(timers))
      ensures reconnectAttempts == old(reconnectAttempts) && nextHandle == old(nextHandle)
    {
      forcedDisconnect := false;
      if socket == Some(Open) {
        sent := sent + [message];
        isProcessing := true;
      } else {
        Connect();
        retries := retries + [message];
      }
    }

    /** The oldest one-second send retry fires: the message goes out if the
        socket is open by now, and the request is abandoned otherwise. */
    method FireRetry()
      requires Valid() && retries != []
      modifies this
      ensures Valid()
      ensures retries == old(retries)[1..]
      ensures socket == Some(Open) ==> sent == old(sent) + [old(retries)[0]] && isProcessing
      ensures socket != Some(Open) ==> sent == old(sent) && !isProcessing
      ensures socket == old(socket) && reconnectAttempts == old(reconnectAttempts)
      ensures reconnectTimeout == old(reconnectTimeout) && timers == old(timers) && nextHandle == old(nextHandle)
      ensures forcedDisconnect == old(forcedDisconnect)
    {
      var message := retries[0];
      retries := retries[1..];
      if socket == Some(Open) {
        sent := sent + [message];
        isProcessing := true;
      } else {
        isProcessing := false;
      }
    }
  }
}
