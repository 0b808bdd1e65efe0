/**
 * The connection manager: one streaming provider and its wallet, rebuilt
 * after a failure with exponential backoff, at most one reconnect sequence
 * at a time, and a process exit after ten consecutive attempts.
 *
 * The socket, the timer and the process are abstracted as events and
 * outcomes: socket events (`open`, `close`, `error`) are method calls, a
 * scheduled timer is an entry of `pendingTimers` that the environment fires
 * with `OnReconnectTimer`, `process.exit(1)` sets `exited`, and a provider or
 * wallet object is a numbered `Handle`.
 */
module Connections {
  import opened Wrappers

  /** `maxReconnectAttempts`. */
  const MaxReconnectAttempts: nat := 10
  /** `reconnectDelay`, the base of the backoff, in milliseconds. */
  const BaseReconnectDelay: nat := 5000
  /** The cap of the backoff delay, in milliseconds. */
  const MaxReconnectDelay: nat := 60000

  function Pow2(n: nat): (p: nat)
    ensures p >= 1
  {
    if n == 0 then 1 else 2 * Pow2(n - 1)
  }

  /**
   * The delay before attempt number `attempt` (counted from 1):
   * min(5000 * 2^(attempt - 1), 60000). It never exceeds the cap and never
   * falls below the base.
   */
  function BackoffDelay(attempt: nat): (d: nat)
    requires attempt >= 1
    ensures BaseReconnectDelay <= d <= MaxReconnectDelay
  {
    var raw := BaseReconnectDelay * Pow2(attempt - 1);
    if raw < MaxReconnectDelay then raw else MaxReconnectDelay
  }

  /** 2^n grows with n. */
  lemma {:induction false} Pow2Monotone(m: nat, n: nat)
    requires m <= n
    ensures Pow2(m) <= Pow2(n)
  {
    if m < n {
      Pow2Monotone(m, n - 1);
    }
  }

  /** The schedule of attempts 1..10: 5, 10, 20 and 40 seconds, then 60 seconds for attempts 5 to 10. */
  lemma BackoffSchedule()
    ensures BackoffDelay(1) == 5000 && BackoffDelay(2) == 10000
    ensures BackoffDelay(3) == 20000 && BackoffDelay(4) == 40000
    ensures forall n :: 5 <= n <= MaxReconnectAttempts ==> BackoffDelay(n) == 60000
  {
    assert Pow2(4) == 16;
    forall n | 5 <= n <= MaxReconnectAttempts
      ensures BackoffDelay(n) == 60000
    {
      Pow2Monotone(4, n - 1);
    }
  }

  /** The delays never shrink from one attempt to the next. */
  lemma BackoffMonotone(m: nat, n: nat)
    requires 1 <= m <= n
    ensures BackoffDelay(m) <= BackoffDelay(n)
  {
    Pow2Monotone(m - 1, n - 1);
  }

  /** Each delay is the previous one doubled, until the cap takes over. */
  lemma BackoffDoubles(n: nat)
    requires n >= 1
    ensures BackoffDelay(n + 1) == if 2 * BackoffDelay(n) < MaxReconnectDelay then 2 * BackoffDelay(n) else MaxReconnectDelay
  {
    assert Pow2(n) == 2 * Pow2(n - 1);
  }

  /** The identity of a provider or wallet object. */
  type Handle = nat

  /** The identity of a registered reconnection callback. */
  type Callback = nat

  /** One invocation of the reconnection callback, with the arguments it received. */
  datatype Notification = Notification(callback: Callback, provider: Handle, wallet: Handle)

  /** A timer scheduled by `handleReconnect`: the attempt it belongs to and its delay. */
  datatype Timer = Timer(attempt: nat, delay: nat)

  /** How an attempt to build the provider ends: it succeeds, the provider constructor throws, or the wallet constructor throws. */
  datatype ConnectOutcome = Connected | ProviderFails | WalletFails

  datatype ConnectError = ProviderError | WalletError

  class ConnectionManager {
    var provider: Option<Handle>
    var wallet: Option<Handle>
    var isReconnecting: bool
    var reconnectAttempts: nat
    const maxReconnectAttempts: nat
    const reconnectDelay: nat
    var onReconnect: Option<Callback>
    /** Timers scheduled and not yet fired. */
    var pendingTimers: seq<Timer>
    /** Providers whose socket has been terminated. */
    var terminated: seq<Handle>
    /** Callback invocations so far, oldest first. */
    var notifications: seq<Notification>
    /** True once `process.exit(1)` has been called. */
    var exited: bool
    /** The next object identity to hand out. */
    var nextHandle: nat

    /** The object invariant: the constants, the attempt cap, and well-formed timers and handles. */
    ghost predicate Valid()
      reads this
    {
      && maxReconnectAttempts == MaxReconnectAttempts
      && reconnectDelay == BaseReconnectDelay
      && reconnectAttempts <= maxReconnectAttempts
      && (forall k :: 0 <= k < |pendingTimers| ==>
            1 <= pendingTimers[k].attempt <= maxReconnectAttempts
            && pendingTimers[k].delay == BackoffDelay(pendingTimers[k].attempt))
      && (provider.Some? ==> provider.value < nextHandle)
      && (wallet.Some? ==> wallet.value < nextHandle)
      && (forall k :: 0 <= k < |terminated| ==> terminated[k] < nextHandle)
    }

    constructor ()
      ensures Valid()
      ensures provider == None && wallet == None && onReconnect == None
      ensures !isReconnecting && reconnectAttempts == 0 && !exited
      ensures pendingTimers == [] && terminated == [] && notifications == []
    {
      provider, wallet := None, None;
      isReconnecting := false;
      reconnectAttempts := 0;
      maxReconnectAttempts := MaxReconnectAttempts;
      reconnectDelay := BaseReconnectDelay;
      onReconnect := None;
      pendingTimers, terminated, notifications := [], [], [];
      exited := false;
      nextHandle := 0;
    }

    /**
     * `createProvider`: terminate the current socket if there is one, build a
     * new provider (whose socket handlers are now registered), then a new
     * wallet on it. Either constructor may throw; what was built before the
     * throw stays built. The attempt counter and the flag are untouched.
     */
    method CreateProvider(outcome: ConnectOutcome) returns (r: Result<(Handle, Handle), ConnectError>)
      requires Valid()
      modifies this
      ensures Valid()
      ensures terminated == old(terminated) + (if old(provider).Some? then [old(provider).value] else [])
      ensures outcome == ProviderFails ==>
                r == Failure(ProviderError) && provider == old(provider) && wallet == old(wallet)
      ensures outcome == WalletFails ==>
                r == Failure(WalletError) && provider == Some(old(nextHandle)) && wallet == old(wallet)
      ensures outcome == Connected ==>
                && provider == Some(old(nextHandle)) && wallet == Some(old(nextHandle) + 1)
                && r == Success((provider.value, wallet.value))
      ensures provider.Some? && provider != old(provider) ==> provider.value !in old(terminated) + terminated
      ensures isReconnecting == old(isReconnecting) && reconnectAttempts == old(reconnectAttempts)
      ensures onReconnect == old(onReconnect) && pendingTimers == old(pendingTimers)
      ensures notifications == old(notifications) && exited == old(exited)
    {
      if provider.Some? {
        terminated := terminated + [provider.value];
      }
      if outcome == ProviderFails {
        return Failure(ProviderError);
      }
      provider := Some(nextHandle);
      nextHandle := nextHandle + 1;
      if outcome == WalletFails {
        return Failure(WalletError);
      }
      wallet := Some(nextHandle);
      nextHandle := nextHandle + 1;
      r := Success((provider.value, wallet.value));
    }

    /** The `open` handler: the connection is up, so the counter and the flag are reset. */
    method OnOpen()
      requires Valid() && !exited
      modifies this
      ensures Valid()
      ensures reconnectAttempts == 0 && !isReconnecting
      ensures provider == old(provider) && wallet == old(wallet) && onReconnect == old(onReconnect)
      ensures pendingTimers == old(pendingTimers) && terminated == old(terminated)
      ensures notifications == old(notifications) && exited == old(exited) && nextHandle == old(nextHandle)
    {
      reconnectAttempts := 0;
      isReconnecting := false;
    }

    /**
     * `handleReconnect`. While a reconnect sequence is in flight it does
     * nothing. Otherwise it raises the flag and either exits the process
     * (ten attempts already made) or counts one more attempt and schedules
     * its timer with the backoff delay of that attempt.
     */
    method HandleReconnect()
      requires Valid() && !exited
      modifies this
      ensures Valid()
      ensures old(isReconnecting) ==>
                && isReconnecting && reconnectAttempts == old(reconnectAttempts)
                && pendingTimers == old(pendingTimers) && !exited
      ensures !old(isReconnecting) && old(reconnectAttempts) >= maxReconnectAttempts ==>
                && isReconnecting && exited
                && reconnectAttempts == old(reconnectAttempts) && pendingTimers == old(pendingTimers)
      ensures !old(isReconnecting) && old(reconnectAttempts) < maxReconnectAttempts ==>
                && isReconnecting && !exited
                && reconnectAttempts == old(reconnectAttempts) + 1
                && pendingTimers == old(pendingTimers) + [Timer(reconnectAttempts, BackoffDelay(reconnectAttempts))]
      ensures provider == old(provider) && wallet == old(wallet) && onReconnect == old(onReconnect)
      ensures terminated == old(terminated) && notifications == old(notifications) && nextHandle == old(nextHandle)
    {
      if isReconnecting {
        return;
      }
      isReconnecting := true;
      if reconnectAttempts >= maxReconnectAttempts {
        exited := true;
        return;
      }
      reconnectAttempts := reconnectAttempts + 1;
      var delay := BackoffDelay(reconnectAttempts);
      pendingTimers := pendingTimers + [Timer(reconnectAttempts, delay)];
    }

    /** The `close` handler. */
    method OnClose(code: int)
      requires Valid() && !exited
      modifies this
      ensures Valid()
      ensures old(isReconnecting) ==>
                && isReconnecting && reconnectAttempts == old(reconnectAttempts)
                && pendingTimers == old(pendingTimers) && !exited
      ensures !old(isReconnecting) && old(reconnectAttempts) >= maxReconnectAttempts ==>
                && isReconnecting && exited
                && reconnectAttempts == old(reconnectAttempts) && pendingTimers == old(pendingTimers)
      ensures !old(isReconnecting) && old(reconnectAttempts) < maxReconnectAttempts ==>
                && isReconnecting && !exited
                && reconnectAttempts == old(reconnectAttempts) + 1
                && pendingTimers == old(pendingTimers) + [Timer(reconnectAttempts, BackoffDelay(reconnectAttempts))]
      ensures provider == old(provider) && wallet == old(wallet) && onReconnect == old(onReconnect)
      ensures terminated == old(terminated) && notifications == old(notifications) && nextHandle == old(nextHandle)
    {
      HandleReconnect();
    }

    /** The `error` handler. */
    method OnError()
      requires Valid() && !exited
      modifies this
      ensures Valid()
      ensures old(isReconnecting) ==>
                && isReconnecting && reconnectAttempts == old(reconnectAttempts)
                && pendingTimers == old(pendingTimers) && !exited
      ensures !old(isReconnecting) && old(reconnectAttempts) >= maxReconnectAttempts ==>
                && isReconnecting && exited
                && reconnectAttempts == old(reconnectAttempts) && pendingTimers == old(pendingTimers)
      ensures !old(isReconnecting) && old(reconnectAttempts) < maxReconnectAttempts ==>
                && isReconnecting && !exited
                && reconnectAttempts == old(reconnectAttempts) + 1
                && pendingTimers == old(pendingTimers) + [Timer(reconnectAttempts, BackoffDelay(reconnectAttempts))]
      ensures provider == old(provider) && wallet == old(wallet) && onReconnect == old(onReconnect)
      ensures terminated == old(terminated) && notifications == old(notifications) && nextHandle == old(nextHandle)
    {
      HandleReconnect();
    }

    /**
     * The body of the timer that `handleReconnect` scheduled, fired by the
     * environment: rebuild the provider; on success invoke the registered
     * callback, if any, once with the new provider and wallet; on failure
     * lower the flag and call `handleReconnect` again, which therefore
     * counts a new attempt (or exits) instead of being swallowed by the guard.
     */
    method OnReconnectTimer(index: nat, outcome: ConnectOutcome)
      requires Valid() && !exited && index < |pendingTimers|
      modifies this
      ensures Valid()
      ensures terminated == old(terminated) + (if old(provider).Some? then [old(provider).value] else [])
      ensures outcome == Connected ==>
                && isReconnecting == old(isReconnecting) && reconnectAttempts == old(reconnectAttempts)
                && provider == Some(old(nextHandle)) && wallet == Some(old(nextHandle) + 1) && !exited
                && provider.value !in terminated
                && pendingTimers == old(pendingTimers[..index] + pendingTimers[index + 1..])
                && notifications == old(notifications)
                   + (if old(onReconnect).Some? then [Notification(old(onReconnect).value, provider.value, wallet.value)] else [])
      ensures outcome == ProviderFails ==> provider == old(provider) && wallet == old(wallet)
      ensures outcome == WalletFails ==> provider == Some(old(nextHandle)) && wallet == old(wallet)
      ensures outcome != Connected ==>
                && isReconnecting && notifications == old(notifications)
                && (exited <==> old(reconnectAttempts) >= maxReconnectAttempts)
                && (!exited ==>
                      && reconnectAttempts == old(reconnectAttempts) + 1
                      && pendingTimers == old(pendingTimers[..index] + pendingTimers[index + 1..])
                                          + [Timer(reconnectAttempts, BackoffDelay(reconnectAttempts))])
                && (exited ==>
                      && reconnectAttempts == old(reconnectAttempts)
                      && pendingTimers == old(pendingTimers[..index] + pendingTimers[index + 1..]))
      ensures onReconnect == old(onReconnect)
    {
      pendingTimers := pendingTimers[..index] + pendingTimers[index + 1..];
      var r := CreateProvider(outcome);
      if r.Success? {
        if onReconnect.Some? {
          notifications := notifications + [Notification(onReconnect.value, provider.value, wallet.value)];
        }
      } else {
        isReconnecting := false;
        HandleReconnect();
      }
    }

    /** `onReconnectCallback`: register the callback, replacing any earlier one. */
    method OnReconnectCallback(callback: Callback)
      requires Valid()
      modifies this
      ensures Valid()
      ensures onReconnect == Some(callback)
      ensures provider == old(provider) && wallet == old(wallet) && isReconnecting == old(isReconnecting)
      ensures reconnectAttempts == old(reconnectAttempts) && pendingTimers == old(pendingTimers)
      ensures terminated == old(terminated) && notifications == old(notifications)
      ensures exited == old(exited) && nextHandle == old(nextHandle)
    {
      onReconnect := Some(callback);
    }
  }
}
