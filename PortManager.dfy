/**
 * The session around one port: the open flag, the single-worker send executor
 * (modelled as a present / shut-down value, not as threads), the receive thread,
 * and the request listeners with their fan-out.
 */
module PortManagement {
  import opened Wrappers
  import opened Lists
  import opened PortReceive

  /** An `OnReceiveRequestListener` object; equality is its identity. */
  datatype Listener = Listener(id: nat)
  type ListenerRef = Option<Listener>

  /** One `listener.onRequest(requestDatas)` call made by the fan-out. */
  datatype Delivery = Delivery(listener: Listener, requestDatas: Bytes)

  /** The executor made by `initPool`; `generation` tells the successive pools apart. */
  datatype Executor = Executor(generation: nat, isShutdown: bool)

  /** A job handed to the executor by `send`. */
  datatype SendJob = SendJob(bytes: Bytes, isBlockSend: bool, what: int)

  /** The gate at the top of `send`: a job is submitted only to a live executor. */
  function Accepting(e: Option<Executor>): (r: bool)
    ensures e.None? ==> !r
    ensures e.Some? && e.value.isShutdown ==> !r
    ensures e.Some? && !e.value.isShutdown ==> r
  {
    e.Some? && !e.value.isShutdown
  }

  /** The non-null listeners, in list order. */
  function NonNull(listeners: seq<ListenerRef>): (r: seq<Listener>)
    ensures |r| <= |listeners|
    ensures forall l :: l in r <==> Some(l) in listeners
  {
    if listeners == [] then []
    else
      assert listeners == [listeners[0]] + listeners[1..];
      match listeners[0]
      case None => NonNull(listeners[1..])
      case Some(l) => [l] + NonNull(listeners[1..])
  }

  /** Every occurrence of a listener in the list is one delivery, so duplicates are called twice. */
  lemma {:induction false} NonNullCounts(listeners: seq<ListenerRef>, l: Listener)
    ensures multiset(NonNull(listeners))[l] == multiset(listeners)[Some(l)]
  {
    if listeners != [] {
      var head, tail := listeners[0], listeners[1..];
      NonNullCounts(tail, l);
      assert listeners == [head] + tail;
      assert multiset(listeners) == multiset([head]) + multiset(tail);
      match head
      case None =>
        assert NonNull(listeners) == NonNull(tail);
      case Some(x) =>
        assert NonNull(listeners) == [x] + NonNull(tail);
        assert multiset(NonNull(listeners)) == multiset([x]) + multiset(NonNull(tail));
    }
  }

  lemma NonNullAppend(listeners: seq<ListenerRef>, x: ListenerRef)
    ensures NonNull(listeners + [x]) == NonNull(listeners) + (if x.Some? then [x.value] else [])
    decreases |listeners|
  {
    if listeners != [] {
      assert (listeners + [x])[1..] == listeners[1..] + [x];
      NonNullAppend(listeners[1..], x);
    } else {
      assert [x][1..] == [];
    }
  }

  class PortManager {
    /** `getIPort() != null`. */
    const hasPort: bool
    /** `getPortParam()`, None when it is null. */
    const portParam: Option<PortParam>

    var receiveRequestListenerList: seq<ListenerRef>
    var mPortReceiveThread: PortReceiveThread?
    var mExecutorService: Option<Executor>
    var isOpen: bool
    /** Number of executors made so far. */
    var pools: nat
    /** Jobs submitted to the executor, oldest first. */
    var submitted: seq<SendJob>

    constructor (hasPort: bool, portParam: Option<PortParam>)
      ensures this.hasPort == hasPort && this.portParam == portParam
      ensures receiveRequestListenerList == [] && mPortReceiveThread == null && !isOpen
      ensures mExecutorService == Some(Executor(1, false)) && pools == 1 && submitted == []
    {
      this.hasPort := hasPort;
      this.portParam := portParam;
      receiveRequestListenerList := [];
      mPortReceiveThread := null;
      isOpen := false;
      submitted := [];
      pools := 1;
      mExecutorService := Some(Executor(1, false));
    }

    method InitPool()
      modifies this`mExecutorService, this`pools
      ensures pools == old(pools) + 1 && mExecutorService == Some(Executor(pools, false))
    {
      pools := pools + 1;
      mExecutorService := Some(Executor(pools, false));
    }

    method StartReceivedThread()
      requires portParam.Some?
      modifies this`mPortReceiveThread
      ensures mPortReceiveThread != null && fresh(mPortReceiveThread)
      ensures mPortReceiveThread.portParam == portParam.value && mPortReceiveThread.running
      ensures mPortReceiveThread.Valid() && mPortReceiveThread.State() == Initial
    {
      var t := new PortReceiveThread(portParam.value);
      t.StartThread();
      mPortReceiveThread := t;
    }

    /**
     * `open`: with a port and a configuration present, `portOpened` (the
     * outcome of `openPort`) becomes the open flag, and on success a fresh
     * executor and a started receive thread are installed; otherwise nothing
     * changes. The previous thread and executor are not stopped.
     */
    method Open(portOpened: bool) returns (r: bool)
      modifies this
      ensures r == isOpen
      ensures hasPort && portParam.Some? ==> isOpen == portOpened
      ensures !(hasPort && portParam.Some?) ==>
                isOpen == old(isOpen) && mExecutorService == old(mExecutorService)
                && mPortReceiveThread == old(mPortReceiveThread)
      ensures hasPort && portParam.Some? && portOpened ==>
                && pools == old(pools) + 1
                && mExecutorService == Some(Executor(old(pools) + 1, false)) && Accepting(mExecutorService)
                && mPortReceiveThread != null && fresh(mPortReceiveThread) && mPortReceiveThread.running
                && mPortReceiveThread.Valid() && mPortReceiveThread.State() == Initial
      ensures hasPort && portParam.Some? && !portOpened ==>
                mExecutorService == old(mExecutorService) && mPortReceiveThread == old(mPortReceiveThread)
      ensures !(hasPort && portParam.Some? && portOpened) ==> pools == old(pools)
      ensures receiveRequestListenerList == old(receiveRequestListenerList) && submitted == old(submitted)
    {
      if hasPort && portParam.Some? {
        isOpen := portOpened;
        if isOpen {
          InitPool();
          StartReceivedThread();
        }
      }
      r := isOpen;
    }

    /**
     * `close`: always succeeds and leaves no executor, no receive thread and the
     * port closed. The old receive thread is only stopped: its other fields keep
     * their values and its buffer array lies outside the frame.
     */
    method Close() returns (r: bool)
      modifies this, mPortReceiveThread
      ensures r && !isOpen && mExecutorService == None && mPortReceiveThread == null
      ensures !Accepting(mExecutorService)
      ensures old(mPortReceiveThread) != null ==> !old(mPortReceiveThread).running
      ensures old(mPortReceiveThread) != null ==>
                var t := old(mPortReceiveThread);
                && t.bufferPosition == old(t.bufferPosition) && t.frameHeadsType == old(t.frameHeadsType)
                && t.responseDatas == old(t.responseDatas) && t.interruptDatas == old(t.interruptDatas)
                && t.requests == old(t.requests)
      ensures receiveRequestListenerList == old(receiveRequestListenerList) && submitted == old(submitted)
      ensures pools == old(pools)
    {
      if mExecutorService.Some? {
        mExecutorService := None;  // shutdown(), then the reference is dropped
      }
      if mPortReceiveThread != null {
        mPortReceiveThread.StopThread();
        mPortReceiveThread := null;
      }
      isOpen := false;
      r := true;
    }

    /**
     * The private `send`: null at once, with nothing submitted, when there is no
     * live executor; otherwise the job is submitted and a blocking call returns
     * what the worker produced (`workerResult`, None for null or an exception),
     * a non-blocking one null.
     */
    method Send(bytes: Bytes, isBlockSend: bool, what: int, workerResult: Option<Bytes>) returns (r: Option<Bytes>)
      modifies this`submitted
      ensures !Accepting(mExecutorService) ==> r == None && submitted == old(submitted)
      ensures Accepting(mExecutorService) ==>
                submitted == old(submitted) + [SendJob(bytes, isBlockSend, what)]
                && r == (if isBlockSend then workerResult else None)
    {
      if mExecutorService.None? || mExecutorService.value.isShutdown {
        return None;
      }
      submitted := submitted + [SendJob(bytes, isBlockSend, what)];
      if isBlockSend {
        return workerResult;
      }
      return None;
    }

    /** The blocking overload: `what` is -1. */
    method SendBlocking(bytes: Bytes, workerResult: Option<Bytes>) returns (r: Option<Bytes>)
      modifies this`submitted
      ensures !Accepting(mExecutorService) ==> r == None && submitted == old(submitted)
      ensures Accepting(mExecutorService) ==>
                submitted == old(submitted) + [SendJob(bytes, true, -1)] && r == workerResult
    {
      r := Send(bytes, true, -1, workerResult);
    }

    /** The non-blocking overload returns nothing; results go to the callback. */
    method SendAsync(bytes: Bytes, what: int)
      modifies this`submitted
      ensures submitted == old(submitted) + (if Accepting(mExecutorService) then [SendJob(bytes, false, what)] else [])
    {
      var ignored := Send(bytes, false, what, None);
    }

    /** `clearSend`: drop the executor and install a fresh one, so the gate opens again. */
    method ClearSend()
      modifies this`mExecutorService, this`pools
      ensures pools == old(pools) + 1
      ensures mExecutorService == Some(Executor(old(pools) + 1, false)) && Accepting(mExecutorService)
    {
      if mExecutorService.Some? {
        mExecutorService := None;
      }
      InitPool();
    }

    method SetOnReceiveRequestListener(listener: ListenerRef)
      modifies this`receiveRequestListenerList
      ensures receiveRequestListenerList == old(receiveRequestListenerList) + [listener]
    {
      receiveRequestListenerList := receiveRequestListenerList + [listener];
    }

    method RemoveOnReceiveRequestListener(listener: ListenerRef)
      modifies this`receiveRequestListenerList
      ensures receiveRequestListenerList == RemoveFirst(old(receiveRequestListenerList), listener)
    {
      if receiveRequestListenerList != [] {
        receiveRequestListenerList := RemoveFirst(receiveRequestListenerList, listener);
      }
    }

    method ClearOnReceiveRequestListener()
      modifies this`receiveRequestListenerList
      ensures receiveRequestListenerList == []
    {
      if receiveRequestListenerList != [] {
        receiveRequestListenerList := [];
      }
    }

    /**
     * `onRequest` of the receive thread made by `startReceivedThread`: one call
     * per non-null entry of the listener list, in list order.
     */
    method OnRequest(requestDatas: Bytes) returns (deliveries: seq<Delivery>)
      ensures |deliveries| == |NonNull(receiveRequestListenerList)|
      ensures forall i :: 0 <= i < |deliveries| ==>
                deliveries[i] == Delivery(NonNull(receiveRequestListenerList)[i], requestDatas)
    {
      deliveries := [];
      var listeners := receiveRequestListenerList;
      var i := 0;
      while i < |listeners|
        invariant 0 <= i <= |listeners|
        invariant |deliveries| == |NonNull(listeners[..i])|
        invariant forall k :: 0 <= k < |deliveries| ==> deliveries[k] == Delivery(NonNull(listeners[..i])[k], requestDatas)
      {
        var listener := listeners[i];
        assert listeners[..i + 1] == listeners[..i] + [listener];
        NonNullAppend(listeners[..i], listener);
        if listener.Some? {
          deliveries := deliveries + [Delivery(listener.value, requestDatas)];
        }
        i := i + 1;
      }
      assert listeners[..i] == listeners;
    }
  }

  /** Every send after `close` is rejected: it returns null and submits nothing. */
  method SendAfterClose(m: PortManager, bytes: Bytes, workerResult: Option<Bytes>) returns (r: Option<Bytes>)
    modifies m, m.mPortReceiveThread
    ensures r == None && m.submitted == old(m.submitted) && !m.isOpen
  {
    var closed := m.Close();
    r := m.SendBlocking(bytes, workerResult);
  }

  /** After `clearSend` the gate is open again: the next blocking send is submitted and returns the worker's result. */
  method SendAfterClearSend(m: PortManager, bytes: Bytes, workerResult: Option<Bytes>) returns (r: Option<Bytes>)
    modifies m
    ensures r == workerResult && m.submitted == old(m.submitted) + [SendJob(bytes, true, -1)]
  {
    m.ClearSend();
    r := m.SendBlocking(bytes, workerResult);
  }

  /** Each `clearSend` installs a new executor: two in a row never leave equal ones. */
  method ClearSendTwice(m: PortManager) returns (first: Option<Executor>, second: Option<Executor>)
    modifies m
    ensures first != second && Accepting(first) && Accepting(second)
  {
    m.ClearSend();
    first := m.mExecutorService;
    m.ClearSend();
    second := m.mExecutorService;
  }
}
