/**
 * The serial-port receive thread: a 16 KiB byte accumulator with a write cursor,
 * a frame-head search that picks the last response head (or, failing that, the
 * last request head), length-delimited slicing through a configured callback,
 * and classification of each completed frame into the "last response" holder or
 * the emitted request queue (and, when flagged, the "last interrupt" holder).
 *
 * The specification of one poll is the function `Read` over the abstract state
 * `RxState`; the class `PortReceiveThread` keeps the real array and cursor and
 * its methods are proved to follow `Read`, `Deliver` and `Cleared`.
 */
module PortReceive {
  import opened Wrappers

  newtype byte = x: int | 0 <= x < 256
  type Bytes = seq<byte>

  /** A `byte[][]` list of frame-head patterns, which may be null. */
  type FrameHeads = Option<seq<Bytes>>

  /** Size of the receive buffer allocated by the constructor. */
  const Capacity: nat := 16 * 1024

  /** The frame-type tags stored in `frameHeadsType`. */
  const ResponseType: int := 1
  const RequestType: int := 2

  /** The two callbacks of the port configuration that the receive loop consults. */
  datatype PortParamCallback = PortParamCallback(
    onLength: Bytes -> int,        // length of the frame at the start of the slice; <= 0 or too long means "incomplete"
    onInterrupt: Bytes -> bool)    // whether a request frame is also an interrupt

  /**
   * The parts of the port configuration that the receive loop reads. The head
   * search of `FrameHeadUtil.getLastFrameHeadPosition` is not part of this model;
   * it is the function `lastFrameHead`, assumed to return a negative value
   * ("no head") or an offset inside the searched data.
   */
  datatype PortConfig = PortConfig(
    receiveResponseFrameHeads: FrameHeads,
    receiveRequestFrameHeads: FrameHeads,
    lastFrameHead: (FrameHeads, Bytes) -> int,
    portParamCallback: Option<PortParamCallback>)

  ghost predicate HeadSearchInRange(c: PortConfig) {
    forall heads, data :: c.lastFrameHead(heads, data) < |data|
  }

  type PortParam = c: PortConfig | HeadSearchInRange(c)
    witness PortConfig(None, None, (heads, data) => -1, None)

  /** What a thread's observable state is: the accumulated bytes and the holders. */
  datatype RxState = RxState(
    buffer: Bytes,                  // bufferDatas[..bufferPosition]
    frameHeadsType: int,            // 0 until a head search ran, then 1 (response) or 2 (request)
    responseDatas: Option<Bytes>,
    interruptDatas: Option<Bytes>,
    requests: seq<Bytes>)           // frames posted, in order, to `onRequest`

  /** The state after one poll, and whether the poll threw (which stops the loop). */
  datatype Step = Step(state: RxState, thrown: bool)

  const Initial: RxState := RxState([], 0, None, None, [])

  ghost predicate Bounded(s: RxState) {
    |s.buffer| <= Capacity
  }

  /**
   * The outer `if` of `readDatas`: at least one non-null, non-empty head list
   * is configured; a null list counts as an empty one.
   */
  function HeadsConfigured(p: PortParam): (r: bool)
    ensures r <==> p.receiveResponseFrameHeads.GetOr([]) != [] || p.receiveRequestFrameHeads.GetOr([]) != []
  {
    || (p.receiveResponseFrameHeads.Some? && |p.receiveResponseFrameHeads.value| > 0)
    || (p.receiveRequestFrameHeads.Some? && |p.receiveRequestFrameHeads.value| > 0)
  }

  /**
   * The length test of `readDatas`, evaluated as Java does: it compares the number of
   * accumulated bytes with the NUMBER of configured heads, and dereferences a
   * null head list (None: a NullPointerException).
   */
  function LengthGuard(p: PortParam, n: nat): (r: Option<bool>)
    ensures r.None? <==>
              p.receiveResponseFrameHeads.None?
              || (n < |p.receiveResponseFrameHeads.value| && p.receiveRequestFrameHeads.None?)
    ensures r.Some? ==>
              (r.value <==> n >= |p.receiveResponseFrameHeads.value|
                            || (p.receiveRequestFrameHeads.Some? && n >= |p.receiveRequestFrameHeads.value|))
  {
    if p.receiveResponseFrameHeads.None? then None
    else if n >= |p.receiveResponseFrameHeads.value| then Some(true)
    else if p.receiveRequestFrameHeads.None? then None
    else Some(n >= |p.receiveRequestFrameHeads.value|)
  }

  /** `onLength` of the callback, or 0 when there is no callback. */
  function FrameLength(p: PortParam, cut: Bytes): (n: int)
    ensures p.portParamCallback.None? ==> n == 0
  {
    match p.portParamCallback
    case None => 0
    case Some(cb) => cb.onLength(cut)
  }

  /** `onInterrupt` of the callback, or false when there is no callback. */
  function IsInterrupt(p: PortParam, datas: Bytes): (r: bool)
    ensures p.portParamCallback.None? ==> !r
  {
    match p.portParamCallback
    case None => false
    case Some(cb) => cb.onInterrupt(datas)
  }

  /** The frame is whole: its reported length is positive and fits in the slice. */
  function Complete(p: PortParam, cut: Bytes): (r: bool)
    ensures r ==> 0 < FrameLength(p, cut) <= |cut| && cut != []
    ensures p.portParamCallback.None? ==> !r
  {
    0 < FrameLength(p, cut) <= |cut|
  }

  /** `reset`: the cursor returns to 0 and both holders become null. */
  function Cleared(s: RxState): (r: RxState)
    ensures r.buffer == [] && r.responseDatas.None? && r.interruptDatas.None?
    ensures r.frameHeadsType == s.frameHeadsType && r.requests == s.requests
  {
    s.(buffer := [], responseDatas := None, interruptDatas := None)
  }

  /** `result`: settle the slice `cut` if the length callback reports a complete frame. */
  function Deliver(p: PortParam, s: RxState, cut: Bytes): (r: RxState)
    ensures r.buffer == s.buffer || r.buffer == []
    ensures s.requests <= r.requests && |r.requests| <= |s.requests| + 1
    ensures r.frameHeadsType == s.frameHeadsType
  {
    if |cut| == 0 || !Complete(p, cut) then s
    else
      var datas := cut[..FrameLength(p, cut)];
      var cleared := Cleared(s);
      if s.frameHeadsType == ResponseType then
        cleared.(responseDatas := Some(datas))
      else if s.frameHeadsType == RequestType then
        cleared.(requests := s.requests + [datas],
                 interruptDatas := if IsInterrupt(p, datas) then Some(datas) else None)
      else
        cleared
  }

  /** `readDatas`: one poll of the port that returned `read` (None: null). */
  function Read(p: PortParam, s: RxState, read: Option<Bytes>): (r: Step)
    requires Bounded(s)
    ensures Bounded(r.state)
    ensures s.requests <= r.state.requests && |r.state.requests| <= |s.requests| + 1
  {
    if read.None? || |read.value| == 0 then Step(s, false)
    else if |s.buffer| + |read.value| > Capacity then Step(s, true)  // System.arraycopy throws
    else
      var buf := s.buffer + read.value;
      var appended := s.(buffer := buf);
      if !HeadsConfigured(p) then
        Step(Deliver(p, appended, buf), false)
      else
        match LengthGuard(p, |buf|)
        case None => Step(appended, true)
        case Some(false) => Step(appended, false)
        case Some(true) =>
          var responsePos := p.lastFrameHead(p.receiveResponseFrameHeads, buf);
          if responsePos >= 0 then
            Step(Deliver(p, appended.(frameHeadsType := ResponseType), buf[responsePos..]), false)
          else
            var requestPos := p.lastFrameHead(p.receiveRequestFrameHeads, buf);
            var typed := appended.(frameHeadsType := RequestType);
            if requestPos < 0 then Step(Cleared(typed), false)
            else Step(Deliver(p, typed, buf[requestPos..]), false)
  }

  /** `onRun`: poll once per element of `polls` until a poll throws. */
  function Run(p: PortParam, s: RxState, polls: seq<Option<Bytes>>): (r: Step)
    requires Bounded(s)
    ensures Bounded(r.state)
    ensures s.requests <= r.state.requests && |r.state.requests| <= |s.requests| + |polls|
    decreases |polls|
  {
    if polls == [] then Step(s, false)
    else
      var first := Read(p, s, polls[0]);
      if first.thrown then first else Run(p, first.state, polls[1..])
  }

  class PortReceiveThread {
    const portParam: PortParam
    const bufferDatas: array<byte>
    var bufferPosition: nat
    var frameHeadsType: int
    var responseDatas: Option<Bytes>
    var interruptDatas: Option<Bytes>
    /** The frames handed to `sendMessage(0x123, ...)`, delivered in this order to `onRequest`. */
    var requests: seq<Bytes>
    /** `isRun()` of the thread. */
    var running: bool

    ghost predicate Valid()
      reads this
    {
      bufferDatas.Length == Capacity && bufferPosition <= Capacity
    }

    ghost function State(): (s: RxState)
      reads this, bufferDatas
      requires Valid()
      ensures Bounded(s)
    {
      RxState(bufferDatas[..bufferPosition], frameHeadsType, responseDatas, interruptDatas, requests)
    }

    constructor (portParam: PortParam)
      ensures Valid() && State() == Initial && !running
      ensures this.portParam == portParam && fresh(bufferDatas)
    {
      this.portParam := portParam;
      bufferDatas := new byte[16 * 1024];
      bufferPosition := 0;
      frameHeadsType := 0;
      responseDatas := None;
      interruptDatas := None;
      requests := [];
      running := false;
    }

    method StartThread()
      modifies this`running
      ensures running
    {
      running := true;
    }

    method StopThread()
      modifies this`running
      ensures !running
    {
      running := false;
    }

    method GetResponseDatas() returns (r: Option<Bytes>)
      ensures r == responseDatas
    {
      r := responseDatas;
    }

    method GetInterruptDatas() returns (r: Option<Bytes>)
      ensures r == interruptDatas
    {
      r := interruptDatas;
    }

    method Reset()
      requires Valid()
      modifies this`bufferPosition, this`responseDatas, this`interruptDatas
      ensures Valid() && State() == Cleared(old(State()))
    {
      bufferPosition := 0;
      responseDatas := None;
      interruptDatas := None;
    }

    method Result(cutDatas: Bytes)
      requires Valid()
      modifies this`bufferPosition, this`responseDatas, this`interruptDatas, this`requests
      ensures Valid() && State() == Deliver(portParam, old(State()), cutDatas)
    {
      if |cutDatas| == 0 {
        return;
      }
      var length := FrameLength(portParam, cutDatas);
      if 0 < length <= |cutDatas| {
        Reset();
        var datas := cutDatas[..length];
        if frameHeadsType == ResponseType {
          responseDatas := Some(datas);
        } else if frameHeadsType == RequestType {
          requests := requests + [datas];
          var isInterrupt := IsInterrupt(portParam, datas);
          if isInterrupt {
            interruptDatas := Some(datas);
          }
        }
      }
    }

    method ReadDatas(readDatas: Option<Bytes>) returns (thrown: bool)
      requires Valid()
      modifies this`bufferPosition, this`frameHeadsType, this`responseDatas, this`interruptDatas,
               this`requests, bufferDatas
      ensures Valid()
      ensures Step(State(), thrown) == Read(portParam, old(State()), readDatas)
    {
      thrown := false;
      if readDatas.None? || |readDatas.value| == 0 {
        return;
      }
      var datas := readDatas.value;
      if bufferPosition + |datas| > bufferDatas.Length {
        thrown := true;  // IndexOutOfBoundsException from System.arraycopy, before any byte is copied
        return;
      }
      ghost var before := bufferDatas[..bufferPosition];
      forall i | 0 <= i < |datas| {
        bufferDatas[bufferPosition + i] := datas[i];
      }
      bufferPosition := bufferPosition + |datas|;
      var cutDatas := bufferDatas[..bufferPosition];
      assert cutDatas == before + datas;
      if HeadsConfigured(portParam) {
        var guard := LengthGuard(portParam, |cutDatas|);
        if guard.None? {
          thrown := true;  // NullPointerException on a null head list
          return;
        }
        if guard.value {
          frameHeadsType := ResponseType;
          var lastFrameHeadPosition := portParam.lastFrameHead(portParam.receiveResponseFrameHeads, cutDatas);
          if lastFrameHeadPosition < 0 {
            frameHeadsType := RequestType;
            lastFrameHeadPosition := portParam.lastFrameHead(portParam.receiveRequestFrameHeads, cutDatas);
          }
          if lastFrameHeadPosition < 0 {
            Reset();
          } else {
            Result(cutDatas[lastFrameHeadPosition..]);
          }
        }
      } else {
        Result(cutDatas);
      }
    }

    /** The polling loop: `polls` are the successive results of `readPort`. */
    method OnRun(polls: seq<Option<Bytes>>)
      requires Valid()
      modifies this, bufferDatas
      ensures Valid()
      ensures old(running) ==>
                var r := Run(portParam, old(State()), polls);
                State() == r.state && running == !r.thrown
      ensures !old(running) ==> State() == old(State()) && !running
    {
      if !running {
        return;
      }
      var i := 0;
      while running && i < |polls|
        invariant Valid() && 0 <= i <= |polls|
        invariant running ==> Run(portParam, old(State()), polls) == Run(portParam, State(), polls[i..])
        invariant !running ==> Run(portParam, old(State()), polls) == Step(State(), true)
      {
        ghost var pre := State();
        var thrown := ReadDatas(polls[i]);
        assert polls[i..][0] == polls[i] && polls[i..][1..] == polls[i + 1..];
        assert Run(portParam, pre, polls[i..]) ==
               if thrown then Step(State(), true) else Run(portParam, State(), polls[i + 1..]);
        if thrown {
          ghost var post := State();
          running := false;
          assert State() == post;
        }
        i := i + 1;
      }
    }
  }
}
