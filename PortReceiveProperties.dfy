/**
 * What one poll of the receive thread does, case by case, and the invariants the
 * polling loop keeps. Every lemma is about the specification functions `Read`
 * and `Run`, which the methods of `PortReceiveThread` are proved to follow.
 */
module PortReceiveProperties {
  import opened Wrappers
  import opened PortReceive

  /** The bytes accumulated by a non-empty read that fits into the buffer. */
  function Appended(s: RxState, read: Bytes): Bytes {
    s.buffer + read
  }

  predicate Fits(s: RxState, read: Bytes) {
    |s.buffer| + |read| <= Capacity
  }

  /** The head search ran: heads are configured and the length test of `readDatas` let it through. */
  predicate Searched(p: PortParam, s: RxState, read: Bytes) {
    HeadsConfigured(p) && LengthGuard(p, |Appended(s, read)|) == Some(true)
  }

  function ResponsePosition(p: PortParam, buf: Bytes): int {
    p.lastFrameHead(p.receiveResponseFrameHeads, buf)
  }

  function RequestPosition(p: PortParam, buf: Bytes): int {
    p.lastFrameHead(p.receiveRequestFrameHeads, buf)
  }

  /** A null or empty read changes nothing and does not stop the loop. */
  lemma EmptyReadChangesNothing(p: PortParam, s: RxState, read: Option<Bytes>)
    requires Bounded(s)
    requires read.None? || read.value == []
    ensures Read(p, s, read) == Step(s, false)
  {
  }

  /** A read that does not fit into the 16 KiB buffer throws before copying anything. */
  lemma OverflowThrows(p: PortParam, s: RxState, read: Bytes)
    requires Bounded(s) && !Fits(s, read)
    ensures Read(p, s, Some(read)) == Step(s, true)
  {
  }

  /**
   * A non-empty read that fits is appended at the cursor: afterwards the buffer
   * either holds exactly the old bytes followed by the read ones, or it was reset.
   */
  lemma ReadAppendsOrResets(p: PortParam, s: RxState, read: Bytes)
    requires Bounded(s) && Fits(s, read) && read != []
    ensures var r := Read(p, s, Some(read)).state;
            (r.buffer == Appended(s, read) && |r.buffer| == |s.buffer| + |read|) || r.buffer == []
  {
  }

  /** The length test of `readDatas` dereferences a null head list: the poll throws, keeping the appended bytes. */
  lemma NullHeadListThrows(p: PortParam, s: RxState, read: Bytes)
    requires Bounded(s) && Fits(s, read) && read != []
    requires HeadsConfigured(p) && LengthGuard(p, |Appended(s, read)|).None?
    ensures Read(p, s, Some(read)) == Step(s.(buffer := Appended(s, read)), true)
  {
  }

  /** When the length test of `readDatas` fails, the bytes are kept and nothing is searched, reset or posted. */
  lemma GuardFailsKeepsBytes(p: PortParam, s: RxState, read: Bytes)
    requires Bounded(s) && Fits(s, read) && read != []
    requires HeadsConfigured(p) && LengthGuard(p, |Appended(s, read)|) == Some(false)
    ensures Read(p, s, Some(read)) == Step(s.(buffer := Appended(s, read)), false)
  {
  }

  /** Response heads are searched first; request heads only when no response head is found. */
  lemma ResponseHeadsFirst(p: PortParam, s: RxState, read: Bytes)
    requires Bounded(s) && Fits(s, read) && read != [] && Searched(p, s, read)
    ensures var r := Read(p, s, Some(read));
            && !r.thrown
            && (ResponsePosition(p, Appended(s, read)) >= 0 ==> r.state.frameHeadsType == ResponseType)
            && (ResponsePosition(p, Appended(s, read)) < 0 ==> r.state.frameHeadsType == RequestType)
  {
  }

  /** No head of either kind: the stream is out of step and everything is dropped. */
  lemma DesyncResets(p: PortParam, s: RxState, read: Bytes)
    requires Bounded(s) && Fits(s, read) && read != [] && Searched(p, s, read)
    requires ResponsePosition(p, Appended(s, read)) < 0 && RequestPosition(p, Appended(s, read)) < 0
    ensures var r := Read(p, s, Some(read)).state;
            && r.buffer == [] && r.responseDatas == None && r.interruptDatas == None
            && r.requests == s.requests
  {
  }

  /**
   * The slice handed to the length callback: from the last response head, else
   * from the last request head, else (no heads configured) the whole buffer.
   */
  function SliceOf(p: PortParam, buf: Bytes): (cut: Bytes)
    requires HeadsConfigured(p) ==>
               ResponsePosition(p, buf) >= 0 || RequestPosition(p, buf) >= 0
    ensures |cut| <= |buf| && cut == buf[|buf| - |cut|..]
  {
    if !HeadsConfigured(p) then buf
    else if ResponsePosition(p, buf) >= 0 then buf[ResponsePosition(p, buf)..]
    else buf[RequestPosition(p, buf)..]
  }

  /** Whether the poll reaches `result` with a slice, i.e. neither throws, stops at the guard, nor desynchronises. */
  predicate Sliced(p: PortParam, s: RxState, read: Bytes) {
    && Fits(s, read) && read != []
    && (HeadsConfigured(p) ==>
          && Searched(p, s, read)
          && (ResponsePosition(p, Appended(s, read)) >= 0 || RequestPosition(p, Appended(s, read)) >= 0))
  }

  /** A length that is not positive or exceeds the slice means "incomplete": the bytes stay for the next read. */
  lemma IncompleteKeepsBytes(p: PortParam, s: RxState, read: Bytes)
    requires Bounded(s) && Sliced(p, s, read)
    requires !Complete(p, SliceOf(p, Appended(s, read)))
    ensures var r := Read(p, s, Some(read));
            && !r.thrown
            && r.state.buffer == Appended(s, read)
            && r.state.responseDatas == s.responseDatas
            && r.state.interruptDatas == s.interruptDatas
            && r.state.requests == s.requests
  {
  }

  /** The frame a complete slice yields: its first `onLength` bytes. */
  function FrameOf(p: PortParam, cut: Bytes): (frame: Bytes)
    requires Complete(p, cut)
    ensures 0 < |frame| <= |cut| && frame == cut[..|frame|]
  {
    cut[..FrameLength(p, cut)]
  }

  /**
   * A complete frame after a response head: the cursor goes back to 0, the frame
   * becomes the response holder, the interrupt holder is cleared and no request
   * is emitted.
   */
  lemma ResponseFrameIsHeld(p: PortParam, s: RxState, read: Bytes)
    requires Bounded(s) && Sliced(p, s, read) && HeadsConfigured(p)
    requires ResponsePosition(p, Appended(s, read)) >= 0
    requires Complete(p, SliceOf(p, Appended(s, read)))
    ensures var r := Read(p, s, Some(read)).state;
            && r.buffer == []
            && r.responseDatas == Some(FrameOf(p, SliceOf(p, Appended(s, read))))
            && r.interruptDatas == None
            && r.requests == s.requests
  {
  }

  /**
   * A complete frame after a request head is always emitted; it becomes the
   * interrupt holder exactly when `onInterrupt` says so; the response holder is
   * cleared.
   */
  lemma RequestFrameIsEmitted(p: PortParam, s: RxState, read: Bytes)
    requires Bounded(s) && Sliced(p, s, read) && HeadsConfigured(p)
    requires ResponsePosition(p, Appended(s, read)) < 0
    requires Complete(p, SliceOf(p, Appended(s, read)))
    ensures var r := Read(p, s, Some(read)).state;
            var frame := FrameOf(p, SliceOf(p, Appended(s, read)));
            && r.buffer == []
            && r.requests == s.requests + [frame]
            && (r.interruptDatas == Some(frame) <==> IsInterrupt(p, frame))
            && (r.interruptDatas == None <==> !IsInterrupt(p, frame))
            && r.responseDatas == None
  {
  }

  /**
   * Without heads the type tag is never set, so a complete frame whose tag is
   * still 0 only resets the buffer: no holder is set and nothing is emitted.
   */
  lemma UntypedFrameIsDropped(p: PortParam, s: RxState, read: Bytes)
    requires Bounded(s) && Sliced(p, s, read) && !HeadsConfigured(p)
    requires s.frameHeadsType != ResponseType && s.frameHeadsType != RequestType
    requires Complete(p, Appended(s, read))
    ensures var r := Read(p, s, Some(read)).state;
            && r.buffer == [] && r.frameHeadsType == s.frameHeadsType
            && r.responseDatas == None && r.interruptDatas == None
            && r.requests == s.requests
  {
  }

  /**
   * Invariant of the two holders: they are never set together, a held frame is
   * never empty, and a held interrupt is the request emitted last.
   */
  ghost predicate HoldersConsistent(s: RxState) {
    && !(s.responseDatas.Some? && s.interruptDatas.Some?)
    && (s.responseDatas.Some? ==> 0 < |s.responseDatas.value| <= Capacity)
    && (s.interruptDatas.Some? ==> |s.requests| > 0 && s.interruptDatas.value == s.requests[|s.requests| - 1])
    && (forall i :: 0 <= i < |s.requests| ==> 0 < |s.requests[i]| <= Capacity)
  }

  lemma InitialConsistent()
    ensures Bounded(Initial) && HoldersConsistent(Initial)
  {
  }

  lemma DeliverKeepsConsistent(p: PortParam, s: RxState, cut: Bytes)
    requires HoldersConsistent(s) && |cut| <= Capacity
    ensures HoldersConsistent(Deliver(p, s, cut))
  {
    if |cut| > 0 && Complete(p, cut) {
      var r := Deliver(p, s, cut);
      var datas := cut[..FrameLength(p, cut)];
      if s.frameHeadsType == RequestType {
        assert r.requests == s.requests + [datas];
        assert forall i :: 0 <= i < |s.requests| ==> r.requests[i] == s.requests[i];
      }
    }
  }

  /** One poll keeps the holder invariant. */
  lemma ReadKeepsConsistent(p: PortParam, s: RxState, read: Option<Bytes>)
    requires Bounded(s) && HoldersConsistent(s)
    ensures HoldersConsistent(Read(p, s, read).state)
  {
    if read.Some? && |read.value| > 0 && |s.buffer| + |read.value| <= Capacity {
      var buf := s.buffer + read.value;
      var appended := s.(buffer := buf);
      if !HeadsConfigured(p) {
        DeliverKeepsConsistent(p, appended, buf);
      } else if LengthGuard(p, |buf|) == Some(true) {
        var responsePos := p.lastFrameHead(p.receiveResponseFrameHeads, buf);
        var requestPos := p.lastFrameHead(p.receiveRequestFrameHeads, buf);
        if responsePos >= 0 {
          DeliverKeepsConsistent(p, appended.(frameHeadsType := ResponseType), buf[responsePos..]);
        } else if requestPos >= 0 {
          DeliverKeepsConsistent(p, appended.(frameHeadsType := RequestType), buf[requestPos..]);
        }
      }
    }
  }

  /** The whole polling loop keeps the holder invariant. */
  lemma {:induction false} RunKeepsConsistent(p: PortParam, s: RxState, polls: seq<Option<Bytes>>)
    requires Bounded(s) && HoldersConsistent(s)
    ensures HoldersConsistent(Run(p, s, polls).state)
    decreases |polls|
  {
    if polls != [] {
      ReadKeepsConsistent(p, s, polls[0]);
      var first := Read(p, s, polls[0]);
      if !first.thrown {
        RunKeepsConsistent(p, first.state, polls[1..]);
      }
    }
  }

  /**
   * With no heads configured the thread, started from its initial state, never
   * delivers anything: no request is emitted and neither holder is ever set.
   */
  lemma {:induction false} NoHeadsNeverDelivers(p: PortParam, s: RxState, polls: seq<Option<Bytes>>)
    requires Bounded(s) && !HeadsConfigured(p)
    requires s.frameHeadsType == 0 && s.responseDatas == None && s.interruptDatas == None
    ensures var r := Run(p, s, polls).state;
            && r.requests == s.requests && r.frameHeadsType == 0
            && r.responseDatas == None && r.interruptDatas == None
    decreases |polls|
  {
    if polls != [] {
      var first := Read(p, s, polls[0]);
      assert first.state.requests == s.requests && first.state.frameHeadsType == 0;
      assert first.state.responseDatas == None && first.state.interruptDatas == None;
      if !first.thrown {
        NoHeadsNeverDelivers(p, first.state, polls[1..]);
      }
    }
  }

  /** Once a poll throws, the loop stops: later polls are never made. */
  lemma {:induction false} RunStopsAtFault(p: PortParam, s: RxState, polls: seq<Option<Bytes>>, k: nat)
    requires Bounded(s) && k < |polls|
    requires Run(p, s, polls[..k]).thrown == false
    requires Read(p, Run(p, s, polls[..k]).state, polls[k]).thrown
    ensures Run(p, s, polls) == Read(p, Run(p, s, polls[..k]).state, polls[k])
    decreases k
  {
    if k == 0 {
    } else {
      var first := Read(p, s, polls[0]);
      assert polls[..k][0] == polls[0] && polls[..k][1..] == polls[1..][..k - 1];
      RunStopsAtFault(p, first.state, polls[1..], k - 1);
    }
  }
}
