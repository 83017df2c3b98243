/**
 * The reply cache: two independent lists of received frames, "Response" and
 * "Result", with append, remove-first, clear and a filtered first-match query.
 *
 * `byte[]` equality in Java is reference identity, so a frame is modelled as an
 * allocation identity together with its bytes; a null entry is None.
 */
module ReceiveCache {
  import opened Wrappers
  import opened Lists
  import opened PortReceive

  /** A `byte[]` object: distinct allocations have distinct ids. */
  datatype Frame = Frame(id: nat, bytes: Bytes)
  type FrameRef = Option<Frame>

  datatype PortReceiveType = Response | Result

  /** `PortFilterCallback.onFilter(sendDatas, receiveDatas, receiveType)`. */
  type Filter = (FrameRef, FrameRef, PortReceiveType) -> bool

  /** The query's test for one entry: a null filter accepts everything. */
  function Accepts(filter: Option<Filter>, sendDatas: FrameRef, receiveDatas: FrameRef, t: PortReceiveType): (r: bool)
    ensures filter.None? ==> r
  {
    filter.None? || filter.value(sendDatas, receiveDatas, t)
  }

  /** The position of the first accepted entry, or `|list|` when none is accepted. */
  function FirstAccepted(list: seq<FrameRef>, sendDatas: FrameRef, filter: Option<Filter>, t: PortReceiveType): (i: nat)
    ensures i <= |list|
    ensures i < |list| ==> Accepts(filter, sendDatas, list[i], t)
    ensures forall j :: 0 <= j < i ==> !Accepts(filter, sendDatas, list[j], t)
  {
    if list == [] then 0
    else if Accepts(filter, sendDatas, list[0], t) then 0
    else 1 + FirstAccepted(list[1..], sendDatas, filter, t)
  }

  /** What the query returns for a list: the first accepted entry, or null. */
  function Lookup(list: seq<FrameRef>, sendDatas: FrameRef, filter: Option<Filter>, t: PortReceiveType): (r: FrameRef)
    ensures r.Some? ==> r in list && Accepts(filter, sendDatas, r, t)
    ensures (forall j :: 0 <= j < |list| ==> !Accepts(filter, sendDatas, list[j], t)) ==> r.None?
  {
    var i := FirstAccepted(list, sendDatas, filter, t);
    if i < |list| then list[i] else None
  }

  /** Without a filter the query returns the oldest entry, and null for an empty list. */
  lemma UnfilteredLookupIsOldest(list: seq<FrameRef>, sendDatas: FrameRef, t: PortReceiveType)
    ensures Lookup(list, sendDatas, None, t) == if list == [] then None else list[0]
  {
  }

  /** Appending entries never changes what an earlier successful query found. */
  lemma LookupStableUnderAppend(list: seq<FrameRef>, more: seq<FrameRef>, sendDatas: FrameRef,
                                filter: Option<Filter>, t: PortReceiveType)
    requires FirstAccepted(list, sendDatas, filter, t) < |list|
    ensures Lookup(list + more, sendDatas, filter, t) == Lookup(list, sendDatas, filter, t)
  {
    var i := FirstAccepted(list, sendDatas, filter, t);
    var k := FirstAccepted(list + more, sendDatas, filter, t);
    assert (list + more)[i] == list[i];
    assert forall j :: 0 <= j < i ==> (list + more)[j] == list[j];
    assert k == i;
  }

  class PortReceiveCache {
    var responseList: seq<FrameRef>
    var resultList: seq<FrameRef>

    constructor ()
      ensures responseList == [] && resultList == []
    {
      responseList := [];
      resultList := [];
    }

    /** The list a receive type selects: `Response` the response list, `Result` the result list. */
    function ListOf(t: PortReceiveType): (r: seq<FrameRef>)
      reads this
      ensures t.Response? ==> r == responseList
      ensures t.Result? ==> r == resultList
    {
      match t
      case Response => responseList
      case Result => resultList
    }

    method AddResponse(bytes: FrameRef)
      modifies this`responseList
      ensures responseList == old(responseList) + [bytes]
    {
      responseList := responseList + [bytes];
    }

    method RemoveResponse(bytes: FrameRef)
      modifies this`responseList
      ensures responseList == RemoveFirst(old(responseList), bytes)
    {
      responseList := RemoveFirst(responseList, bytes);
    }

    method ClearResponseList()
      modifies this`responseList
      ensures responseList == []
    {
      responseList := [];
    }

    method AddResult(bytes: FrameRef)
      modifies this`resultList
      ensures resultList == old(resultList) + [bytes]
    {
      resultList := resultList + [bytes];
    }

    method RemoveResult(bytes: FrameRef)
      modifies this`resultList
      ensures resultList == RemoveFirst(old(resultList), bytes)
    {
      resultList := RemoveFirst(resultList, bytes);
    }

    method ClearResultList()
      modifies this`resultList
      ensures resultList == []
    {
      resultList := [];
    }

    method Clear()
      modifies this
      ensures responseList == [] && resultList == []
    {
      ClearResponseList();
      ClearResultList();
    }

    /**
     * `getReceiveDatas`: the first entry of the named list, in insertion order,
     * that the filter accepts; null for an unknown type (None), an empty list or
     * no accepted entry. Having no modifies clause, it changes neither list.
     */
    method GetReceiveDatas(receiveType: Option<PortReceiveType>, sendDatas: FrameRef, filter: Option<Filter>)
      returns (r: FrameRef)
      ensures receiveType.None? ==> r.None?
      ensures receiveType.Some? ==> r == Lookup(ListOf(receiveType.value), sendDatas, filter, receiveType.value)
    {
      if receiveType.None? {
        return None;
      }
      var t := receiveType.value;
      var receiveList := if t == Response then responseList else resultList;
      if receiveList == [] {
        return None;
      }
      var i := 0;
      while i < |receiveList|
        invariant 0 <= i <= |receiveList|
        invariant forall j :: 0 <= j < i ==> !Accepts(filter, sendDatas, receiveList[j], t)
      {
        var receiveDatas := receiveList[i];
        if filter.Some? ==> filter.value(sendDatas, receiveDatas, t) {
          assert FirstAccepted(receiveList, sendDatas, filter, t) == i by {
            FirstAcceptedIs(receiveList, sendDatas, filter, t, i);
          }
          return receiveDatas;
        }
        i := i + 1;
      }
      FirstAcceptedIs(receiveList, sendDatas, filter, t, i);
      return None;
    }

    /** `removeReceiveDatas`: null or empty frames are ignored; otherwise only the named list changes. */
    method RemoveReceiveDatas(receiveType: Option<PortReceiveType>, receiveDatas: FrameRef)
      modifies this
      ensures receiveDatas.None? || receiveDatas.value.bytes == [] || receiveType.None? ==>
                responseList == old(responseList) && resultList == old(resultList)
      ensures receiveDatas.Some? && receiveDatas.value.bytes != [] && receiveType == Some(Response) ==>
                responseList == RemoveFirst(old(responseList), receiveDatas) && resultList == old(resultList)
      ensures receiveDatas.Some? && receiveDatas.value.bytes != [] && receiveType == Some(Result) ==>
                resultList == RemoveFirst(old(resultList), receiveDatas) && responseList == old(responseList)
    {
      if receiveDatas.Some? && |receiveDatas.value.bytes| > 0 {
        if receiveType == Some(Response) {
          RemoveResponse(receiveDatas);
        } else if receiveType == Some(Result) {
          RemoveResult(receiveDatas);
        }
      }
    }
  }

  /** The unique position characterised by "accepted, and nothing before it is". */
  lemma {:induction false} FirstAcceptedIs(list: seq<FrameRef>, sendDatas: FrameRef, filter: Option<Filter>,
                                           t: PortReceiveType, i: nat)
    requires i <= |list|
    requires i < |list| ==> Accepts(filter, sendDatas, list[i], t)
    requires forall j :: 0 <= j < i ==> !Accepts(filter, sendDatas, list[j], t)
    ensures FirstAccepted(list, sendDatas, filter, t) == i
  {
    if i > 0 {
      FirstAcceptedIs(list[1..], sendDatas, filter, t, i - 1);
    }
  }

  /**
   * `getInstance`: the static field `mPortReceiveCache`, modelled as a field of
   * a holder object since Dafny classes have no static variables.
   */
  class PortReceiveCacheHolder {
    var mPortReceiveCache: PortReceiveCache?

    constructor ()
      ensures mPortReceiveCache == null
    {
      mPortReceiveCache := null;
    }

    method GetInstance() returns (c: PortReceiveCache)
      modifies this
      ensures mPortReceiveCache == c
      ensures old(mPortReceiveCache) != null ==> c == old(mPortReceiveCache)
      ensures old(mPortReceiveCache) == null ==> fresh(c) && c.responseList == [] && c.resultList == []
    {
      if mPortReceiveCache == null {
        mPortReceiveCache := new PortReceiveCache();
      }
      c := mPortReceiveCache;
    }

    /** Sequential calls of `getInstance` return one and the same cache. */
    method GetInstanceTwice() returns (first: PortReceiveCache, second: PortReceiveCache)
      modifies this
      ensures first == second
    {
      first := GetInstance();
      second := GetInstance();
    }
  }
}
