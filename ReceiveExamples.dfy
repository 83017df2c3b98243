/**
 * Concrete runs of the receive loop. `FrameHeadUtil` is not part of this model,
 * so these runs use a reference marker search: the last offset at which any of
 * the configured heads occurs.
 */
module ReceiveExamples {
  import opened Wrappers
  import opened PortReceive

  predicate MatchesAt(head: Bytes, data: Bytes, i: nat) {
    |head| > 0 && i + |head| <= |data| && data[i..i + |head|] == head
  }

  predicate AnyHeadAt(heads: seq<Bytes>, data: Bytes, i: nat) {
    heads != [] && (MatchesAt(heads[0], data, i) || AnyHeadAt(heads[1..], data, i))
  }

  /** The last offset below `n` at which a head occurs, or -1. */
  function LastHeadBelow(heads: seq<Bytes>, data: Bytes, n: nat): (r: int)
    requires n <= |data|
    ensures -1 <= r < n
    ensures r >= 0 ==> AnyHeadAt(heads, data, r)
    ensures forall j :: r < j < n ==> !AnyHeadAt(heads, data, j)
  {
    if n == 0 then -1
    else if AnyHeadAt(heads, data, n - 1) then n - 1
    else LastHeadBelow(heads, data, n - 1)
  }

  /** A single differing byte rules out a match. */
  lemma Mismatch(heads: seq<Bytes>, data: Bytes, i: nat, k: nat)
    requires |heads| == 1 && k < |heads[0]|
    requires i + |heads[0]| > |data| || data[i + k] != heads[0][k]
    ensures !AnyHeadAt(heads, data, i)
  {
    assert heads[1..] == [];
    if i + |heads[0]| <= |data| {
      assert data[i..i + |heads[0]|][k] != heads[0][k];
    }
  }

  lemma Match(heads: seq<Bytes>, data: Bytes, i: nat)
    requires |heads| == 1 && |heads[0]| > 0 && i + |heads[0]| <= |data|
    requires data[i..i + |heads[0]|] == heads[0]
    ensures AnyHeadAt(heads, data, i)
  {
  }

  /** A marker search with the contract the receive loop assumes; a null head list finds nothing. */
  function LastFrameHeadPosition(heads: FrameHeads, data: Bytes): (r: int)
    ensures r < |data|
  {
    match heads
    case None => -1
    case Some(hs) => LastHeadBelow(hs, data, |data|)
  }

  /** Length resolver: byte 2 carries the payload length, after a 3-byte header. */
  function LengthFromThirdByte(data: Bytes): int {
    if |data| >= 3 then data[2] as int + 3 else 0
  }

  function ExampleParam(): PortParam {
    PortConfig(Some([[0xAA, 0x55]]), Some([]), LastFrameHeadPosition,
               Some(PortParamCallback(LengthFromThirdByte, (d: Bytes) => false)))
  }

  const ExampleStream: Bytes := [0xAA, 0x55, 0x01, 0xAA, 0x55, 0x03, 0x01, 0x02, 0x03]

  /** In the example stream the last `AA 55` starts at offset 3. */
  lemma ExampleHeadAtThree()
    ensures LastFrameHeadPosition(Some([[0xAA, 0x55]]), ExampleStream) == 3
  {
    var heads: seq<Bytes> := [[0xAA, 0x55]];
    var stream := ExampleStream;
    assert stream[3..5] == heads[0];
    Match(heads, stream, 3);
    Mismatch(heads, stream, 8, 0);
    Mismatch(heads, stream, 7, 0);
    Mismatch(heads, stream, 6, 0);
    Mismatch(heads, stream, 5, 0);
    Mismatch(heads, stream, 4, 0);
  }

  /**
   * The stream `AA 55 01 AA 55 03 01 02 03` in one read yields the single
   * response `AA 55 03 01 02 03`: the partial frame at offset 0 is discarded
   * because only the last head counts.
   */
  lemma LastHeadWins()
    ensures var r := Read(ExampleParam(), Initial, Some(ExampleStream));
            && !r.thrown
            && r.state.responseDatas == Some([0xAA, 0x55, 0x03, 0x01, 0x02, 0x03])
            && r.state.buffer == [] && r.state.requests == []
  {
    var p := ExampleParam();
    var stream := ExampleStream;
    ExampleHeadAtThree();
    assert HeadsConfigured(p) && LengthGuard(p, |Initial.buffer + stream|) == Some(true);
    assert Initial.buffer + stream == stream;
    assert p.lastFrameHead(p.receiveResponseFrameHeads, stream) == 3;
    var cut := stream[3..];
    assert cut == [0xAA, 0x55, 0x03, 0x01, 0x02, 0x03];
    assert FrameLength(p, cut) == 6;
    assert cut[..6] == cut;
    var typed := Initial.(buffer := stream, frameHeadsType := ResponseType);
    assert Read(p, Initial, Some(stream)) == Step(Deliver(p, typed, cut), false);
  }

  function ChunkParam(): PortParam {
    PortConfig(Some([]), Some([[0xAA]]), LastFrameHeadPosition,
               Some(PortParamCallback((d: Bytes) => if |d| >= 2 then 2 else 0, (d: Bytes) => false)))
  }

  /** A two-byte request frame `AA b` read into an empty buffer is posted whole. */
  lemma PairIsPosted(s: RxState, b: byte)
    requires s.buffer == [] && b != 0xAA
    ensures Read(ChunkParam(), s, Some([0xAA, b]))
            == Step(s.(frameHeadsType := RequestType, responseDatas := None, interruptDatas := None,
                       requests := s.requests + [[0xAA, b]]), false)
  {
    var heads: seq<Bytes> := [[0xAA]];
    var p := ChunkParam();
    var pair: Bytes := [0xAA, b];
    assert pair[0..1] == heads[0];
    Match(heads, pair, 0);
    Mismatch(heads, pair, 1, 0);
    assert LastHeadBelow(heads, pair, 2) == 0;
    assert LastHeadBelow([], pair, 2) == -1;
    assert s.buffer + pair == pair && pair[0..] == pair && pair[..2] == pair;
    var typed := s.(buffer := pair, frameHeadsType := RequestType);
    assert Read(p, s, Some(pair)) == Step(Deliver(p, typed, pair), false);
  }

  /** Two request frames in one read: only the one after the last head is posted. */
  lemma WholeKeepsLast()
    ensures var r := Read(ChunkParam(), Initial, Some([0xAA, 0x01, 0xAA, 0x02]));
            !r.thrown && r.state.requests == [[0xAA, 0x02]]
  {
    var heads: seq<Bytes> := [[0xAA]];
    var p := ChunkParam();
    var whole: Bytes := [0xAA, 0x01, 0xAA, 0x02];
    assert whole[2..3] == heads[0];
    Match(heads, whole, 2);
    Mismatch(heads, whole, 3, 0);
    assert LastHeadBelow(heads, whole, 4) == 2;
    assert LastHeadBelow([], whole, 4) == -1;
    assert Initial.buffer + whole == whole;
    assert p.lastFrameHead(p.receiveRequestFrameHeads, whole) == 2;
    assert whole[2..] == [0xAA, 0x02] && whole[2..][..2] == [0xAA, 0x02];
    var typed := Initial.(buffer := whole, frameHeadsType := RequestType);
    assert Read(p, Initial, Some(whole)) == Step(Deliver(p, typed, whole[2..]), false);
  }

  /**
   * The emitted frames depend on how the stream is split into reads: two
   * request frames `AA 01` and `AA 02` read separately are both emitted, read
   * together only the second one is.
   */
  lemma ChunkingChangesFrames()
    ensures Run(ChunkParam(), Initial, [Some([0xAA, 0x01, 0xAA, 0x02])]).state.requests == [[0xAA, 0x02]]
    ensures Run(ChunkParam(), Initial, [Some([0xAA, 0x01]), Some([0xAA, 0x02])]).state.requests
              == [[0xAA, 0x01], [0xAA, 0x02]]
  {
    var p := ChunkParam();
    var whole: Bytes := [0xAA, 0x01, 0xAA, 0x02];
    WholeKeepsLast();
    var once := Read(p, Initial, Some(whole));
    assert [Some(whole)][1..] == [];
    assert Run(p, Initial, [Some(whole)]) == Run(p, once.state, []);

    var first: Bytes := [0xAA, 0x01];
    var second: Bytes := [0xAA, 0x02];
    PairIsPosted(Initial, 0x01);
    var afterFirst := Read(p, Initial, Some(first));
    PairIsPosted(afterFirst.state, 0x02);
    var afterSecond := Read(p, afterFirst.state, Some(second));
    assert afterSecond.state.requests == [first, second] && !afterSecond.thrown;
    var polls := [Some(first), Some(second)];
    assert polls[1..] == [Some(second)] && polls[1..][1..] == [];
    assert Run(p, Initial, polls) == Run(p, afterFirst.state, polls[1..]);
    assert Run(p, afterFirst.state, polls[1..]) == Run(p, afterSecond.state, []);
  }
}
