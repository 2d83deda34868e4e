/** The queries of whole binding tables (`bindingTableReaderTimerFired` in bindings.cpp:3882-3954). */
module BindingReaders {
  import opened Basics
  import opened Vectors

  datatype ReaderState = StateIdle | StateWaitConfirm | StateWaitResponse | StateFinished

  const MAX_CONFIRM_TIME := 10 * 60 * 1000
  const MAX_RESPONSE_TIME := 10 * 1000
  const MAX_END_DEVICE_RESPONSE_TIME := 60 * 60 * 1000

  datatype Reader = Reader(address: nat, state: ReaderState, index: nat, isEndDevice: bool, time: int)

  /** The tick drops the reader: finished, timed out, or its request is not accepted. */
  predicate Retires(x: Reader, now: int, accepted: set<nat>)
  {
    match x.state
    case StateFinished => true
    case StateIdle => x.address !in accepted
    case StateWaitConfirm => now - x.time > MAX_CONFIRM_TIME
    case StateWaitResponse =>
      now - x.time > (if x.isEndDevice then MAX_END_DEVICE_RESPONSE_TIME else MAX_RESPONSE_TIME)
  }

  function Sent(x: Reader, now: int): Reader { x.(state := StateWaitConfirm, time := now) }

  /** The readers left, and the index and former value of the one whose request was sent. */
  datatype Ticked = Ticked(readers: seq<Reader>, sent: Option<(nat, Reader)>)

  function Tick(readers: seq<Reader>, i: nat, now: int, accepted: set<nat>): Ticked
    requires i <= |readers|
    decreases |readers| - i
  {
    if i == |readers| then Ticked(readers, None)
    else if Retires(readers[i], now, accepted) then Tick(SwapRemove(readers, i), i, now, accepted)
    else if readers[i].state.StateIdle? then Ticked(readers[i := Sent(readers[i], now)], Some((i, readers[i])))
    else Tick(readers, i + 1, now, accepted)
  }

  /** What a tick does to a reader that is alone: ten minutes for a confirm, ten seconds for an answer, an hour
      for that of an end device; an idle reader whose request is accepted waits from now on. */
  lemma AloneLaw(x: Reader, now: int, accepted: set<nat>)
    ensures var r := Tick([x], 0, now, accepted).readers;
      match x.state
      case StateFinished => r == []
      case StateIdle => r == if x.address in accepted then [x.(state := StateWaitConfirm, time := now)] else []
      case StateWaitConfirm => r == if now - x.time > 600000 then [] else [x]
      case StateWaitResponse => r == if now - x.time > (if x.isEndDevice then 3600000 else 10000) then [] else [x]
    ensures Retires(x, now, accepted) <==> Tick([x], 0, now, accepted).readers == []
  {
    if Retires(x, now, accepted) {
      assert SwapRemove([x], 0) == [];
    } else if x.state.StateIdle? {
      assert [x][0 := Sent(x, now)] == [Sent(x, now)];
    } else {
      assert Tick([x], 1, now, accepted).readers == [x];
    }
  }

  /** The timer slot; `armed` says whether the timer runs again. */
  method TimerFired(readers: seq<Reader>, now: int, accepted: set<nat>) returns (r: seq<Reader>, armed: bool)
    ensures r == Tick(readers, 0, now, accepted).readers && (armed <==> r != [])
  {
    r := readers;
    var i := 0;
    while i < |r|
      invariant i <= |r|
      invariant Tick(readers, 0, now, accepted) == Tick(r, i, now, accepted)
      decreases |r| - i
    {
      var x := r[i];
      var finished := x.state == StateFinished;
      if x.state == StateIdle {
        if x.address in accepted {
          r := r[i := x.(state := StateWaitConfirm, time := now)];
          break;
        }
        finished := true;
      } else if x.state == StateWaitConfirm {
        finished := now - x.time > MAX_CONFIRM_TIME;
      } else if x.state == StateWaitResponse {
        var maxResponseTime := if x.isEndDevice then MAX_END_DEVICE_RESPONSE_TIME else MAX_RESPONSE_TIME;
        finished := now - x.time > maxResponseTime;
      }
      if finished {
        r := SwapRemove(r, i);
      } else {
        i := i + 1;
      }
    }
    armed := r != [];
  }

  /** The readers of the result, with the sent one as it was before. */
  function Before(t: Ticked): seq<Reader>
    requires t.sent.Some? ==> t.sent.value.0 < |t.readers|
  {
    if t.sent.Some? then t.readers[t.sent.value.0 := t.sent.value.1] else t.readers
  }

  /** The readers in front of the cursor neither retire nor wait to be sent. */
  predicate Passed(readers: seq<Reader>, i: nat, now: int, accepted: set<nat>)
    requires i <= |readers|
  {
    forall k :: 0 <= k < i ==> !Retires(readers[k], now, accepted) && !readers[k].state.StateIdle?
  }

  /** A tick sends at most one request, of an idle reader whose request is accepted; otherwise none of the
      readers left retires or waits to be sent. */
  lemma {:induction false} TickSends(readers: seq<Reader>, i: nat, now: int, accepted: set<nat>)
    requires i <= |readers| && Passed(readers, i, now, accepted)
    ensures var t := Tick(readers, i, now, accepted);
      match t.sent
      case Some((k, x)) =>
        k < |t.readers| && x.state.StateIdle? && x.address in accepted && t.readers[k] == Sent(x, now)
      case None => Passed(t.readers, |t.readers|, now, accepted)
    decreases |readers| - i
  {
    if i < |readers| {
      if Retires(readers[i], now, accepted) {
        TickSends(SwapRemove(readers, i), i, now, accepted);
      } else if !readers[i].state.StateIdle? {
        TickSends(readers, i + 1, now, accepted);
      }
    }
  }

  lemma CountAfterRemoval(readers: seq<Reader>, i: nat, x: Reader)
    requires i < |readers|
    ensures multiset(SwapRemove(readers, i))[x] == multiset(readers)[x] - if readers[i] == x then 1 else 0
  {
    SwapRemoveElements(readers, i);
    hide SwapRemove;
    assert readers[i] in multiset(readers);
  }

  /** Main result, for every reader value x: a tick invents no reader and loses none that does not retire;
      the one whose request it sends counts as it was before. */
  lemma {:induction false} TickConserves(readers: seq<Reader>, i: nat, now: int, accepted: set<nat>, x: Reader)
    requires i <= |readers| && Passed(readers, i, now, accepted)
    ensures var t := Tick(readers, i, now, accepted);
      && (t.sent.Some? ==> t.sent.value.0 < |t.readers|)
      && multiset(Before(t))[x] <= multiset(readers)[x]
      && (!Retires(x, now, accepted) ==> multiset(Before(t))[x] == multiset(readers)[x])
    decreases |readers| - i
  {
    TickSends(readers, i, now, accepted);
    hide SwapRemove, Sent;
    if i < |readers| {
      if Retires(readers[i], now, accepted) {
        CountAfterRemoval(readers, i, x);
        TickConserves(SwapRemove(readers, i), i, now, accepted, x);
      } else if readers[i].state.StateIdle? {
        assert readers[i := Sent(readers[i], now)][i := readers[i]] == readers;
      } else {
        TickConserves(readers, i + 1, now, accepted, x);
      }
    }
  }
}
