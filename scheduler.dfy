/** Window._after: the records `after` registers and the frame loop checks
    once per frame. A record fires when at least its delay has passed since it
    last fired (or was registered); it then restarts from the frame's time, so
    intervals a slow frame skipped are not made up. */
module Scheduler {
  import opened Input

  /** The list [function, delay, last] that Window.after appends. */
  datatype AfterRecord = AfterRecord(callback: Callback, delay: real, last: real)

  /** The test the frame loop makes for one record at duration `now`. */
  predicate Due(r: AfterRecord, now: real)
    ensures Due(r, now) <==> r.last + r.delay <= now
  {
    now - r.last >= r.delay
  }

  /** One record after the frame at `now`: `last` moves to `now` exactly when
      the record fires. */
  function Fire(r: AfterRecord, now: real): (r': AfterRecord)
    ensures r'.callback == r.callback && r'.delay == r.delay
    ensures Due(r, now) ==> r'.last == now
    ensures !Due(r, now) ==> r' == r
  {
    if Due(r, now) then r.(last := now) else r
  }

  /** All records after the frame at `now`; none is added or removed. */
  function Advance(records: seq<AfterRecord>, now: real): (rs: seq<AfterRecord>)
    ensures |rs| == |records|
    ensures forall i :: 0 <= i < |records| ==> rs[i] == Fire(records[i], now)
    decreases |records|
  {
    if records == [] then []
    else Advance(records[..|records| - 1], now) + [Fire(records[|records| - 1], now)]
  }

  /** The callbacks the frame at `now` invokes, in list order. */
  function DueCallbacks(records: seq<AfterRecord>, now: real): (cs: seq<Callback>)
    ensures |cs| <= |records|
    ensures forall c :: c in cs ==> exists i :: 0 <= i < |records| && Due(records[i], now) && records[i].callback == c
    ensures forall i :: 0 <= i < |records| && Due(records[i], now) ==> records[i].callback in cs
    decreases |records|
  {
    if records == [] then []
    else
      var init, r := records[..|records| - 1], records[|records| - 1];
      DueCallbacks(init, now) + (if Due(r, now) then [r.callback] else [])
  }

  /** Checking one more record extends both the checked records and the
      callbacks due by that record alone. */
  lemma AdvanceStep(records: seq<AfterRecord>, i: nat, now: real)
    requires i < |records|
    ensures Advance(records[..i + 1], now) == Advance(records[..i], now) + [Fire(records[i], now)]
    ensures DueCallbacks(records[..i + 1], now)
         == DueCallbacks(records[..i], now) + (if Due(records[i], now) then [records[i].callback] else [])
  {
    assert records[..i + 1][..i] == records[..i];
  }

  /** Restarting the record at index `i` in place, once those before it
      have been processed, leaves the first `i + 1` processed. */
  lemma AdvanceInPlace(records: seq<AfterRecord>, i: nat, now: real)
    requires i < |records|
    ensures (Advance(records[..i], now) + records[i..])[i := Fire(records[i], now)]
         == Advance(records[..i + 1], now) + records[i + 1..]
  {
    AdvanceStep(records, i, now);
    var left := (Advance(records[..i], now) + records[i..])[i := Fire(records[i], now)];
    var right := Advance(records[..i + 1], now) + records[i + 1..];
    assert |left| == |right|;
    forall j | 0 <= j < |left| ensures left[j] == right[j] {
      if j > i {
        assert records[i..][j - i] == records[i + 1..][j - i - 1];
      }
    }
  }

  /** The records after a run of frames at durations `nows`. */
  function AdvanceAll(records: seq<AfterRecord>, nows: seq<real>): seq<AfterRecord>
    decreases |nows|
  {
    if nows == [] then records
    else Advance(AdvanceAll(records, nows[..|nows| - 1]), nows[|nows| - 1])
  }

  /** One record after a run of frames at durations `nows`. */
  function Replay(r: AfterRecord, nows: seq<real>): AfterRecord
    decreases |nows|
  {
    if nows == [] then r else Fire(Replay(r, nows[..|nows| - 1]), nows[|nows| - 1])
  }

  /** The durations of the frames in which one record fired. */
  function Firings(r: AfterRecord, nows: seq<real>): seq<real>
    decreases |nows|
  {
    if nows == [] then []
    else
      var init, now := nows[..|nows| - 1], nows[|nows| - 1];
      Firings(r, init) + (if Due(Replay(r, init), now) then [now] else [])
  }

  /** Running the whole list through a run of frames treats each record on
      its own: no record is added, removed or reordered. */
  lemma {:induction false} AdvanceAllPointwise(records: seq<AfterRecord>, nows: seq<real>)
    ensures |AdvanceAll(records, nows)| == |records|
    ensures forall i :: 0 <= i < |records| ==> AdvanceAll(records, nows)[i] == Replay(records[i], nows)
    decreases |nows|
  {
    if nows != [] {
      AdvanceAllPointwise(records, nows[..|nows| - 1]);
    }
  }

  /** Replaying a run of frames keeps a record's callback and delay, and
      leaves `last` at its most recent firing, or where it was registered. */
  lemma {:induction false} ReplayLast(r: AfterRecord, nows: seq<real>)
    ensures Replay(r, nows).callback == r.callback && Replay(r, nows).delay == r.delay
    ensures var f := Firings(r, nows);
      Replay(r, nows).last == (if |f| == 0 then r.last else f[|f| - 1])
    decreases |nows|
  {
    if nows != [] {
      ReplayLast(r, nows[..|nows| - 1]);
    }
  }

  /** A record fires at most once per frame, and only in frames of the run. */
  lemma {:induction false} FiringsWithin(r: AfterRecord, nows: seq<real>)
    ensures |Firings(r, nows)| <= |nows|
    ensures forall j :: 0 <= j < |Firings(r, nows)| ==> Firings(r, nows)[j] in nows
    decreases |nows|
  {
    if nows != [] {
      var init := nows[..|nows| - 1];
      FiringsWithin(r, init);
      forall j | 0 <= j < |Firings(r, init)| ensures Firings(r, init)[j] in nows {
        assert Firings(r, init)[j] in init;
      }
    }
  }

  /** A record never fires before its delay has passed since registration,
      and afterwards never sooner than its delay after the previous firing. */
  lemma {:induction false} FiringsSpaced(r: AfterRecord, nows: seq<real>)
    ensures var f := Firings(r, nows);
      && (|f| > 0 ==> f[0] - r.last >= r.delay)
      && (forall j :: 0 < j < |f| ==> f[j] - f[j - 1] >= r.delay)
    decreases |nows|
  {
    if nows != [] {
      var init, now := nows[..|nows| - 1], nows[|nows| - 1];
      FiringsSpaced(r, init);
      ReplayLast(r, init);
      var f0, p := Firings(r, init), Replay(r, init);
      if Due(p, now) {
        var f := f0 + [now];
        assert Firings(r, nows) == f;
        forall j | 0 < j < |f| ensures f[j] - f[j - 1] >= r.delay {
          if j < |f0| {
            assert f[j] == f0[j] && f[j - 1] == f0[j - 1];
          } else {
            assert f[j] == now && f[j - 1] == f0[|f0| - 1] == p.last;
          }
        }
      } else {
        assert Firings(r, nows) == f0;
      }
    }
  }

  /** With a one-second delay registered at duration t, frames at t+0.4,
      t+1.2 and t+1.3 fire the record once, in the t+1.2 frame. */
  lemma OneSecondExample(cb: Callback, t: real)
    ensures Firings(AfterRecord(cb, 1.0, t), [t + 0.4, t + 1.2, t + 1.3]) == [t + 1.2]
  {
    var r := AfterRecord(cb, 1.0, t);
    var one, two, three := [t + 0.4], [t + 0.4, t + 1.2], [t + 0.4, t + 1.2, t + 1.3];
    assert three[..2] == two && two[..1] == one && one[..0] == [];
    assert Replay(r, []) == r && Firings(r, []) == [];
    assert Replay(r, one) == r && Firings(r, one) == [];
    assert Replay(r, two) == r.(last := t + 1.2) && Firings(r, two) == [t + 1.2];
    assert Firings(r, three) == [t + 1.2];
  }
}
