/**
 The coalescing reader of the live view. A load request that finds a read of its key in flight only
 marks the key; the read in flight is followed by another one. The query source answers every read,
 with an error value if need be.
 */
module LiveReader {
  import opened Prelude

  // --- One key ---

  /** What can happen to a key: somebody asks for it to be loaded, or the read in flight completes. */
  datatype Happening = Requested | Completed

  /** The time the read in flight was started, the mark, and the start of the read whose result is shown. */
  datatype KeyState = KeyState(reading: Option<nat>, stale: bool, shown: Option<nat>)

  const UNREAD := KeyState(None, false, None)

  function OnRequest(s: KeyState, now: nat): KeyState {
    if s.reading.Some? then s.(stale := true) else s.(reading := Some(now), stale := false)
  }

  function OnCompletion(s: KeyState, now: nat): KeyState {
    if s.stale then KeyState(Some(now), false, s.reading) else KeyState(None, false, s.reading)
  }

  /** The state after an interleaving; the position in it is the time. None if a completion has no read. */
  function After(trace: seq<Happening>): Option<KeyState> {
    if trace == [] then Some(UNREAD)
    else
      var n := |trace| - 1;
      var s := After(trace[..n]);
      if s.None? then None
      else if trace[n].Requested? then Some(OnRequest(s.value, n))
      else if s.value.reading.None? then None
      else Some(OnCompletion(s.value, n))
  }

  /** The time of the last request. */
  function LastRequest(trace: seq<Happening>): Option<nat> {
    if trace == [] then None
    else if trace[|trace| - 1].Requested? then Some(|trace| - 1)
    else LastRequest(trace[..|trace| - 1])
  }

  /** How many reads were started: one more whenever the state comes to hold a new read. */
  function Started(trace: seq<Happening>): nat
    requires After(trace).Some?
  {
    if trace == [] then 0
    else
      var n := |trace| - 1;
      Started(trace[..n]) + if After(trace).value.reading == Some(n) then 1 else 0
  }

  function Completions(trace: seq<Happening>): nat {
    if trace == [] then 0 else Completions(trace[..|trace| - 1]) + if trace[|trace| - 1].Completed? then 1 else 0
  }

  /**
   No change is lost: whenever no read is in flight, what is shown comes from a read that started no
   earlier than the last request; while one is in flight, it is that recent or will be repeated.
   */
  lemma {:induction false} NoLostChange(trace: seq<Happening>)
    requires After(trace).Some?
    ensures var s := After(trace).value;
            LastRequest(trace).Some? ==>
              if s.reading.None? then s.shown.Some? && s.shown.value >= LastRequest(trace).value
              else s.stale || s.reading.value >= LastRequest(trace).value
    ensures After(trace).value.reading.None? ==> !After(trace).value.stale
  {
    if trace != [] {
      NoLostChange(trace[..|trace| - 1]);
    }
  }

  lemma {:induction false} TimesArePast(trace: seq<Happening>)
    requires After(trace).Some?
    ensures var s := After(trace).value;
            && (s.reading.Some? ==> s.reading.value < |trace|)
            && (s.shown.Some? ==> s.shown.value < |trace|)
  {
    if trace != [] {
      TimesArePast(trace[..|trace| - 1]);
    }
  }

  /** At most one read of a key is in flight: reads start one by one, each after the one before completed. */
  lemma {:induction false} OneReadAtATime(trace: seq<Happening>)
    requires After(trace).Some?
    ensures Started(trace) == Completions(trace) + if After(trace).value.reading.Some? then 1 else 0
  {
    if trace != [] {
      var n := |trace| - 1;
      OneReadAtATime(trace[..n]);
      TimesArePast(trace[..n]);
    }
  }

  function Quiet(n: nat): seq<Happening> {
    seq(n, _ => Completed)
  }

  /** Once requests stop, at most two completions bring the key to rest. */
  lemma SettlesAfterTwo(trace: seq<Happening>)
    requires After(trace).Some? && After(trace).value.reading.Some?
    ensures var n := if After(trace).value.stale then 2 else 1;
            After(trace + Quiet(n)).Some? && After(trace + Quiet(n)).value.reading.None?
  {
    var one := trace + [Completed];
    assert one[..|trace|] == trace;
    assert trace + Quiet(1) == one;
    if After(trace).value.stale {
      assert (one + [Completed])[..|one|] == one;
      assert trace + Quiet(2) == one + [Completed];
    }
  }

  // --- The provider ---

  class Provider<T> {
    var inflight: set<string>
    var stale: set<string>
    var results: map<string, T>
    ghost var traces: map<string, seq<Happening>>

    /** The history of a key. */
    ghost function Trace(key: string): seq<Happening>
      reads this
    {
      if key in traces then traces[key] else []
    }

    /** The two sets say exactly what the history of each key says, and marks belong to reads in flight. */
    ghost predicate Valid()
      reads this
    {
      && (forall key :: key in traces ==> After(traces[key]).Some?)
      && (forall key :: key in inflight <==> key in traces && After(traces[key]).value.reading.Some?)
      && (forall key :: key in stale <==> key in traces && After(traces[key]).value.stale)
      && (forall key :: key in traces && After(traces[key]).value.shown.Some? ==> key in results)
    }

    constructor ()
      ensures Valid() && traces == map[]
    {
      inflight, stale, results, traces := {}, {}, map[], map[];
    }

    /** A request; `started` says whether it starts a read. */
    method Load(key: string) returns (started: bool)
      requires Valid()
      modifies this
      ensures Valid() && traces == old(traces)[key := old(Trace(key)) + [Requested]]
      ensures started <==> key !in old(inflight)
      ensures results == old(results) && inflight == old(inflight) + {key}
    {
      ghost var trace := Trace(key);
      assert (trace + [Requested])[..|trace|] == trace;
      if key !in traces {
        assert trace == [];
      }
      if key in inflight {
        stale := stale + {key};
        started := false;
      } else {
        inflight := inflight + {key};
        stale := stale - {key};
        started := true;
      }
      traces := traces[key := trace + [Requested]];
    }

    /** The read in flight completes with `next`; `again` says whether it is followed by another read. */
    method Complete(key: string, next: T) returns (again: bool)
      requires Valid() && key in inflight
      modifies this
      ensures Valid() && traces == old(traces)[key := old(Trace(key)) + [Completed]]
      ensures results == old(results)[key := next]
      ensures again <==> key in old(stale)
      ensures inflight == if again then old(inflight) else old(inflight) - {key}
    {
      ghost var trace := Trace(key);
      assert (trace + [Completed])[..|trace|] == trace;
      NoLostChange(trace);
      results := results[key := next];
      again := key in stale;
      if again {
        stale := stale - {key};
      } else {
        inflight := inflight - {key};
      }
      traces := traces[key := trace + [Completed]];
    }
  }
}
