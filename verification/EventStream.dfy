/**
 The change stream over the append-only event table. A subscription polls with a cursor while other
 processes append; a client that reconnects resumes at the last id it received.
 */
module EventStream {
  import opened Prelude

  /** A row of the event table; the cursor is its rowid. */
  datatype StreamEvent = StreamEvent(cursor: nat, workOrderId: string, version: nat, event: string)

  /** The id field of a frame lets a reconnecting client resume (section 9.2 of the HTML Standard). */
  datatype Frame = Retry | Ready(cursor: nat) | Changed(change: StreamEvent) | Ping | Unavailable

  // --- The table ---

  ghost predicate Increasing(rows: seq<StreamEvent>) {
    && (forall i :: 0 <= i < |rows| ==> rows[i].cursor >= 1)
    && (forall i, j :: 0 <= i < j < |rows| ==> rows[i].cursor < rows[j].cursor)
  }

  function Head(rows: seq<StreamEvent>): nat {
    if rows == [] then 0 else rows[|rows| - 1].cursor
  }

  /** The rows after a cursor, oldest first. */
  function After(rows: seq<StreamEvent>, cursor: nat): seq<StreamEvent> {
    if rows == [] then []
    else After(rows[..|rows| - 1], cursor) + if rows[|rows| - 1].cursor > cursor then [rows[|rows| - 1]] else []
  }

  function Take(events: seq<StreamEvent>, limit: nat): seq<StreamEvent> {
    if limit < |events| then events[..limit] else events
  }

  /** Nothing lies after a cursor that is not behind the head. */
  lemma {:induction false} NothingAfterHead(rows: seq<StreamEvent>, cursor: nat)
    requires Increasing(rows)
    ensures Head(rows) <= cursor <==> After(rows, cursor) == []
    ensures forall e :: e in After(rows, cursor) ==> cursor < e.cursor <= Head(rows)
  {
    if rows != [] {
      var n := |rows| - 1;
      NothingAfterHead(rows[..n], cursor);
    }
  }

  /** Appending extends what lies after any cursor that is not ahead of the table. */
  lemma {:induction false} AfterGrows(rows: seq<StreamEvent>, more: seq<StreamEvent>, cursor: nat)
    requires Increasing(more) && rows <= more && cursor <= Head(rows)
    ensures After(rows, cursor) <= After(more, cursor)
    decreases |more|
  {
    if |more| > |rows| {
      AfterGrows(rows, more[..|more| - 1], cursor);
    } else {
      assert more == rows;
    }
  }

  /** Reading on from the last row of a prefix gives exactly the rest. */
  lemma {:induction false} ReadOn(rows: seq<StreamEvent>, cursor: nat, k: nat)
    requires Increasing(rows) && 0 < k <= |After(rows, cursor)|
    ensures After(rows, After(rows, cursor)[k - 1].cursor) == After(rows, cursor)[k..]
  {
    hide Increasing;
    LastIsHighest(rows);
    var n := |rows| - 1;
    var init := rows[..n];
    var seen := After(init, cursor);
    NothingAfterHead(init, cursor);
    if k <= |seen| {
      ReadOn(init, cursor, k);
      assert After(rows, cursor)[k - 1] == seen[k - 1];
      assert seen[k - 1].cursor <= Head(init) < rows[n].cursor;
      assert After(rows, cursor) == seen + [rows[n]];
    } else {
      assert After(rows, cursor) == seen + [rows[n]] && k == |seen| + 1;
      NothingAfterHead(rows, rows[n].cursor);
    }
  }

  /**
   At most `limit` rows after the cursor, in order, with none left out before the last of them; fewer
   only if there are no more.
   */
  ghost predicate Answers(rows: seq<StreamEvent>, cursor: nat, limit: nat, events: seq<StreamEvent>) {
    && |events| <= limit && Ordered(events)
    && (forall e :: e in events ==> e in rows && e.cursor > cursor)
    && (forall e :: e in rows && e.cursor > cursor ==>
          |events| < limit || (events != [] && e.cursor <= events[|events| - 1].cursor) ==> e in events)
  }

  /** A table gives exactly one answer, the start of what lies after the cursor. */
  lemma OneAnswer(rows: seq<StreamEvent>, cursor: nat, limit: nat, events: seq<StreamEvent>)
    requires Increasing(rows)
    ensures Answers(rows, cursor, limit, events) <==> events == Take(After(rows, cursor), limit)
  {
    hide Answers, Increasing, Ordered, StartsIn;
    TakeAnswers(rows, cursor, limit);
    if Answers(rows, cursor, limit, events) {
      AnswerStarts(rows, cursor, limit, events);
      OrderedPrefix(events, After(rows, cursor));
    }
  }

  ghost predicate Ordered(a: seq<StreamEvent>) {
    forall i, j :: 0 <= i < j < |a| ==> a[i].cursor < a[j].cursor
  }

  /** The entries are some of the others, and none of those is left out before the last. */
  ghost predicate StartsIn(a: seq<StreamEvent>, b: seq<StreamEvent>) {
    && (forall e :: e in a ==> e in b)
    && (a != [] ==> forall e :: e in b && e.cursor <= a[|a| - 1].cursor ==> e in a)
  }

  lemma AnswerStarts(rows: seq<StreamEvent>, cursor: nat, limit: nat, events: seq<StreamEvent>)
    requires Increasing(rows) && Answers(rows, cursor, limit, events)
    ensures var all := After(rows, cursor);
            && Increasing(all) && Ordered(events) && StartsIn(events, all)
            && |events| <= limit && (|events| < limit ==> forall e :: e in all ==> e in events)
  {
    hide Increasing;
    AfterIs(rows, cursor);
  }

  lemma TakeAnswers(rows: seq<StreamEvent>, cursor: nat, limit: nat)
    requires Increasing(rows)
    ensures Answers(rows, cursor, limit, Take(After(rows, cursor), limit))
  {
    hide After;
    AfterIs(rows, cursor);
    var all := After(rows, cursor);
    if limit < |all| {
      forall e | e in all && limit > 0 && e.cursor <= all[limit - 1].cursor
        ensures e in all[..limit]
      {
        var i :| 0 <= i < |all| && all[i] == e;
        assert all[..limit][i] == e;
      }
    }
  }

  lemma {:induction false} OrderedPrefix(a: seq<StreamEvent>, b: seq<StreamEvent>)
    requires Increasing(b) && Ordered(a) && StartsIn(a, b)
    ensures a <= b
    ensures (forall e :: e in b ==> e in a) ==> a == b
  {
    hide StartsIn, Ordered;
    if a != [] {
      var n := |a| - 1;
      ShorterStarts(a, b);
      OrderedPrefix(a[..n], b);
      NextInOrder(a[..n], a[n], b);
      assert a == a[..n] + [a[n]];
    }
    WholeIfAll(a, b);
  }

  lemma ShorterStarts(a: seq<StreamEvent>, b: seq<StreamEvent>)
    requires Ordered(a) && StartsIn(a, b) && a != []
    ensures var n := |a| - 1;
            && Ordered(a[..n]) && StartsIn(a[..n], b) && a[n] in b
            && (forall e :: e in a[..n] ==> e.cursor < a[n].cursor)
            && forall e :: e in b && e.cursor <= a[n].cursor ==> e in a[..n] || e == a[n]
  {
    var init, last := a[..|a| - 1], a[|a| - 1];
    InitAndLast(a);
    forall e | e in b && e.cursor <= last.cursor
      ensures e in init || e == last
    {
      assert e in a;
    }
    hide Ordered;
    if init != [] {
      assert init[|init| - 1] in init;
      forall e | e in b && e.cursor <= init[|init| - 1].cursor
        ensures e in init
      {
        assert e != last;
      }
    }
  }

  lemma InitAndLast(a: seq<StreamEvent>)
    requires Ordered(a) && a != []
    ensures var init, last := a[..|a| - 1], a[|a| - 1];
            && Ordered(init) && (forall e :: e in a <==> e in init || e == last)
            && (forall e :: e in init ==> e.cursor < last.cursor)
  {
    assert a == a[..|a| - 1] + [a[|a| - 1]];
  }

  lemma WholeIfAll(a: seq<StreamEvent>, b: seq<StreamEvent>)
    requires Increasing(b) && a <= b
    ensures (forall e :: e in b ==> e in a) ==> a == b
  {
    if |a| < |b| {
      assert forall i :: 0 <= i < |a| ==> a[i] == b[i] && b[i].cursor < b[|a|].cursor;
      assert b[|a|] !in a;
    }
  }

  lemma NextInOrder(a: seq<StreamEvent>, x: StreamEvent, b: seq<StreamEvent>)
    requires Increasing(b) && a <= b && x in b && forall e :: e in a ==> e.cursor < x.cursor
    requires forall e :: e in b && e.cursor <= x.cursor ==> e in a || e == x
    ensures a + [x] <= b
  {
    var n := |a|;
    assert forall i :: 0 <= i < n ==> b[i] == a[i] && b[i].cursor < x.cursor;
    var j :| 0 <= j < |b| && b[j] == x;
    assert n <= j && b[n].cursor <= x.cursor;
    assert forall i :: 0 <= i < n ==> a[i].cursor < b[n].cursor;
    assert b[n] == x;
  }

  class EventStore {
    var rows: seq<StreamEvent>

    ghost predicate Valid()
      reads this
    {
      Increasing(rows)
    }

    constructor ()
      ensures Valid() && rows == []
    {
      rows := [];
    }

    /** Append one event with the next rowid. */
    method Append(workOrderId: string, version: nat, event: string)
      requires Valid()
      modifies this
      ensures Valid() && rows == old(rows) + [StreamEvent(Head(old(rows)) + 1, workOrderId, version, event)]
    {
      rows := rows + [StreamEvent(Head(rows) + 1, workOrderId, version, event)];
    }

    /** Other processes append any number of events. */
    method Interfere()
      requires Valid()
      modifies this
      ensures Valid() && old(rows) <= rows
    {
      var n: nat := *;
      while n > 0
        invariant Valid() && old(rows) <= rows
      {
        var id: string, version: nat, name: string := *, *, *;
        Append(id, version, name);
        n := n - 1;
      }
    }

    method HeadCursor() returns (c: nat)
      ensures c == Head(rows)
    {
      c := if rows == [] then 0 else rows[|rows| - 1].cursor;
    }

    /** One query of the table. */
    method EventsAfter(cursor: nat, limit: nat) returns (events: seq<StreamEvent>)
      requires Valid()
      ensures Answers(rows, cursor, limit, events)
    {
      events := Take(After(rows, cursor), limit);
      OneAnswer(rows, cursor, limit, events);
    }
  }

  // --- What a subscription emits ---

  /** The changes among the frames, in order. */
  function Changes(frames: seq<Frame>): seq<StreamEvent> {
    if frames == [] then []
    else Changes(frames[..|frames| - 1]) + if frames[|frames| - 1].Changed? then [frames[|frames| - 1].change] else []
  }

  /** The id a client would send when it reconnects after these frames. */
  function LastId(frames: seq<Frame>, start: nat): nat {
    if frames == [] then start
    else
      match frames[|frames| - 1]
      case Ready(cursor) => cursor
      case Changed(e) => e.cursor
      case _ => LastId(frames[..|frames| - 1], start)
  }

  lemma ChangesAppend(frames: seq<Frame>, f: Frame)
    ensures Changes(frames + [f]) == Changes(frames) + if f.Changed? then [f.change] else []
    ensures forall start :: LastId(frames + [f], start) ==
              match f { case Ready(c) => c case Changed(e) => e.cursor case _ => LastId(frames, start) }
  {
    assert (frames + [f])[..|frames|] == frames;
  }

  /** The cursor after a list of changes that were read from `start`. */
  function CursorAfter(changes: seq<StreamEvent>, start: nat): nat {
    if changes == [] then start else changes[|changes| - 1].cursor
  }

  /** Changes seen from a start cursor: a prefix, without gap or repetition, of all that lies after it. */
  ghost predicate Delivered(rows: seq<StreamEvent>, start: nat, changes: seq<StreamEvent>) {
    Increasing(rows) && start <= Head(rows) && changes <= After(rows, start)
  }

  lemma DeliveredGrows(rows: seq<StreamEvent>, more: seq<StreamEvent>, start: nat, changes: seq<StreamEvent>)
    requires Delivered(rows, start, changes) && Increasing(more) && rows <= more
    ensures Delivered(more, start, changes)
  {
    AfterGrows(rows, more, start);
    if rows != [] {
      assert more[|rows| - 1] == rows[|rows| - 1];
    }
  }

  /** One poll extends what was delivered by exactly what it read. */
  lemma PollExtends(rows: seq<StreamEvent>, start: nat, changes: seq<StreamEvent>, limit: nat)
    requires Delivered(rows, start, changes)
    ensures var events := Take(After(rows, CursorAfter(changes, start)), limit);
            && Delivered(rows, start, changes + events)
            && (events == [] && limit > 0 ==> changes == After(rows, start))
  {
    var all := After(rows, start);
    if changes == [] {
      assert changes + Take(all, limit) == Take(all, limit);
    } else {
      ReadOn(rows, start, |changes|);
      assert all == changes + all[|changes|..];
    }
  }

  /** Where a subscription starts: at its cursor, or at the head if it has none or is ahead of the table. */
  function StartCursor(after: Option<nat>, head: nat): nat {
    if after.None? || after.value > head then head else after.value
  }

  /** The frames so far deliver a prefix of what lies after the start, and the cursor is the last id sent. */
  ghost predicate Tracking(rows: seq<StreamEvent>, start: nat, cursor: nat, frames: seq<Frame>) {
    && Delivered(rows, start, Changes(frames))
    && cursor == CursorAfter(Changes(frames), start) == LastId(frames, start)
  }

  /** The later frames only continue the earlier ones; none of them starts over. */
  ghost predicate Continues(frames: seq<Frame>, more: seq<Frame>) {
    frames <= more && forall i :: |frames| <= i < |more| ==> !more[i].Ready?
  }

  /**
   One round: others append, the store is read once, and what it returned is sent; if it returned
   nothing, a ping is sent when one is due.
   */
  method Poll(store: EventStore, limit: nat, due: bool, frames: seq<Frame>, cursor: nat, ghost start: nat)
    returns (more: seq<Frame>, next: nat, ended: bool)
    requires store.Valid() && Tracking(store.rows, start, cursor, frames)
    modifies store
    ensures store.Valid() && old(store.rows) <= store.rows
    ensures Tracking(store.rows, start, cursor, frames)
    ensures Tracking(store.rows, start, next, more) && Continues(frames, more)
    ensures !ended ==> Changes(more) == Changes(frames) + Take(After(store.rows, cursor), limit)
    ensures ended ==> more == frames + [Unavailable]
    ensures !ended ==>
              if Take(After(store.rows, cursor), limit) == [] then more == frames + if due then [Ping] else []
              else Ping !in more[|frames|..]
  {
    hide After, Changes, LastId, Increasing, Answers;
    ghost var rows := store.rows;
    store.Interfere();
    DeliveredGrows(rows, store.rows, start, Changes(frames));
    if * {
      ChangesAppend(frames, Unavailable);
      return frames + [Unavailable], cursor, true;
    }
    var events := store.EventsAfter(cursor, limit);
    OneAnswer(store.rows, cursor, limit, events);
    PollExtends(store.rows, start, Changes(frames), limit);
    more := EmitAll(frames, events, start);
    CursorMoves(Changes(frames), events, start);
    next, ended := CursorAfter(events, cursor), false;
    if events == [] && due {
      ChangesAppend(more, Ping);
      more := more + [Ping];
    }
  }

  lemma CursorMoves(changes: seq<StreamEvent>, events: seq<StreamEvent>, start: nat)
    ensures CursorAfter(changes + events, start) == CursorAfter(events, CursorAfter(changes, start))
  {
    if events == [] {
      assert changes + events == changes;
    }
  }

  /**
   A subscription, ended by the client after some rounds or by a store that cannot be read. It emits,
   in order and with no gap, a prefix of the events after its start cursor; `start` is that cursor. A
   client that has no cursor, or one ahead of the store, is first told to start over at the head, and
   sees nothing older. A client that stays for as many rounds as there were events at the call has
   received all those after its start, unless it was told that the store is unavailable.
   */
  method ControlEvents(store: EventStore, after: Option<nat>, limit: nat, rounds: nat)
    returns (frames: seq<Frame>, ghost start: nat)
    requires store.Valid()
    modifies store
    ensures store.Valid() && old(store.rows) <= store.rows
    ensures Delivered(store.rows, start, Changes(frames))
    ensures LastId(frames, start) == CursorAfter(Changes(frames), start)
    ensures after.Some? && after.value <= Head(old(store.rows)) ==>
            start == after.value && forall f :: f in frames ==> !f.Ready?
    ensures after.None? || after.value > Head(store.rows) ==>
              && Head(old(store.rows)) <= start <= Head(store.rows)
              && |frames| >= 2 && frames[1] in {Ready(start), Unavailable}
    ensures after.Some? ==> start == after.value || Head(old(store.rows)) <= start < after.value
    ensures limit > 0 && rounds >= |old(store.rows)| && Unavailable !in frames ==>
            Caught(old(store.rows), start, frames)
  {
    hide After, Changes, LastId, Increasing, Tracking;
    start := if after.Some? && after.value <= Head(store.rows) then after.value else Head(store.rows);
    frames := [Retry];
    FirstFrames(store.rows, start);
    if * {
      ChangesAppend(frames, Unavailable);
      frames := frames + [Unavailable];
      return;
    }
    store.Interfere();
    HeadGrows(old(store.rows), store.rows);
    var head := store.HeadCursor();
    var cursor := StartCursor(after, head);
    start := cursor;
    FirstFrames(store.rows, start);
    if after.None? || after.value > head {
      ChangesAppend(frames, Ready(cursor));
      frames := frames + [Ready(cursor)];
    }
    ghost var first := frames;
    TrackingStarts(store.rows, start, frames);
    var ended := false;
    var polls := 0;
    while polls < rounds && !ended
      invariant store.Valid() && old(store.rows) <= store.rows
      invariant Tracking(store.rows, start, cursor, frames) && Continues(first, frames)
      invariant polls <= rounds && (ended ==> Unavailable in frames)
      invariant limit > 0 && !ended ==> |Changes(frames)| >= polls || Caught(old(store.rows), start, frames)
    {
      ghost var before, at := frames, cursor;
      // The clock tells whether the heartbeat is due.
      var due: bool := *;
      frames, cursor, ended := Poll(store, limit, due, frames, cursor, start);
      polls := polls + 1;
      if limit > 0 && !ended {
        Advances(old(store.rows), store.rows, start, at, before, frames, limit);
      }
    }
    TrackingMeans(store.rows, start, cursor, frames);
    if |Changes(frames)| >= |old(store.rows)| {
      EnoughIsAll(old(store.rows), store.rows, start, frames);
    }
  }

  /** All of these rows after the start were sent. */
  ghost predicate Caught(rows: seq<StreamEvent>, start: nat, frames: seq<Frame>) {
    forall e :: e in rows && e.cursor > start ==> e in Changes(frames)
  }

  /** A round that sends nothing finds nothing left to send. */
  lemma Advances(earlier: seq<StreamEvent>, rows: seq<StreamEvent>, start: nat, cursor: nat, frames: seq<Frame>,
                 more: seq<Frame>, limit: nat)
    requires Tracking(rows, start, cursor, frames) && earlier <= rows && limit > 0
    requires Changes(more) == Changes(frames) + Take(After(rows, cursor), limit)
    ensures |Changes(more)| > |Changes(frames)| || Caught(earlier, start, more)
    ensures Caught(earlier, start, frames) ==> Caught(earlier, start, more)
  {
    hide Changes, LastId;
    PollExtends(rows, start, Changes(frames), limit);
    AfterIs(rows, start);
    assert forall e :: e in earlier ==> e in rows;
  }

  /** No more than all the rows can be sent. */
  lemma EnoughIsAll(earlier: seq<StreamEvent>, rows: seq<StreamEvent>, start: nat, frames: seq<Frame>)
    requires Delivered(rows, start, Changes(frames)) && earlier <= rows && |Changes(frames)| >= |earlier|
    ensures Caught(earlier, start, frames)
  {
    hide Changes;
    AfterIs(rows, start);
    AfterPrefix(earlier, rows, start);
  }

  /** The rows after a cursor that were there first come first. */
  lemma {:induction false} AfterPrefix(rows: seq<StreamEvent>, more: seq<StreamEvent>, cursor: nat)
    requires rows <= more
    ensures After(rows, cursor) <= After(more, cursor) && |After(rows, cursor)| <= |rows|
    ensures forall e :: e in rows && e.cursor > cursor ==> e in After(rows, cursor)
    decreases |more|
  {
    AfterMembers(rows, cursor);
    AfterIsShorter(rows, cursor);
    if |more| > |rows| {
      AfterPrefix(rows, more[..|more| - 1], cursor);
    } else {
      assert more == rows;
    }
  }

  lemma {:induction false} AfterIsShorter(rows: seq<StreamEvent>, cursor: nat)
    ensures |After(rows, cursor)| <= |rows|
  {
    if rows != [] {
      AfterIsShorter(rows[..|rows| - 1], cursor);
    }
  }

  lemma TrackingStarts(rows: seq<StreamEvent>, start: nat, frames: seq<Frame>)
    requires Delivered(rows, start, []) && Changes(frames) == [] && LastId(frames, start) == start
    ensures Tracking(rows, start, start, frames)
  {
  }

  lemma TrackingMeans(rows: seq<StreamEvent>, start: nat, cursor: nat, frames: seq<Frame>)
    requires Tracking(rows, start, cursor, frames)
    ensures Delivered(rows, start, Changes(frames)) && LastId(frames, start) == CursorAfter(Changes(frames), start)
  {
  }

  lemma FirstFrames(rows: seq<StreamEvent>, start: nat)
    requires Increasing(rows) && start <= Head(rows)
    ensures Changes([Retry]) == [] && LastId([Retry], start) == start
    ensures Delivered(rows, start, [])
  {
  }

  lemma HeadGrows(rows: seq<StreamEvent>, more: seq<StreamEvent>)
    requires Increasing(more) && rows <= more
    ensures Head(rows) <= Head(more)
  {
  }

  /** One frame for each event, in order. */
  method EmitAll(frames: seq<Frame>, events: seq<StreamEvent>, ghost start: nat) returns (more: seq<Frame>)
    ensures frames <= more && Changes(more) == Changes(frames) + events
    ensures LastId(more, start) == CursorAfter(events, LastId(frames, start))
    ensures forall i :: |frames| <= i < |more| ==> more[i].Changed?
    ensures |more| == |frames| + |events|
  {
    more := frames;
    for i := 0 to |events|
      invariant frames <= more && Changes(more) == Changes(frames) + events[..i]
      invariant LastId(more, start) == CursorAfter(events[..i], LastId(frames, start))
      invariant forall k :: |frames| <= k < |more| ==> more[k].Changed?
      invariant |more| == |frames| + i
    {
      ChangesAppend(more, Changed(events[i]));
      more := more + [Changed(events[i])];
    }
    assert events[..|events|] == events;
  }

  // --- Reconnecting ---

  lemma {:induction false} ChangesPrefix(frames: seq<Frame>, k: nat)
    requires k <= |frames|
    ensures Changes(frames[..k]) <= Changes(frames)
  {
    if k == |frames| {
      assert frames[..k] == frames;
    } else {
      ChangesPrefix(frames[..|frames| - 1], k);
      assert frames[..|frames| - 1][..k] == frames[..k];
    }
  }

  /** Without a ready frame, the last id is the cursor of the last change. */
  lemma {:induction false} LastIdIsLastChange(frames: seq<Frame>, start: nat)
    requires forall f :: f in frames ==> !f.Ready?
    ensures LastId(frames, start) == CursorAfter(Changes(frames), start)
  {
    if frames != [] {
      LastIdIsLastChange(frames[..|frames| - 1], start);
    }
  }

  /** What is delivered from the last delivered event on continues what was delivered before. */
  lemma DeliveredChain(rows: seq<StreamEvent>, start: nat, changes: seq<StreamEvent>, more: seq<StreamEvent>)
    requires Delivered(rows, start, changes) && Delivered(rows, CursorAfter(changes, start), more)
    ensures Delivered(rows, start, changes + more)
  {
    if changes != [] {
      ReadOn(rows, start, |changes|);
      assert After(rows, start) == changes + After(rows, start)[|changes|..];
    } else {
      assert changes + more == more;
    }
  }

  /**
   A client that reconnects any number of times, each time with the last id it received, and loses any
   tail of what a connection sent. It receives a prefix of the events after its first cursor, each
   exactly once; when its last id reaches the head it has received all of them. Once one connection
   was `whole`, and neither lost anything nor found the store unavailable, it has received everything
   that was there at the call.
   */
  method Reconnecting(store: EventStore, from: nat, limit: nat, connections: nat, rounds: nat)
    returns (received: seq<StreamEvent>, last: nat, ghost whole: bool)
    requires store.Valid() && from <= Head(store.rows)
    modifies store
    ensures store.Valid() && old(store.rows) <= store.rows
    ensures Delivered(store.rows, from, received) && last == CursorAfter(received, from)
    ensures last == Head(store.rows) ==> received == After(store.rows, from)
    ensures whole && limit > 0 && rounds >= |store.rows| ==>
            forall e :: e in old(store.rows) && e.cursor > from ==> e in received
  {
    hide After, Changes, LastId, Increasing;
    received, last, whole := [], from, false;
    FirstFrames(store.rows, from);
    for i := 0 to connections
      invariant store.Valid() && old(store.rows) <= store.rows
      invariant Delivered(store.rows, from, received) && last == CursorAfter(received, from)
      invariant whole && limit > 0 && rounds >= |store.rows| ==> Arrived(old(store.rows), from, received)
    {
      ghost var rows := store.rows;
      CursorBehindHead(rows, from, received);
      var frames, start := ControlEvents(store, Some(last), limit, rounds);
      DeliveredGrows(rows, store.rows, from, received);
      var arrived: nat :| arrived <= |frames|;
      var got := frames[..arrived];
      ChangesPrefix(frames, |got|);
      LastIdIsLastChange(got, last);
      DeliveredChain(store.rows, from, received, Changes(got));
      CursorMoves(received, Changes(got), from);
      if arrived == |frames| && Unavailable !in frames {
        assert got == frames;
        whole := true;
        if limit > 0 && rounds >= |store.rows| {
          WholeIsAll(old(store.rows), rows, store.rows, from, received, frames);
        }
      }
      received, last := received + Changes(got), LastId(got, last);
    }
    AllDelivered(store.rows, from, received);
  }

  /** All of these rows after the start were received. */
  ghost predicate Arrived(rows: seq<StreamEvent>, start: nat, received: seq<StreamEvent>) {
    forall e :: e in rows && e.cursor > start ==> e in received
  }

  /** What was received before reaches to where a connection starts, and that connection brings the rest. */
  lemma WholeIsAll(earlier: seq<StreamEvent>, rows: seq<StreamEvent>, more: seq<StreamEvent>, start: nat,
                   received: seq<StreamEvent>, frames: seq<Frame>)
    requires earlier <= rows <= more && Delivered(more, start, received)
    requires Caught(rows, CursorAfter(received, start), frames)
    ensures Arrived(earlier, start, received + Changes(frames))
  {
    hide Changes, After, Delivered;
    DeliveredOnce(more, start, received);
    assert forall e :: e in earlier ==> e in rows && e in more;
  }

  lemma CursorBehindHead(rows: seq<StreamEvent>, start: nat, changes: seq<StreamEvent>)
    requires Delivered(rows, start, changes)
    ensures CursorAfter(changes, start) <= Head(rows)
  {
    NothingAfterHead(rows, start);
    if changes != [] {
      assert changes[|changes| - 1] in After(rows, start);
    }
  }

  lemma AllDelivered(rows: seq<StreamEvent>, start: nat, changes: seq<StreamEvent>)
    requires Delivered(rows, start, changes)
    ensures CursorAfter(changes, start) == Head(rows) ==> changes == After(rows, start)
  {
    NothingAfterHead(rows, CursorAfter(changes, start));
    if changes != [] {
      ReadOn(rows, start, |changes|);
    }
  }

  /** The delivered events are the appended ones after the cursor, each once and in order. */
  lemma DeliveredOnce(rows: seq<StreamEvent>, start: nat, changes: seq<StreamEvent>)
    requires Delivered(rows, start, changes)
    ensures forall i, j :: 0 <= i < j < |changes| ==> changes[i].cursor < changes[j].cursor
    ensures forall e :: e in rows && start < e.cursor <= CursorAfter(changes, start) ==> e in changes
    ensures forall e :: e in changes ==> e in rows && start < e.cursor
  {
    hide After, Increasing;
    assert changes == Take(After(rows, start), |changes|);
    OneAnswer(rows, start, |changes|, changes);
  }

  lemma AfterIs(rows: seq<StreamEvent>, cursor: nat)
    requires Increasing(rows)
    ensures Increasing(After(rows, cursor))
    ensures forall e :: e in After(rows, cursor) <==> e in rows && e.cursor > cursor
  {
    hide Increasing, After;
    AfterMembers(rows, cursor);
    AfterIncreasing(rows, cursor);
  }

  lemma {:induction false} AfterMembers(rows: seq<StreamEvent>, cursor: nat)
    ensures forall e :: e in After(rows, cursor) <==> e in rows && e.cursor > cursor
  {
    if rows != [] {
      var n := |rows| - 1;
      AfterMembers(rows[..n], cursor);
      assert rows == rows[..n] + [rows[n]];
    }
  }

  lemma {:induction false} AfterIncreasing(rows: seq<StreamEvent>, cursor: nat)
    requires Increasing(rows)
    ensures Increasing(After(rows, cursor))
  {
    if rows == [] {
    } else {
      hide Increasing;
      var n := |rows| - 1;
      LastIsHighest(rows);
      AfterIncreasing(rows[..n], cursor);
      NothingAfterHead(rows[..n], cursor);
      OneMoreIncreasing(After(rows[..n], cursor), rows[n], Head(rows[..n]));
    }
  }

  lemma LastIsHighest(rows: seq<StreamEvent>)
    requires Increasing(rows) && rows != []
    ensures var n := |rows| - 1; Increasing(rows[..n]) && Head(rows[..n]) < rows[n].cursor
  {
  }

  lemma OneMoreIncreasing(rows: seq<StreamEvent>, e: StreamEvent, head: nat)
    requires Increasing(rows) && e.cursor >= 1 && head < e.cursor && forall x :: x in rows ==> x.cursor <= head
    ensures Increasing(rows + [e])
  {
  }
}
