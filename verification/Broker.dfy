/**
 One client of the broker. Between any two of its reads or writes, other clients may commit any
 legal transactions and anybody may edit the candidates' worktrees.
 */
module Broker {
  import opened Prelude
  import opened BrokerRefs

  datatype Candidate = Candidate(id: CandidateId, base: Commit)

  datatype Checkpoint = Checkpoint(candidate: CandidateId, base: Commit, commit: Commit)

  datatype BrokerError = NotInitialized | WorkspaceConflict | StaleCandidate | ForeignCheckpoint | CandidateState
      | NothingToCheckpoint | GitCommand

  /** A detached worktree: its HEAD and the files in it. */
  datatype Worktree = Worktree(head: Commit, files: map<string, TreeEntry>)

  /** The transactions that one client committed since the log had length n, in order. */
  function OwnSince(log: seq<Event>, n: nat, me: nat): seq<Action>
    requires n <= |log|
    decreases |log|
  {
    if |log| == n then []
    else
      var last := log[|log| - 1];
      OwnSince(log[..|log| - 1], n, me) + if last.client == me then [last.action] else []
  }

  lemma OwnAppend(log: seq<Event>, e: Event, n: nat, me: nat)
    requires n <= |log|
    ensures OwnSince(log + [e], n, me) == OwnSince(log, n, me) + if e.client == me then [e.action] else []
  {
    assert (log + [e])[..|log|] == log;
  }

  ghost predicate EndsWith(log: seq<Event>, e: Event) {
    log != [] && log[|log| - 1] == e
  }

  /** What was done since n is what was done up to a later point and then since that point. */
  lemma {:induction false} OwnChain(before: seq<Event>, log: seq<Event>, n: nat, me: nat)
    requires n <= |before| && before <= log
    ensures OwnSince(log, n, me) == OwnSince(before, n, me) + OwnSince(log, |before|, me)
    decreases |log|
  {
    if |log| == |before| {
      assert log == before;
    } else {
      OwnChain(before, log[..|log| - 1], n, me);
    }
  }

  /** At some moment since the log had length n, the transaction's own checks would have passed. */
  ghost predicate PassedSince(log: seq<Event>, n: nat, action: Action) {
    exists i :: n <= i <= |log| && Passes(Replay(log[..i]), action)
  }

  lemma PassedThen(log: seq<Event>, n: nat, action: Action, earlier: seq<Event>)
    requires n <= |earlier| && earlier <= log && Passes(Replay(earlier), action)
    ensures PassedSince(log, n, action)
  {
    assert log[..|earlier|] == earlier;
  }

  /** At some moment since the log had length n, another commit was accepted. */
  ghost predicate MovedSince(log: seq<Event>, n: nat, c: Commit) {
    exists i :: n <= i <= |log| && AcceptsAnother(Replay(log[..i]), c)
  }

  predicate AcceptsAnother(r: Refs, c: Commit) {
    r.accepted.Some? && r.accepted.value != c
  }

  lemma MovedThen(log: seq<Event>, n: nat, c: Commit)
    requires n <= |log| && AcceptsAnother(Replay(log), c)
    ensures MovedSince(log, n, c)
  {
    assert log[..|log|] == log;
  }

  /** At some moment since the log had length n, the candidate was not registered with its base. */
  ghost predicate UnregisteredSince(log: seq<Event>, n: nat, c: Candidate) {
    exists i :: n <= i <= |log| && !Registered(Replay(log[..i]), c)
  }

  predicate Registered(r: Refs, c: Candidate) {
    c.id in r.bases && r.bases[c.id] == c.base
  }

  lemma UnregisteredThen(log: seq<Event>, n: nat, c: Candidate)
    requires n <= |log| && !Registered(Replay(log), c)
    ensures UnregisteredSince(log, n, c)
  {
    assert log[..|log|] == log;
  }

  /** The checkpoint was recorded for a candidate that is registered with its base. */
  predicate Known(r: Refs, c: Checkpoint) {
    c.candidate in r.bases && r.bases[c.candidate] == c.base && (c.candidate, c.commit) in r.checkpoints
  }

  /** At some moment since the log had length n, the checkpoint was not known. */
  ghost predicate UnknownSince(log: seq<Event>, n: nat, c: Checkpoint) {
    exists i :: n <= i <= |log| && !Known(Replay(log[..i]), c)
  }

  lemma UnknownThen(log: seq<Event>, n: nat, c: Checkpoint, earlier: seq<Event>)
    requires n <= |earlier| && earlier <= log && !Known(Replay(earlier), c)
    ensures UnknownSince(log, n, c)
  {
    assert log[..|earlier|] == earlier;
  }

  /** A recorded checkpoint of an open candidate that goes on from the accepted state. */
  predicate Promotable(r: Refs, c: Checkpoint) {
    Known(r, c) && !Decided(r, c.candidate) && r.accepted == Some(c.base) && StrictlyDescends(c.base, c.commit)
  }

  /** Only a decision or another accepted commit stops the transaction of a promotion. */
  lemma PromotionPasses(r: Refs, c: Checkpoint)
    ensures Passes(r, Action.Promote(c.candidate, c.base, c.commit)) <==>
              !Decided(r, c.candidate) && r.accepted == Some(c.base)
  {
  }

  lemma UnregisteredEarlier(log: seq<Event>, n: nat, m: nat, c: Candidate)
    requires n <= m
    ensures UnregisteredSince(log, m, c) ==> UnregisteredSince(log, n, c)
  {
    hide Registered;
  }

  lemma UnknownEarlier(log: seq<Event>, n: nat, m: nat, c: Checkpoint)
    requires n <= m && UnknownSince(log, m, c)
    ensures UnknownSince(log, n, c)
  {
    var i :| m <= i <= |log| && !Known(Replay(log[..i]), c);
  }

  lemma RefsAreReplayed(repo: Repository)
    requires repo.Valid()
    ensures repo.refs == Replay(repo.log)
  {
  }

  lemma InitializedLast(repo: Repository, e: Event)
    requires repo.Valid() && EndsWith(repo.log, e) && e.action.Initialize?
    ensures repo.refs.accepted == Some(e.action.commit)
  {
  }

  class Repository {
    var refs: Refs
    var worktrees: map<CandidateId, Worktree>
    var dirty: set<CandidateId>
    ghost var log: seq<Event>
    /** Nobody but the one client at work uses the repository. */
    const alone: bool
    /** Git carries out every transaction whose checks pass. */
    const reliable: bool

    ghost predicate Valid()
      reads this
    {
      Legal(log) && refs == Replay(log)
    }

    /** This is all that was there then. */
    ghost predicate Same(log: seq<Event>, refs: Refs, worktrees: map<CandidateId, Worktree>, dirty: set<CandidateId>)
      reads this
    {
      this.log == log && this.refs == refs && this.worktrees == worktrees && this.dirty == dirty
    }

    constructor (alone: bool, reliable: bool)
      ensures Valid() && log == [] && refs == NO_REFS && this.alone == alone && this.reliable == reliable
    {
      refs, worktrees, dirty, log := NO_REFS, map[], {}, [];
      this.alone, this.reliable := alone, reliable;
    }

    /** Commit a transaction whose checks pass. */
    method Commit(client: nat, action: Action)
      requires Valid() && Passes(refs, action) && Vetted(refs, action)
      modifies this`refs, this`log
      ensures Valid() && log == old(log) + [Event(client, action)] && refs == Effect(old(refs), action)
      ensures Later(old(refs), refs)
    {
      LegalExtend(log, Event(client, action));
      LaterEffect(refs, action);
      refs, log := Effect(refs, action), log + [Event(client, action)];
    }

    /** Whatever others do meanwhile: any number of their transactions, and any edits. */
    method Interfere(me: nat)
      requires Valid()
      modifies this
      ensures Valid() && old(log) <= log && OwnSince(log, |old(log)|, me) == []
      ensures Later(old(refs), refs)
      ensures alone ==> Same(old(log), old(refs), old(worktrees), old(dirty))
    {
      hide Valid, Passes, Effect, Vetted, Later;
      LaterSelf(refs);
      if alone {
        return;
      }
      var steps: nat := *;
      while steps > 0
        invariant Valid() && old(log) <= log && OwnSince(log, |old(log)|, me) == []
        invariant Later(old(refs), refs)
      {
        var other: nat, action: Action := *, *;
        if other != me && Passes(refs, action) && Vetted(refs, action) {
          OwnAppend(log, Event(other, action), |old(log)|, me);
          ghost var before := refs;
          Commit(other, action);
          LaterTransitive(old(refs), before, refs);
        }
        steps := steps - 1;
      }
      Edit();
    }

    /** Anybody may change the worktrees in any way. */
    method Edit()
      requires Valid()
      modifies this`worktrees, this`dirty
      ensures Valid() && log == old(log)
    {
      worktrees, dirty := *, *;
    }

    /** Commit the files of a worktree on top of its HEAD. */
    method CommitIn(id: CandidateId, metadata: string)
      requires Valid() && id in worktrees
      modifies this`worktrees, this`dirty
      ensures Valid() && log == old(log) && dirty == old(dirty) - {id}
      ensures worktrees.Keys == old(worktrees).Keys && forall other :: other in worktrees && other != id ==>
              worktrees[other] == old(worktrees)[other]
      ensures worktrees[id] == Worktree(HeadAfter(old(worktrees)[id], true, metadata), old(worktrees)[id].files)
    {
      var w := worktrees[id];
      worktrees := worktrees[id := w.(head := BrokerRefs.Commit([w.head], w.files, metadata))];
      dirty := dirty - {id};
    }

    /**
     An atomic ref transaction: it commits only if its own checks pass, and otherwise changes nothing.
     Git may also fail.
     */
    method Transact(me: nat, action: Action) returns (ok: bool)
      requires Valid() && Vetted(refs, action)
      modifies this
      ensures Valid() && old(log) <= log
      ensures OwnSince(log, |old(log)|, me) == if ok then [action] else []
      ensures ok ==> EndsWith(log, Event(me, action))
      ensures Later(old(refs), refs)
      ensures ok ==> Visible(refs, action)
      ensures alone ==>
              Same(if ok then old(log) + [Event(me, action)] else old(log),
                   if ok then Effect(old(refs), action) else old(refs), old(worktrees), old(dirty))
      ensures alone && reliable ==> (ok <==> Passes(old(refs), action))
    {
      hide Valid, Passes, Vetted, Later;
      Interfere(me);
      StaysVetted(old(refs), refs, action);
      var works: bool := *;
      ok := (works || reliable) && Passes(refs, action);
      if ok {
        OwnAppend(log, Event(me, action), |old(log)|, me);
        ghost var before := refs;
        Commit(me, action);
        LaterTransitive(old(refs), before, refs);
      }
    }
  }

  /** The HEAD after whatever a worktree holds was committed. */
  function HeadAfter(w: Worktree, dirty: bool, metadata: string): Commit {
    if dirty then BrokerRefs.Commit([w.head], w.files, metadata) else w.head
  }

  /** The answer of an initialization to what was last read of the accepted ref, if the commit was not set. */
  function Initialized(commit: Commit, existing: Option<Commit>): Result<(), BrokerError> {
    if existing.Some? && existing.value != commit then Err(WorkspaceConflict) else Ok(())
  }

  /**
   An initialization that could not set the commit is still reported as done exactly when nobody else
   set another one.
   */
  lemma SilentInitialization(commit: Commit, existing: Option<Commit>)
    ensures Initialized(commit, existing).Ok? <==> existing == Some(commit) || existing.None?
    ensures Initialized(commit, None) == Ok(())
  {
  }

  /** Rejecting a candidate marks the checkpoint that was judged, or else its base. */
  function Rejection(candidate: Candidate, checkpoint: Option<Checkpoint>): Action {
    Action.Reject(candidate.id, if checkpoint.Some? then checkpoint.value.commit else candidate.base)
  }

  /** One broker process. */
  class Client {
    const repo: Repository
    const me: nat

    constructor (repo: Repository, me: nat)
      ensures this.repo == repo && this.me == me
    {
      this.repo, this.me := repo, me;
    }

    /** Since the log was `before`, this client committed exactly these transactions. */
    ghost predicate Did(before: seq<Event>, actions: seq<Action>)
      reads this, repo
    {
      repo.Valid() && before <= repo.log && OwnSince(repo.log, |before|, me) == actions
    }

    // --- Reads, each at its own moment ---

    method ReadAccepted() returns (c: Option<Commit>)
      requires repo.Valid()
      modifies repo
      ensures Did(old(repo.log), []) && Later(old(repo.refs), repo.refs)
      ensures repo.alone ==> repo.Same(old(repo.log), old(repo.refs), old(repo.worktrees), old(repo.dirty))
      ensures c == repo.refs.accepted
    {
      repo.Interfere(me);
      c := repo.refs.accepted;
    }

    method AcceptedState() returns (r: Result<Commit, BrokerError>)
      requires repo.Valid()
      modifies repo
      ensures Did(old(repo.log), []) && Later(old(repo.refs), repo.refs)
      ensures repo.alone ==> repo.Same(old(repo.log), old(repo.refs), old(repo.worktrees), old(repo.dirty))
      ensures r == if repo.refs.accepted.Some? then Ok(repo.refs.accepted.value) else Err(NotInitialized)
    {
      var c := ReadAccepted();
      r := if c.None? then Err(NotInitialized) else Ok(c.value);
    }

    /** Refuse a candidate that was already promoted or rejected when the markers were read. */
    method RequireOpen(id: CandidateId) returns (r: Result<(), BrokerError>)
      requires repo.Valid()
      modifies repo
      ensures Did(old(repo.log), []) && Later(old(repo.refs), repo.refs)
      ensures repo.alone ==> repo.Same(old(repo.log), old(repo.refs), old(repo.worktrees), old(repo.dirty))
      ensures r.Ok? ==> id !in old(repo.refs).promoted && id !in repo.refs.rejected
      ensures r.Err? ==> r.error == CandidateState && Decided(repo.refs, id)
    {
      hide OwnSince, Repository.Valid, Reached;
      repo.Interfere(me);
      if id in repo.refs.promoted {
        return Err(CandidateState);
      }
      ghost var between, refs := repo.log, repo.refs;
      repo.Interfere(me);
      OwnChain(between, repo.log, |old(repo.log)|, me);
      LaterTransitive(old(repo.refs), refs, repo.refs);
      r := if id in repo.refs.rejected then Err(CandidateState) else Ok(());
    }

    method RequireCandidate(candidate: Candidate) returns (r: Result<(), BrokerError>)
      requires repo.Valid()
      modifies repo
      ensures Did(old(repo.log), []) && Later(old(repo.refs), repo.refs)
      ensures repo.alone ==> repo.Same(old(repo.log), old(repo.refs), old(repo.worktrees), old(repo.dirty))
      ensures r.Ok? ==> Reached(repo.refs, candidate.base)
      ensures r == if Registered(repo.refs, candidate) then Ok(()) else Err(ForeignCheckpoint)
    {
      hide Later, Reached;
      repo.Interfere(me);
      if !Registered(repo.refs, candidate) {
        return Err(ForeignCheckpoint);
      }
      BasesAreReached(repo.log, candidate.id);
      r := Ok(());
    }

    /** Refuse a checkpoint that this workspace's brokers did not record for the candidate. */
    method RequireCheckpoint(c: Checkpoint) returns (r: Result<(), BrokerError>)
      requires repo.Valid()
      modifies repo
      ensures Did(old(repo.log), []) && Later(old(repo.refs), repo.refs)
      ensures repo.alone ==> repo.Same(old(repo.log), old(repo.refs), old(repo.worktrees), old(repo.dirty))
      ensures r.Ok? ==> (c.candidate, c.commit) in repo.refs.checkpoints && Reached(repo.refs, c.base)
      ensures repo.alone ==> (r.Ok? <==> Known(old(repo.refs), c))
      ensures r.Err? ==> r.error == ForeignCheckpoint && UnknownSince(repo.log, |old(repo.log)|, c)
    {
      hide Later, Reached, UnknownSince;
      repo.Interfere(me);
      var base := c.candidate in repo.refs.bases && repo.refs.bases[c.candidate] == c.base;
      ghost var between, refs := repo.log, repo.refs;
      if base {
        BasesAreReached(repo.log, c.candidate);
      }
      repo.Interfere(me);
      OwnChain(between, repo.log, |old(repo.log)|, me);
      LaterTransitive(old(repo.refs), refs, repo.refs);
      var recorded := (c.candidate, c.commit) in repo.refs.checkpoints;
      if base && recorded {
        ReachedStays(refs, repo.refs, c.base);
        return Ok(());
      }
      UnknownThen(repo.log, |old(repo.log)|, c, if base then repo.log else between);
      r := Err(ForeignCheckpoint);
    }

    // --- Promotion and rejection ---

    /** An open candidate of this workspace, judged at a checkpoint of its own if at any. */
    ghost predicate Rejectable(candidate: Candidate, checkpoint: Option<Checkpoint>)
      reads repo
    {
      && Registered(repo.refs, candidate) && !Decided(repo.refs, candidate.id)
      && (checkpoint.Some? ==> checkpoint.value.candidate == candidate.id && Known(repo.refs, checkpoint.value))
    }

    /**
     Promote a checkpoint: one atomic transaction, or no transaction of this client at all. Every
     refusal is true: a stale candidate can never be promoted any more, a decided one is decided for
     good, and Git is blamed only if the transaction's own checks would have passed.
     */
    method Promote(c: Checkpoint) returns (r: Result<(), BrokerError>)
      requires repo.Valid()
      modifies repo
      ensures Did(old(repo.log), if r.Ok? then [Action.Promote(c.candidate, c.base, c.commit)] else [])
      ensures r.Ok? ==> StrictlyDescends(c.base, c.commit)
      ensures r.Ok? ==> EndsWith(repo.log, Event(me, Action.Promote(c.candidate, c.base, c.commit)))
      ensures r.Ok? ==>
                && repo.refs.accepted == Some(c.commit)
                && c.candidate in repo.refs.promoted && repo.refs.promoted[c.candidate] == c.commit
      ensures r.Err? ==> r.error in {CandidateState, StaleCandidate, ForeignCheckpoint, GitCommand}
      ensures r == Err(CandidateState) ==> Decided(repo.refs, c.candidate)
      ensures r == Err(StaleCandidate) ==> Overtaken(repo.refs, c.base)
      ensures r == Err(ForeignCheckpoint) ==>
              !StrictlyDescends(c.base, c.commit) || UnknownSince(repo.log, |old(repo.log)|, c)
      ensures r == Err(GitCommand) ==>
              PassedSince(repo.log, |old(repo.log)|, Action.Promote(c.candidate, c.base, c.commit))
              && !(repo.alone && repo.reliable)
      ensures repo.alone && r.Err? ==> repo.Same(old(repo.log), old(repo.refs), old(repo.worktrees), old(repo.dirty))
      ensures repo.alone && repo.reliable ==> (r.Ok? <==> Promotable(old(repo.refs), c))
    {
      hide OwnSince, Repository.Valid, StrictlyDescends, EndsWith, Reached, Overtaken, UnknownSince, PassedSince,
        Decided, Passes;
      ghost var l0 := repo.log;
      var recorded := RequireCheckpoint(c);
      if recorded.Err? {
        return Err(recorded.error);
      }
      ghost var l1, r1 := repo.log, repo.refs;
      var open := RequireOpen(c.candidate);
      OwnChain(l1, repo.log, |l0|, me);
      if open.Err? {
        return Err(open.error);
      }
      ReachedStays(r1, repo.refs, c.base);
      ghost var l2, r2 := repo.log, repo.refs;
      var current := AcceptedState();
      OwnChain(l2, repo.log, |l0|, me);
      ReachedStays(r2, repo.refs, c.base);
      ReachedMeans(repo.refs, c.base);
      if current.Err? {
        assert false; // A registered base was accepted once, so the workspace is initialized.
      }
      if current.value != c.base {
        return Err(StaleCandidate);
      }
      if !StrictlyDescends(c.base, c.commit) {
        return Err(ForeignCheckpoint);
      }
      ghost var l3, r3 := repo.log, repo.refs;
      RefsAreReplayed(repo);
      PromotionPasses(repo.refs, c);
      var done := repo.Transact(me, Action.Promote(c.candidate, c.base, c.commit));
      OwnChain(l3, repo.log, |l0|, me);
      if !done {
        ReachedStays(r3, repo.refs, c.base);
        ghost var l4 := repo.log;
        r := ExplainFailure(c, l0);
        if r == Err(GitCommand) {
          PassedThen(repo.log, |l0|, Action.Promote(c.candidate, c.base, c.commit), l4);
        }
        return;
      }
      r := Ok(());
    }

    /**
     Why a promotion failed: what is read afterwards still tells, because nothing that can stop one is
     ever undone.
     */
    method ExplainFailure(c: Checkpoint, ghost before: seq<Event>) returns (r: Result<(), BrokerError>)
      requires Did(before, []) && Reached(repo.refs, c.base)
      modifies repo
      ensures Did(before, []) && old(repo.log) <= repo.log
      ensures r.Err? && r.error in {CandidateState, StaleCandidate, GitCommand}
      ensures r.error == CandidateState ==> Decided(repo.refs, c.candidate)
      ensures r.error == StaleCandidate ==> Overtaken(repo.refs, c.base)
      ensures r.error == GitCommand ==> Passes(Replay(old(repo.log)), Action.Promote(c.candidate, c.base, c.commit))
      ensures repo.alone ==> repo.Same(old(repo.log), old(repo.refs), old(repo.worktrees), old(repo.dirty))
    {
      hide OwnSince, Repository.Valid, Reached;
      ghost var l0, r0 := repo.log, repo.refs;
      RefsAreReplayed(repo);
      var open := RequireOpen(c.candidate);
      OwnChain(l0, repo.log, |before|, me);
      if open.Err? {
        return open;
      }
      ghost var l1, r1 := repo.log, repo.refs;
      var accepted := ReadAccepted();
      OwnChain(l1, repo.log, |before|, me);
      LaterTransitive(r0, r1, repo.refs);
      ReachedStays(r0, repo.refs, c.base);
      ReachedMeans(r0, c.base);
      r := if accepted != Some(c.base) then Err(StaleCandidate) else Err(GitCommand);
    }

    /**
     Mark a candidate as rejected, at the checkpoint that was judged or else at its base. Every refusal is
     true: a decided candidate is decided for good.
     */
    method Reject(candidate: Candidate, checkpoint: Option<Checkpoint>) returns (r: Result<(), BrokerError>)
      requires repo.Valid()
      modifies repo
      ensures Did(old(repo.log), if r.Ok? then [Rejection(candidate, checkpoint)] else [])
      ensures r.Ok? ==> candidate.id in repo.refs.rejected
      ensures r.Ok? && checkpoint.Some? ==> repo.refs.rejected[candidate.id] == checkpoint.value.commit
      ensures r.Ok? && checkpoint.None? ==> repo.refs.rejected[candidate.id] == candidate.base
      ensures r.Ok? && checkpoint.Some? ==> checkpoint.value.candidate == candidate.id
      ensures r.Err? ==> r.error in {CandidateState, ForeignCheckpoint, GitCommand}
      ensures r == Err(CandidateState) ==> Decided(repo.refs, candidate.id)
      ensures r == Err(ForeignCheckpoint) ==>
                || UnregisteredSince(repo.log, |old(repo.log)|, candidate)
                || (checkpoint.Some? && (UnknownSince(repo.log, |old(repo.log)|, checkpoint.value)
                                         || checkpoint.value.candidate != candidate.id))
      ensures r == Err(GitCommand) ==> PassedSince(repo.log, |old(repo.log)|, Rejection(candidate, checkpoint))
      ensures repo.alone && repo.reliable ==> (r.Ok? <==> old(Rejectable(candidate, checkpoint)))
    {
      hide OwnSince, Repository.Valid, Later, Reached, Decided, Passes, PassedSince, UnknownSince, Rejection,
        UnregisteredSince, Registered;
      ghost var l0 := repo.log;
      var known := RequireCandidate(candidate);
      RefsAreReplayed(repo);
      if known.Err? {
        UnregisteredThen(repo.log, |l0|, candidate);
        return Err(known.error);
      }
      ghost var l1 := repo.log;
      var open := RequireOpen(candidate.id);
      OwnChain(l1, repo.log, |l0|, me);
      if open.Err? {
        return Err(open.error);
      }
      if checkpoint.Some? {
        ghost var l2 := repo.log;
        var recorded := RequireCheckpoint(checkpoint.value);
        OwnChain(l2, repo.log, |l0|, me);
        if recorded.Err? {
          UnknownEarlier(repo.log, |l0|, |l2|, checkpoint.value);
          return Err(recorded.error);
        }
        if checkpoint.value.candidate != candidate.id {
          return Err(ForeignCheckpoint);
        }
      }
      ghost var l3 := repo.log;
      var done := TransactRejection(candidate, checkpoint);
      OwnChain(l3, repo.log, |l0|, me);
      if done {
        return Ok(());
      }
      ghost var l4 := repo.log;
      r := ExplainRejection(candidate, checkpoint, l0);
      if r == Err(GitCommand) {
        PassedThen(repo.log, |l0|, Rejection(candidate, checkpoint), l4);
      }
    }

    /** The rejection is attempted in one transaction, and nothing of it needs vetting. */
    method TransactRejection(candidate: Candidate, checkpoint: Option<Checkpoint>) returns (done: bool)
      requires repo.Valid()
      modifies repo
      ensures Did(old(repo.log), if done then [Rejection(candidate, checkpoint)] else [])
      ensures repo.alone && repo.reliable ==> (done <==> !Decided(old(repo.refs), candidate.id))
      ensures done ==> candidate.id in repo.refs.rejected
      ensures done && checkpoint.Some? ==> repo.refs.rejected[candidate.id] == checkpoint.value.commit
      ensures done && checkpoint.None? ==> repo.refs.rejected[candidate.id] == candidate.base
    {
      hide OwnSince, Repository.Valid, Later;
      done := repo.Transact(me, Rejection(candidate, checkpoint));
    }

    /** Why a rejection failed: a decision made meanwhile is still there to be read. */
    method ExplainRejection(candidate: Candidate, checkpoint: Option<Checkpoint>, ghost before: seq<Event>)
      returns (r: Result<(), BrokerError>)
      requires Did(before, [])
      modifies repo
      ensures Did(before, []) && old(repo.log) <= repo.log
      ensures r.Err? && r.error in {CandidateState, GitCommand}
      ensures r.error == CandidateState ==> Decided(repo.refs, candidate.id)
      ensures r.error == GitCommand ==> Passes(Replay(old(repo.log)), Rejection(candidate, checkpoint))
    {
      hide OwnSince, Repository.Valid, Reached;
      ghost var l0 := repo.log;
      RefsAreReplayed(repo);
      var open := RequireOpen(candidate.id);
      OwnChain(l0, repo.log, |before|, me);
      r := if open.Err? then Err(open.error) else Err(GitCommand);
    }

    // --- Setting up and recording ---

    /**
     Set the first accepted commit; a workspace that already accepts another one is left alone. It
     also returns without an error when Git failed to set the ref and nobody else has set it.
     */
    method Initialize(commit: Commit) returns (r: Result<(), BrokerError>)
      requires repo.Valid()
      modifies repo
      ensures Did(old(repo.log), [])
              || (r.Ok? && Did(old(repo.log), [Action.Initialize(commit)]) && old(repo.refs).accepted.None?)
      ensures r.Ok? ==> repo.refs.accepted == Some(commit) || repo.refs.accepted.None?
      ensures r.Err? ==> r.error == WorkspaceConflict && repo.refs.accepted.Some? && repo.refs.accepted.value != commit
      ensures repo.alone && repo.reliable ==>
              repo.refs.accepted == Some(if old(repo.refs).accepted.Some? then old(repo.refs).accepted.value
                                         else commit)
    {
      hide OwnSince, Repository.Valid, EndsWith;
      ghost var l0 := repo.log;
      var existing := ReadAccepted();
      if existing.None? {
        ghost var l1 := repo.log;
        var done := repo.Transact(me, Action.Initialize(commit));
        OwnChain(l1, repo.log, |l0|, me);
        if done {
          InitializedLast(repo, Event(me, Action.Initialize(commit)));
          return Initialized(commit, None);
        }
        ghost var l2 := repo.log;
        existing := ReadAccepted();
        OwnChain(l2, repo.log, |l0|, me);
      }
      r := Initialized(commit, existing);
    }

    /** Register a candidate under an unused id; if its worktree cannot be made it is unregistered again. */
    method CreateCandidate(accepted: Commit, id: CandidateId) returns (r: Result<Candidate, BrokerError>)
      requires repo.Valid()
      modifies repo
      ensures r.Ok? ==> r.value == Candidate(id, accepted) && Did(old(repo.log), [Action.Register(id, accepted)])
      ensures r.Ok? ==> Registered(repo.refs, r.value)
      ensures r.Err? ==> r.error in {NotInitialized, StaleCandidate, GitCommand}
      ensures r == Err(NotInitialized) ==> old(repo.refs).accepted.None?
      ensures r == Err(StaleCandidate) ==> MovedSince(repo.log, |old(repo.log)|, accepted)
      ensures r.Err? && r.error != GitCommand ==> Did(old(repo.log), [])
      ensures r.Err? ==>
                || Did(old(repo.log), []) || Did(old(repo.log), [Action.Register(id, accepted)])
                || Did(old(repo.log), [Action.Register(id, accepted), Action.Unregister(id, accepted)])
      ensures repo.alone && repo.reliable ==>
                (r.Ok? <==> old(repo.refs).accepted == Some(accepted) && id !in old(repo.refs).bases)
    {
      hide OwnSince, Repository.Valid, Later, Reached, MovedSince;
      ghost var l0, r0 := repo.log, repo.refs;
      var current := AcceptedState();
      RefsAreReplayed(repo);
      if current.Err? {
        NotYetAccepted(r0, repo.refs);
        return Err(current.error);
      }
      if accepted != current.value {
        MovedThen(repo.log, |l0|, accepted);
        return Err(StaleCandidate);
      }
      ghost var l1 := repo.log;
      var registered := RegisterBase(accepted, id);
      OwnChain(l1, repo.log, |l0|, me);
      if !registered {
        return Err(GitCommand);
      }
      var made: bool := *;
      if !(made || repo.reliable) {
        ghost var l2 := repo.log;
        var gone := repo.Transact(me, Action.Unregister(id, accepted));
        OwnChain(l2, repo.log, |l0|, me);
        return Err(GitCommand);
      }
      r := Ok(Candidate(id, accepted));
    }

    /** Register the base, which accepted state has reached when it is read and reaches ever after. */
    method RegisterBase(accepted: Commit, id: CandidateId) returns (done: bool)
      requires repo.Valid() && repo.refs.accepted == Some(accepted)
      modifies repo
      ensures Did(old(repo.log), if done then [Action.Register(id, accepted)] else [])
      ensures done ==> Registered(repo.refs, Candidate(id, accepted))
      ensures repo.alone && repo.reliable ==> (done <==> id !in old(repo.refs).bases)
    {
      hide OwnSince, Repository.Valid, Later;
      done := repo.Transact(me, Action.Register(id, accepted));
    }

    /** Commit whatever the worktree holds, if it is dirty, and read its HEAD afterwards. */
    method CommitWorktree(id: CandidateId, metadata: string) returns (r: Result<(Commit, bool), BrokerError>)
      requires repo.Valid()
      modifies repo
      ensures Did(old(repo.log), [])
      ensures r.Ok? ==> id in repo.worktrees && repo.worktrees[id].head == r.value.0
      ensures r.Err? ==> r.error in {CandidateState, GitCommand} && id !in repo.worktrees
      ensures repo.alone ==>
                && repo.log == old(repo.log) && repo.refs == old(repo.refs)
                && (r.Ok? <==> id in old(repo.worktrees))
                && (r.Ok? ==> r.value == (HeadAfter(old(repo.worktrees)[id], id in old(repo.dirty), metadata),
                                          id in old(repo.dirty)))
                && (r.Ok? ==> repo.worktrees[id].files == old(repo.worktrees)[id].files)
    {
      hide OwnSince, Repository.Valid;
      repo.Interfere(me);
      if id !in repo.worktrees {
        return Err(CandidateState);
      }
      var dirty := id in repo.dirty;
      if dirty {
        ghost var l1 := repo.log;
        repo.Interfere(me);
        OwnChain(l1, repo.log, |old(repo.log)|, me);
        if id !in repo.worktrees {
          return Err(GitCommand);
        }
        repo.CommitIn(id, metadata);
      }
      ghost var l2 := repo.log;
      repo.Interfere(me);
      OwnChain(l2, repo.log, |old(repo.log)|, me);
      r := if id in repo.worktrees then Ok((repo.worktrees[id].head, dirty)) else Err(GitCommand);
    }

    /**
     Why no checkpoint was made. `seen` is the HEAD that was read and whether the worktree was dirty
     before, if it came to that; the worktree's state is the one found when the answer was given.
     */
    ghost predicate NoCheckpoint(e: BrokerError, candidate: Candidate, n: nat, seen: Option<(Commit, bool)>)
      reads repo
    {
      match e
      case NothingToCheckpoint =>
        seen.Some? && (seen.value.0 == candidate.base ||
                       (!seen.value.1 && (candidate.id, seen.value.0) in repo.refs.checkpoints))
      case ForeignCheckpoint =>
        UnregisteredSince(repo.log, n, candidate) || (seen.Some? && !IsAncestor(candidate.base, seen.value.0))
      case CandidateState => Decided(repo.refs, candidate.id) || candidate.id !in repo.worktrees
      case GitCommand =>
        candidate.id !in repo.worktrees ||
        (seen.Some? && StrictlyDescends(candidate.base, seen.value.0) &&
         ((candidate.id, seen.value.0) in repo.refs.checkpoints
          || PassedSince(repo.log, n, Action.Record(candidate.id, seen.value.0))))
      case _ => false
    }

    lemma NoCheckpointEarlier(e: BrokerError, candidate: Candidate, n: nat, m: nat, seen: Option<(Commit, bool)>)
      requires n <= m && NoCheckpoint(e, candidate, m, seen)
      ensures NoCheckpoint(e, candidate, n, seen)
    {
      hide UnregisteredSince, Passes;
      UnregisteredEarlier(repo.log, n, m, candidate);
    }

    /** The HEAD of a candidate once its worktree is committed. */
    ghost function Head(id: CandidateId, metadata: string): Commit
      reads repo
      requires id in repo.worktrees
    {
      HeadAfter(repo.worktrees[id], id in repo.dirty, metadata)
    }

    /** There is a new state to record: an open candidate of this workspace has gone on from its base. */
    ghost predicate Checkpointable(candidate: Candidate, metadata: string)
      reads repo
    {
      && Registered(repo.refs, candidate) && !Decided(repo.refs, candidate.id) && candidate.id in repo.worktrees
      && StrictlyDescends(candidate.base, Head(candidate.id, metadata))
      && (candidate.id, Head(candidate.id, metadata)) !in repo.refs.checkpoints
    }

    /** Commit the worktree of an open candidate of this workspace, and read its HEAD. */
    method CommittedHead(candidate: Candidate, metadata: string) returns (r: Result<(Commit, bool), BrokerError>)
      requires repo.Valid()
      modifies repo
      ensures Did(old(repo.log), [])
      ensures r.Err? ==>
              r.error != NothingToCheckpoint && NoCheckpoint(r.error, candidate, |old(repo.log)|, None)
      ensures repo.alone ==>
                && repo.log == old(repo.log) && repo.refs == old(repo.refs)
                && (r.Ok? <==>
                    && Registered(repo.refs, candidate) && !Decided(repo.refs, candidate.id)
                    && candidate.id in old(repo.worktrees))
                && (r.Ok? ==> r.value == (old(Head(candidate.id, metadata)), candidate.id in old(repo.dirty)))
    {
      hide OwnSince, Repository.Valid, UnregisteredSince, Registered, IsAncestor, PassedSince;
      ghost var l0 := repo.log;
      var known := RequireCandidate(candidate);
      RefsAreReplayed(repo);
      if known.Err? {
        UnregisteredThen(repo.log, |l0|, candidate);
        return Err(known.error);
      }
      ghost var l1 := repo.log;
      var open := RequireOpen(candidate.id);
      OwnChain(l1, repo.log, |l0|, me);
      if open.Err? {
        return Err(open.error);
      }
      ghost var l2 := repo.log;
      r := CommitWorktree(candidate.id, metadata);
      OwnChain(l2, repo.log, |l0|, me);
    }

    /** The worktree of an open candidate is clean and its HEAD was recorded before. */
    ghost predicate AlreadyRecorded(candidate: Candidate)
      reads repo
    {
      && Registered(repo.refs, candidate) && !Decided(repo.refs, candidate.id) && candidate.id in repo.worktrees
      && candidate.id !in repo.dirty && (candidate.id, repo.worktrees[candidate.id].head) in repo.refs.checkpoints
    }

    /** Record the candidate's current state as a checkpoint of this workspace. */
    method CheckpointCandidate(candidate: Candidate, metadata: string)
      returns (r: Result<Checkpoint, BrokerError>, ghost seen: Option<(Commit, bool)>)
      requires repo.Valid()
      modifies repo
      ensures Did(old(repo.log), if r.Ok? then [Action.Record(candidate.id, r.value.commit)] else [])
      ensures r.Ok? ==> r.value == Checkpoint(candidate.id, candidate.base, r.value.commit)
      ensures r.Ok? ==> StrictlyDescends(candidate.base, r.value.commit)
      ensures r.Ok? ==> (candidate.id, r.value.commit) in repo.refs.checkpoints
      ensures r.Ok? ==> seen.Some? && seen.value.0 == r.value.commit
      ensures r.Err? ==> NoCheckpoint(r.error, candidate, |old(repo.log)|, seen)
      ensures repo.alone && repo.reliable ==> (r.Ok? <==> old(Checkpointable(candidate, metadata)))
      ensures repo.alone && r.Ok? ==>
              candidate.id in old(repo.worktrees) && r.value.commit == old(Head(candidate.id, metadata))
      ensures repo.alone ==>
              repo.log == old(repo.log) + if r.Ok? then [Event(me, Action.Record(candidate.id, r.value.commit))] else []
      ensures repo.alone ==>
              repo.refs == if r.Ok? then Effect(old(repo.refs), Action.Record(candidate.id, r.value.commit))
                           else old(repo.refs)
      ensures repo.alone && old(AlreadyRecorded(candidate)) ==> r == Err(NothingToCheckpoint)
    {
      hide OwnSince, Repository.Valid, UnregisteredSince, Registered, Decided, IsAncestor, PassedSince;
      seen := None;
      ghost var l0 := repo.log;
      var committed := CommittedHead(candidate, metadata);
      if committed.Err? {
        r := Err(committed.error);
        return;
      }
      var (head, dirty) := committed.value;
      seen := Some((head, dirty));
      ghost var l3 := repo.log;
      repo.Interfere(me);
      OwnChain(l3, repo.log, |l0|, me);
      if head == candidate.base || (!dirty && (candidate.id, head) in repo.refs.checkpoints) {
        r := Err(NothingToCheckpoint);
        return;
      }
      if !IsAncestor(candidate.base, head) {
        r := Err(ForeignCheckpoint);
        return;
      }
      ghost var l4 := repo.log;
      RefsAreReplayed(repo);
      var done := repo.Transact(me, Action.Record(candidate.id, head));
      OwnChain(l4, repo.log, |l0|, me);
      if !done && (candidate.id, head) !in repo.refs.checkpoints {
        PassedThen(repo.log, |l0|, Action.Record(candidate.id, head), l4);
      }
      r := if done then Ok(Checkpoint(candidate.id, candidate.base, head)) else Err(GitCommand);
    }
  }
}
