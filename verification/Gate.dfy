/**
 The verified promotion gate,
   with anything at all happening between any two of its steps. The content identity of a state is modelled as the files
 themselves, which ManifestIdentifiesFiles shows is what the hash of their canonical manifest names.
 */
module Gate {
  import opened Prelude
  import opened BridgeDelta
  import opened BrokerRefs
  import opened Broker

  type Content = map<string, Data>

  /** The content of a tree; one with anything but regular files has none. */
  function ContentOf(tree: map<string, TreeEntry>): Option<Content> {
    if forall p :: p in tree ==> tree[p].Regular? then
      Some(map p | p in tree && tree[p].Regular? :: Data(tree[p].content, tree[p].executable))
    else None
  }

  // --- The auditor's verification ---

  datatype VerificationStatus = Verified | NotVerified | Blocked | AuditorError

  /** What the audit recorded about the state it inspected; a missing or malformed field is None or empty. */
  datatype AuditEvidence = AuditEvidence(workspaceId: string, candidateId: string, base: Option<Commit>,
                                         head: Option<Commit>,
                                         content: Option<Content>, snapshotUnchanged: bool, acceptedUnchanged: bool,
                                         remoteUnchanged: bool)

  datatype Verification = Verification(status: VerificationStatus, reason: string, formatRepair: string,
                                       reportSource: string,
                                       mutationDetected: Option<bool>, invalidReasons: seq<string>,
                                         evidence: AuditEvidence)

  datatype AuditedState = AuditedState(workspaceId: string, candidateId: string, base: Commit, head: Commit,
                                       content: Content)

  datatype GateStatus =
    | VerifiedAndCurrent
    | Carried(status: VerificationStatus)
    | EvidenceMissing
    | VerificationStale
    | HeadChanged
    | WorkspaceChanged
    | NothingToPromote

  datatype Decision = Decision(status: GateStatus, reason: string, audited: Option<AuditedState>)

  datatype Stage = RefusedBeforeCheckpoint | RefusedAfterCheckpoint | PromotedStage

  datatype GateResult = GateResult(decision: Decision, stage: Stage, checkpoint: Option<Checkpoint>, created: bool)

  /** The broker's answer to the checkpoint that failed, and what it had seen of the worktree. */
  datatype Failure = Failure(error: Option<BrokerError>, seen: Option<(Commit, bool)>)

  function VerificationRefusal(v: Verification): Option<Decision> {
    if v.status != Verified then Some(Decision(Carried(v.status), v.reason, None))
    else if v.reason != "report_complete" || v.formatRepair == "accepted" || "repair." <= v.reportSource then
      Some(Decision(Carried(NotVerified), "repaired_report_not_verification_authority", None))
    else if v.mutationDetected != Some(false)
      then Some(Decision(Carried(Blocked), "workspace_mutation_not_excluded", None))
    else if v.invalidReasons != [] then Some(Decision(Carried(Blocked), "audit_boundary_invalid", None))
    else None
  }

  function Audited(e: AuditEvidence): Option<AuditedState> {
    if e.workspaceId == "" || e.candidateId == "" || e.base.None? || e.head.None? || e.content.None? then None
    else if !(e.snapshotUnchanged && e.acceptedUnchanged && e.remoteUnchanged) then None
    else Some(AuditedState(e.workspaceId, e.candidateId, e.base.value, e.head.value, e.content.value))
  }

  /** An original, complete, clean verification of an identified state. */
  predicate Authority(v: Verification) {
    && v.status == Verified && v.reason == "report_complete" && v.formatRepair != "accepted"
       && !("repair." <= v.reportSource)
    && v.mutationDetected == Some(false) && v.invalidReasons == []
    && v.evidence.snapshotUnchanged && v.evidence.acceptedUnchanged && v.evidence.remoteUnchanged
  }

  /** The commit is exactly the audited state: the audited HEAD or its direct child, with the audited content. */
  predicate IsAudited(c: Commit, audited: AuditedState) {
    && (c == audited.head || (c.parents != [] && c.parents[0] == audited.head))
    && ContentOf(c.tree) == Some(audited.content)
  }

  /** That is, its own tree is the audited content, file by file. */
  lemma AuditedMeans(c: Commit, audited: AuditedState)
    ensures IsAudited(c, audited) <==>
              c.tree == TreeOf(audited.content) && audited.head in [c] + c.parents[..if c.parents == [] then 0 else 1]
  {
    ContentIdentifiesTree(c.tree, audited.content);
    if c.parents != [] {
      assert c.parents[..1] == [c.parents[0]];
    }
  }

  function TreeOf(content: Content): map<string, TreeEntry> {
    map p | p in content :: Regular(content[p].content, content[p].executable)
  }

  /** The content of a tree names exactly one tree of regular files, and any other tree has none. */
  lemma ContentIdentifiesTree(tree: map<string, TreeEntry>, content: Content)
    ensures ContentOf(tree) == Some(content) <==> tree == TreeOf(content)
    ensures ContentOf(tree).None? <==> exists p :: p in tree && tree[p].Irregular?
  {
    ContentOfTree(content);
    if ContentOf(tree) == Some(content) {
      assert tree.Keys == content.Keys;
      forall p | p in tree
        ensures tree[p] == TreeOf(content)[p]
      {
        assert content[p] == Data(tree[p].content, tree[p].executable);
      }
    }
  }

  lemma ContentOfTree(content: Content)
    ensures ContentOf(TreeOf(content)) == Some(content)
  {
    var tree := TreeOf(content);
    assert tree.Keys == content.Keys && forall p :: p in tree ==> tree[p].Regular?;
    var read := ContentOf(tree).value;
    assert read.Keys == content.Keys && forall p :: p in read ==> read[p] == content[p];
    assert read == content;
  }

  /** The evidence names a candidate, its base, and the HEAD and content that were inspected. */
  predicate Identified(e: AuditEvidence) {
    e.workspaceId != "" && e.candidateId != "" && e.base.Some? && e.head.Some? && e.content.Some?
  }

  function Inspected(e: AuditEvidence): AuditedState
    requires Identified(e)
  {
    AuditedState(workspaceId := e.workspaceId, candidateId := e.candidateId, base := e.base.value, head := e.head.value,
                 content := e.content.value)
  }

  /** What is wrong with a verification that is not acted on at all. */
  ghost predicate RefusedOnEvidence(d: Decision, v: Verification) {
    && d.audited.None?
    && match d.status
       case Carried(NotVerified) =>
         (v.status == NotVerified && d.reason == v.reason) ||
         (v.status == Verified && d.reason == "repaired_report_not_verification_authority" &&
          (v.reason != "report_complete" || v.formatRepair == "accepted" || "repair." <= v.reportSource))
       case Carried(Blocked) =>
         (v.status == Blocked && d.reason == v.reason) ||
         (v.status == Verified && d.reason == "workspace_mutation_not_excluded" && v.mutationDetected != Some(false)) ||
         (v.status == Verified && d.reason == "audit_boundary_invalid" && v.invalidReasons != [])
       case Carried(AuditorError) => v.status == AuditorError && d.reason == v.reason
       case EvidenceMissing =>
         v.status == Verified && d.reason == "audit_snapshot_evidence_missing" &&
         !(Identified(v.evidence) && v.evidence.snapshotUnchanged && v.evidence.acceptedUnchanged
           && v.evidence.remoteUnchanged)
       case _ => false
  }

  lemma RefusalIsTrue(v: Verification)
    ensures VerificationRefusal(v).Some? ==> !Authority(v) && RefusedOnEvidence(VerificationRefusal(v).value, v)
    ensures VerificationRefusal(v).None? && Audited(v.evidence).None? ==>
              (Identified(v.evidence) ==> !Authority(v)) &&
              RefusedOnEvidence(Decision(EvidenceMissing, "audit_snapshot_evidence_missing", None), v)
    ensures VerificationRefusal(v).None? && Audited(v.evidence).Some? ==>
              Authority(v) && Identified(v.evidence) && Audited(v.evidence) == Some(Inspected(v.evidence))
  {
  }

  /** The last transaction is this client's, and it moved accepted state from the base to the checkpoint. */
  ghost predicate MovedLast(log: seq<Event>, refs: Refs, me: nat, id: CandidateId, base: Commit,
                            checkpoint: Option<Checkpoint>)
  {
    && checkpoint.Some? && log != []
    && log[|log| - 1] == Event(me, Action.Promote(id, base, checkpoint.value.commit))
    && Replay(log[..|log| - 1]).accepted == Some(base)
    && (id, checkpoint.value.commit) in Replay(log[..|log| - 1]).checkpoints
    && refs.accepted == Some(checkpoint.value.commit)
  }

  lemma MovedInOneStep(repo: Repository, me: nat, c: Checkpoint)
    requires repo.Valid() && EndsWith(repo.log, Event(me, Action.Promote(c.candidate, c.base, c.commit)))
    ensures MovedLast(repo.log, repo.refs, me, c.candidate, c.base, Some(c))
  {
    PromotionMovesForward(repo.log, |repo.log| - 1);
    assert repo.log[..|repo.log|] == repo.log;
  }

  class PromotionGate {
    const client: Client
    const workspaceId: string

    constructor (client: Client, workspaceId: string)
      ensures this.client == client && this.workspaceId == workspaceId
    {
      this.client, this.workspaceId := client, workspaceId;
    }

    /**
     What a decision says of the verification and of what was found: of the HEAD that was `seen`, and of
     the files and the accepted state at the moment of the decision. `n` is the length of the log before.
     */
    ghost predicate Explained(d: Decision, v: Verification, candidate: Candidate, n: nat, seen: Option<Commit>)
      reads client.repo
    {
      var repo := client.repo;
      var here := if candidate.id in repo.worktrees then ContentOf(repo.worktrees[candidate.id].files) else None;
      if !(Authority(v) && Identified(v.evidence)) then RefusedOnEvidence(d, v)
      else
        var a := Inspected(v.evidence);
        && d.audited == Some(a)
        && if a.workspaceId != workspaceId || a.candidateId != candidate.id || a.base != candidate.base then
             d.status == VerificationStale && d.reason == "audit_identity_mismatch"
           else
             match d.status
             case VerifiedAndCurrent =>
               seen == Some(a.head) && here == Some(a.content) && d.reason == "audited_state_is_current"
             case HeadChanged => seen.Some? && seen.value != a.head && d.reason == "head_changed_since_audit"
             case WorkspaceChanged =>
               && seen == Some(a.head) && here != Some(a.content)
               && d.reason == if here.None? then "workspace_unreadable_as_audited" else "content_changed_since_audit"
             case VerificationStale => d.reason == "candidate_stale" && Overtaken(repo.refs, candidate.base)
             case Carried(Blocked) =>
               d.reason == "candidate_unavailable" &&
               (UnregisteredSince(repo.log, n, candidate) || candidate.id !in repo.worktrees)
             case _ => false
    }

    /** Compare what was audited with what is there now; no transaction is made. */
    method Evaluate(candidate: Candidate, v: Verification) returns (d: Decision, ghost seen: Option<Commit>)
      requires client.repo.Valid()
      modifies client.repo
      ensures client.Did(old(client.repo.log), [])
      ensures Explained(d, v, candidate, |old(client.repo.log)|, seen)
      ensures client.repo.alone ==>
              client.repo.Same(old(client.repo.log), old(client.repo.refs), old(client.repo.worktrees),
                               old(client.repo.dirty))
      ensures client.repo.alone && seen.Some? ==>
              candidate.id in client.repo.worktrees && seen.value == client.repo.worktrees[candidate.id].head
    {
      hide Repository.Valid, Reached, Overtaken, Later, OwnSince, RefusedOnEvidence, Authority, Identified, Inspected,
        VerificationRefusal, Audited, UnregisteredSince, ContentOf;
      var repo, me := client.repo, client.me;
      seen := None;
      ghost var l0 := repo.log;
      repo.Interfere(me);
      RefusalIsTrue(v);
      var refusal := VerificationRefusal(v);
      if refusal.Some? {
        d := refusal.value;
        return;
      }
      var audited := Audited(v.evidence);
      if audited.None? {
        d := Decision(EvidenceMissing, "audit_snapshot_evidence_missing", None);
        return;
      }
      var a := audited.value;
      if workspaceId != a.workspaceId || candidate.id != a.candidateId || candidate.base != a.base {
        d := Decision(VerificationStale, "audit_identity_mismatch", audited);
        return;
      }
      ghost var l1 := repo.log;
      var head := InspectHead(candidate);
      OwnChain(l1, repo.log, |l0|, me);
      if head.Err? {
        UnregisteredEarlier(repo.log, |l0|, |l1|, candidate);
        d := Decision(Carried(Blocked), "candidate_unavailable", audited);
        return;
      }
      seen := Some(head.value);
      ghost var l2, r2 := repo.log, repo.refs;
      var accepted := client.AcceptedState();
      OwnChain(l2, repo.log, |l0|, me);
      ReachedStays(r2, repo.refs, candidate.base);
      ReachedMeans(repo.refs, candidate.base);
      if accepted.Err? {
        assert false; // A registered base was accepted once, so the workspace is initialized.
      }
      if accepted.value != candidate.base {
        d := Decision(VerificationStale, "candidate_stale", audited);
        return;
      }
      if head.value != a.head {
        d := Decision(HeadChanged, "head_changed_since_audit", audited);
        return;
      }
      ghost var l3 := repo.log;
      repo.Interfere(me);
      OwnChain(l3, repo.log, |l0|, me);
      var content := if candidate.id in repo.worktrees then ContentOf(repo.worktrees[candidate.id].files) else None;
      if content.None? {
        d := Decision(WorkspaceChanged, "workspace_unreadable_as_audited", audited);
        return;
      }
      if content != Some(a.content) {
        d := Decision(WorkspaceChanged, "content_changed_since_audit", audited);
        return;
      }
      d := Decision(VerifiedAndCurrent, "audited_state_is_current", audited);
    }

    method InspectHead(candidate: Candidate) returns (r: Result<Commit, BrokerError>)
      requires client.repo.Valid()
      modifies client.repo
      ensures client.Did(old(client.repo.log), [])
      ensures r.Ok? ==> Reached(client.repo.refs, candidate.base)
      ensures r.Ok? ==> candidate.id in client.repo.worktrees && client.repo.worktrees[candidate.id].head == r.value
      ensures r.Err? ==>
              UnregisteredSince(client.repo.log, |old(client.repo.log)|, candidate)
              || candidate.id !in client.repo.worktrees
      ensures client.repo.alone ==>
              client.repo.Same(old(client.repo.log), old(client.repo.refs), old(client.repo.worktrees),
                               old(client.repo.dirty))
    {
      hide Repository.Valid, Reached, Later, UnregisteredSince, Registered;
      ghost var l0 := client.repo.log;
      var known := client.RequireCandidate(candidate);
      RefsAreReplayed(client.repo);
      if known.Err? {
        UnregisteredThen(client.repo.log, |l0|, candidate);
        return Err(known.error);
      }
      ghost var l1, r1 := client.repo.log, client.repo.refs;
      client.repo.Interfere(client.me);
      OwnChain(l1, client.repo.log, |l0|, client.me);
      ReachedStays(r1, client.repo.refs, candidate.base);
      r := if candidate.id in client.repo.worktrees then Ok(client.repo.worktrees[candidate.id].head)
        else Err(CandidateState);
    }

    lemma AllowedMeans(d: Decision, v: Verification, candidate: Candidate, n: nat, seen: Option<Commit>)
      requires Explained(d, v, candidate, n, seen) && d.status == VerifiedAndCurrent
      ensures Authority(v) && Identified(v.evidence) && d.audited == Some(Inspected(v.evidence))
      ensures var a := d.audited.value;
              a.workspaceId == workspaceId && a.candidateId == candidate.id && a.base == candidate.base
      ensures Audited(v.evidence) == d.audited && seen == Some(d.audited.value.head)
    {
      hide ContentOf;
    }

    /**
     An audit with full authority of the state that is still there: an open candidate of this workspace,
     on the accepted state, whose HEAD and files are the audited ones. Its changes are either not yet
     committed, or committed as the audited HEAD.
     */
    ghost predicate Honest(candidate: Candidate, v: Verification, message: string)
      reads client.repo
    {
      HonestIn(client.repo.refs, client.repo.worktrees, client.repo.dirty, candidate, v, message)
    }

    ghost predicate HonestIn(refs: Refs, worktrees: map<CandidateId, Worktree>, dirty: set<CandidateId>,
                             candidate: Candidate, v: Verification, message: string)
    {
      && Authority(v) && Identified(v.evidence)
      && var a := Inspected(v.evidence);
         && a.workspaceId == workspaceId && a.candidateId == candidate.id && a.base == candidate.base
         && refs.accepted == Some(candidate.base) && Registered(refs, candidate)
         && !Decided(refs, candidate.id) && candidate.id in worktrees
         && var w := worktrees[candidate.id];
            var head := HeadAfter(w, candidate.id in dirty, message);
            && w.head == a.head && ContentOf(w.files) == Some(a.content) && StrictlyDescends(candidate.base, head)
            && if candidate.id in dirty then (candidate.id, head) !in refs.checkpoints
               else ContentOf(w.head.tree) == Some(a.content)
    }

    /** What was decided of an honest candidate, if nobody interfered, is that it may go on. */
    lemma HonestIsAllowed(d: Decision, candidate: Candidate, v: Verification, message: string, seen: Option<Commit>)
      requires client.repo.Valid() && Honest(candidate, v, message)
      requires Explained(d, v, candidate, |client.repo.log|, seen)
      requires seen.Some? ==>
                 candidate.id in client.repo.worktrees && seen.value == client.repo.worktrees[candidate.id].head
      ensures d.status == VerifiedAndCurrent && d.audited == Some(Inspected(v.evidence))
    {
      hide Authority, Identified, Inspected, ContentOf, RefusedOnEvidence, Client.Head, StrictlyDescends;
      var repo := client.repo;
      assert repo.log[..|repo.log|] == repo.log;
      NotPastItself(repo.refs, candidate.base);
    }

    /** What the second part of the gate finds when the first part let an honest candidate through. */
    ghost predicate Ready(candidate: Candidate, a: AuditedState, message: string)
      reads client.repo
    {
      if client.Checkpointable(candidate, message) then
        var head := client.Head(candidate.id, message);
        && IsAudited(head, a)
        && Promotable(Effect(client.repo.refs, Action.Record(candidate.id, head)),
                      Checkpoint(candidate.id, candidate.base, head))
      else
        && client.AlreadyRecorded(candidate) && a.head != candidate.base && IsAudited(a.head, a)
        && Promotable(client.repo.refs, Checkpoint(candidate.id, candidate.base, a.head))
    }

    lemma HonestIsReady(candidate: Candidate, v: Verification, message: string)
      requires Honest(candidate, v, message)
      ensures Ready(candidate, Inspected(v.evidence), message)
    {
      hide Authority, Identified, Inspected, ContentOf, IsAncestor;
    }

    /** Why the gate stopped after an audit that was current, and the accepted state was left alone. */
    ghost predicate Stopped(r: GateResult, candidate: Candidate, a: AuditedState, n: nat, failure: Failure)
      reads client.repo
    {
      var repo, refs := client.repo, client.repo.refs;
      && r.decision.audited == Some(a)
      && match r.decision.reason
         case "no_changes_since_base" =>
           r.decision.status == NothingToPromote && r.checkpoint.None? && a.head == candidate.base
         case "checkpoint_failed" =>
           && r.decision.status == Carried(Blocked) && r.checkpoint.None?
           && failure.error.Some? && failure.error != Some(NothingToCheckpoint)
           && client.NoCheckpoint(failure.error.value, candidate, n, failure.seen)
         case "checkpoint_differs_from_audit" =>
           r.decision.status == WorkspaceChanged && r.checkpoint.Some? && !IsAudited(r.checkpoint.value.commit, a)
         case "candidate_stale" =>
           r.decision.status == VerificationStale && r.checkpoint.Some? && Overtaken(refs, candidate.base)
         case "promotion_refused" =>
           && r.decision.status == Carried(Blocked) && r.checkpoint.Some?
           && var c := r.checkpoint.value;
              Decided(refs, candidate.id) || !StrictlyDescends(c.base, c.commit) || UnknownSince(repo.log, n, c)
              || PassedSince(repo.log, n, Action.Promote(c.candidate, c.base, c.commit))
         case _ => false
    }

    lemma StoppedEarlier(r: GateResult, candidate: Candidate, a: AuditedState, n: nat, m: nat, failure: Failure)
      requires n <= m
      ensures Stopped(r, candidate, a, m, failure) ==> Stopped(r, candidate, a, n, failure)
    {
      hide PassedSince, UnknownSince, Decided, StrictlyDescends, Overtaken, IsAudited, Client.NoCheckpoint;
      if failure.error.Some? && client.NoCheckpoint(failure.error.value, candidate, m, failure.seen) {
        client.NoCheckpointEarlier(failure.error.value, candidate, n, m, failure.seen);
      }
      if r.checkpoint.Some? {
        SinceEarlier(client.repo.log, n, m, r.checkpoint.value);
      }
    }

    /** The part of the gate after the audit was found current. */
    method PromoteAudited(candidate: Candidate, decision: Decision, audited: AuditedState, message: string)
      returns (r: GateResult, ghost failure: Failure)
      requires client.repo.Valid()
      requires decision.audited == Some(audited) && audited.candidateId == candidate.id
               && audited.base == candidate.base
      modifies client.repo
      ensures client.repo.Valid() && old(client.repo.log) <= client.repo.log
      ensures r.decision.audited == Some(audited)
      ensures r.stage == PromotedStage ==>
                && r.checkpoint.Some?
                && var c := r.checkpoint.value;
                && c == Checkpoint(candidate.id, candidate.base, c.commit)
                && IsAudited(c.commit, audited) && StrictlyDescends(candidate.base, c.commit)
                && client.Did(old(client.repo.log),
                              (if r.created then [Action.Record(candidate.id, c.commit)] else [])
                                + [Action.Promote(candidate.id, candidate.base, c.commit)])
      ensures r.stage == PromotedStage ==>
              MovedLast(client.repo.log, client.repo.refs, client.me, candidate.id, candidate.base, r.checkpoint)
      ensures r.stage == RefusedAfterCheckpoint ==>
                && r.checkpoint.Some?
                && client.Did(old(client.repo.log), if r.created
                              then [Action.Record(candidate.id, r.checkpoint.value.commit)] else [])
      ensures r.stage == RefusedBeforeCheckpoint ==>
              r.checkpoint.None? && !r.created && client.Did(old(client.repo.log), [])
      ensures r.stage != PromotedStage ==> Stopped(r, candidate, audited, |old(client.repo.log)|, failure)
      ensures client.repo.alone && client.repo.reliable && old(Ready(candidate, audited, message)) ==>
              r.stage == PromotedStage
    {
      hide Repository.Valid, IsAudited, StrictlyDescends, MovedLast, EndsWith, Reached, Overtaken, Later, Decided,
        PassedSince, UnknownSince, OwnSince, ContentOf, Client.NoCheckpoint, Client.Checkpointable,
        Client.AlreadyRecorded, Client.Head, Promotable;
      var repo, me := client.repo, client.me;
      failure := Failure(None, None);
      ghost var l0 := repo.log;
      var made, seen := client.CheckpointCandidate(candidate, message);
      if made.Err? && made.error != NothingToCheckpoint {
        failure := Failure(Some(made.error), seen);
        r := Denied(decision, Carried(Blocked), "checkpoint_failed", None, false);
        return;
      }
      if made.Err? && audited.head == candidate.base {
        r := Denied(decision, NothingToPromote, "no_changes_since_base", None, false);
        return;
      }
      var created := made.Ok?;
      var checkpoint := if created then made.value else Checkpoint(candidate.id, candidate.base, audited.head);
      // Nothing can change what a commit holds, so the worktree does not matter from here on.
      if !IsAudited(checkpoint.commit, audited) {
        r := Denied(decision, WorkspaceChanged, "checkpoint_differs_from_audit", Some(checkpoint), created);
        return;
      }
      ghost var l2 := repo.log;
      var promotion := client.Promote(checkpoint);
      OwnChain(l2, repo.log, |l0|, me);
      if promotion.Err? {
        SinceEarlier(repo.log, |l0|, |l2|, checkpoint);
        var stale := promotion.error == StaleCandidate;
        r := Denied(decision, if stale then VerificationStale else Carried(Blocked),
                    if stale then "candidate_stale" else "promotion_refused", Some(checkpoint), created);
        return;
      }
      MovedInOneStep(repo, me, checkpoint);
      r := GateResult(decision, PromotedStage, Some(checkpoint), created);
    }

    /**
     The whole gate. A promoted result means that one transaction of this call moved accepted state
     from the audited base to a commit that is the audited state; any other result means that this
     call did not move accepted state, and says truly why. Without interference, and with Git working, an
     honest candidate is promoted.
     */
    method CheckpointAndPromote(candidate: Candidate, v: Verification, message: string)
      returns (r: GateResult, ghost head: Option<Commit>, ghost failure: Failure)
      requires client.repo.Valid()
      modifies client.repo
      ensures client.repo.Valid() && old(client.repo.log) <= client.repo.log
      ensures r.stage == PromotedStage ==>
                && Authority(v) && Audited(v.evidence).Some? && r.checkpoint.Some?
                && var audited := Audited(v.evidence).value;
                var c := r.checkpoint.value;
                && c == Checkpoint(audited.candidateId, audited.base, c.commit) && c.candidate == candidate.id
                && c.commit.tree == TreeOf(audited.content) && StrictlyDescends(audited.base, c.commit)
                && (c.commit == audited.head || (c.commit.parents != [] && c.commit.parents[0] == audited.head))
                && client.Did(old(client.repo.log),
                              (if r.created then [Action.Record(c.candidate, c.commit)] else [])
                                + [Action.Promote(c.candidate, audited.base, c.commit)])
      ensures r.stage == PromotedStage ==>
              MovedLast(client.repo.log, client.repo.refs, client.me, candidate.id, candidate.base, r.checkpoint)
      ensures r.stage == RefusedAfterCheckpoint ==>
                && r.checkpoint.Some?
                && client.Did(old(client.repo.log), if r.created
                              then [Action.Record(candidate.id, r.checkpoint.value.commit)] else [])
      ensures r.stage == RefusedBeforeCheckpoint ==>
              r.checkpoint.None? && !r.created && client.Did(old(client.repo.log), [])
      ensures r.stage != PromotedStage ==>
                || (r.stage == RefusedBeforeCheckpoint && r.decision.status != VerifiedAndCurrent &&
                    Explained(r.decision, v, candidate, |old(client.repo.log)|, head))
                || (Identified(v.evidence) && head == Some(Inspected(v.evidence).head)
                    && Stopped(r, candidate, Inspected(v.evidence), |old(client.repo.log)|, failure))
      ensures client.repo.alone && client.repo.reliable && old(Honest(candidate, v, message)) ==>
              r.stage == PromotedStage
    {
      hide Repository.Valid, IsAudited, StrictlyDescends, Authority, Identified, Inspected, Audited, MovedLast,
        EndsWith,
        Reached, Overtaken, Later, Decided, PassedSince, UnknownSince, OwnSince, ContentOf, Client.NoCheckpoint,
        Explained, Stopped, HonestIn, Ready;
      var repo, me := client.repo, client.me;
      failure := Failure(None, None);
      ghost var l0 := repo.log;
      var decision, found := Evaluate(candidate, v);
      head := found;
      if repo.alone && Honest(candidate, v, message) {
        HonestIsAllowed(decision, candidate, v, message, head);
        HonestIsReady(candidate, v, message);
      }
      if decision.status != VerifiedAndCurrent {
        r := GateResult(decision, RefusedBeforeCheckpoint, None, false);
        return;
      }
      AllowedMeans(decision, v, candidate, |l0|, head);
      ghost var l1 := repo.log;
      r, failure := PromoteAudited(candidate, decision, decision.audited.value, message);
      OwnChain(l1, repo.log, |l0|, me);
      StoppedEarlier(r, candidate, decision.audited.value, |l0|, |l1|, failure);
      if r.checkpoint.Some? {
        AuditedMeans(r.checkpoint.value.commit, decision.audited.value);
      }
    }
  }

  /** What was so since a later moment was so since an earlier one. */
  lemma SinceEarlier(log: seq<Event>, n: nat, m: nat, c: Checkpoint)
    requires n <= m
    ensures UnknownSince(log, m, c) ==> UnknownSince(log, n, c)
    ensures var action := Action.Promote(c.candidate, c.base, c.commit);
            PassedSince(log, m, action) ==> PassedSince(log, n, action)
  {
    hide Known, Passes;
  }

  function Denied(decision: Decision, status: GateStatus, reason: string, checkpoint: Option<Checkpoint>,
                  created: bool): (r: GateResult)
    ensures r.stage == if checkpoint.Some? then RefusedAfterCheckpoint else RefusedBeforeCheckpoint
    ensures r.checkpoint == checkpoint && r.created == created && r.decision.audited == decision.audited
  {
    GateResult(decision.(status := status, reason := reason),
               if checkpoint.Some? then RefusedAfterCheckpoint else RefusedBeforeCheckpoint, checkpoint, created)
  }
}
