/** What every interleaving of store requests keeps: complete, legal and immutable event logs. */
module ControlLog {
  import opened Prelude
  import opened ControlModel
  import opened ControlEvolution
  import opened ControlMachine
  import opened ControlInvariant
  import opened ControlLifecycle
  import opened ControlSteps
  import opened ControlRuns
  import opened ControlStore

  // --- The invariant ---

  /** The log of one WorkOrder: versions 1 to n without a gap, the last being the stored record. */
  ghost predicate LogOk(t: Tables, id: Identifier)
    requires id in t.orders
  {
    var n := t.orders[id].version;
    && n >= 1
    && (forall k: nat :: (id, k) in t.events <==> 1 <= k <= n)
    && t.events[(id, n)].order == t.orders[id]
    && (forall k: nat :: 1 <= k <= n ==> EntryOk(t, id, k))
    && (forall k: nat :: 1 <= k < n ==> AdjacentOk(t, id, k))
  }

  ghost predicate EntryOk(t: Tables, id: Identifier, k: nat)
    requires (id, k) in t.events
  {
    var order := t.events[(id, k)].order;
    && order.workOrderId == id
    && order.version == k
    && order.Valid()
    && Registered(t.registry, order.usedProfiles)
    && Stored(t.projects, order.executionProfile)
  }

  ghost predicate AdjacentOk(t: Tables, id: Identifier, k: nat)
    requires (id, k) in t.events && (id, k + 1) in t.events
  {
    LegalSuccessor(t.events[(id, k)].order, t.events[(id, k + 1)].order)
  }

  ghost predicate Sound(t: Tables) {
    && (forall id :: id in t.orders ==> LogOk(t, id))
    && (forall key :: key in t.events ==> key.0 in t.orders)
    && (forall key :: key in t.registry ==>
        t.registry[key].Ref().profileId == key.0 && t.registry[key].version == key.1)
    && NoGaps(t.registry.Keys)
    && NoGaps(t.projects.Keys)
  }

  /** The versions of every id run from 1 without a gap. */
  ghost predicate NoGaps(keys: set<Key>) {
    forall key, k: nat :: key in keys && 1 <= k <= key.1 ==> key.1 >= 1 && (key.0, k) in keys
  }

  /** Nothing is deleted or overwritten, and a WorkOrder's version never falls. */
  ghost predicate Extends(t: Tables, after: Tables) {
    && (forall key :: key in t.registry ==> key in after.registry && after.registry[key] == t.registry[key])
    && (forall key :: key in t.projects ==> key in after.projects && after.projects[key] == t.projects[key])
    && (forall key :: key in t.events ==> key in after.events && after.events[key] == t.events[key])
    && (forall id :: id in t.orders ==> id in after.orders && t.orders[id].version <= after.orders[id].version)
  }

  // --- One request ---

  lemma WriteExtends(t: Tables, stored: WorkOrder, event: string)
    requires Write(t, stored, event).Ok?
    requires stored.workOrderId in t.orders ==> t.orders[stored.workOrderId].version <= stored.version
    ensures Extends(t, Write(t, stored, event).value)
  {
  }

  lemma ServeExtends(t: Tables, request: Request)
    requires Serve(t, request).Ok?
    ensures Extends(t, Serve(t, request).value)
  {
    hide WorkOrder.Valid, LegalSuccessor, Write, Registered, Stored, NextVersion, Extends;
    match request
    case Register(profile) => RegisterExtends(t, profile);
    case Save(project) => SaveExtends(t, project);
    case Create(order, event) => WriteExtends(t, order.(version := 1), event);
    case Update(order, expected, event) => WriteExtends(t, order.(version := expected + 1), event);
  }

  lemma RegisterExtends(t: Tables, profile: Profile)
    requires ServeRegister(t, profile).Ok?
    ensures Extends(t, ServeRegister(t, profile).value)
  {
  }

  lemma SaveExtends(t: Tables, project: ProjectExecutionProfile)
    requires ServeSave(t, project).Ok?
    ensures Extends(t, ServeSave(t, project).value)
  {
  }

  lemma EntriesStay(t: Tables, after: Tables, id: Identifier, k: nat)
    requires Extends(t, after) && (id, k) in t.events && EntryOk(t, id, k)
    ensures EntryOk(after, id, k)
  {
    hide WorkOrder.Valid;
  }

  /** A log that a request did not write stays sound. */
  lemma LogStays(t: Tables, after: Tables, id: Identifier)
    requires id in t.orders && LogOk(t, id) && Extends(t, after)
    requires after.orders[id] == t.orders[id]
    requires forall k: nat :: (id, k) in after.events ==> (id, k) in t.events
    ensures LogOk(after, id)
  {
    hide WorkOrder.Valid, LegalSuccessor, EntryOk;
    forall k: nat | 1 <= k <= t.orders[id].version
      ensures EntryOk(after, id, k)
    {
      EntriesStay(t, after, id, k);
    }
    forall k: nat | 1 <= k < t.orders[id].version
      ensures AdjacentOk(after, id, k)
    {
      assert AdjacentOk(t, id, k);
    }
  }

  lemma VersionsBefore(t: Tables, id: Identifier)
    requires Sound(t)
    ensures forall k: nat :: (id, k) in t.events <==> id in t.orders && 1 <= k <= t.orders[id].version
  {
    hide WorkOrder.Valid, EntryOk, AdjacentOk, NoGaps;
    forall k: nat
      ensures (id, k) in t.events <==> id in t.orders && 1 <= k <= t.orders[id].version
    {
      assert (id, k) in t.events ==> (id, k).0 in t.orders;
      assert id in t.orders ==> LogOk(t, id);
    }
  }

  lemma LogIsOk(t: Tables, id: Identifier)
    requires Sound(t)
    ensures id in t.orders ==> LogOk(t, id)
  {
    hide LogOk;
  }

  /** A written record extends its log by one version. */
  lemma WriteKeepsLog(t: Tables, stored: WorkOrder, event: string)
    requires Sound(t) && Write(t, stored, event).Ok? && stored.Valid()
    requires Registered(t.registry, stored.usedProfiles) && Stored(t.projects, stored.executionProfile)
    requires if stored.workOrderId in t.orders
             then stored.version == t.orders[stored.workOrderId].version + 1
               && LegalSuccessor(t.orders[stored.workOrderId], stored)
             else stored.version == 1
    ensures LogOk(Write(t, stored, event).value, stored.workOrderId)
  {
    hide WorkOrder.Valid, LegalSuccessor, Registered, Stored, NoGaps, Profile.Ref, Sound;
    LogIsOk(t, stored.workOrderId);
    var id, n := stored.workOrderId, stored.version;
    var after := Write(t, stored, event).value;
    VersionsBefore(t, id);
    assert id in t.orders ==> LogOk(t, id);
    forall k: nat | 1 <= k <= n
      ensures EntryOk(after, id, k)
    {
      if k < n {
        assert EntryOk(t, id, k);
      }
    }
    forall k: nat | 1 <= k < n
      ensures AdjacentOk(after, id, k)
    {
      if k < n - 1 {
        assert AdjacentOk(t, id, k);
      }
    }
  }

  lemma WriteKeeps(t: Tables, stored: WorkOrder, event: string)
    requires Sound(t) && Write(t, stored, event).Ok? && stored.Valid()
    requires Registered(t.registry, stored.usedProfiles) && Stored(t.projects, stored.executionProfile)
    requires if stored.workOrderId in t.orders
             then stored.version == t.orders[stored.workOrderId].version + 1
               && LegalSuccessor(t.orders[stored.workOrderId], stored)
             else stored.version == 1
    ensures Sound(Write(t, stored, event).value)
  {
    hide WorkOrder.Valid, LegalSuccessor, NoGaps, LogOk;
    var after := Write(t, stored, event).value;
    WriteKeepsLog(t, stored, event);
    forall id | id in after.orders && id != stored.workOrderId
      ensures LogOk(after, id)
    {
      LogStays(t, after, id);
    }
  }

  lemma TablesGrow(t: Tables, after: Tables)
    requires Sound(t) && Extends(t, after) && after.orders == t.orders && after.events == t.events
    ensures forall id :: id in after.orders ==> LogOk(after, id)
  {
    hide LogOk;
    forall id | id in after.orders
      ensures LogOk(after, id)
    {
      LogStays(t, after, id);
    }
  }

  /** The prefix rule lets the store check only the profiles used since the stored version. */
  lemma OnlyNewProfilesNeedChecking(registry: map<Key, Profile>, before: seq<Profile>, after: seq<Profile>)
    requires Registered(registry, before) && before <= after && Registered(registry, after[|before|..])
    ensures Registered(registry, after)
  {
    forall p | p in after
      ensures p in before || p in after[|before|..]
    {
      var i :| 0 <= i < |after| && after[i] == p;
      if i < |before| {
        assert before[i] == p;
      } else {
        assert after[|before|..][i - |before|] == p;
      }
    }
  }

  lemma ServeKeeps(t: Tables, request: Request)
    requires Sound(t) && Serve(t, request).Ok?
    ensures Sound(Serve(t, request).value)
  {
    hide Sound, ServeRegister, ServeSave, ServeCreate, ServeUpdate;
    match request
    case Register(profile) => RegisterKeeps(t, profile);
    case Save(project) => SaveKeeps(t, project);
    case Create(order, event) => CreateKeeps(t, order, event);
    case Update(order, expected, event) => UpdateKeeps(t, order, expected, event);
  }

  lemma RegisterKeeps(t: Tables, profile: Profile)
    requires Sound(t) && ServeRegister(t, profile).Ok?
    ensures Sound(ServeRegister(t, profile).value)
  {
    hide LogOk, NoGaps, NextVersion, Extends, EntryOk, AdjacentOk;
    RegisterExtends(t, profile);
    var after := ServeRegister(t, profile).value;
    TablesGrow(t, after);
    NoGapsGrow(t.registry.Keys, (profile.profileId, profile.version));
    assert after != t ==> after.registry.Keys == t.registry.Keys + {(profile.profileId, profile.version)};
  }

  lemma NoGapsGrow(keys: set<Key>, key: Key)
    requires NoGaps(keys)
    ensures NextVersion(keys, key) ==> NoGaps(keys + {key})
  {
  }

  lemma SaveKeeps(t: Tables, project: ProjectExecutionProfile)
    requires Sound(t) && ServeSave(t, project).Ok?
    ensures Sound(ServeSave(t, project).value)
  {
    hide LogOk, NoGaps, NextVersion, Extends;
    SaveExtends(t, project);
    var after := ServeSave(t, project).value;
    TablesGrow(t, after);
    NoGapsGrow(t.projects.Keys, (project.projectId, project.version));
    assert after != t ==> after.projects.Keys == t.projects.Keys + {(project.projectId, project.version)};
  }

  lemma CreateKeeps(t: Tables, order: WorkOrder, event: string)
    requires Sound(t) && ServeCreate(t, order, event).Ok?
    ensures Sound(ServeCreate(t, order, event).value)
  {
    hide WorkOrder.Valid, LegalSuccessor, Sound, Write, Registered, Stored;
    WriteKeeps(t, order.(version := 1), event);
  }

  lemma UpdateKeeps(t: Tables, order: WorkOrder, expected: Version, event: string)
    requires Sound(t) && ServeUpdate(t, order, expected, event).Ok?
    ensures Sound(ServeUpdate(t, order, expected, event).value)
  {
    hide WorkOrder.Valid, LegalSuccessor, Sound, Write, Registered, Stored;
    var current := t.orders[order.workOrderId];
    var stored := order.(version := expected + 1);
    CurrentIsLogged(t, order.workOrderId);
    UsedKept(current, stored);
    OnlyNewProfilesNeedChecking(t.registry, current.usedProfiles, stored.usedProfiles);
    WriteKeeps(t, stored, event);
  }

  lemma UsedKept(w: WorkOrder, next: WorkOrder)
    requires LegalSuccessor(w, next)
    ensures w.usedProfiles <= next.usedProfiles
  {
  }

  lemma CurrentIsLogged(t: Tables, id: Identifier)
    requires Sound(t) && id in t.orders
    ensures var w := t.orders[id]; w.workOrderId == id && w.version >= 1 && w.Valid()
    ensures Registered(t.registry, t.orders[id].usedProfiles) && Stored(t.projects, t.orders[id].executionProfile)
  {
    hide WorkOrder.Valid;
    assert EntryOk(t, id, t.orders[id].version);
  }

  // --- Any number of requests ---

  /** The tables after a sequence of requests, in the order in which their transactions committed. */
  function After(rs: seq<Request>): Tables {
    if rs == [] then EMPTY
    else
      var t := After(rs[..|rs| - 1]);
      var served := Serve(t, rs[|rs| - 1]);
      if served.Ok? then served.value else t
  }

  lemma {:induction false} AlwaysSound(rs: seq<Request>)
    ensures Sound(After(rs))
  {
    hide Serve, LogOk;
    if rs != [] {
      AlwaysSound(rs[..|rs| - 1]);
      var t := After(rs[..|rs| - 1]);
      if Serve(t, rs[|rs| - 1]).Ok? {
        ServeKeeps(t, rs[|rs| - 1]);
      }
    }
  }

  lemma {:induction false} NothingIsLost(rs: seq<Request>, i: nat)
    requires i <= |rs|
    ensures Extends(After(rs[..i]), After(rs))
  {
    hide Serve, Sound;
    if i == |rs| {
      assert rs[..i] == rs;
    } else {
      var n := |rs| - 1;
      NothingIsLost(rs[..n], i);
      assert rs[..n][..i] == rs[..i];
      AlwaysSound(rs[..n]);
      if Serve(After(rs[..n]), rs[n]).Ok? {
        ServeExtends(After(rs[..n]), rs[n]);
      }
    }
  }

  predicate Succeeds(rs: seq<Request>, i: nat)
    requires i < |rs|
  {
    Serve(After(rs[..i]), rs[i]).Ok?
  }

  /** Of several updates that name one version of one WorkOrder, at most one succeeds. */
  lemma OneUpdatePerVersion(rs: seq<Request>, i: nat, j: nat)
    requires i < j < |rs| && rs[i].Update? && rs[j].Update?
    requires rs[i].order.workOrderId == rs[j].order.workOrderId && rs[i].expected == rs[j].expected
    requires Succeeds(rs, i)
    ensures Serve(After(rs[..j]), rs[j]) == Err(Stale)
  {
    hide WorkOrder.Valid, LegalSuccessor, Sound, Registered;
    var id := rs[i].order.workOrderId;
    assert rs[..i + 1][..i] == rs[..i];
    assert After(rs[..i + 1]).orders[id].version == rs[i].expected + 1;
    assert rs[..j][..i + 1] == rs[..i + 1];
    NothingIsLost(rs[..j], i + 1);
  }

  /** No request ever meets an event row that already exists. */
  lemma NoDuplicateEvents(rs: seq<Request>, request: Request)
    ensures Serve(After(rs), request) != Err(Duplicate)
  {
    hide WorkOrder.Valid, LegalSuccessor, EntryOk, AdjacentOk, Registered, NoGaps;
    AlwaysSound(rs);
    var t := After(rs);
    if request.Update? && request.order.workOrderId in t.orders {
      assert LogOk(t, request.order.workOrderId);
    }
  }

  // --- Histories ---

  /** Every stored version of a WorkOrder, oldest first. */
  ghost function Log(t: Tables, id: Identifier): (log: seq<WorkOrder>)
    requires Sound(t) && id in t.orders
    ensures |log| == t.orders[id].version
  {
    assert LogOk(t, id);
    seq(t.orders[id].version, k requires 0 <= k < t.orders[id].version => t.events[(id, k + 1)].order)
  }

  /** What a later version must repeat of an earlier one. */
  ghost predicate Preserved(a: WorkOrder, b: WorkOrder) {
    && b.workOrderId == a.workOrderId && b.projectId == a.projectId && b.objective == a.objective
    && b.memoryPaths == a.memoryPaths
    && (a.plannedBaseline.Some? ==> b.plannedBaseline == a.plannedBaseline)
    && (a.candidate.Some? ==> b.candidate == a.candidate)
    && a.planVersions <= b.planVersions && a.approvals <= b.approvals && a.amendments <= b.amendments
    && a.evidence <= b.evidence && a.usedProfiles <= b.usedProfiles && a.supersededBlocks <= b.supersededBlocks
    && (forall x :: x in a.blocks && x.status == BlockDone ==> x in b.blocks)
    && DeviationsStay(a.deviations, b.deviations)
    && (a.status == Promoted || a.status == Aborted ==> b == a.(version := b.version))
  }

  /** Each deviation keeps its place and everything but a missing approval. */
  predicate DeviationsStay(before: seq<Deviation>, after: seq<Deviation>) {
    && |before| <= |after|
    && forall i :: 0 <= i < |before| ==>
         && after[i].(approvedBy := None) == before[i].(approvedBy := None)
         && (before[i].approvedBy.Some? ==> after[i].approvedBy == before[i].approvedBy)
  }

  /** The states from which each state is entered. */
  function Predecessors(status: WorkOrderStatus): set<WorkOrderStatus> {
    match status
    case Draft => {}
    case ContextIntake => {Draft, UserAttentionRequired, Deferred}
    case PlanProposed => {ContextIntake, UserAttentionRequired}
    case PlanApproved => {PlanProposed, UserAttentionRequired, Deferred}
    case Executing => {PlanApproved, UserAttentionRequired, Deferred}
    case FinalVerification => {Executing, UserAttentionRequired, Deferred}
    case Promoted => {FinalVerification}
    case UserAttentionRequired => {ContextIntake, PlanApproved, Executing, FinalVerification, Deferred}
    case Deferred => {UserAttentionRequired}
    case Aborted => {PlanProposed, UserAttentionRequired}
  }

  /** The status table read backwards. */
  lemma EnteredFrom(before: WorkOrderStatus, after: WorkOrderStatus)
    ensures StatusStep(before, after) <==> before == after || before in Predecessors(after)
  {
  }

  /**
   What one version may change of the one before: a state is entered from a predecessor, the profile and
   a budget only by an amendment added with it, and a closed request not at all.
   */
  ghost predicate Advances(a: WorkOrder, b: WorkOrder) {
    && (b.status == a.status || a.status in Predecessors(b.status))
    && (b.executionProfile != a.executionProfile ==>
          exists i :: |a.amendments| <= i < |b.amendments| && b.amendments[i].ChangeAgent?
            && b.amendments[i].profile == b.executionProfile)
    && (a.budget.Some? && b.budget != a.budget ==>
          exists i :: |a.amendments| <= i < |b.amendments| && AllowsBudget(b.amendments[i], b.budget))
    && (DistinctAttention(a.attention) ==>
          && |a.attention| <= |b.attention|
          && forall i :: 0 <= i < |a.attention| ==>
               b.attention[i].id == a.attention[i].id
               && (a.attention[i].closed ==> b.attention[i] == a.attention[i]))
  }

  /** A budget amendment allows its budget; an agent amendment, which has none, allows dropping the budget. */
  predicate AllowsBudget(amendment: Amendment, budget: Option<Budget>) {
    if amendment.ChangeBudget? then budget == Some(amendment.newBudget) else budget.None?
  }

  /**
   Any record with a budget has a legal successor without one, explained by an agent amendment alone. No
   transition makes this step.
   */
  lemma BudgetMayBeDropped(w: WorkOrder, amendment: Amendment)
    requires !w.IsTerminal() && DistinctAttention(w.attention) && DistinctBlocks(w.blocks)
    requires w.budget.Some? && amendment.ChangeAgent?
    ensures LegalSuccessor(w, w.(amendments := w.amendments + [amendment], budget := None))
    ensures w.Valid() && amendment.Valid() ==> w.(amendments := w.amendments + [amendment], budget := None).Valid()
  {
    hide WorkOrder.Valid, AttentionKept, DoneBlocksKept;
    HistoryKeptReflexive(w);
    assert (w.amendments + [amendment])[|w.amendments|..] == [amendment];
    assert amendment in [amendment];
    DroppedIsValid(w, amendment);
  }

  lemma DroppedIsValid(w: WorkOrder, amendment: Amendment)
    ensures w.Valid() && amendment.Valid() ==> w.(amendments := w.amendments + [amendment], budget := None).Valid()
  {
    hide Block.Valid, BlockRecorded, BlockIndependent, Amendment.Valid, ProjectExecutionProfile.Valid,
      AttentionRequest.Valid, PlanVersion.Valid, PlansOk, BlocksMatchPlan, OpenCountOk, Independent;
  }

  lemma LegalAdvances(a: WorkOrder, b: WorkOrder)
    requires LegalSuccessor(a, b)
    ensures Advances(a, b)
  {
    hide DoneBlocksKept, DeviationsKept, IdentityKept, AttentionKept;
    EnteredFrom(a.status, b.status);
    EnvelopeAdvances(a, b);
    if DistinctAttention(a.attention) {
      AttentionKeptMeans(a.attention, b.attention);
    }
  }

  lemma EnvelopeAdvances(a: WorkOrder, b: WorkOrder)
    requires EnvelopeKept(a, b) && a.amendments <= b.amendments
    ensures b.executionProfile != a.executionProfile ==>
              exists i :: |a.amendments| <= i < |b.amendments| && b.amendments[i].ChangeAgent?
                && b.amendments[i].profile == b.executionProfile
    ensures a.budget.Some? && b.budget != a.budget ==>
              exists i :: |a.amendments| <= i < |b.amendments| && AllowsBudget(b.amendments[i], b.budget)
  {
    var n, added := |a.amendments|, b.amendments[|a.amendments|..];
    if b.executionProfile != a.executionProfile {
      var j :| 0 <= j < |added| && added[j].NewProfile() == Some(b.executionProfile);
      assert b.amendments[n + j] == added[j];
    }
    if a.budget.Some? && b.budget != a.budget {
      var j :| 0 <= j < |added| && added[j].NewBudget() == b.budget;
      assert b.amendments[n + j] == added[j];
    }
  }

  /** Every version in a log advances the one before it. */
  lemma LogAdvances(t: Tables, id: Identifier, i: nat)
    requires Sound(t) && id in t.orders && i + 1 < |Log(t, id)|
    ensures Advances(Log(t, id)[i], Log(t, id)[i + 1])
  {
    hide WorkOrder.Valid, LegalSuccessor, Advances, EntryOk, NoGaps, Registered, Stored, Profile.Ref;
    assert LogOk(t, id) && AdjacentOk(t, id, i + 1);
    LegalAdvances(Log(t, id)[i], Log(t, id)[i + 1]);
  }

  lemma PreservedTransitive(a: WorkOrder, b: WorkOrder, c: WorkOrder)
    requires Preserved(a, b) && Preserved(b, c)
    ensures Preserved(a, c)
  {
    forall i | 0 <= i < |a.deviations|
      ensures c.deviations[i].(approvedBy := None) == a.deviations[i].(approvedBy := None)
    {
      assert b.deviations[i].(approvedBy := None) == a.deviations[i].(approvedBy := None);
    }
  }

  lemma LegalPreserves(a: WorkOrder, b: WorkOrder)
    requires LegalSuccessor(a, b)
    ensures Preserved(a, b)
  {
    hide AttentionKept, EnvelopeKept;
    forall x | x in a.blocks && x.status == BlockDone
      ensures x in b.blocks
    {
      LastBlockInside(b.blocks, x.spec.blockId);
    }
    forall i | 0 <= i < |a.deviations|
      ensures b.deviations[i].(approvedBy := None) == a.deviations[i].(approvedBy := None)
    {
      assert DeviationKept(a.deviations[i], b.deviations[i]);
    }
  }

  /** Finished blocks, approved plans, used profiles and terminal records are the same in all later versions. */
  lemma {:induction false} LogPreserves(t: Tables, id: Identifier, i: nat, j: nat)
    requires Sound(t) && id in t.orders && i < j < |Log(t, id)|
    ensures Preserved(Log(t, id)[i], Log(t, id)[j])
    decreases j - i
  {
    hide Preserved, Log, Sound;
    LogStep(t, id, j - 1);
    if i < j - 1 {
      LogPreserves(t, id, i, j - 1);
      PreservedTransitive(Log(t, id)[i], Log(t, id)[j - 1], Log(t, id)[j]);
    }
  }

  lemma LogStep(t: Tables, id: Identifier, i: nat)
    requires Sound(t) && id in t.orders && i + 1 < |Log(t, id)|
    ensures Preserved(Log(t, id)[i], Log(t, id)[i + 1])
  {
    hide WorkOrder.Valid, LegalSuccessor, Preserved, EntryOk, NoGaps, Registered, Stored, Profile.Ref;
    assert LogOk(t, id) && AdjacentOk(t, id, i + 1);
    LegalPreserves(Log(t, id)[i], Log(t, id)[i + 1]);
  }

  /** A finished block of any stored version is the block of that id in every later version. */
  lemma DoneBlockForever(t: Tables, id: Identifier, i: nat, j: nat, b: Block)
    requires Sound(t) && id in t.orders && i < j < |Log(t, id)|
    requires b in Log(t, id)[i].blocks && b.IsDone()
    ensures b in Log(t, id)[j].blocks
  {
    hide WorkOrder.Valid, LogOk;
    LogPreserves(t, id, i, j);
    LastBlockInside(Log(t, id)[j].blocks, b.spec.blockId);
  }

  /** A profile version means one definition in all stored versions of all WorkOrders, for ever. */
  lemma UsedProfilesAgree(rs: seq<Request>, i: nat, earlier: Key, later: Key, p: Profile, q: Profile)
    requires i <= |rs|
    requires earlier in After(rs[..i]).events && p in After(rs[..i]).events[earlier].order.usedProfiles
    requires later in After(rs).events && q in After(rs).events[later].order.usedProfiles
    requires p.profileId == q.profileId && p.version == q.version
    ensures p == q
    ensures Registered(After(rs).registry, [p])
  {
    hide WorkOrder.Valid, AdjacentOk;
    AlwaysSound(rs[..i]);
    AlwaysSound(rs);
    NothingIsLost(rs, i);
    LoggedProfile(After(rs[..i]), earlier);
    LoggedProfile(After(rs), later);
  }

  lemma LoggedProfile(t: Tables, key: Key)
    requires Sound(t) && key in t.events
    ensures Registered(t.registry, t.events[key].order.usedProfiles)
  {
    hide WorkOrder.Valid, AdjacentOk;
    assert LogOk(t, key.0);
    assert (key.0, key.1) in t.events;
    assert EntryOk(t, key.0, key.1);
  }

  /** Every stored version names definitions on record, for what it uses and for the profile it runs under. */
  lemma ProfilesAreOnRecord(rs: seq<Request>, key: Key)
    requires key in After(rs).events
    ensures var t, w := After(rs), After(rs).events[key].order;
            && (forall p :: p in w.usedProfiles ==>
                  (p.profileId, p.version) in t.registry && t.registry[(p.profileId, p.version)] == p)
            && var run := (w.executionProfile.projectId, w.executionProfile.version);
               run in t.projects && t.projects[run] == w.executionProfile
  {
    hide WorkOrder.Valid, AdjacentOk;
    AlwaysSound(rs);
    assert LogOk(After(rs), key.0);
    assert (key.0, key.1) in After(rs).events && EntryOk(After(rs), key.0, key.1);
  }

  // --- The machine's steps in the store ---

  /** No validator and no invariant reads the version number. */
  lemma VersionIsFree(w: WorkOrder, n: nat)
    ensures w.(version := n).Valid() == w.Valid()
    ensures Good(w.(version := n)) == Good(w)
  {
    hide WorkOrder.Structural, Kept, WorkOrder.AuditsIndependent;
    StructuralIsFree(w, n);
    KeptIsFree(w, n);
    AuditsAreFree(w, n);
  }

  lemma StructuralIsFree(w: WorkOrder, n: nat)
    ensures w.(version := n).Structural() == w.Structural()
  {
    hide PlansOk, BlocksMatchPlan, AllDone, UniqueDeviations, OpenCountOk, Block.Valid, BlockRecorded,
      AttentionRequest.Valid,
      ProjectExecutionProfile.Valid, PlanVersion.Valid, Budget.Valid, Amendment.Valid, KernelOutcome.IsPromoted;
    assert w.(version := n).PartsValid() == w.PartsValid();
    assert w.(version := n).ProfilesRecorded() == w.ProfilesRecorded();
  }

  lemma KeptIsFree(w: WorkOrder, n: nat)
    ensures Kept(w.(version := n)) == Kept(w)
  {
    hide AttentionIdsOk, DeviationIdsOk, Ready, InOrder, AllStaged, AuditRecord.Authoritative;
    assert Phase(w.(version := n)) == Phase(w);
  }

  lemma AuditsAreFree(w: WorkOrder, n: nat)
    ensures w.(version := n).AuditsIndependent() == w.AuditsIndependent()
  {
    hide BlockIndependent, Independent, Writers, WaivedIndependence, IndependencePolicy.Required, PlanAt;
    if w.approvals != [] {
      assert w.(version := n).ApprovedPlan() == w.ApprovedPlan();
    }
  }

  lemma StoredSuccessor(w: WorkOrder, next: WorkOrder, n: nat)
    requires !w.IsTerminal()
    ensures LegalSuccessor(w, next.(version := n)) == LegalSuccessor(w, next)
  {
  }

  /**
   Storing the result of an accepted step, at the version it was computed from, succeeds in every
   case but one: the plan approval that finds an independence gap is refused as an illegal step.
   */
  lemma StepsCanBeStored(t: Tables, w: WorkOrder, step: Step, next: WorkOrder, event: string)
    requires Sound(t) && w.workOrderId in t.orders && t.orders[w.workOrderId] == w
    requires Good(w) && StepsTo(w, step, next)
    requires Registered(t.registry, next.usedProfiles) && Stored(t.projects, next.executionProfile)
    ensures var stored := next.(version := w.version + 1);
            && Good(stored)
            && Serve(t, Update(next, w.version, event)) ==
                 if ApprovesGap(w, step) then Err(Illegal)
                 else Ok(t.(orders := t.orders[w.workOrderId := stored],
                            events := t.events[(w.workOrderId, w.version + 1) := Entry(event, stored)]))
  {
    hide WorkOrder.Valid, LegalSuccessor, Good, ApprovesGap, StepsTo, Sound, Registered, Stored;
    var stored := next.(version := w.version + 1);
    StepStored(w, step, next);
    CurrentIsLogged(t, w.workOrderId);
    TailRegistered(t.registry, stored.usedProfiles, |w.usedProfiles|);
    NextEventIsFree(t, w.workOrderId);
  }

  /** The only thing a stored terminal record can become is itself, one version later. */
  lemma TerminalStaysAsItIs(t: Tables, w: WorkOrder, next: WorkOrder, event: string)
    requires Sound(t) && w.workOrderId in t.orders && t.orders[w.workOrderId] == w && Good(w) && w.IsTerminal()
    requires next.workOrderId == w.workOrderId
    ensures Serve(t, Update(next, w.version, event)).Ok? <==> next == w.(version := next.version)
  {
    hide WorkOrder.Valid, Good, Registered, HistoryKept, Sound;
    CurrentIsLogged(t, w.workOrderId);
    NextEventIsFree(t, w.workOrderId);
    VersionIsFree(w, w.version + 1);
    TailRegistered(t.registry, w.usedProfiles, |w.usedProfiles|);
    SameButVersion(w, w.version + 1);
  }

  lemma SameButVersion(w: WorkOrder, n: nat)
    requires Good(w)
    ensures HistoryKept(w, w.(version := n))
  {
    hide Good;
    SelfHistory(w);
  }

  lemma NextEventIsFree(t: Tables, id: Identifier)
    requires Sound(t) && id in t.orders
    ensures (id, t.orders[id].version + 1) !in t.events
  {
    hide WorkOrder.Valid, EntryOk, AdjacentOk;
    assert LogOk(t, id);
  }

  lemma StepStored(w: WorkOrder, step: Step, next: WorkOrder)
    requires Good(w) && StepsTo(w, step, next)
    ensures var stored := next.(version := w.version + 1);
            && stored.Valid() && Good(stored)
            && stored.workOrderId == w.workOrderId
            && (LegalSuccessor(w, stored) <==> !ApprovesGap(w, step))
    ensures w.usedProfiles <= next.usedProfiles
  {
    hide WorkOrder.Valid, LegalSuccessor, Good, Take, ApprovesGap, WellFormed;
    OneStep(w, step, next);
    EvolutionTheorem(w, step);
    VersionIsFree(next, w.version + 1);
    StoredSuccessor(w, next, w.version + 1);
  }

  lemma TailRegistered(registry: map<Key, Profile>, profiles: seq<Profile>, n: nat)
    requires Registered(registry, profiles) && n <= |profiles|
    ensures Registered(registry, profiles[n..])
  {
  }

  /**
   The request a client of the machine makes: a new draft, or one accepted step from a version it has
   read, however long ago.
   */
  ghost predicate ByMachine(t: Tables, request: Request) {
    match request
    case Create(order, _) =>
      order == CreateWorkOrder(order.workOrderId, order.projectId, order.objective, order.memoryPaths,
                               order.executionProfile)
    case Update(order, expected, _) =>
      (order.workOrderId, expected) in t.events && exists step ::
        StepsTo(t.events[(order.workOrderId, expected)].order, step, order)
    case _ => true
  }

  ghost predicate WrittenByMachine(rs: seq<Request>) {
    forall i :: 0 <= i < |rs| ==> ByMachine(After(rs[..i]), rs[i])
  }

  ghost predicate AllGood(t: Tables) {
    forall key :: key in t.events ==> Good(t.events[key].order)
  }

  /** A store that only clients of the machine write holds good records only, in every version of every WorkOrder. */
  lemma {:induction false} MachineStoreIsGood(rs: seq<Request>)
    requires WrittenByMachine(rs)
    ensures AllGood(After(rs))
    ensures forall id :: id in After(rs).orders ==> Good(After(rs).orders[id])
  {
    hide Serve, Sound, ByMachine, Good;
    if rs != [] {
      var n := |rs| - 1;
      var before := rs[..n];
      forall i | 0 <= i < n
        ensures ByMachine(After(before[..i]), before[i])
      {
        assert before[..i] == rs[..i];
      }
      MachineStoreIsGood(before);
      AlwaysSound(before);
      if Serve(After(before), rs[n]).Ok? {
        GoodIsWritten(After(before), rs[n]);
      }
    }
    AlwaysSound(rs);
    StoredIsLogged(After(rs));
  }

  lemma StoredIsLogged(t: Tables)
    requires Sound(t) && AllGood(t)
    ensures forall id :: id in t.orders ==> Good(t.orders[id])
  {
    hide WorkOrder.Valid, EntryOk, AdjacentOk, Good;
    forall id | id in t.orders
      ensures Good(t.orders[id])
    {
      assert LogOk(t, id);
    }
  }

  lemma GoodIsWritten(t: Tables, request: Request)
    requires Sound(t) && AllGood(t) && ByMachine(t, request) && Serve(t, request).Ok?
    ensures AllGood(Serve(t, request).value)
  {
    hide WorkOrder.Valid, Good, LegalSuccessor, Registered, Stored, Sound, NextVersion, StepsTo;
    match request
    case Create(order, event) =>
      var stored := order.(version := 1);
      VersionIsFree(order, 1);
      DraftIsGood(order);
    case Update(order, expected, event) =>
      var w := t.events[(order.workOrderId, expected)].order;
      var step :| StepsTo(w, step, order);
      StepKeepsGood(w, step, order);
      VersionIsFree(order, expected + 1);
    case _ =>
  }

  lemma DraftIsGood(w: WorkOrder)
    requires w == CreateWorkOrder(w.workOrderId, w.projectId, w.objective, w.memoryPaths, w.executionProfile)
             && w.Valid()
    ensures Good(w)
  {
    CreatedGood(w);
  }

  lemma StepKeepsGood(w: WorkOrder, step: Step, next: WorkOrder)
    requires Good(w) && StepsTo(w, step, next)
    ensures Good(next)
  {
    hide Good, WorkOrder.Valid, Take, HistoryKept;
    OneStep(w, step, next);
  }

  /**
   So in such a store every accepted step from the stored record is stored, except exactly for the
   approval that finds a gap.
   */
  lemma MachineStepsAreStored(rs: seq<Request>, w: WorkOrder, step: Step, next: WorkOrder, event: string)
    requires WrittenByMachine(rs)
    requires w.workOrderId in After(rs).orders && After(rs).orders[w.workOrderId] == w && StepsTo(w, step, next)
    requires Registered(After(rs).registry, next.usedProfiles) && Stored(After(rs).projects, next.executionProfile)
    ensures Serve(After(rs), Update(next, w.version, event)).Ok? <==> !ApprovesGap(w, step)
    ensures ApprovesGap(w, step) ==> Serve(After(rs), Update(next, w.version, event)) == Err(Illegal)
  {
    hide Serve, Sound, Good, ApprovesGap, StepsTo, WrittenByMachine, Registered, Stored;
    AlwaysSound(rs);
    MachineStoreIsGood(rs);
    StepsCanBeStored(After(rs), w, step, next, event);
  }
}
