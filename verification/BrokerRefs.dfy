/**
 The broker's refs as a log of atomic transactions. A commit is its parents, its tree and whatever
 else its name is hashed from, so history is acyclic by construction and equal names are equal
 commits.
 */
module BrokerRefs {
  import opened Prelude

  type CandidateId = string

  datatype TreeEntry = Regular(content: seq<bv8>, executable: bool) | Irregular

  datatype Commit = Commit(parents: seq<Commit>, tree: map<string, TreeEntry>, metadata: string)

  // --- History ---

  /** Reflexive ancestry. */
  predicate IsAncestor(a: Commit, d: Commit)
    decreases d
  {
    a == d || exists p :: p in d.parents && IsAncestor(a, p)
  }

  /** The length of the longest history below a commit. */
  function Height(c: Commit): nat
    decreases c, 1
  {
    MaxHeight(c, c.parents) + 1
  }

  function MaxHeight(c: Commit, parents: seq<Commit>): nat
    requires forall p :: p in parents ==> p in c.parents
    decreases c, 0, |parents|
  {
    if parents == [] then 0
    else
      var rest := MaxHeight(c, parents[1..]);
      assert parents[0] in parents;
      var first := Height(parents[0]);
      if first > rest then first else rest
  }

  lemma {:induction false} ParentIsLower(c: Commit, parents: seq<Commit>, p: Commit)
    requires forall q :: q in parents ==> q in c.parents
    requires p in parents
    ensures Height(p) <= MaxHeight(c, parents)
    decreases |parents|
  {
    if p != parents[0] {
      ParentIsLower(c, parents[1..], p);
    }
  }

  /** A strict ancestor has a strictly shorter history, so no commit descends from its own descendant. */
  lemma {:induction false} AncestorIsLower(a: Commit, d: Commit)
    requires IsAncestor(a, d)
    ensures Height(a) <= Height(d)
    ensures a != d ==> Height(a) < Height(d)
    decreases d
  {
    if a != d {
      var p :| p in d.parents && IsAncestor(a, p);
      AncestorIsLower(a, p);
      ParentIsLower(d, d.parents, p);
    }
  }

  lemma {:induction false} AncestorTransitive(a: Commit, b: Commit, c: Commit)
    requires IsAncestor(a, b) && IsAncestor(b, c)
    ensures IsAncestor(a, c)
    decreases c
  {
    if b != c {
      var p :| p in c.parents && IsAncestor(b, p);
      AncestorTransitive(a, b, p);
    }
  }

  /** Nothing has gone past a commit while it is itself the accepted one. */
  lemma NotPastItself(r: Refs, c: Commit)
    requires r.accepted == Some(c)
    ensures !Overtaken(r, c)
  {
  }

  /** A commit other than the base that descends from it. */
  predicate StrictlyDescends(base: Commit, c: Commit) {
    c != base && IsAncestor(base, c)
  }

  // --- Refs and transactions ---

  datatype Refs = Refs(accepted: Option<Commit>, bases: map<CandidateId, Commit>,
                       checkpoints: set<(CandidateId, Commit)>,
                       promoted: map<CandidateId, Commit>, rejected: map<CandidateId, Commit>)

  const NO_REFS := Refs(None, map[], {}, map[], map[])

  datatype Action =
    | Initialize(commit: Commit)
    | Register(candidate: CandidateId, commit: Commit)
    | Unregister(candidate: CandidateId, commit: Commit)
    | Record(candidate: CandidateId, commit: Commit)
    | Promote(candidate: CandidateId, base: Commit, commit: Commit)
    | Reject(candidate: CandidateId, commit: Commit)

  /** What the ref transaction itself verifies. */
  predicate Passes(r: Refs, a: Action) {
    match a
    case Initialize(_) => r.accepted.None?
    case Register(id, _) => id !in r.bases
    case Unregister(id, c) => id in r.bases && r.bases[id] == c
    case Record(id, c) => (id, c) !in r.checkpoints
    case Promote(id, base, _) => id !in r.rejected && r.accepted == Some(base) && id !in r.promoted
    case Reject(id, _) => id !in r.promoted && id !in r.rejected
  }

  function Effect(r: Refs, a: Action): Refs {
    match a
    case Initialize(c) => r.(accepted := Some(c))
    case Register(id, c) => r.(bases := r.bases[id := c])
    case Unregister(id, _) => r.(bases := r.bases - {id})
    case Record(id, c) => r.(checkpoints := r.checkpoints + {(id, c)})
    case Promote(id, _, c) => r.(accepted := Some(c), promoted := r.promoted[id := c])
    case Reject(id, c) => r.(rejected := r.rejected[id := c])
  }

  /** What can be read from the refs right after a transaction. */
  predicate Visible(r: Refs, a: Action) {
    match a
    case Initialize(c) => r.accepted == Some(c)
    case Register(id, c) => id in r.bases && r.bases[id] == c
    case Unregister(id, _) => id !in r.bases
    case Record(id, c) => (id, c) in r.checkpoints
    case Promote(id, _, c) => r.accepted == Some(c) && id in r.promoted && r.promoted[id] == c
    case Reject(id, c) => id in r.rejected && r.rejected[id] == c
  }

  /** Accepted state is at the commit or past it. */
  predicate Reached(r: Refs, c: Commit) {
    r.accepted.Some? && IsAncestor(c, r.accepted.value)
  }

  /** Accepted state has moved past the commit. */
  predicate Overtaken(r: Refs, c: Commit) {
    r.accepted.Some? && StrictlyDescends(c, r.accepted.value)
  }

  predicate Decided(r: Refs, id: CandidateId) {
    id in r.promoted || id in r.rejected
  }

  /** What a broker has checked before it attempts a transaction: facts that no transaction can undo. */
  predicate Vetted(r: Refs, a: Action) {
    match a
    case Register(_, c) => Reached(r, c)
    case Promote(id, base, c) => StrictlyDescends(base, c) && (id, c) in r.checkpoints
    case _ => true
  }

  /** What no transaction undoes: recorded checkpoints, decisions, and how far accepted state has come. */
  predicate Later(before: Refs, after: Refs) {
    && before.checkpoints <= after.checkpoints
    && before.promoted.Keys <= after.promoted.Keys
    && before.rejected.Keys <= after.rejected.Keys
    && (before.accepted.Some? ==> Reached(after, before.accepted.value))
  }

  lemma LaterEffect(r: Refs, a: Action)
    requires Passes(r, a) && Vetted(r, a)
    ensures Later(r, Effect(r, a))
  {
  }

  lemma LaterTransitive(a: Refs, b: Refs, c: Refs)
    requires Later(a, b) && Later(b, c)
    ensures Later(a, c)
  {
    if a.accepted.Some? {
      AncestorTransitive(a.accepted.value, b.accepted.value, c.accepted.value);
    }
  }

  /** What accepted state has reached, or left behind, it never comes back to. */
  lemma ReachedStays(before: Refs, after: Refs, c: Commit)
    requires Later(before, after) && Reached(before, c)
    ensures Reached(after, c)
    ensures after.accepted != Some(c) ==> Overtaken(after, c)
    ensures Overtaken(before, c) ==> Overtaken(after, c)
  {
    AncestorTransitive(c, before.accepted.value, after.accepted.value);
    AncestorIsLower(c, before.accepted.value);
    AncestorIsLower(before.accepted.value, after.accepted.value);
  }

  lemma ReachedMeans(r: Refs, c: Commit)
    requires Reached(r, c)
    ensures r.accepted == Some(c) || Overtaken(r, c)
    ensures r.accepted.Some?
  {
  }

  lemma NotYetAccepted(before: Refs, after: Refs)
    requires Later(before, after) && after.accepted.None?
    ensures before.accepted.None?
  {
  }

  /** A broker's vetting still holds later, whatever others commit. */
  lemma StaysVetted(before: Refs, after: Refs, action: Action)
    requires Vetted(before, action) && Later(before, after)
    ensures Vetted(after, action)
  {
    if action.Register? {
      ReachedStays(before, after, action.commit);
    }
  }

  /** A transaction that committed, and the client that made it. */
  datatype Event = Event(client: nat, action: Action)

  function Replay(log: seq<Event>): Refs {
    if log == [] then NO_REFS else Effect(Replay(log[..|log| - 1]), log[|log| - 1].action)
  }

  /** Any interleaving of the transactions of any number of clients. */
  predicate Legal(log: seq<Event>) {
    forall i :: 0 <= i < |log| ==> Passes(Replay(log[..i]), log[i].action) && Vetted(Replay(log[..i]), log[i].action)
  }

  lemma LegalPrefix(log: seq<Event>, n: nat)
    requires Legal(log) && n <= |log|
    ensures Legal(log[..n])
  {
    forall i | 0 <= i < n
      ensures Passes(Replay(log[..n][..i]), log[..n][i].action) && Vetted(Replay(log[..n][..i]), log[..n][i].action)
    {
      assert log[..n][..i] == log[..i];
    }
  }

  lemma LegalExtend(log: seq<Event>, e: Event)
    requires Legal(log) && Passes(Replay(log), e.action) && Vetted(Replay(log), e.action)
    ensures Legal(log + [e]) && Replay(log + [e]) == Effect(Replay(log), e.action)
  {
    var more := log + [e];
    assert more[..|log|] == log;
    forall i | 0 <= i < |more|
      ensures Passes(Replay(more[..i]), more[i].action) && Vetted(Replay(more[..i]), more[i].action)
    {
      if i < |log| {
        assert more[..i] == log[..i];
      }
    }
  }

  /** Nothing that Later protects is undone between two points of a log. */
  lemma {:induction false} LogLater(log: seq<Event>, i: nat)
    requires Legal(log) && i <= |log|
    ensures Later(Replay(log[..i]), Replay(log))
  {
    hide Passes, Vetted, Effect, Later, Reached;
    if i == |log| {
      assert log[..i] == log;
      LaterSelf(Replay(log));
    } else {
      var n := |log| - 1;
      LegalPrefix(log, n);
      assert log[..n][..i] == log[..i];
      LogLater(log[..n], i);
      LaterEffect(Replay(log[..n]), log[n].action);
      LaterTransitive(Replay(log[..i]), Replay(log[..n]), Replay(log));
    }
  }

  lemma LaterSelf(r: Refs)
    ensures Later(r, r)
  {
  }

  /** Accepted state has reached the base of every registered candidate. */
  lemma {:induction false} BasesAreReached(log: seq<Event>, id: CandidateId)
    requires Legal(log) && id in Replay(log).bases
    ensures Reached(Replay(log), Replay(log).bases[id])
  {
    var n := |log| - 1;
    var before, action := Replay(log[..n]), log[n].action;
    LegalPrefix(log, n);
    LaterEffect(before, action);
    assert Passes(before, action) && Vetted(before, action);
    if action.Register? && action.candidate == id {
      ReachedStays(before, Replay(log), action.commit);
    } else {
      BasesAreReached(log[..n], id);
      ReachedStays(before, Replay(log), before.bases[id]);
    }
  }

  // --- Safety of every interleaving ---

  /** A candidate keeps the base it was registered with until that very registration is undone. */
  lemma {:induction false} BaseStays(log: seq<Event>, i: nat, id: CandidateId, base: Commit)
    requires Legal(log) && i <= |log|
    requires id in Replay(log[..i]).bases && Replay(log[..i]).bases[id] == base
    requires forall j :: i <= j < |log| ==> log[j].action != Unregister(id, base)
    ensures id in Replay(log).bases && Replay(log).bases[id] == base
  {
    hide Passes, Effect, Vetted;
    if i == |log| {
      assert log[..i] == log;
    } else {
      var n := |log| - 1;
      LegalPrefix(log, n);
      assert log[..n][..i] == log[..i];
      BaseStays(log[..n], i, id, base);
      OneActionKeeps(Replay(log[..n]), log[n].action, id);
    }
  }

  lemma OneActionKeeps(r: Refs, action: Action, id: CandidateId)
    requires Passes(r, action) && id in r.bases && action != Unregister(id, r.bases[id])
    ensures id in Effect(r, action).bases && Effect(r, action).bases[id] == r.bases[id]
  {
  }

  /** No candidate is ever both promoted and rejected. */
  lemma {:induction false} DecidedOnce(log: seq<Event>)
    requires Legal(log)
    ensures Replay(log).promoted.Keys !! Replay(log).rejected.Keys
  {
    if log != [] {
      var n := |log| - 1;
      LegalPrefix(log, n);
      DecidedOnce(log[..n]);
      assert Passes(Replay(log[..n]), log[n].action);
    }
  }

  /** Decisions are kept: a promoted or rejected candidate stays so, with the same commit. */
  lemma {:induction false} DecisionsKept(log: seq<Event>, i: nat)
    requires Legal(log) && i <= |log|
    ensures forall id :: id in Replay(log[..i]).promoted ==>
            id in Replay(log).promoted && Replay(log).promoted[id] == Replay(log[..i]).promoted[id]
    ensures forall id :: id in Replay(log[..i]).rejected ==>
            id in Replay(log).rejected && Replay(log).rejected[id] == Replay(log[..i]).rejected[id]
  {
    if i == |log| {
      assert log[..i] == log;
    } else {
      var n := |log| - 1;
      LegalPrefix(log, n);
      assert log[..n][..i] == log[..i];
      DecisionsKept(log[..n], i);
      assert Passes(Replay(log[..n]), log[n].action);
    }
  }

  /** Accepted state moves only forward along history. */
  lemma AcceptedDescends(log: seq<Event>, i: nat)
    requires Legal(log) && i <= |log| && Replay(log[..i]).accepted.Some?
    ensures Replay(log).accepted.Some?
    ensures IsAncestor(Replay(log[..i]).accepted.value, Replay(log).accepted.value)
  {
    LogLater(log, i);
  }

  /** A promotion replaces the accepted commit by a strict descendant, in one step. */
  lemma PromotionMovesForward(log: seq<Event>, i: nat)
    requires Legal(log) && i < |log| && log[i].action.Promote?
    ensures Replay(log[..i]).accepted == Some(log[i].action.base)
    ensures Replay(log[..i + 1]).accepted == Some(log[i].action.commit)
    ensures StrictlyDescends(log[i].action.base, log[i].action.commit)
    ensures (log[i].action.candidate, log[i].action.commit) in Replay(log[..i]).checkpoints
  {
    assert log[..i + 1][..i] == log[..i];
  }

  /** At most one promotion ever succeeds from one accepted commit: accepted state never comes back. */
  lemma OnePromotionPerBase(log: seq<Event>, i: nat, j: nat)
    requires Legal(log) && i < j < |log| && log[i].action.Promote? && log[j].action.Promote?
    ensures log[i].action.base != log[j].action.base
    ensures IsAncestor(log[i].action.commit, log[j].action.base)
  {
    PromotionMovesForward(log, i);
    PromotionMovesForward(log, j);
    LegalPrefix(log, j);
    assert log[..j][..i + 1] == log[..i + 1];
    AcceptedDescends(log[..j], i + 1);
    AncestorIsLower(log[i].action.base, log[i].action.commit);
    AncestorIsLower(log[i].action.commit, log[j].action.base);
  }

  /** A candidate whose base was overtaken once can never be promoted: a stale refusal is final. */
  lemma StaleForever(log: seq<Event>, i: nat, j: nat)
    requires Legal(log) && i <= j < |log| && log[j].action.Promote?
    ensures !Overtaken(Replay(log[..i]), log[j].action.base)
  {
    LegalPrefix(log, j);
    assert log[..j][..i] == log[..i];
    LogLater(log[..j], i);
    if Overtaken(Replay(log[..i]), log[j].action.base) {
      ReachedStays(Replay(log[..i]), Replay(log[..j]), log[j].action.base);
    }
    assert Passes(Replay(log[..j]), log[j].action);
  }

  /** A candidate is promoted at most once. */
  lemma OnePromotionPerCandidate(log: seq<Event>, i: nat, j: nat)
    requires Legal(log) && i < j < |log| && log[i].action.Promote? && log[j].action.Promote?
    ensures log[i].action.candidate != log[j].action.candidate
  {
    LegalPrefix(log, j);
    assert log[..j][..i + 1] == log[..i + 1] && log[..i + 1][..i] == log[..i];
    DecisionsKept(log[..j], i + 1);
    assert Passes(Replay(log[..j]), log[j].action);
  }
}
