/**
 The control store: four tables, written only by transactions that commit as a whole or leave
 every table as it was. The write lock serializes the transactions of concurrent writers, so an
 interleaving of any number of writers is one sequence of requests.
 */
module ControlStore {
  import opened Prelude
  import opened ControlModel
  import opened ControlEvolution

  type Version = nat
  type Key = (Identifier, Version)

  datatype Entry = Entry(event: string, order: WorkOrder)

  /** The contents of the tables, by primary key. */
  datatype Tables = Tables(registry: map<Key, Profile>, projects: map<Key, ProjectExecutionProfile>,
                           orders: map<Identifier, WorkOrder>, events: map<Key, Entry>)

  datatype StoreError = NotFound | Stale | Immutable | Denied | Invalid | Illegal | Duplicate

  datatype Request =
    | Register(profile: Profile)
    | Save(project: ProjectExecutionProfile)
    | Create(order: WorkOrder, event: string)
    | Update(order: WorkOrder, expected: Version, event: string)

  // --- What each request does to the tables ---

  predicate Registered(registry: map<Key, Profile>, profiles: seq<Profile>) {
    forall p :: p in profiles ==> (p.profileId, p.version) in registry && registry[(p.profileId, p.version)] == p
  }

  predicate Stored(projects: map<Key, ProjectExecutionProfile>, profile: ProjectExecutionProfile) {
    (profile.projectId, profile.version) in projects && projects[(profile.projectId, profile.version)] == profile
  }

  /** The version after the latest recorded one. */
  predicate NextVersion(keys: set<Key>, key: Key) {
    && key.1 >= 1
    && (key.1 == 1 || (key.0, key.1 - 1) in keys)
    && forall k :: k in keys && k.0 == key.0 ==> k.1 < key.1
  }

  function Serve(t: Tables, request: Request): Result<Tables, StoreError> {
    match request
    case Register(profile) => ServeRegister(t, profile)
    case Save(project) => ServeSave(t, project)
    case Create(order, event) => ServeCreate(t, order, event)
    case Update(order, expected, event) => ServeUpdate(t, order, expected, event)
  }

  function ServeRegister(t: Tables, profile: Profile): Result<Tables, StoreError> {
    var key := (profile.profileId, profile.version);
    if key in t.registry then if t.registry[key] == profile then Ok(t) else Err(Immutable)
    else if NextVersion(t.registry.Keys, key) then Ok(t.(registry := t.registry[key := profile]))
    else Err(Denied)
  }

  function ServeSave(t: Tables, project: ProjectExecutionProfile): Result<Tables, StoreError> {
    var key := (project.projectId, project.version);
    if !Registered(t.registry, project.profiles) then Err(Denied)
    else if key in t.projects then if t.projects[key] == project then Ok(t) else Err(Immutable)
    else if NextVersion(t.projects.Keys, key) then Ok(t.(projects := t.projects[key := project]))
    else Err(Denied)
  }

  function ServeCreate(t: Tables, order: WorkOrder, event: string): Result<Tables, StoreError> {
    var stored := order.(version := 1);
    if !stored.Valid() then Err(Invalid)
    else if !Stored(t.projects, stored.executionProfile) || !Registered(t.registry, stored.usedProfiles)
      then Err(Denied)
    else if stored.workOrderId in t.orders then Err(Denied)
    else Write(t, stored, event)
  }

  function ServeUpdate(t: Tables, order: WorkOrder, expected: Version, event: string): Result<Tables, StoreError> {
    if order.workOrderId !in t.orders then Err(NotFound)
    else
      var current := t.orders[order.workOrderId];
      var stored := order.(version := expected + 1);
      if current.version != expected then Err(Stale)
      else if !current.Valid() || !stored.Valid() then Err(Invalid)
      else if !LegalSuccessor(current, stored) then Err(Illegal)
      else if stored.executionProfile != current.executionProfile && !Stored(t.projects, stored.executionProfile)
        then Err(Denied)
      else if !Registered(t.registry, stored.usedProfiles[|current.usedProfiles|..]) then Err(Denied)
      else Write(t, stored, event)
  }

  /** The row and its event, together. */
  function Write(t: Tables, stored: WorkOrder, event: string): Result<Tables, StoreError> {
    var key := (stored.workOrderId, stored.version);
    if key in t.events then Err(Duplicate)
    else Ok(t.(orders := t.orders[stored.workOrderId := stored], events := t.events[key := Entry(event, stored)]))
  }

  // --- The store ---

  class Store {
    var registry: map<Key, Profile>
    var projects: map<Key, ProjectExecutionProfile>
    var orders: map<Identifier, WorkOrder>
    var events: map<Key, Entry>

    function State(): Tables
      reads this
    {
      Tables(registry, projects, orders, events)
    }

    constructor ()
      ensures State() == EMPTY
    {
      registry, projects, orders, events := map[], map[], map[], map[];
    }

    method RegisterProfile(profile: Profile) returns (r: Result<(), StoreError>)
      modifies this`registry
      ensures Outcome(old(State()), Register(profile), State(), r)
    {
      var key := (profile.profileId, profile.version);
      if key in registry {
        return if registry[key] != profile then Err(Immutable) else Ok(());
      }
      var latest := MaxVersion(registry.Keys, profile.profileId);
      NextIsMaxPlusOne(registry.Keys, key, latest);
      if profile.version != latest + 1 {
        return Err(Denied);
      }
      registry := registry[key := profile];
      r := Ok(());
    }

    method SaveProfile(project: ProjectExecutionProfile) returns (r: Result<(), StoreError>)
      modifies this`projects
      ensures Outcome(old(State()), Save(project), State(), r)
    {
      if !Registered(registry, project.profiles) {
        return Err(Denied);
      }
      var key := (project.projectId, project.version);
      if key in projects {
        return if projects[key] != project then Err(Immutable) else Ok(());
      }
      var latest := MaxVersion(projects.Keys, project.projectId);
      NextIsMaxPlusOne(projects.Keys, key, latest);
      if project.version != latest + 1 {
        return Err(Denied);
      }
      projects := projects[key := project];
      r := Ok(());
    }

    method CreateOrder(order: WorkOrder, event: string) returns (r: Result<WorkOrder, StoreError>)
      modifies this`orders, this`events
      ensures Outcome(old(State()), Create(order, event), State(), r)
      ensures r.Ok? ==> r.value == order.(version := 1)
    {
      var stored := order.(version := 1);
      if !stored.Valid() {
        return Err(Invalid);
      }
      if !Stored(projects, stored.executionProfile) || !Registered(registry, stored.usedProfiles) {
        return Err(Denied);
      }
      if stored.workOrderId in orders {
        return Err(Denied);
      }
      var before := orders;
      orders := orders[stored.workOrderId := stored];
      var appended := AppendEvent(stored, event);
      if !appended {
        orders := before;
        return Err(Duplicate);
      }
      r := Ok(stored);
    }

    method UpdateOrder(order: WorkOrder, expected: Version, event: string) returns (r: Result<WorkOrder, StoreError>)
      modifies this`orders, this`events
      ensures Outcome(old(State()), Update(order, expected, event), State(), r)
      ensures r.Ok? ==> r.value == order.(version := expected + 1)
    {
      hide WorkOrder.Valid, Registered, Stored, AttentionKept, DoneBlocksKept, EnvelopeKept, IdentityKept,
        DeviationsKept;
      if order.workOrderId !in orders {
        return Err(NotFound);
      }
      var current := orders[order.workOrderId];
      if current.version != expected {
        return Err(Stale);
      }
      var stored := order.(version := expected + 1);
      if !current.Valid() || !stored.Valid() {
        return Err(Invalid);
      }
      if !LegalSuccessor(current, stored) {
        return Err(Illegal);
      }
      if stored.executionProfile != current.executionProfile && !Stored(projects, stored.executionProfile) {
        return Err(Denied);
      }
      if !Registered(registry, stored.usedProfiles[|current.usedProfiles|..]) {
        return Err(Denied);
      }
      var before := orders;
      orders := orders[stored.workOrderId := stored];
      var appended := AppendEvent(stored, event);
      if !appended {
        orders := before;
        return Err(Duplicate);
      }
      r := Ok(stored);
    }

    /** Insert an event row; the primary key refuses a second one for the same version. */
    method AppendEvent(order: WorkOrder, event: string) returns (appended: bool)
      modifies this`events
      ensures appended <==> (order.workOrderId, order.version) !in old(events)
      ensures events == if appended then old(events)[(order.workOrderId, order.version) := Entry(event, order)]
              else old(events)
    {
      var key := (order.workOrderId, order.version);
      appended := key !in events;
      if appended {
        events := events[key := Entry(event, order)];
      }
    }
  }

  const EMPTY := Tables(map[], map[], map[], map[])

  /** A request commits exactly what it is specified to, or changes nothing and says why. */
  predicate Outcome<T>(before: Tables, request: Request, after: Tables, r: Result<T, StoreError>) {
    match Serve(before, request)
    case Ok(t) => r.Ok? && after == t
    case Err(e) => r.Err? && r.error == e && after == before
  }

  /** The highest version recorded for an id, or zero. */
  method MaxVersion(keys: set<Key>, id: Identifier) returns (n: Version)
    ensures forall k :: k in keys && k.0 == id ==> k.1 <= n
    ensures n > 0 ==> (id, n) in keys
  {
    n := 0;
    var left := keys;
    while left != {}
      invariant left <= keys
      invariant forall k :: k in keys - left && k.0 == id ==> k.1 <= n
      invariant n > 0 ==> (id, n) in keys
      decreases |left|
    {
      var k: Key :| k in left;
      if k.0 == id && k.1 > n {
        n := k.1;
      }
      left := left - {k};
    }
  }

  lemma NextIsMaxPlusOne(keys: set<Key>, key: Key, latest: Version)
    requires forall k :: k in keys && k.0 == key.0 ==> k.1 <= latest
    requires latest > 0 ==> (key.0, latest) in keys
    ensures NextVersion(keys, key) <==> key.1 == latest + 1
  {
  }
}
