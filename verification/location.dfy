/** Location resolution (`resolveLocation`) against a model of the path
    manager: named path entries plus the table of registered callbacks. Path
    arithmetic is abstract: a resolved path is either the location alone or
    the base directory joined with it. */
module Location {
  import opened Wrappers
  import opened Failures
  import opened StoreConfig

  /** `PathManager.Event`. */
  datatype Event = Added | Removed | Updated

  /** The handle `registerCallback` returns; `remove()` releases it. */
  datatype Handle = Handle(id: nat)

  /** What a callback was registered for. */
  datatype Registration = Registration(pathName: string, events: set<Event>)

  /** The path manager: absolute paths of named entries, the live callback
      registrations, and the next unused handle id. */
  datatype PathManager = PathManager(entries: map<string, string>, callbacks: map<Handle, Registration>, nextId: nat)

  /** Every live handle was issued before `nextId`, so new ids are fresh. */
  ghost predicate WellFormed(pm: PathManager) {
    forall h :: h in pm.callbacks ==> h.id < pm.nextId
  }

  /** `Paths.get(location)` or `Paths.get(baseDir, location)`. */
  datatype FilePath = Single(location: string) | Joined(base: string, location: string)

  /** `registerCallback(name, callback, events)`: records one new live
      registration under a fresh handle. */
  function RegisterCallback(pm: PathManager, pathName: string, events: set<Event>): (r: (PathManager, Handle))
    requires WellFormed(pm)
    ensures WellFormed(r.0)
    ensures r.1 !in pm.callbacks
    ensures r.0.callbacks == pm.callbacks[r.1 := Registration(pathName, events)]
    ensures r.0.entries == pm.entries
  {
    var h := Handle(pm.nextId);
    (PathManager(pm.entries, pm.callbacks[h := Registration(pathName, events)], pm.nextId + 1), h)
  }

  /** `Handle.remove()`: the registration is no longer live. */
  function RemoveCallback(pm: PathManager, h: Handle): (r: PathManager)
    requires WellFormed(pm)
    ensures WellFormed(r)
    ensures h !in r.callbacks
    ensures forall g :: g != h ==> Lookup(r.callbacks, g) == Lookup(pm.callbacks, g)
    ensures r.entries == pm.entries
  {
    PathManager(pm.entries, pm.callbacks - {h}, pm.nextId)
  }

  /** The result of resolving the location: the path, the handle of the
      callback registered on the way (if any), and the path manager after. */
  datatype Resolved = Resolved(path: FilePath, handle: Option<Handle>, pathManager: PathManager)

  /** `resolveLocation`: without `relative-to` the path is the location alone
      and nothing is registered; with it, the base directory is looked up, one
      callback for REMOVED and UPDATED is registered, and the path is the
      base directory joined with the location. */
  function ResolveLocation(config: Config, pm: PathManager): (r: Result<Resolved, Failure>)
    requires WellFormed(pm)
    ensures r.Ok? ==> WellFormed(r.value.pathManager) && r.value.pathManager.entries == pm.entries
    ensures config.relativeTo.None? ==> r == Ok(Resolved(Single(config.location), None, pm))
    ensures config.relativeTo.Some? && config.relativeTo.value !in pm.entries ==>
      r == Err(PathEntryNotFound(config.relativeTo.value))
    ensures config.relativeTo.Some? && config.relativeTo.value in pm.entries ==>
      && r.Ok?
      && r.value.path == Joined(pm.entries[config.relativeTo.value], config.location)
      && r.value.handle.Some?
      && r.value.handle.value !in pm.callbacks
      && r.value.pathManager.callbacks
         == pm.callbacks[r.value.handle.value := Registration(config.relativeTo.value, {Removed, Updated})]
  {
    match config.relativeTo
    case None => Ok(Resolved(Single(config.location), None, pm))
    case Some(name) =>
      if name !in pm.entries then Err(PathEntryNotFound(name))
      else
        var (pm', h) := RegisterCallback(pm, name, {Removed, Updated});
        Ok(Resolved(Joined(pm.entries[name], config.location), Some(h), pm'))
  }

  /** Resolution registers exactly one callback when `relative-to` is set and
      none otherwise. */
  lemma ResolveRegistersAtMostOnce(config: Config, pm: PathManager)
    requires WellFormed(pm)
    requires ResolveLocation(config, pm).Ok?
    ensures var after := ResolveLocation(config, pm).value.pathManager;
      |after.callbacks| == |pm.callbacks| + (if config.relativeTo.Some? then 1 else 0)
  {
  }

  /** Without `relative-to` the resolved path does not depend on the path
      manager at all. */
  lemma AbsoluteLocationIgnoresPathManager(config: Config, pm1: PathManager, pm2: PathManager)
    requires WellFormed(pm1) && WellFormed(pm2)
    requires config.relativeTo.None?
    ensures ResolveLocation(config, pm1).Ok? && ResolveLocation(config, pm2).Ok?
    ensures ResolveLocation(config, pm1).value.path == ResolveLocation(config, pm2).value.path == Single(config.location)
  {
  }

  /** `PathManager.PathEventContext`, reduced to the one thing the callback
      touches. */
  datatype PathEventContext = PathEventContext(restartAllowed: bool)

  /** What a callback notification asks of its context. */
  datatype ContextAction = ReloadRequired

  /** The two ways the path manager notifies a callback. */
  datatype Notification =
    | PathModelEvent(context: PathEventContext, pathName: string)
    | PathEvent(event: Event, pathName: string)

  /** The anonymous callback: a model event asks for a reload exactly when
      restarting the resource's services is not allowed; a path event does
      nothing. */
  function Callback(n: Notification): (actions: seq<ContextAction>)
    ensures |actions| <= 1
    ensures actions != [] <==> n.PathModelEvent? && !n.context.restartAllowed
  {
    match n
    case PathModelEvent(context, _) => if !context.restartAllowed then [ReloadRequired] else []
    case PathEvent(_, _) => []
  }

  /** The registration `resolveLocation` makes is the one callback it adds:
      it listens on the `relative-to` name for REMOVED and UPDATED only. */
  lemma RegisteredCallbackReactsOnlyToModelEvents(config: Config, pm: PathManager)
    requires WellFormed(pm)
    requires config.relativeTo.Some? && config.relativeTo.value in pm.entries
    ensures var resolved := ResolveLocation(config, pm).value;
      var registration := resolved.pathManager.callbacks[resolved.handle.value];
      && registration.pathName == config.relativeTo.value
      && registration.events == {Removed, Updated}
  {
  }

  /** The actions a sequence of notifications produces, in order. */
  function Dispatch(ns: seq<Notification>): (actions: seq<ContextAction>)
  {
    if ns == [] then [] else Callback(ns[0]) + Dispatch(ns[1..])
  }

  /** Over any run of notifications, a reload is requested exactly when some
      model event arrived while restart was not allowed. */
  lemma {:induction false} DispatchRequestsReloadIff(ns: seq<Notification>)
    ensures ReloadRequired in Dispatch(ns) <==>
      exists i :: 0 <= i < |ns| && ns[i].PathModelEvent? && !ns[i].context.restartAllowed
  {
    if ns != [] {
      DispatchRequestsReloadIff(ns[1..]);
      var head := Callback(ns[0]);
      assert Dispatch(ns) == head + Dispatch(ns[1..]);
      if exists i :: 0 <= i < |ns| && ns[i].PathModelEvent? && !ns[i].context.restartAllowed {
        var i :| 0 <= i < |ns| && ns[i].PathModelEvent? && !ns[i].context.restartAllowed;
        if i > 0 {
          assert ns[1..][i - 1] == ns[i];
        }
      }
      if exists i :: 0 <= i < |ns[1..]| && ns[1..][i].PathModelEvent? && !ns[1..][i].context.restartAllowed {
        var i :| 0 <= i < |ns[1..]| && ns[1..][i].PathModelEvent? && !ns[1..][i].context.restartAllowed;
        assert ns[i + 1] == ns[1..][i];
      }
    }
  }
}
