/** The atbus connector: the object that holds the table of connection handles, and its methods. Each
    method is proved to do what the state machine says. */
module AtbusConnector {
  import opened Common
  import opened Reachability
  import opened AtbusTable
  import opened AtbusRoutes
  import opened AtbusMachine
  import opened AtbusOutcomes
  import AtbusLaws
  import Backoff

  class Connector {
    var handles: Table
    var stamps: Stamps
    var nextSerial: nat
    var disconnects: seq<BusId>
    var dials: seq<BusId>
    var lastBus: BusId
    var lastApp: Option<AppRef>
    var lastResult: Code

    constructor ()
      ensures View() == Init && disconnects == []
    {
      handles, stamps, nextSerial := map[], map[], 0;
      disconnects, dials := [], [];
      lastBus, lastApp, lastResult := 0, None, Success;
    }

    /** The connector as a value. */
    ghost function View(): State
      reads this
    {
      State(handles, stamps, nextSerial, dials, Cache(lastBus, lastApp, lastResult))
    }

    ghost predicate Valid()
      reads this
    {
      Sound(View())
    }

    // -------------------------------------------------------------- links

    method UnbindProxy(target: Handle, targetId: BusId, proxy: Handle, proxyId: BusId, env: Env)
      returns (t: Handle, p: Handle)
      modifies `disconnects
      ensures t == if target.proxy == proxyId then target.(proxy := 0) else target
      ensures p == proxy.(proxyFor := proxy.proxyFor - {targetId})
      ensures disconnects == old(disconnects) +
        (if p.proxyFor == {} && !p.entry.active && env.hasNode && proxyId != env.upstreamEp && proxyId in env.endpoints
         then [proxyId] else [])
    {
      t, p := target, proxy;
      if t.proxy == proxyId {
        t := t.(proxy := 0);
      }
      p := p.(proxyFor := p.proxyFor - {targetId});
      if p.proxyFor == {} && !p.entry.active && env.hasNode && env.upstreamEp != proxyId && proxyId in env.endpoints {
        disconnects := disconnects + [proxyId];
      }
    }

    // -------------------------------------------------------------- readiness

    predicate NeedTimer(h: Handle, id: BusId, env: Env) {
      h.clock.lost || (!h.ready && !env.Available(id))
    }

    method SetHandleReady(id: BusId, env: Env)
      requires id in handles
      requires forall p, x :: p in handles && x in handles[p].proxyFor ==> x in handles
      modifies `handles
      ensures handles == ReadySpread(old(handles), id)
      decreases ReadyIds(handles, false)
    {
      hide Walk, Reaches, IsPath;
      ghost var was := handles;
      if handles[id].ready {
        FlipsNothing(was, id, true);
        return;
      }
      handles := handles[id := Refreshed(handles[id])];
      ghost var g, white := Down(was), ReadyIds(was, false);
      ghost var seen := {id};
      WalkStart(g, white, id);
      assert handles == ReadySoFar(was, id, seen);

      var invalid := {};
      var todo := handles[id].proxyFor;
      while todo != {}
        invariant todo <= was[id].proxyFor && invalid == {} && id in seen
        invariant Walk(g, white, id, seen, todo)
        invariant handles == ReadySoFar(was, id, seen)
        decreases todo
      {
        var d :| d in todo;
        if d !in handles {
          invalid := invalid + {d};
        } else {
          ReadySpreadNested(was, id, seen, d);
          ghost var more := Flips(handles, d, true);
          WalkInto(g, white, id, seen, todo, d, more);
          SetHandleReady(d, env);
          seen := seen + more;
        }
        todo := todo - {d};
      }
      WalkDone(g, white, id, seen);

      assert handles[id].proxyFor - invalid == handles[id].proxyFor;
      handles := handles[id := handles[id].(proxyFor := handles[id].proxyFor - invalid)];
      if !NeedTimer(handles[id], id, env) {
        handles := handles[id := handles[id].(clock := handles[id].clock.(timer := 0))];
      }
    }

    method SetHandleUnready(id: BusId)
      requires id in handles
      requires forall p, x :: p in handles && x in handles[p].proxyFor ==> x in handles
      modifies `handles
      ensures handles == UnreadySpread(old(handles), id)
      decreases ReadyIds(handles, true)
    {
      ghost var was := handles;
      if !handles[id].ready {
        FlipsNothing(was, id, false);
        return;
      }
      handles := handles[id := handles[id].(ready := false)];
      ghost var g, white := Down(was), ReadyIds(was, true);
      ghost var seen := {id};
      WalkStart(g, white, id);
      assert handles == WithUnready(was, seen);

      var invalid := {};
      var todo := handles[id].proxyFor;
      while todo != {}
        invariant todo <= was[id].proxyFor && invalid == {}
        invariant Walk(g, white, id, seen, todo)
        invariant handles == WithUnready(was, seen)
        decreases todo
      {
        var d :| d in todo;
        if d !in handles {
          invalid := invalid + {d};
        } else {
          UnreadySpreadNested(was, seen, d);
          ghost var more := Flips(handles, d, false);
          WalkInto(g, white, id, seen, todo, d, more);
          SetHandleUnready(d);
          seen := seen + more;
        }
        todo := todo - {d};
      }
      WalkDone(g, white, id, seen);
      assert handles[id].proxyFor - invalid == handles[id].proxyFor;
      handles := handles[id := handles[id].(proxyFor := handles[id].proxyFor - invalid)];
    }

    // -------------------------------------------------------------- removal

    method OnCloseConnection(app: AppRef, env: Env, ghost loose: set<BusId>)
      requires Linked(handles, loose) && AppsUnique(handles)
      modifies `handles, `disconnects
      ensures handles == ClosedBy(old(handles), stamps, app)
      decreases handles.Keys, 1
    {
      var id := StampOf(stamps, app);
      if id in handles && handles[id].entry.app == Some(app) {
        SetHandleUnready(id);
        WithUnreadyKeeps(old(handles), Flips(old(handles), id, false));
        RemoveConnectionHandle(id, env, loose);
      }
    }

    /** The part of the removal loop that closes one downstream entry. */
    method CloseChild(d: BusId, env: Env, ghost loose: set<BusId>)
      requires d in handles && Linked(handles, loose) && AppsUnique(handles)
      modifies `handles, `disconnects
      ensures handles ==
        if Closable(old(handles), stamps, d) then Removed(UnreadySpread(old(handles), d), stamps, d) else old(handles)
      decreases handles.Keys, 2
    {
      if handles[d].entry.app.Some? {
        OnCloseConnection(handles[d].entry.app.value, env, loose);
      } else {
        SetHandleUnready(d);
        WithUnreadyKeeps(old(handles), Flips(old(handles), d, false));
        RemoveConnectionHandle(d, env, loose);
      }
    }

    /** Erases id and unbinds it from the entry that proxies it. */
    method TakeOut(id: BusId, env: Env) returns (h: Handle)
      requires id in handles
      modifies `handles, `disconnects
      ensures handles == TakenOut(old(handles), id)
      ensures h.proxyFor == old(handles)[id].proxyFor
      ensures disconnects == old(disconnects) + LeftAlone(old(handles), id, env)
    {
      h := handles[id];
      handles := handles - {id};
      if h.proxy != 0 && h.proxy in handles {
        var up := h.proxy;
        var p;
        h, p := UnbindProxy(h, id, handles[up], up, env);
        handles := handles[up := p];
      }
    }

    /** Unbinds and closes one entry that the erased entry h of id was proxying. */
    method DropDownstream(d: BusId, id: BusId, h: Handle, env: Env, ghost loose: set<BusId>) returns (h': Handle)
      requires d in handles && handles[d].proxy == id
      requires Linked(handles[d := handles[d].(proxy := 0)], loose) && AppsUnique(handles[d := handles[d].(proxy := 0)])
      modifies `handles, `disconnects
      ensures var mid := old(handles)[d := old(handles)[d].(proxy := 0)];
        handles == if Closable(mid, stamps, d) then Removed(UnreadySpread(mid, d), stamps, d) else mid
      decreases handles.Keys, 3
    {
      var t;
      t, h' := UnbindProxy(handles[d], d, h, id, env);
      handles := handles[d := t];
      assert handles.Keys == old(handles.Keys);
      CloseChild(d, env, loose);
    }

    method RemoveConnectionHandle(id: BusId, env: Env, ghost loose: set<BusId>)
      requires id in handles
      requires Linked(handles, loose) && AppsUnique(handles)
      modifies `handles, `disconnects
      ensures handles == Removed(old(handles), stamps, id)
      decreases handles.Keys, 0
    {
      ghost var was := handles;
      var h := TakeOut(id, env);
      RemovingStart(was, stamps, id, loose);
      ghost var gone := {id};

      var todo := h.proxyFor;
      while todo != {}
        invariant Removing(was, stamps, id, gone, todo, handles)
        decreases todo
      {
        var d :| d in todo;
        ghost var cur := handles;
        if d in handles && handles[d].proxy == id {
          ChildUnbound(was, stamps, id, loose, gone, todo, cur, d);
          h := DropDownstream(d, id, h, env, loose + {id});
          ChildClosed(was, stamps, id, loose, gone, todo, cur, d, cur[d := cur[d].(proxy := 0)], handles);
          gone := was.Keys - handles.Keys;
        } else {
          RemovingSkip(was, stamps, id, loose, gone, todo, cur, d);
        }
        todo := todo - {d};
      }
      RemovingDone(was, stamps, id, gone, handles);
    }

    // -------------------------------------------------------------- timers

    method UpdateTimer(id: BusId, timeout: Time)
      requires id in handles
      modifies `handles
      ensures handles == old(handles)[id := old(handles)[id].(clock := Armed(old(handles)[id].clock, timeout))]
    {
      var c := handles[id].clock;
      if c.timer != 0 && c.timer <= timeout {
        return;
      }
      handles := handles[id := handles[id].(clock := c.(timer := timeout))];
    }

    method SetHandleLostTopology(id: BusId, env: Env)
      requires id in handles
      modifies `handles
      ensures handles == Lost(old(handles), id, env)
    {
      var c := handles[id].clock;
      if c.lost {
        return;
      }
      var deadline := env.now + LostTimeout(env.conf);
      handles := handles[id := handles[id].(clock := c.(lost := true, lostDeadline := deadline))];
      UpdateTimer(id, deadline);
    }

    method ScheduleRetry(id: BusId, previous: Time, env: Env)
      requires id in handles
      modifies `handles
      ensures handles == Counted(old(handles), id, previous, env)
    {
      var h := handles[id];
      var interval, _ := Backoff.Compute(StartInterval(env.conf), MaxInterval(env.conf), h.clock.retry);
      var run := env.now + interval;
      var timeout := previous;
      if previous == 0 || run < previous {
        timeout := run;
      }
      handles := handles[id := h.(clock := h.clock.(retry := (h.clock.retry + 1) % U32, nextReconnect := run))];
      UpdateTimer(id, timeout);
    }

    /** Counts one more try and arms the timer for it, or removes the entry when the try limit
        is reached. */
    method SetupReconnectTimer(id: BusId, previous: Time, env: Env) returns (ok: bool)
      requires Linked(handles, {}) && AppsUnique(handles)
      modifies `handles, `disconnects
      ensures ok <==> id in old(handles) && !OutOfTries(old(handles)[id].clock, env.conf)
      ensures handles == if id in old(handles) then Tried(old(handles), stamps, id, previous, env) else old(handles)
    {
      hide Counted, Removed;
      if id !in handles {
        return false;
      }
      var h := handles[id];
      if env.conf.maxTry > 0 && h.clock.retry >= env.conf.maxTry {
        RemoveConnectionHandle(id, env, {});
        return false;
      }
      ScheduleRetry(id, previous, env);
      return true;
    }

    // -------------------------------------------------------------- connecting

    method MutableConnectionHandle(id: BusId, app: Option<AppRef>, env: Env)
      modifies `handles, `stamps, `nextSerial
      ensures View() == Ensure(old(View()), id, app, env)
    {
      if id in handles {
        var h := handles[id];
        if app.Some? && h.entry.app != app {
          handles := handles[id := h.(entry := h.entry.(app := app))];
        }
        return;
      }
      var chain := if env.hasNode then env.chain(id) else [];
      var upstream := 0;
      if |chain| > 1 {
        upstream := chain[1];
      }
      handles := handles[id := Handle(Entry(nextSerial, app, false, false, upstream), Clock(0, 0, false, 0, 0), false, 0, {})];
      nextSerial := nextSerial + 1;
      if app.Some? {
        stamps := stamps[app.value := id];
      }
      if chain == [] {
        SetHandleLostTopology(id, env);
      }
    }

    method BindConnectionHandleProxy(id: BusId, p: BusId, env: Env)
      requires id in handles && p in handles && handles[id].proxy != id
      modifies `handles, `disconnects
      ensures handles == Bound(old(handles), id, p)
      ensures disconnects == old(disconnects) + LeftIdle(old(handles), id, p, env)
    {
      if handles[id].proxy == p || p == id {
        return;
      }
      var q := handles[id].proxy;
      if q != 0 && q in handles {
        var t, u := UnbindProxy(handles[id], id, handles[q], q, env);
        handles := handles[q := u];
        handles := handles[id := t];
      }
      handles := handles[id := handles[id].(proxy := p)];
      handles := handles[p := handles[p].(proxyFor := handles[p].proxyFor + {id})];
    }

    method SetReadyTo(id: BusId, ready: bool, env: Env)
      requires Valid() && id in handles
      modifies `handles
      ensures handles == SpreadTo(old(handles), id, ready)
    {
      if ready {
        SetHandleReady(id, env);
      } else {
        SetHandleUnready(id);
      }
    }

    /** Makes sure that id and its hop have entries. */
    method EnsurePair(id: BusId, p: BusId, app: Option<AppRef>, apart: bool, env: Env)
      modifies `handles, `stamps, `nextSerial
      ensures View() == Pair(old(View()), id, p, app, apart, env)
    {
      hide Ensure;
      if apart || p != id {
        MutableConnectionHandle(p, None, env);
      }
      MutableConnectionHandle(id, app, env);
    }

    /** Makes sure that id and its hop have entries, and that hop proxies id. */
    method OpenPair(id: BusId, p: BusId, app: Option<AppRef>, apart: bool, env: Env)
      requires Valid() && id != 0 && p != 0 && AppFree(handles, id, app) && env.now > 0
      modifies `handles, `stamps, `nextSerial, `disconnects
      ensures View() == Open(old(View()), id, p, app, apart, env)
    {
      hide Pair, Moved, Good, AppFree;
      EnsurePair(id, p, app, apart, env);
      PairKeeps(old(View()), id, p, app, apart, env);
      KeptIsSound(old(View()), View(), env, false);
      NoSelfProxy(View(), id);
      BindConnectionHandleProxy(id, p, env);
    }

    /** Attaches id to the hop through which it is to be reached, with the hop's readiness. */
    method AttachThrough(id: BusId, p: BusId, app: Option<AppRef>, env: Env)
      requires Valid() && id != 0 && p != 0 && AppFree(handles, id, app) && env.now > 0
      modifies `handles, `stamps, `nextSerial, `disconnects
      ensures View() == Attached(old(View()), id, p, app, env)
    {
      hide Open, Moved, Good, AppFree, SpreadTo;
      OpenPair(id, p, app, false, env);
      OpenKeeps(old(View()), id, p, app, false, env);
      KeptIsSound(old(View()), View(), env, p != id);
      SetReadyTo(id, handles[p].ready, env);
    }

    /** Attaches id to a next hop of the topology, with the readiness of the hop's endpoint. */
    method AttachForwarded(id: BusId, p: BusId, app: Option<AppRef>, env: Env)
      requires Valid() && id != 0 && p != 0 && AppFree(handles, id, app) && env.now > 0
      modifies `handles, `stamps, `nextSerial, `disconnects
      ensures View() == Relayed(old(View()), id, p, app, env)
    {
      hide Open, Moved, Good, AppFree, SpreadTo;
      OpenPair(id, p, app, true, env);
      OpenKeeps(old(View()), id, p, app, true, env);
      KeptIsSound(old(View()), View(), env, p != id);
      SetReadyTo(id, env.Available(p), env);
    }

    method SetHandleWaitingDiscovery(id: BusId, env: Env)
      requires id in handles
      modifies `handles
      ensures handles == Awaiting(old(handles), id, env)
    {
      var h := handles[id];
      if Vertical(RelationOf(env, id)) || h.proxy != 0 || env.Available(id) || h.entry.waiting {
        return;
      }
      handles := handles[id := h.(entry := h.entry.(waiting := true))];
    }

    /** Arms the reconnect timer of a hop that is not ready and has no try scheduled for later. */
    method WakeHop(p: BusId, env: Env) returns (ok: bool)
      requires Valid() && p in handles
      modifies `handles, `disconnects
      ensures View() == Woken(old(View()), p, env)
      ensures ok <==> !(Due(old(handles)[p], env) && OutOfTries(old(handles)[p].clock, env.conf))
      ensures ok ==> p in handles
    {
      hide Tried;
      ok := true;
      if !handles[p].ready && handles[p].clock.nextReconnect <= env.now {
        ok := SetupReconnectTimer(p, 0, env);
        TriedKeys(old(handles), stamps, p, 0, env);
      }
    }

    /** A hop that is connected already, or whose discovery data has to be waited for. */
    method UseHop(id: BusId, p: BusId, app: Option<AppRef>, env: Env)
      requires Valid() && id != 0 && p != 0 && AppFree(handles, id, app) && env.now > 0
      modifies `handles, `stamps, `nextSerial, `disconnects
      ensures View() == UsedHop(old(View()), id, p, app, env)
    {
      hide Attached, Woken, Moved, Good, AppFree, Awaiting;
      AttachThrough(id, p, app, env);
      AttachedKeeps(old(View()), id, p, app, env);
      KeptIsSound(old(View()), View(), env, p != id);
      WokenLapsed(View(), p, env);
      var ok := WakeHop(p, env);
      if ok && p !in env.endpoints {
        SetHandleWaitingDiscovery(p, env);
      }
    }

    /** A hop with an address: dialed unless it is ready or a reconnect is already scheduled. */
    method DialHop(id: BusId, p: BusId, app: Option<AppRef>, env: Env)
      requires Valid() && id != 0 && p != 0 && AppFree(handles, id, app) && env.now > 0
      modifies `handles, `stamps, `nextSerial, `disconnects, `dials
      ensures View() == DialedHop(old(View()), id, p, app, env)
    {
      hide Attached, Woken, Moved, Good, AppFree;
      AttachThrough(id, p, app, env);
      AttachedKeeps(old(View()), id, p, app, env);
      KeptIsSound(old(View()), View(), env, p != id);
      var due := Due(handles[p], env);
      var ok := WakeHop(p, env);
      if due && ok {
        dials := dials + [p];
      }
    }

    method ConnectToPeer(id: BusId, app: Option<AppRef>, allowProxy: bool, env: Env) returns (code: Code)
      requires Valid() && id != 0 && AppFree(handles, id, app) && env.Sane()
      modifies `handles, `stamps, `nextSerial, `disconnects, `dials
      ensures code == CodeOf(PeerRoute(env, id, app, allowProxy))
      ensures View() == Follow(old(View()), PeerRoute(env, id, app, allowProxy), id, app, env)
    {
      hide UsedHop, DialedHop, Good, AppFree;
      var known := env.chain(id) != [];
      if !known && RelationOf(env, id) != Invalid {
        return TopologyUnknown;
      }
      var hops := if known then env.chain(id) else [id];
      var k := 0;
      while k < |hops|
        invariant 0 <= k <= |hops|
        invariant allowProxy ==> FirstHop(env, id, app, hops) == FirstHop(env, id, app, hops[k..])
        invariant !allowProxy ==> k <= 1
        invariant !allowProxy && k > 0 ==> (known ==> id in env.policyOk) && !Fits(env, id, app, id)
        invariant View() == old(View()) && disconnects == old(disconnects)
      {
        var p := hops[k];
        if known && p !in env.policyOk {
          if !allowProxy {
            return TopologyDeny;
          }
        } else {
          if !allowProxy && p != id {
            return TopologyDeny;
          }
          if p in env.endpoints || p !in env.discovery {
            UseHop(id, p, app, env);
            return Success;
          }
          if app.Some? && p in env.addressable {
            DialHop(id, p, app, env);
            return Success;
          }
        }
        k := k + 1;
      }
      return TryNext;
    }

    /** An entry for id whose readiness is given. */
    method AttachDirect(id: BusId, app: Option<AppRef>, ready: bool, env: Env)
      requires Valid() && id != 0 && AppFree(handles, id, app) && env.now > 0
      modifies `handles, `stamps, `nextSerial
      ensures View() == Direct(old(View()), id, app, ready, env)
    {
      hide Ensure, Moved, Good, AppFree, SpreadTo;
      MutableConnectionHandle(id, app, env);
      EnsureKeeps(old(View()), id, app, env);
      KeptIsSound(old(View()), View(), env, false);
      SetReadyTo(id, ready, env);
    }

    method ConnectToConnectedEndpoint(id: BusId, app: Option<AppRef>, env: Env) returns (code: Code)
      requires Valid() && AppFree(handles, id, app) && env.now > 0
      modifies `handles, `stamps, `nextSerial
      ensures code == CodeOf(ConnectedRoute(env, id))
      ensures View() == Follow(old(View()), ConnectedRoute(env, id), id, app, env)
    {
      hide Direct, Good, AppFree;
      if !env.hasNode {
        return NoNode;
      }
      if id == 0 {
        return InvalidId;
      }
      if env.self == id {
        AttachDirect(id, app, true, env);
        return Success;
      }
      if env.upstreamEp == id || id in env.endpoints {
        AttachDirect(id, app, env.Available(id), env);
        return Success;
      }
      return TryNext;
    }

    method ConnectForwarded(id: BusId, app: Option<AppRef>, allowProxy: bool, env: Env) returns (code: Code)
      requires Valid() && id != 0 && AppFree(handles, id, app) && env.now > 0
      modifies `handles, `stamps, `nextSerial, `disconnects
      ensures code == CodeOf(ForwardRoute(env, id, allowProxy))
      ensures View() == Follow(old(View()), ForwardRoute(env, id, allowProxy), id, app, env)
    {
      hide Relayed, Good, AppFree;
      if Vertical(RelationOf(env, id)) && env.nextHop(id) != 0 {
        AttachForwarded(id, env.nextHop(id), app, env);
        return Success;
      }
      if !allowProxy || env.upstreamEp == 0 {
        return NoAddress;
      }
      AttachForwarded(id, env.upstreamEp, app, env);
      return Success;
    }

    method TryConnectTo(id: BusId, app: Option<AppRef>, allowProxy: bool, env: Env) returns (code: Code)
      requires Valid() && AppFree(handles, id, app) && env.Sane()
      modifies `handles, `stamps, `nextSerial, `disconnects, `dials
      ensures code == CodeOf(RouteOf(env, id, app, allowProxy))
      ensures View() == Connect(old(View()), id, app, allowProxy, env)
    {
      hide Direct, Relayed, UsedHop, DialedHop, Good, AppFree;
      code := ConnectToConnectedEndpoint(id, app, env);
      if code != TryNext {
        return;
      }
      if MayDial(env, id) {
        code := ConnectToPeer(id, app, allowProxy, env);
        if code != TryNext {
          return;
        }
      }
      code := ConnectForwarded(id, app, allowProxy, env);
    }

    /** Attempts the target itself again. */
    method TryDirectReconnect(id: BusId, env: Env) returns (code: Code)
      requires Valid() && id in handles && env.Sane()
      modifies `handles, `stamps, `nextSerial, `disconnects, `dials
      ensures code == AgainCode(old(handles)[id], id, env)
      ensures View() == Again(old(View()), id, env)
    {
      hide Connect, Linked, LostTimed, SerialsBelow, RouteOf;
      var h := handles[id];
      if h.ready || h.clock.lost || Vertical(RelationOf(env, id)) || h.proxy != 0 || h.entry.waiting {
        return Success;
      }
      if id !in env.discovery {
        handles := handles[id := h.(entry := h.entry.(waiting := true))];
        return DiscoveryNotFound;
      }
      code := TryConnectTo(id, h.entry.app, false, env);
    }

    // -------------------------------------------------------------- events

    /** An endpoint asks for a connection. The answer for the same target and handle is cached
        until discovery or topology changes. */
    method OnStartConnect(id: BusId, app: AppRef, env: Env) returns (code: Code)
      requires Valid() && AppFree(handles, id, Some(app)) && env.Sane()
      modifies this
      ensures View() == Started(old(View()), id, app, env)
      ensures code == if Cached(old(View()), id, app) then old(lastResult) else CodeOf(RouteOf(env, id, Some(app), true))
    {
      hide Connect, Good, AppFree, RouteOf;
      if lastBus != 0 && lastBus == id && lastApp == Some(app) {
        return lastResult;
      }
      code := TryConnectTo(id, Some(app), true, env);
      var s := StampOf(stamps, app);
      if s in handles {
        var h := handles[s];
        handles := handles[s := h.(entry := h.entry.(active := true))];
      }
      lastBus, lastApp, lastResult := id, Some(app), code;
    }

    /** Sending failed because there is no connection any more. */
    method OnSendFailed(app: AppRef)
      requires Valid()
      modifies `handles
      ensures handles == Disconnected(old(handles), stamps, app)
    {
      var id := StampOf(stamps, app);
      if id in handles {
        SetHandleUnready(id);
      }
    }

    /** The bus reports a usable data connection (or a failure) for an endpoint. */
    method OnUpdateEndpoint(id: BusId, res: int, env: Env)
      requires Valid()
      modifies `handles
      ensures handles == Updated(old(handles), id, res, env)
    {
      if id in handles && res >= 0 && env.Available(id) {
        SetHandleReady(id, env);
      }
    }

    /** The topology no longer knows a peer. */
    method RemoveTopologyPeer(id: BusId, env: Env)
      modifies `handles, `lastBus, `lastApp
      ensures View() == Forgot(old(View())).(hs := Lost(old(handles), id, env))
    {
      lastBus, lastApp := 0, None;
      if id in handles {
        SetHandleLostTopology(id, env);
      }
    }

    /** Discovery data for a target appears: a target that waited for it is attempted. */
    method OnDiscoveryPut(id: BusId, env: Env)
      requires Valid() && env.Sane()
      modifies this
      ensures View() == Discovered(Forgot(old(View())), id, env)
    {
      hide Again, Moved, Linked;
      lastBus, lastApp := 0, None;
      if id in handles && handles[id].entry.waiting {
        var h := handles[id];
        handles := handles[id := h.(entry := h.entry.(waiting := false))];
        ResumedIsSound(old(View()), id);
        var _ := TryDirectReconnect(id, env);
      }
    }

    method OnDiscoveryDelete(id: BusId, env: Env)
      modifies `handles, `lastBus, `lastApp
      ensures View() == Forgot(old(View())).(hs := if id in old(handles) then Awaiting(old(handles), id, env) else old(handles))
    {
      lastBus, lastApp := 0, None;
      if id in handles {
        SetHandleWaitingDiscovery(id, env);
      }
    }

    /** The bus endpoint of a target is gone. */
    method OnRemoveEndpoint(id: BusId, env: Env)
      requires Valid() && env.Sane()
      modifies this
      ensures View() == Dropped(old(View()), id, env)
    {
      hide Removed, Counted, Readmitted, Moved, Linked, AppsUnique, LostTimed;
      if id !in handles {
        return;
      }
      if !NeedKeep(handles[id], env) {
        RemoveConnectionHandle(id, env, {});
        return;
      }
      if handles[id].clock.nextReconnect <= env.now {
        var ok := SetupReconnectTimer(id, 0, env);
        if !ok {
          return;
        }
        CountedKeys(old(handles), id, 0, env);
      }
      ScheduledKeeps(old(View()), id, env);
      KeptIsSound(old(View()), View(), env, false);
      ReadmitRemoved(id, env);
    }

    /** A neighbour or a remote peer is attempted again; one that policy no longer allows is removed. */
    method ReadmitRemoved(id: BusId, env: Env)
      requires Valid() && env.Sane() && id in handles
      modifies `handles, `stamps, `nextSerial, `disconnects, `dials
      ensures View() == Readmitted(old(View()), id, env)
    {
      hide Removed, Connect, Good, RouteOf;
      var h, r := handles[id], RelationOf(env, id);
      if (!r.SameUpstreamPeer? && !r.OtherUpstreamPeer?) || h.clock.lost || h.entry.waiting {
        return;
      }
      DeniedStays(View(), id, env);
      SoundParts(View());
      var code := TryDirectReconnect(id, env);
      if code == TopologyDeny && id in handles {
        RemoveConnectionHandle(id, env, {});
      }
    }

    /** Leaves the current proxy. When it is this node's own upstream that changed, what was
        reached through the old one goes away with it. */
    method LeaveProxy(id: BusId, env: Env)
      requires Valid() && id in handles
      modifies `handles, `disconnects
      ensures handles == Left(old(handles), stamps, id, env)
      ensures id != env.self ==> disconnects == old(disconnects) + LeftAlone(old(handles), id, env)
    {
      hide Removed, Moved, Good;
      var p := handles[id].proxy;
      if p == 0 {
        return;
      }
      ProxyIsThere(View(), id);
      var t, u := UnbindProxy(handles[id], id, handles[p], p, env);
      handles := handles[p := u][id := t];
      assert handles == Freed(old(handles), id);
      if id == env.self {
        FreedIsSound(old(View()), id);
        RemoveConnectionHandle(p, env, {});
      }
    }

    /** Binds id to the entry of its new upstream, with that entry's readiness. */
    method BindUpstream(id: BusId, up: BusId, env: Env)
      requires Valid() && id in handles && up in handles
      modifies `handles, `disconnects
      ensures handles == Joined(old(handles), id, up)
    {
      hide SpreadTo, Good, Moved;
      NoSelfProxy(View(), id);
      BindConnectionHandleProxy(id, up, env);
      BoundIsSound(old(View()), id, up);
      SetReadyTo(id, handles[up].ready, env);
    }

    /** Connects to id anew; an entry that is then still not ready gets its reconnect timer. */
    method Redial(id: BusId, env: Env)
      requires Valid() && id in handles && env.Sane()
      modifies `handles, `stamps, `nextSerial, `disconnects, `dials
      ensures View() == Redialed(old(View()), id, env)
    {
      hide Connect, Linked, LostTimed, SerialsBelow, Moved, Tried;
      var h := handles[id];
      var _ := TryConnectTo(id, h.entry.app, h.entry.active, env);
      ConnectKeeps(old(View()), id, h.entry.app, h.entry.active, env);
      KeptIsSound(old(View()), View(), env, Binds(RouteOf(env, id, h.entry.app, h.entry.active), id));
      if id in handles && !handles[id].ready && handles[id].clock.nextReconnect <= env.now {
        var _ := SetupReconnectTimer(id, 0, env);
      }
    }

    method AwaitDiscovery(id: BusId, env: Env)
      requires Valid() && id in handles
      modifies `handles
      ensures handles == UnreadySpread(Awaiting(old(handles), id, env), id)
    {
      hide Moved, Awaiting, Good, UnreadySpread;
      SetHandleWaitingDiscovery(id, env);
      AwaitingKeeps(old(View()), id, env);
      KeptIsSound(old(View()), View(), env, false);
      AwaitingEntries(old(handles), id, env, id);
      SetReadyTo(id, false, env);
    }

    /** Chooses a new path for an entry that has left its proxy. */
    method Reroute(id: BusId, up: BusId, env: Env)
      requires Valid() && id in handles && env.Sane()
      modifies `handles, `stamps, `nextSerial, `disconnects, `dials
      ensures View() == Rerouted(old(View()), id, up, env)
    {
      hide Removed, Joined, Redialed, ReadySpread, UnreadySpread, Awaiting, LostTimed, SerialsBelow;
      var h := handles[id];
      if env.Available(id) {
        SetHandleReady(id, env);
      } else if !NeedKeep(h, env) {
        RemoveConnectionHandle(id, env, {});
      } else if up != 0 && up in handles {
        BindUpstream(id, up, env);
      } else if h.entry.waiting {
        SetHandleUnready(id);
      } else if id !in env.discovery {
        AwaitDiscovery(id, env);
      } else {
        Redial(id, env);
      }
    }

    /** The topology reports a peer with its upstream. */
    method UpdateTopologyPeer(id: BusId, up: BusId, env: Env)
      requires Valid() && env.Sane()
      modifies this
      ensures View() == Placed(Forgot(old(View())), id, up, env)
    {
      hide Again, Left, Rerouted, Good, Moved;
      lastBus, lastApp := 0, None;
      if id !in handles {
        return;
      }
      var h := handles[id];
      var found := h.(clock := h.clock.(lost := false, lostDeadline := 0), entry := h.entry.(upstream := up));
      if !NeedTimer(found, id, env) {
        found := found.(clock := found.clock.(timer := 0));
      }
      assert found == Found(h, id, up, env);
      handles := handles[id := found];
      FoundIsSound(old(View()), id, up, env);
      if h.entry.upstream == up {
        var _ := TryDirectReconnect(id, env);
      } else if !StillOnPath(handles[id], id, up, env) {
        LeftKeeps(View(), id, env);
        LeaveProxy(id, env);
        KeptIsSound(old(View()).(hs := old(handles)[id := found]), View(), env, false);
        Reroute(id, up, env);
      }
    }

    /** The timer of the entry object with this serial fires. */
    method OnTimer(id: BusId, serial: nat, env: Env)
      requires Valid() && env.Sane()
      modifies this
      ensures View() == Ticked(old(View()), id, serial, env)
    {
      hide Fired, Good, GoodBut;
      if id in handles && handles[id].entry.serial == serial {
        handles := handles[id := Silenced(handles[id])];
        SilencedIsGoodBut(old(View()), id);
        HandleFiring(id, env);
      }
    }

    method HandleFiring(id: BusId, env: Env)
      requires GoodBut(handles, nextSerial, id) && id in handles && handles[id].clock.timer == 0 && env.Sane()
      requires handles[id].clock.lost ==> handles[id].clock.lostDeadline > 0
      modifies `handles, `stamps, `nextSerial, `disconnects, `dials
      ensures View() == Fired(old(View()), id, env)
    {
      hide Removed, Counted, Again, Rearmed, Linked, AppsUnique, Moved;
      var h := handles[id];
      var next := 0;
      if h.clock.lost {
        if env.now >= h.clock.lostDeadline {
          RemoveConnectionHandle(id, env, {});
          return;
        }
        next := h.clock.lostDeadline;
      }
      if h.ready || h.clock.nextReconnect > env.now {
        Rearm(id, next);
        return;
      }
      var ok := SetupReconnectTimer(id, next, env);
      if ok {
        CountedKeeps(old(View()), id, next, env);
        CountedKeys(old(handles), id, next, env);
        KeptIsSound(old(View()), View(), env, false);
        var _ := TryDirectReconnect(id, env);
      }
    }

    /** No reconnect is due: wait for whichever comes first, the deadline or the next try. */
    method Rearm(id: BusId, next: Time)
      requires id in handles && handles[id].clock.timer == 0 && next == DeadlineOf(handles[id].clock)
      modifies `handles
      ensures handles == Rearmed(old(handles), id)
    {
      var h := handles[id];
      var timeout := next;
      if !h.ready && (next == 0 || next > h.clock.nextReconnect) {
        timeout := h.clock.nextReconnect;
      }
      if timeout != 0 {
        UpdateTimer(id, timeout);
      }
    }

    // -------------------------------------------------------------- runs

    /** One event does exactly what the state machine says, and so what the laws say, and keeps the invariants. */
    method Step(e: Event)
      requires Valid() && e.env.Sane()
      modifies this
      ensures View() == Next(old(View()), e) && AtbusLaws.Obeys(old(View()), e, View())
      ensures Valid() && Steps(old(View()), View(), e.env)
    {
      hide Good, Stepped, Started, ClosedBy, Disconnected, Updated, Dropped, Placed, Lost, Discovered, Awaiting, Ticked, AtbusLaws.Obeys;
      AtbusLaws.NextObeys(View(), e);
      NextKeeps(View(), e);
      SteppedIsSound(View(), Next(View(), e), e.env);
      match e.what
      case StartConnect(id, app) =>
        if forall x :: x in handles && handles[x].entry.app == Some(app) ==> x == id {
          var _ := OnStartConnect(id, app, e.env);
        }
      case Close(app) =>
        SoundParts(View());
        OnCloseConnection(app, e.env, {});
      case SendFailed(app) => OnSendFailed(app);
      case EndpointUpdated(id, res) => OnUpdateEndpoint(id, res, e.env);
      case EndpointRemoved(id) => OnRemoveEndpoint(id, e.env);
      case PeerUpdated(id, up) => UpdateTopologyPeer(id, up, e.env);
      case PeerRemoved(id) => RemoveTopologyPeer(id, e.env);
      case DiscoveryPut(id) => OnDiscoveryPut(id, e.env);
      case DiscoveryDeleted(id) => OnDiscoveryDelete(id, e.env);
      case TimerFired(id, serial) => OnTimer(id, serial, e.env);
    }

    /** A run of the connector is a run of the state machine. */
    method Run(events: seq<Event>)
      requires Valid()
      requires forall e :: e in events ==> e.env.Sane()
      modifies this
      ensures Valid() && View() == RunOf(old(View()), events)
    {
      for i := 0 to |events|
        invariant Valid() && View() == RunOf(old(View()), events[..i])
      {
        assert events[..i + 1] == events[..i] + [events[i]];
        RunOfMore(old(View()), events[..i], events[i]);
        Step(events[i]);
      }
      assert events[..|events|] == events;
    }
  }

  /** The proxy of an entry that goes, when it is then idle, inactive and connected and is not the upstream. */
  function LeftAlone(hs: Table, id: BusId, env: Env): seq<BusId>
    requires id in hs
  {
    var q := hs[id].proxy;
    if q != 0 && q != id && q in hs && hs[q].proxyFor - {id} == {} && !hs[q].entry.active
       && env.hasNode && q != env.upstreamEp && q in env.endpoints
    then [q] else []
  }

  /** The proxy that is left, when it is then idle, inactive and connected and is not the upstream. */
  function LeftIdle(hs: Table, id: BusId, p: BusId, env: Env): seq<BusId>
    requires id in hs
  {
    var q := hs[id].proxy;
    if q != p && p != id && q != 0 && q in hs && hs[q].proxyFor - {id} == {} && !hs[q].entry.active
       && env.hasNode && q != env.upstreamEp && q in env.endpoints
    then [q] else []
  }

  lemma TriedKeys(hs: Table, stamps: Stamps, p: BusId, previous: Time, env: Env)
    requires p in hs
    ensures !OutOfTries(hs[p].clock, env.conf) ==> p in Tried(hs, stamps, p, previous, env)
  {
  }

  lemma WokenLapsed(s: State, p: BusId, env: Env)
    requires Sound(s) && p in s.hs
    ensures p in Woken(s, p, env).hs <==> !(Due(s.hs[p], env) && OutOfTries(s.hs[p].clock, env.conf))
  {
    hide Good, Removed, Moved;
    SoundIsGoodBut(s, p);
    RemovedKeeps(s, p, env);
  }

  lemma ResumedIsSound(s: State, id: BusId)
    requires Sound(s) && id in s.hs
    ensures Sound(s.(hs := s.hs[id := s.hs[id].(entry := s.hs[id].entry.(waiting := false))]))
  {
    hide SameClocks, RetryWithin, NoNewLinks, Linked;
    var h := s.hs[id];
    MovedByEntry(s.hs, s.next, id, h.entry.(waiting := false), h.clock, 0);
    assert h.(entry := h.entry.(waiting := false), clock := h.clock) == h.(entry := h.entry.(waiting := false));
  }

  /** An attempt that policy forbids changes nothing. */
  lemma DeniedStays(s: State, id: BusId, env: Env)
    requires id in s.hs
    ensures AgainCode(s.hs[id], id, env) == TopologyDeny ==> Again(s, id, env) == s
  {
  }

  lemma FreedIsSound(s: State, id: BusId)
    requires Sound(s) && id in s.hs
    ensures Linked(Freed(s.hs, id), {}) && AppsUnique(Freed(s.hs, id))
  {
    MovedByFree(s.hs, s.next, id, 0);
  }

  lemma BoundIsSound(s: State, id: BusId, up: BusId)
    requires Sound(s) && id in s.hs && up in s.hs
    ensures Sound(s.(hs := Bound(s.hs, id, up)))
    ensures Bound(s.hs, id, up).Keys == s.hs.Keys
  {
    MovedByBind(s.hs, s.next, id, up, 0);
  }

  lemma SteppedIsSound(s: State, t: State, env: Env)
    requires Steps(s, t, env)
    ensures Sound(t)
  {
  }
}
