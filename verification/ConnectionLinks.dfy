/** The three-way links between connection handles, connectors and endpoints. A handle points at
    its connector and its endpoint, and each of those keeps the set of its handles; closing and
    unbinding call each other. */
module ConnectionLinks {
  import opened Common

  type HandleId = nat
  type ConnectorId = nat
  type EndpointId = nat

  datatype Handle = Handle(connector: Option<ConnectorId>, endpoint: Option<EndpointId>, closing: bool, ready: bool)
  datatype Connector = Connector(handles: set<HandleId>, destroying: bool)
  datatype Endpoint = Endpoint(refs: set<HandleId>, closing: bool)

  /** bound and closed are history: every binding to a connector, and every on_close_connection. */
  datatype State = State(
    handles: map<HandleId, Handle>,
    connectors: map<ConnectorId, Connector>,
    endpoints: map<EndpointId, Endpoint>,
    bound: multiset<(HandleId, ConnectorId)>,
    closed: multiset<(HandleId, ConnectorId)>)

  // ---------------------------------------------------------------- invariants

  /** Pointers and sets agree. Handles in loose have been swapped out of the set of their connector
      (or endpoint) and are about to be unbound from it. */
  ghost predicate ConnectorsAgree(s: State, loose: set<HandleId>) {
    && (forall h {:trigger s.handles[h].connector} :: h in s.handles && s.handles[h].connector.Some? ==>
          var c := s.handles[h].connector.value; c in s.connectors && (h in s.connectors[c].handles || h in loose))
    && (forall c, h {:trigger h in s.connectors[c].handles} :: c in s.connectors && h in s.connectors[c].handles ==> h in s.handles && s.handles[h].connector == Some(c))
  }

  ghost predicate EndpointsAgree(s: State, loose: set<HandleId>) {
    && (forall h {:trigger s.handles[h].endpoint} :: h in s.handles && s.handles[h].endpoint.Some? ==>
          var e := s.handles[h].endpoint.value; e in s.endpoints && (h in s.endpoints[e].refs || h in loose))
    && (forall e, h {:trigger h in s.endpoints[e].refs} :: e in s.endpoints && h in s.endpoints[e].refs ==> h in s.handles && s.handles[h].endpoint == Some(e))
  }

  predicate BoundTo(s: State, h: HandleId, c: ConnectorId) {
    h in s.handles && s.handles[h].connector == Some(c)
  }

  /** Each binding to a connector that is not being destroyed has been closed exactly once, or stands. */
  ghost predicate EachClosedOnce(hs: map<HandleId, Handle>, cs: map<ConnectorId, Connector>, bound: multiset<(HandleId, ConnectorId)>, closed: multiset<(HandleId, ConnectorId)>) {
    && (forall h, c {:trigger bound[(h, c)]} :: c in cs && !cs[c].destroying ==>
          bound[(h, c)] == closed[(h, c)] + if h in hs && hs[h].connector == Some(c) then 1 else 0)
    && (forall h, c {:trigger bound[(h, c)]} :: c !in cs ==> bound[(h, c)] == 0 && closed[(h, c)] == 0)
  }

  ghost predicate ClosedOnce(s: State) {
    EachClosedOnce(s.handles, s.connectors, s.bound, s.closed)
  }

  ghost predicate Agree(s: State, looseC: set<HandleId>, looseE: set<HandleId>) {
    ConnectorsAgree(s, looseC) && EndpointsAgree(s, looseE) && ClosedOnce(s)
  }

  // ---------------------------------------------------------------- what each call comes to

  /** h points at no connector, and its connector does not list it. */
  function OffConnector(s: State, h: HandleId): State
    requires h in s.handles
  {
    var c := s.handles[h].connector;
    if c.None? || c.value !in s.connectors then s
    else
      var k := s.connectors[c.value];
      s.(handles := s.handles[h := s.handles[h].(connector := None)],
         connectors := s.connectors[c.value := k.(handles := k.handles - {h})],
         closed := if k.destroying then s.closed else s.closed + multiset{(h, c.value)})
  }

  function OffEndpoint(s: State, h: HandleId): State
    requires h in s.handles
  {
    var e := s.handles[h].endpoint;
    if e.None? || e.value !in s.endpoints then s
    else
      var k := s.endpoints[e.value];
      s.(handles := s.handles[h := s.handles[h].(endpoint := None)],
         endpoints := s.endpoints[e.value := k.(refs := k.refs - {h})])
  }

  function Shut(s: State, h: HandleId): State
    requires h in s.handles
  {
    s.(handles := s.handles[h := s.handles[h].(closing := true, ready := false)])
  }

  /** A closed handle has left both its endpoint and its connector. */
  function Closed(s: State, h: HandleId): State
    requires h in s.handles
  {
    if s.handles[h].closing then s else OffConnector(OffEndpoint(Shut(s, h), h), h)
  }

  // ---------------------------------------------------------------- the calls

  class Links {
    var s: State

    constructor ()
      ensures s == State(map[], map[], map[], multiset{}, multiset{})
      ensures Agree(s, {}, {})
    {
      s := State(map[], map[], map[], multiset{}, multiset{});
    }

    /** A positive measure while the handle may still be closed. */
    ghost function Open(h: HandleId): nat
      reads this
    {
      if h in s.handles && !s.handles[h].closing then 1 else 0
    }

    method CloseHandle(h: HandleId)
      requires h in s.handles
      requires s.handles[h].connector.Some? ==> s.handles[h].connector.value in s.connectors
      requires s.handles[h].endpoint.Some? ==> s.handles[h].endpoint.value in s.endpoints
      modifies this
      ensures s == Closed(old(s), h)
      decreases Open(h), 0
    {
      if s.handles[h].closing {
        return;
      }
      s := s.(handles := s.handles[h := s.handles[h].(closing := true, ready := false)]);
      if s.handles[h].endpoint.Some? {
        UnbindEndpoint(h, s.handles[h].endpoint.value);
      }
      if s.handles[h].connector.Some? {
        UnbindConnector(h, s.handles[h].connector.value);
      }
    }

    /** Unbinding the connector closes the handle as well. */
    method UnbindConnector(h: HandleId, c: ConnectorId)
      requires h in s.handles && c in s.connectors
      requires s.handles[h].connector.Some? ==> s.handles[h].connector.value in s.connectors
      requires s.handles[h].endpoint.Some? ==> s.handles[h].endpoint.value in s.endpoints
      requires s.handles[h].connector != Some(c) ==> h !in s.connectors[c].handles
      modifies this
      ensures s == if old(s).handles[h].connector == Some(c) then OffConnector(OffFirst(old(s), h), h) else old(s)
      decreases Open(h), 1
    {
      hide Closed, OffFirst, OffConnector;
      var trigger := false;
      if s.handles[h].connector == Some(c) {
        s := s.(handles := s.handles[h := s.handles[h].(connector := None)]);
        trigger := true;
      }
      var k := s.connectors[c];
      assert !trigger ==> k.handles - {h} == k.handles;
      s := s.(connectors := s.connectors[c := k.(handles := k.handles - {h})]);
      if trigger {
        ClosesAfterLeaving(old(s), h, c);
        CloseHandle(h);
        if !s.connectors[c].destroying {
          s := s.(closed := s.closed + multiset{(h, c)});
        }
      }
    }

    /** Unbinding the endpoint closes the handle as well. */
    method UnbindEndpoint(h: HandleId, e: EndpointId)
      requires h in s.handles && e in s.endpoints
      requires s.handles[h].connector.Some? ==> s.handles[h].connector.value in s.connectors
      requires s.handles[h].endpoint.Some? ==> s.handles[h].endpoint.value in s.endpoints
      requires s.handles[h].endpoint != Some(e) ==> h !in s.endpoints[e].refs
      modifies this
      ensures s == if old(s).handles[h].endpoint == Some(e) then Closed(OffEndpoint(old(s), h), h) else old(s)
      decreases Open(h), 1
    {
      var k := s.endpoints[e];
      assert h !in k.refs ==> k.refs - {h} == k.refs;
      s := s.(endpoints := s.endpoints[e := k.(refs := k.refs - {h})]);
      if s.handles[h].endpoint == Some(e) {
        s := s.(handles := s.handles[h := s.handles[h].(endpoint := None)]);
        CloseHandle(h);
      }
    }

    // -------------------------------------------------------------- events

    method CreateHandle(h: HandleId)
      requires Agree(s, {}, {}) && h !in s.handles
      modifies this
      ensures Agree(s, {}, {}) && s == old(s).(handles := old(s).handles[h := Handle(None, None, false, false)])
    {
      s := s.(handles := s.handles[h := Handle(None, None, false, false)]);
    }

    method CreateConnector(c: ConnectorId)
      requires Agree(s, {}, {}) && c !in s.connectors
      modifies this
      ensures Agree(s, {}, {}) && s == old(s).(connectors := old(s).connectors[c := Connector({}, false)])
    {
      s := s.(connectors := s.connectors[c := Connector({}, false)]);
    }

    method CreateEndpoint(e: EndpointId)
      requires Agree(s, {}, {}) && e !in s.endpoints
      modifies this
      ensures Agree(s, {}, {}) && s == old(s).(endpoints := old(s).endpoints[e := Endpoint({}, false)])
    {
      s := s.(endpoints := s.endpoints[e := Endpoint({}, false)]);
    }

    method Close(h: HandleId)
      requires Agree(s, {}, {}) && h in s.handles
      modifies this
      ensures Agree(s, {}, {}) && s == Closed(old(s), h)
      ensures !old(s).handles[h].closing ==> s.handles[h] == Handle(None, None, true, false)
    {
      ClosedKeeps(s, h, {}, {});
      CloseHandle(h);
    }

    method SetReady(h: HandleId, ready: bool)
      requires Agree(s, {}, {}) && h in s.handles
      modifies this
      ensures Agree(s, {}, {})
      ensures h in s.handles && s == old(s).(handles := old(s).handles[h := s.handles[h]])
      ensures s.handles[h] == old(s).handles[h].(ready := ready, closing := old(s).handles[h].closing && !(ready && !old(s).handles[h].ready))
    {
      var k := s.handles[h];
      if ready && !k.ready {
        s := s.(handles := s.handles[h := k.(ready := true, closing := false)]);
      } else if !ready && k.ready {
        s := s.(handles := s.handles[h := k.(ready := false)]);
      } else {
        assert s.handles[h := s.handles[h]] == s.handles;
      }
    }

    /** Binding to another connector first unbinds, and so closes, the handle. */
    method BindConnector(h: HandleId, c: ConnectorId)
      requires Agree(s, {}, {}) && h in s.handles && c in s.connectors
      modifies this
      ensures Agree(s, {}, {}) && s == MovedTo(old(s), h, c)
    {
      if s.handles[h].connector == Some(c) || s.connectors[c].destroying {
        return;
      }
      if s.handles[h].connector.Some? {
        UnbindConnectorKeeps(s, h, {}, {});
        UnbindConnector(h, s.handles[h].connector.value);
      }
      BoundKeeps(s, h, c);
      s := BoundState(s, h, c);
    }

    method BindEndpoint(h: HandleId, e: EndpointId)
      requires Agree(s, {}, {}) && h in s.handles && e in s.endpoints
      modifies this
      ensures Agree(s, {}, {}) && s == AttachedTo(old(s), h, e)
    {
      if s.endpoints[e].closing || s.handles[h].endpoint == Some(e) {
        return;
      }
      if s.handles[h].endpoint.Some? {
        UnbindEndpointKeeps(s, h, {}, {});
        UnbindEndpoint(h, s.handles[h].endpoint.value);
      }
      AttachedKeeps(s, h, e);
      s := AttachedState(s, h, e);
    }

    /** Takes a handle away from an endpoint, which closes it if it was there. */
    method RemoveConnectionHandle(h: HandleId, e: EndpointId)
      requires Agree(s, {}, {}) && h in s.handles && e in s.endpoints
      modifies this
      ensures Agree(s, {}, {})
      ensures s == if old(s).endpoints[e].closing || old(s).handles[h].endpoint != Some(e) then old(s) else Closed(OffEndpoint(old(s), h), h)
    {
      if s.endpoints[e].closing {
        return;
      }
      if s.handles[h].endpoint == Some(e) {
        UnbindEndpointKeeps(s, h, {}, {});
        UnbindEndpoint(h, e);
      }
    }

    /** Destroying a connector stops the notifications of what is unbound from it later. */
    method Destroy(c: ConnectorId)
      requires Agree(s, {}, {}) && c in s.connectors
      modifies this
      ensures Agree(s, {}, {})
      ensures s == old(s).(connectors := old(s).connectors[c := old(s).connectors[c].(destroying := true)])
    {
      s := s.(connectors := s.connectors[c := s.connectors[c].(destroying := true)]);
    }

    /** One handle that has been swapped out of its connector's set. */
    method UnbindLoose(h: HandleId, c: ConnectorId, ghost loose: set<HandleId>)
      requires Agree(s, loose, {}) && BoundTo(s, h, c) && h in loose && s.connectors[c].handles == {}
      modifies this
      ensures Agree(s, loose - {h}, {})
      ensures h in s.handles && s.handles == old(s).handles[h := s.handles[h]]
      ensures s.handles[h] == if old(s).handles[h].closing then old(s).handles[h].(connector := None) else Handle(None, None, true, false)
      ensures c in s.connectors && s.connectors[c].handles == {}
      ensures SameElse(old(s), s) && s.bound == old(s).bound
    {
      hide SameElse;
      UnbindConnectorKeeps(s, h, loose, {});
      UnbindConnector(h, c);
      UnboundSame(old(s), h);
      OffConnectorEmpties(OffFirst(old(s), h), h, c);
    }

    method UnbindAllLoose(c: ConnectorId, all: set<HandleId>)
      requires Agree(s, all, {}) && c in s.connectors && s.connectors[c].handles == {}
      requires forall h :: h in all ==> BoundTo(s, h, c)
      modifies this
      ensures Agree(s, {}, {}) && c in s.connectors && s.connectors[c].handles == {}
      ensures Released(old(s).handles, s.handles, all)
      ensures SameElse(old(s), s) && s.bound == old(s).bound
    {
      hide SameElse, Agree;
      SameElseNot(s);
      var todo := all;
      while todo != {}
        invariant todo <= all
        invariant Agree(s, todo, {}) && c in s.connectors && s.connectors[c].handles == {}
        invariant forall h :: h in todo ==> BoundTo(s, h, c)
        invariant Released(old(s).handles, s.handles, all - todo)
        invariant SameElse(old(s), s) && s.bound == old(s).bound
        decreases todo
      {
        var h :| h in todo;
        ghost var before := s;
        UnbindLoose(h, c, todo);
        SameElseTwice(old(s), before, s);
        assert all - (todo - {h}) == all - todo + {h};
        todo := todo - {h};
      }
    }

    /** Every handle of the connector is unbound from it and closed; nothing else changes hands. */
    method Cleanup(c: ConnectorId)
      requires Agree(s, {}, {}) && c in s.connectors
      modifies this
      ensures Agree(s, {}, {})
      ensures c in s.connectors && s.connectors[c].handles == {}
      ensures Released(old(s).handles, s.handles, old(s).connectors[c].handles)
      ensures SameElse(old(s), s) && s.bound == old(s).bound
    {
      SameElseNot(s);
      ReleasedNone(s.handles);
      while s.connectors[c].handles != {}
        invariant Agree(s, {}, {}) && c in s.connectors
        invariant s == old(s) || (s.connectors[c].handles == {} && Released(old(s).handles, s.handles, old(s).connectors[c].handles))
        invariant SameElse(old(s), s) && s.bound == old(s).bound
        decreases s.connectors[c].handles
      {
        hide SameElse, Agree, Released;
        var all := s.connectors[c].handles;
        SwappedOut(s, c);
        SwapSame(s, c);
        ghost var before := s;
        s := s.(connectors := s.connectors[c := s.connectors[c].(handles := {})]);
        ghost var mid := s;
        UnbindAllLoose(c, all);
        SameElseTwice(before, mid, s);
        SameElseTwice(old(s), before, s);
      }
    }

    method UnbindLooseRef(h: HandleId, e: EndpointId, ghost loose: set<HandleId>)
      requires Agree(s, {}, loose) && h in s.handles && s.handles[h].endpoint == Some(e) && h in loose && s.endpoints[e] == Endpoint({}, true)
      modifies this
      ensures Agree(s, {}, loose - {h})
      ensures h in s.handles && s.handles == old(s).handles[h := s.handles[h]]
      ensures s.handles[h] == if old(s).handles[h].closing then old(s).handles[h].(endpoint := None) else Handle(None, None, true, false)
      ensures e in s.endpoints && s.endpoints[e] == Endpoint({}, true)
      ensures SameElse(old(s), s) && s.bound == old(s).bound
    {
      UnbindEndpointKeeps(s, h, {}, loose);
      UnbindEndpoint(h, e);
      DetachedSame(old(s), h);
    }

    method UnbindAllRefs(e: EndpointId, all: set<HandleId>)
      requires Agree(s, {}, all) && e in s.endpoints && s.endpoints[e] == Endpoint({}, true)
      requires forall h :: h in all ==> h in s.handles && s.handles[h].endpoint == Some(e)
      modifies this
      ensures Agree(s, {}, {}) && e in s.endpoints && s.endpoints[e] == Endpoint({}, true)
      ensures Detached(old(s).handles, s.handles, all)
      ensures SameElse(old(s), s) && s.bound == old(s).bound
    {
      hide SameElse, Agree;
      SameElseNot(s);
      var todo := all;
      while todo != {}
        invariant todo <= all
        invariant Agree(s, {}, todo) && e in s.endpoints && s.endpoints[e] == Endpoint({}, true)
        invariant forall h :: h in todo ==> h in s.handles && s.handles[h].endpoint == Some(e)
        invariant Detached(old(s).handles, s.handles, all - todo)
        invariant SameElse(old(s), s) && s.bound == old(s).bound
        decreases todo
      {
        var h :| h in todo;
        ghost var before := s;
        UnbindLooseRef(h, e, todo);
        SameElseTwice(old(s), before, s);
        assert all - (todo - {h}) == all - todo + {h};
        todo := todo - {h};
      }
    }

    /** Every handle of the endpoint is unbound from it and closed. */
    method Reset(e: EndpointId)
      requires Agree(s, {}, {}) && e in s.endpoints
      modifies this
      ensures Agree(s, {}, {})
      ensures old(s).endpoints[e].closing ==> s == old(s)
      ensures !old(s).endpoints[e].closing ==>
        && e in s.endpoints && s.endpoints[e] == Endpoint({}, false)
        && Detached(old(s).handles, s.handles, old(s).endpoints[e].refs)
      ensures SameElse(old(s), s) && s.bound == old(s).bound
    {
      if s.endpoints[e].closing {
        return;
      }
      var all := s.endpoints[e].refs;
      RefsSwappedOut(s, e);
      s := s.(endpoints := s.endpoints[e := Endpoint({}, true)]);
      UnbindAllRefs(e, all);
      ReopenKeeps(s, e);
      s := s.(endpoints := s.endpoints[e := Endpoint({}, false)]);
    }

    // -------------------------------------------------------------- whole runs

    method Step(ev: Event)
      requires Agree(s, {}, {})
      modifies this
      ensures Agree(s, {}, {}) && Does(old(s), ev, s)
    {
      hide Agree, SameElse, Released, Detached, Closed, MovedTo, AttachedTo, OffEndpoint;
      SameElseNot(s);
      match ev
      case NewHandle(h) =>
        if h !in s.handles {
          CreateHandle(h);
        }
      case NewConnector(c) =>
        if c !in s.connectors {
          CreateConnector(c);
        }
      case NewEndpoint(e) =>
        if e !in s.endpoints {
          CreateEndpoint(e);
        }
      case HandleClosed(h) =>
        if h in s.handles {
          CloseMeans(s, h);
          Close(h);
        }
      case ReadyChanged(h, ready) =>
        if h in s.handles {
          SetReady(h, ready);
          ReadySame(old(s), h, s);
        }
      case ConnectorBound(h, c) =>
        if h in s.handles && c in s.connectors {
          MovedMeans(s, h, c);
          BindConnector(h, c);
        }
      case EndpointBound(h, e) =>
        if h in s.handles && e in s.endpoints {
          AttachedMeans(s, h, e);
          BindEndpoint(h, e);
        }
      case EndpointUnbound(h, e) =>
        if h in s.handles && e in s.endpoints {
          UnboundMeans(s, h);
          RemoveConnectionHandle(h, e);
        }
      case ConnectorDestroyed(c) =>
        if c in s.connectors {
          Destroy(c);
        }
      case ConnectorCleaned(c) =>
        if c in s.connectors {
          Cleanup(c);
        }
      case EndpointReset(e) =>
        if e in s.endpoints {
          Reset(e);
        }
    }

    /** In every run each event does what it should; pointers and sets agree, and every closed binding was
        reported once. */
    method Run(events: seq<Event>) returns (ghost trace: seq<State>)
      requires Agree(s, {}, {})
      modifies this
      ensures Agree(s, {}, {})
      ensures |trace| == |events| + 1 && trace[0] == old(s) && trace[|events|] == s
      ensures forall i :: 0 <= i < |events| ==> Does(trace[i], events[i], trace[i + 1])
    {
      hide Agree, Does;
      trace := [s];
      for i := 0 to |events|
        invariant Agree(s, {}, {})
        invariant |trace| == i + 1 && trace[0] == old(s) && trace[i] == s
        invariant forall k :: 0 <= k < i ==> Does(trace[k], events[k], trace[k + 1])
      {
        Step(events[i]);
        trace := trace + [s];
      }
    }
  }

  datatype Event =
    | NewHandle(h: HandleId)
    | NewConnector(c: ConnectorId)
    | NewEndpoint(e: EndpointId)
    | HandleClosed(h: HandleId)
    | ReadyChanged(h: HandleId, ready: bool)
    | ConnectorBound(h: HandleId, c: ConnectorId)
    | EndpointBound(h: HandleId, e: EndpointId)
    | EndpointUnbound(h: HandleId, e: EndpointId)
    | ConnectorDestroyed(c: ConnectorId)
    | ConnectorCleaned(c: ConnectorId)
    | EndpointReset(e: EndpointId)

  // ---------------------------------------------------------------- what each event does

  /** Handle h is now as given, every other one as before, no binding was made but those given, and nothing else
      changed that the agreement of pointers and sets leaves open. */
  ghost predicate Only(s: State, h: HandleId, now: Handle, made: multiset<(HandleId, ConnectorId)>, t: State) {
    t.handles == s.handles[h := now] && t.bound == s.bound + made && SameElse(s, t)
  }

  /** What each event does to pointers and flags. Which sets hold which handles follows from the pointers, and which
      closings are reported from the bindings, since all of these agree before and after. A handle that leaves a
      connector or an endpoint is closed and so leaves the other as well, unless it was closing already. */
  ghost predicate Does(s: State, ev: Event, t: State) {
    match ev
    case NewHandle(h) => t == if h in s.handles then s else s.(handles := s.handles[h := Handle(None, None, false, false)])
    case NewConnector(c) => t == if c in s.connectors then s else s.(connectors := s.connectors[c := Connector({}, false)])
    case NewEndpoint(e) => t == if e in s.endpoints then s else s.(endpoints := s.endpoints[e := Endpoint({}, false)])
    case HandleClosed(h) =>
      if h in s.handles && !s.handles[h].closing then Only(s, h, Handle(None, None, true, false), multiset{}, t) else t == s
    case ReadyChanged(h, ready) =>
      if h !in s.handles then t == s
      else
        var k := s.handles[h];
        Only(s, h, k.(ready := ready, closing := if ready && !k.ready then false else k.closing), multiset{}, t)
    case ConnectorBound(h, c) =>
      if h !in s.handles || c !in s.connectors || s.connectors[c].destroying || s.handles[h].connector == Some(c) then t == s
      else
        var k := s.handles[h];
        Only(s, h, if k.connector.None? || k.closing then k.(connector := Some(c)) else Handle(Some(c), None, true, false), multiset{(h, c)}, t)
    case EndpointBound(h, e) =>
      if h !in s.handles || e !in s.endpoints || s.endpoints[e].closing || s.handles[h].endpoint == Some(e) then t == s
      else
        var k := s.handles[h];
        Only(s, h, if k.endpoint.None? || k.closing then k.(endpoint := Some(e)) else Handle(None, Some(e), true, false), multiset{}, t)
    case EndpointUnbound(h, e) =>
      if h !in s.handles || e !in s.endpoints || s.endpoints[e].closing || s.handles[h].endpoint != Some(e) then t == s
      else
        var k := s.handles[h];
        Only(s, h, if k.closing then k.(endpoint := None) else Handle(None, None, true, false), multiset{}, t)
    case ConnectorDestroyed(c) =>
      (c in s.connectors ==> t == s.(connectors := s.connectors[c := s.connectors[c].(destroying := true)])) && (c !in s.connectors ==> t == s)
    case ConnectorCleaned(c) =>
      if c in s.connectors then Released(s.handles, t.handles, s.connectors[c].handles) && t.bound == s.bound && SameElse(s, t) else t == s
    case EndpointReset(e) =>
      if e in s.endpoints && !s.endpoints[e].closing
      then Detached(s.handles, t.handles, s.endpoints[e].refs) && t.bound == s.bound && SameElse(s, t)
      else t == s
  }

  lemma CloseMeans(s: State, h: HandleId)
    requires Agree(s, {}, {}) && h in s.handles
    ensures if s.handles[h].closing then Closed(s, h) == s else Only(s, h, Handle(None, None, true, false), multiset{}, Closed(s, h))
  {
    hide SameElse;
    ClosedKeeps(s, h, {}, {});
    ClosedSame(s, h);
  }

  lemma ReadySame(s: State, h: HandleId, t: State)
    requires h in s.handles && h in t.handles && t == s.(handles := s.handles[h := t.handles[h]])
    ensures SameElse(s, t) && t.bound == s.bound + multiset{}
  {
  }

  lemma BoundSame(s: State, h: HandleId, c: ConnectorId)
    requires h in s.handles && c in s.connectors
    ensures SameElse(s, BoundState(s, h, c))
  {
  }

  lemma AttachedSame(s: State, h: HandleId, e: EndpointId)
    requires h in s.handles && e in s.endpoints
    ensures SameElse(s, AttachedState(s, h, e))
  {
  }

  lemma MovedMeans(s: State, h: HandleId, c: ConnectorId)
    requires Agree(s, {}, {}) && h in s.handles && c in s.connectors
    ensures Does(s, ConnectorBound(h, c), MovedTo(s, h, c))
  {
    hide SameElse, ConnectorsAgree, EndpointsAgree, ClosedOnce;
    if !(s.connectors[c].destroying || s.handles[h].connector == Some(c)) {
      if s.handles[h].connector.None? {
        BoundSame(s, h, c);
      } else {
        var t := OffConnector(OffFirst(s, h), h);
        UnbindConnectorKeeps(s, h, {}, {});
        UnboundSame(s, h);
        SameElseKeys(s, t);
        BoundSame(t, h, c);
        SameElseTwice(s, t, BoundState(t, h, c));
      }
    }
  }

  lemma AttachedMeans(s: State, h: HandleId, e: EndpointId)
    requires Agree(s, {}, {}) && h in s.handles && e in s.endpoints
    ensures Does(s, EndpointBound(h, e), AttachedTo(s, h, e))
  {
    hide SameElse, ConnectorsAgree, EndpointsAgree, ClosedOnce, Closed, OffEndpoint;
    if !(s.endpoints[e].closing || s.handles[h].endpoint == Some(e)) {
      if s.handles[h].endpoint.None? {
        AttachedSame(s, h, e);
      } else {
        DetachedSame(s, h);
        var t := Closed(OffEndpoint(s, h), h);
        UnbindEndpointKeeps(s, h, {}, {});
        SameElseKeys(s, t);
        AttachedSame(t, h, e);
        SameElseTwice(s, t, AttachedState(t, h, e));
      }
    }
  }

  lemma SameElseKeys(s: State, t: State)
    requires SameElse(s, t)
    ensures t.connectors.Keys == s.connectors.Keys && t.endpoints.Keys == s.endpoints.Keys
  {
  }

  lemma UnboundMeans(s: State, h: HandleId)
    requires Agree(s, {}, {}) && h in s.handles
    ensures h in OffEndpoint(s, h).handles
    ensures Only(s, h, if s.handles[h].closing then s.handles[h].(endpoint := None) else Handle(None, None, true, false), multiset{},
                 Closed(OffEndpoint(s, h), h))
  {
    hide SameElse;
    UnbindEndpointKeeps(s, h, {}, {});
    DetachedSame(s, h);
  }

  /** The handles in s have no connector any more and are closed, those that were not closing without an
      endpoint as well; the others are as they were. */
  ghost predicate Released(was: map<HandleId, Handle>, now: map<HandleId, Handle>, s: set<HandleId>) {
    && now.Keys == was.Keys
    && (forall h :: h in s && h in was ==> now[h] == if was[h].closing then was[h].(connector := None) else Handle(None, None, true, false))
    && (forall h :: h in was && h !in s ==> now[h] == was[h])
  }

  ghost predicate Detached(was: map<HandleId, Handle>, now: map<HandleId, Handle>, s: set<HandleId>) {
    && now.Keys == was.Keys
    && (forall h :: h in s && h in was ==> now[h] == if was[h].closing then was[h].(endpoint := None) else Handle(None, None, true, false))
    && (forall h :: h in was && h !in s ==> now[h] == was[h])
  }

  /** No connector or endpoint comes or goes or changes its flag, and a connector that is being destroyed is told
      of no closing. */
  ghost predicate SameElse(s: State, t: State) {
    && t.connectors.Keys == s.connectors.Keys && t.endpoints.Keys == s.endpoints.Keys
    && (forall c :: c in s.connectors ==> t.connectors[c].destroying == s.connectors[c].destroying)
    && (forall e :: e in s.endpoints ==> t.endpoints[e].closing == s.endpoints[e].closing)
    && (forall h, c :: c in s.connectors && s.connectors[c].destroying ==> t.closed[(h, c)] == s.closed[(h, c)])
  }

  lemma SameElseTwice(s: State, t: State, u: State)
    requires SameElse(s, t) && SameElse(t, u)
    ensures SameElse(s, u)
  {
  }

  lemma OffSame(s: State, h: HandleId)
    requires h in s.handles
    ensures SameElse(s, OffConnector(s, h)) && SameElse(s, OffEndpoint(s, h)) && SameElse(s, Shut(s, h))
    ensures OffConnector(s, h).bound == OffEndpoint(s, h).bound == Shut(s, h).bound == s.bound
    ensures h in OffConnector(s, h).handles && h in OffEndpoint(s, h).handles && h in Shut(s, h).handles
  {
  }

  lemma ClosedSame(s: State, h: HandleId)
    requires h in s.handles
    ensures SameElse(s, Closed(s, h)) && Closed(s, h).bound == s.bound
    ensures SameElse(s, OffFirst(s, h)) && OffFirst(s, h).bound == s.bound && h in OffFirst(s, h).handles
  {
    hide SameElse, OffConnector, OffEndpoint, Shut;
    var a := Shut(s, h);
    OffSame(s, h);
    var b := OffEndpoint(a, h);
    OffSame(a, h);
    SameElseTwice(s, a, b);
    OffSame(b, h);
    SameElseTwice(s, b, OffConnector(b, h));
    SameElseNot(s);
  }

  lemma UnboundSame(s: State, h: HandleId)
    requires h in s.handles
    ensures h in OffFirst(s, h).handles
    ensures SameElse(s, OffConnector(OffFirst(s, h), h)) && OffConnector(OffFirst(s, h), h).bound == s.bound
  {
    hide SameElse, OffConnector, OffFirst;
    ClosedSame(s, h);
    OffSame(OffFirst(s, h), h);
    SameElseTwice(s, OffFirst(s, h), OffConnector(OffFirst(s, h), h));
  }

  lemma DetachedSame(s: State, h: HandleId)
    requires h in s.handles
    ensures h in OffEndpoint(s, h).handles
    ensures SameElse(s, Closed(OffEndpoint(s, h), h)) && Closed(OffEndpoint(s, h), h).bound == s.bound
  {
    hide SameElse, OffEndpoint, Closed;
    OffSame(s, h);
    ClosedSame(OffEndpoint(s, h), h);
    SameElseTwice(s, OffEndpoint(s, h), Closed(OffEndpoint(s, h), h));
  }

  lemma ReleasedNone(hs: map<HandleId, Handle>)
    ensures Released(hs, hs, {})
  {
  }

  lemma SameElseNot(s: State)
    ensures SameElse(s, s)
  {
  }

  /** The handle has been closed but still points at its connector. */
  function OffFirst(s: State, h: HandleId): State
    requires h in s.handles
  {
    if s.handles[h].closing then s else OffEndpoint(Shut(s, h), h)
  }

  /** The handle points at no connector, and is off the list of the one it had. */
  function Left(s: State, h: HandleId, c: ConnectorId): State
    requires h in s.handles && c in s.connectors
  {
    s.(handles := s.handles[h := s.handles[h].(connector := None)],
       connectors := s.connectors[c := s.connectors[c].(handles := s.connectors[c].handles - {h})])
  }

  lemma OffIsLeft(s: State, h: HandleId, c: ConnectorId)
    requires h in s.handles && c in s.connectors && s.handles[h].connector == Some(c)
    ensures OffConnector(Left(s, h, c), h) == Left(s, h, c)
    ensures OffConnector(s, h) ==
      if s.connectors[c].destroying then Left(s, h, c) else Left(s, h, c).(closed := s.closed + multiset{(h, c)})
  {
  }

  lemma LeftFirst(s: State, h: HandleId, c: ConnectorId)
    requires h in s.handles && c in s.connectors
    ensures OffEndpoint(Shut(Left(s, h, c), h), h) == Left(OffEndpoint(Shut(s, h), h), h, c)
  {
    var one, two := OffEndpoint(Shut(Left(s, h, c), h), h), Left(OffEndpoint(Shut(s, h), h), h, c);
    assert one.handles == two.handles;
  }

  /** Leaving the connector before closing comes to the same as after. */
  lemma ClosesAfterLeaving(s: State, h: HandleId, c: ConnectorId)
    requires h in s.handles && c in s.connectors && s.handles[h].connector == Some(c)
    ensures var s' := Closed(Left(s, h, c), h);
      && c in s'.connectors && s'.connectors[c].destroying == s.connectors[c].destroying
      && OffConnector(OffFirst(s, h), h) == if s.connectors[c].destroying then s' else s'.(closed := s'.closed + multiset{(h, c)})
  {
    hide OffConnector;
    LeftFirst(s, h, c);
    OffIsLeft(OffFirst(s, h), h, c);
  }

  // ---------------------------------------------------------------- what each call keeps

  /** Only the connector side of the handles matters to the connectors. */
  ghost predicate SameConnectors(s: State, s': State) {
    && s'.connectors == s.connectors && s'.bound == s.bound && s'.closed == s.closed
    && s'.handles.Keys == s.handles.Keys
    && (forall h {:trigger s'.handles[h].connector} {:trigger s.handles[h].connector} :: h in s.handles ==> s'.handles[h].connector == s.handles[h].connector)
  }

  lemma ConnectorsFrame(s: State, s': State, loose: set<HandleId>)
    requires SameConnectors(s, s') && ConnectorsAgree(s, loose)
    ensures ConnectorsAgree(s', loose)
  {
    forall h | h in s'.handles && s'.handles[h].connector.Some?
      ensures var c := s'.handles[h].connector.value; c in s'.connectors && (h in s'.connectors[c].handles || h in loose)
    {
      assert s.handles[h].connector == s'.handles[h].connector;
    }
    forall c, h | c in s'.connectors && h in s'.connectors[c].handles ensures h in s'.handles && s'.handles[h].connector == Some(c) {
      assert h in s.connectors[c].handles;
      assert s.handles[h].connector == Some(c);
    }
  }

  lemma ClosedFrame(s: State, s': State)
    requires SameConnectors(s, s') && ClosedOnce(s)
    ensures ClosedOnce(s')
  {
    forall h, c
      ensures c in s'.connectors && !s'.connectors[c].destroying ==>
        s'.bound[(h, c)] == s'.closed[(h, c)] + if h in s'.handles && s'.handles[h].connector == Some(c) then 1 else 0
      ensures c !in s'.connectors ==> s'.bound[(h, c)] == 0 && s'.closed[(h, c)] == 0
    {
      assert s.bound[(h, c)] == s'.bound[(h, c)];
    }
  }

  ghost predicate SameEndpoints(s: State, s': State) {
    && s'.endpoints == s.endpoints && s'.handles.Keys == s.handles.Keys
    && (forall h {:trigger s'.handles[h].endpoint} {:trigger s.handles[h].endpoint} :: h in s.handles ==> s'.handles[h].endpoint == s.handles[h].endpoint)
  }

  lemma EndpointsFrame(s: State, s': State, loose: set<HandleId>)
    requires SameEndpoints(s, s') && EndpointsAgree(s, loose)
    ensures EndpointsAgree(s', loose)
  {
    forall h | h in s'.handles && s'.handles[h].endpoint.Some?
      ensures var e := s'.handles[h].endpoint.value; e in s'.endpoints && (h in s'.endpoints[e].refs || h in loose)
    {
      assert s.handles[h].endpoint == s'.handles[h].endpoint;
    }
    forall e, h | e in s'.endpoints && h in s'.endpoints[e].refs ensures h in s'.handles && s'.handles[h].endpoint == Some(e) {
      assert h in s.endpoints[e].refs;
      assert s.handles[h].endpoint == Some(e);
    }
  }

  lemma OffConnectorKeeps(s: State, h: HandleId, looseC: set<HandleId>, looseE: set<HandleId>)
    requires h in s.handles && Agree(s, looseC, looseE)
    ensures var s' := OffConnector(s, h);
      Agree(s', looseC - {h}, looseE) && s'.handles == s.handles[h := s.handles[h].(connector := None)]
  {
    EndpointsFrame(s, OffConnector(s, h), looseE);
  }

  lemma OffEndpointKeeps(s: State, h: HandleId, looseC: set<HandleId>, looseE: set<HandleId>)
    requires h in s.handles && Agree(s, looseC, looseE)
    ensures var s' := OffEndpoint(s, h);
      Agree(s', looseC, looseE - {h}) && s'.handles == s.handles[h := s.handles[h].(endpoint := None)]
  {
    ConnectorsFrame(s, OffEndpoint(s, h), looseC);
    ClosedFrame(s, OffEndpoint(s, h));
  }

  lemma ShutKeeps(s: State, h: HandleId, looseC: set<HandleId>, looseE: set<HandleId>)
    requires h in s.handles && Agree(s, looseC, looseE)
    ensures Agree(Shut(s, h), looseC, looseE)
  {
    ConnectorsFrame(s, Shut(s, h), looseC);
    ClosedFrame(s, Shut(s, h));
    EndpointsFrame(s, Shut(s, h), looseE);
  }

  lemma OffFirstKeeps(s: State, h: HandleId, looseC: set<HandleId>, looseE: set<HandleId>)
    requires h in s.handles && Agree(s, looseC, looseE)
    ensures Agree(OffFirst(s, h), looseC, looseE)
    ensures OffFirst(s, h).handles == s.handles[h := OffFirst(s, h).handles[h]]
    ensures OffFirst(s, h).handles[h] == if s.handles[h].closing then s.handles[h] else Handle(s.handles[h].connector, None, true, false)
  {
    if !s.handles[h].closing {
      ShutKeeps(s, h, looseC, looseE);
      OffEndpointKeeps(Shut(s, h), h, looseC, looseE);
      LooseMore(OffFirst(s, h), looseC, looseC, looseE - {h}, looseE);
    }
  }

  lemma LooseMore(s: State, a: set<HandleId>, a': set<HandleId>, b: set<HandleId>, b': set<HandleId>)
    requires Agree(s, a, b) && a <= a' && b <= b'
    ensures Agree(s, a', b')
  {
  }

  lemma ClosedKeeps(s: State, h: HandleId, looseC: set<HandleId>, looseE: set<HandleId>)
    requires h in s.handles && Agree(s, looseC, looseE)
    ensures Agree(Closed(s, h), looseC, looseE)
    ensures Closed(s, h).handles == s.handles[h := Closed(s, h).handles[h]]
    ensures !s.handles[h].closing ==> Closed(s, h).handles[h] == Handle(None, None, true, false)
    ensures Closed(s, h).handles[h].closing
  {
    if !s.handles[h].closing {
      var mid := OffEndpoint(Shut(s, h), h);
      ShutKeeps(s, h, looseC, looseE);
      OffEndpointKeeps(Shut(s, h), h, looseC, looseE);
      OffConnectorKeeps(mid, h, looseC, looseE - {h});
      LooseMore(Closed(s, h), looseC - {h}, looseC, looseE - {h}, looseE);
    }
  }

  lemma UnbindConnectorKeeps(s: State, h: HandleId, looseC: set<HandleId>, looseE: set<HandleId>)
    requires h in s.handles && Agree(s, looseC, looseE)
    ensures var s' := OffConnector(OffFirst(s, h), h);
      && Agree(s', looseC - {h}, looseE)
      && s'.handles == s.handles[h := s'.handles[h]]
      && s'.handles[h] == if s.handles[h].closing then s.handles[h].(connector := None) else Handle(None, None, true, false)
  {
    OffFirstKeeps(s, h, looseC, looseE);
    OffConnectorKeeps(OffFirst(s, h), h, looseC, looseE);
  }

  lemma UnbindEndpointKeeps(s: State, h: HandleId, looseC: set<HandleId>, looseE: set<HandleId>)
    requires h in s.handles && Agree(s, looseC, looseE)
    ensures var s' := Closed(OffEndpoint(s, h), h);
      && Agree(s', looseC, looseE - {h})
      && s'.handles == s.handles[h := s'.handles[h]]
      && s'.handles[h] == if s.handles[h].closing then s.handles[h].(endpoint := None) else Handle(None, None, true, false)
  {
    OffEndpointKeeps(s, h, looseC, looseE);
    ClosedKeeps(OffEndpoint(s, h), h, looseC, looseE - {h});
  }

  function BoundState(s: State, h: HandleId, c: ConnectorId): State
    requires h in s.handles && c in s.connectors
  {
    s.(handles := s.handles[h := s.handles[h].(connector := Some(c))],
       connectors := s.connectors[c := s.connectors[c].(handles := s.connectors[c].handles + {h})],
       bound := s.bound + multiset{(h, c)})
  }

  lemma BoundKeeps(s: State, h: HandleId, c: ConnectorId)
    requires Agree(s, {}, {}) && h in s.handles && s.handles[h].connector.None? && c in s.connectors
    ensures Agree(BoundState(s, h, c), {}, {})
  {
    EndpointsFrame(s, BoundState(s, h, c), {});
  }

  function AttachedState(s: State, h: HandleId, e: EndpointId): State
    requires h in s.handles && e in s.endpoints
  {
    s.(handles := s.handles[h := s.handles[h].(endpoint := Some(e))],
       endpoints := s.endpoints[e := s.endpoints[e].(refs := s.endpoints[e].refs + {h})])
  }

  lemma AttachedKeeps(s: State, h: HandleId, e: EndpointId)
    requires Agree(s, {}, {}) && h in s.handles && s.handles[h].endpoint.None? && e in s.endpoints
    ensures Agree(AttachedState(s, h, e), {}, {})
  {
    ConnectorsFrame(s, AttachedState(s, h, e), {});
    ClosedFrame(s, AttachedState(s, h, e));
  }

  // ---------------------------------------------------------------- moving from one to another

  /** h bound to c: it first leaves, and is closed by, the connector it had. */
  function MovedTo(s: State, h: HandleId, c: ConnectorId): State
    requires h in s.handles && c in s.connectors
  {
    if s.handles[h].connector == Some(c) || s.connectors[c].destroying then s
    else if s.handles[h].connector.None? then BoundState(s, h, c)
    else
      var t := OffConnector(OffFirst(s, h), h);
      if h in t.handles && c in t.connectors then BoundState(t, h, c) else t
  }

  function AttachedTo(s: State, h: HandleId, e: EndpointId): State
    requires h in s.handles && e in s.endpoints
  {
    if s.endpoints[e].closing || s.handles[h].endpoint == Some(e) then s
    else if s.handles[h].endpoint.None? then AttachedState(s, h, e)
    else
      var t := Closed(OffEndpoint(s, h), h);
      if h in t.handles && e in t.endpoints then AttachedState(t, h, e) else t
  }

  /** A handle that goes from one connector to another: no other handle changes, one binding is made, and
      one is reported closed unless the old connector is being destroyed. */
  lemma MoveAccounts(s: State, h: HandleId, c: ConnectorId, was: ConnectorId)
    requires Agree(s, {}, {}) && h in s.handles && c in s.connectors && !s.connectors[c].destroying
    requires s.handles[h].connector == Some(was) && was != c
    ensures var t := MovedTo(s, h, c);
      && BoundTo(t, h, c) && t.handles == s.handles[h := t.handles[h]]
      && t.handles[h].closing && (!s.handles[h].closing ==> t.handles[h].endpoint.None?)
      && t.bound == s.bound + multiset{(h, c)}
      && t.closed == if s.connectors[was].destroying then s.closed else s.closed + multiset{(h, was)}
  {
    hide ConnectorsAgree, EndpointsAgree, ClosedOnce;
    ConnectorOf(s, h);
    UnbindConnectorKeeps(s, h, {}, {});
    OffFirstConnectors(s, h);
  }

  lemma ConnectorOf(s: State, h: HandleId)
    requires Agree(s, {}, {}) && h in s.handles && s.handles[h].connector.Some?
    ensures s.handles[h].connector.value in s.connectors && EndpointIsThere(s, h)
  {
  }

  lemma OffFirstConnectors(s: State, h: HandleId)
    requires h in s.handles
    ensures var t := OffFirst(s, h);
      && h in t.handles && t.connectors == s.connectors && t.bound == s.bound && t.closed == s.closed
      && t.handles[h].connector == s.handles[h].connector && (!s.handles[h].closing && EndpointIsThere(s, h) ==> t.handles[h].endpoint.None?)
  {
  }

  predicate EndpointIsThere(s: State, h: HandleId)
    requires h in s.handles
  {
    s.handles[h].endpoint.Some? ==> s.handles[h].endpoint.value in s.endpoints
  }

  /** A handle that goes from one endpoint to another is closed by the first, and so leaves its connector
      as well unless it was closing already. No other handle changes, and nothing is bound. */
  lemma AttachAccounts(s: State, h: HandleId, e: EndpointId, was: EndpointId)
    requires Agree(s, {}, {}) && h in s.handles && e in s.endpoints && !s.endpoints[e].closing
    requires s.handles[h].endpoint == Some(was) && was != e
    ensures var t := AttachedTo(s, h, e);
      && h in t.handles && t.handles[h].endpoint == Some(e) && t.handles == s.handles[h := t.handles[h]]
      && t.handles[h].closing && t.bound == s.bound
      && (t.handles[h].connector.None? <==> !s.handles[h].closing || s.handles[h].connector.None?)
      && (s.handles[h].closing ==> t.closed == s.closed)
  {
    UnbindEndpointKeeps(s, h, {}, {});
  }

  /** Closing leaves a handle without a connector if and only if it was not closing already, or had none;
      and the same for its endpoint. */
  lemma CloseUnbinds(s: State, h: HandleId)
    requires Agree(s, {}, {}) && h in s.handles
    ensures var now, was := Closed(s, h).handles[h], s.handles[h];
      && (now.connector.None? <==> !was.closing || was.connector.None?)
      && (now.endpoint.None? <==> !was.closing || was.endpoint.None?)
      && now.closing
  {
    ClosedKeeps(s, h, {}, {});
  }

  /** A handle that has gone from one connector to another is closing while it is bound, so that closing it
      does nothing. */
  lemma MovedIsNotClosed(s: State, h: HandleId, c: ConnectorId, was: ConnectorId)
    requires Agree(s, {}, {}) && h in s.handles && c in s.connectors && !s.connectors[c].destroying
    requires s.handles[h].connector == Some(was) && was != c
    ensures var t := MovedTo(s, h, c); h in t.handles && BoundTo(Closed(t, h), h, c) && Closed(t, h) == t
  {
    MoveAccounts(s, h, c, was);
  }

  lemma OffConnectorEmpties(s: State, h: HandleId, c: ConnectorId)
    requires h in s.handles && c in s.connectors && s.connectors[c].handles == {}
    ensures c in OffConnector(s, h).connectors && OffConnector(s, h).connectors[c].handles == {}
  {
  }

  lemma SwappedOut(s: State, c: ConnectorId)
    requires Agree(s, {}, {}) && c in s.connectors
    ensures Agree(s.(connectors := s.connectors[c := s.connectors[c].(handles := {})]), s.connectors[c].handles, {})
    ensures forall h :: h in s.connectors[c].handles ==> BoundTo(s, h, c)
  {
    var s' := s.(connectors := s.connectors[c := s.connectors[c].(handles := {})]);
    EndpointsFrame(s, s', {});
    SwapClosed(s, c);
  }

  lemma SwapClosed(s: State, c: ConnectorId)
    requires ClosedOnce(s) && c in s.connectors
    ensures ClosedOnce(s.(connectors := s.connectors[c := s.connectors[c].(handles := {})]))
  {
    var cs := s.connectors[c := s.connectors[c].(handles := {})];
    forall h, d
      ensures d in cs && !cs[d].destroying ==>
        s.bound[(h, d)] == s.closed[(h, d)] + if h in s.handles && s.handles[h].connector == Some(d) then 1 else 0
      ensures d !in cs ==> s.bound[(h, d)] == 0 && s.closed[(h, d)] == 0
    {
      assert d in cs <==> d in s.connectors;
      assert s.bound[(h, d)] >= 0;
    }
  }

  lemma SwapSame(s: State, c: ConnectorId)
    requires c in s.connectors
    ensures SameElse(s, s.(connectors := s.connectors[c := s.connectors[c].(handles := {})]))
  {
  }

  lemma RefsSwappedOut(s: State, e: EndpointId)
    requires Agree(s, {}, {}) && e in s.endpoints
    ensures Agree(s.(endpoints := s.endpoints[e := Endpoint({}, true)]), {}, s.endpoints[e].refs)
  {
    var s' := s.(endpoints := s.endpoints[e := Endpoint({}, true)]);
    ConnectorsFrame(s, s', {});
    ClosedFrame(s, s');
  }

  lemma ReopenKeeps(s: State, e: EndpointId)
    requires Agree(s, {}, {}) && e in s.endpoints && s.endpoints[e].refs == {}
    ensures Agree(s.(endpoints := s.endpoints[e := Endpoint({}, false)]), {}, {})
  {
    var s' := s.(endpoints := s.endpoints[e := Endpoint({}, false)]);
    ConnectorsFrame(s, s', {});
    ClosedFrame(s, s');
  }
}
