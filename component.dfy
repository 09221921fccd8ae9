/** The receiver adapter (`Elsewhere`): a UI component that registers itself with the
    registry under `props.name`, shows the payload it last received, moves its
    registration when its name changes and unregisters when it is destroyed.

    Only the registry-facing state is modelled: the properties (`props`, of which the
    name is the only field) and the current body. The component's notification sink is
    the fresh callback its link creates for each registration; it is passed in as a
    `SinkId`. The registry is the one shared `ElsewhereService` object, passed to each
    hook. */
module Component {
  import opened Service

  /** Renderable content: opaque, except that `html! {}` (the empty fragment) is shown
      when there is nothing to show. */
  datatype Html<C> = EmptyFragment | Fragment(content: C)

  datatype Props = Props(name: string)

  datatype Msg<C> = UpdateBody(body: Html<C>)

  /** The body shown after a registration: the payload it handed back, else empty. */
  function OrEmpty<C>(r: Option<Html<C>>): Html<C>
  {
    match r
    case Some(h) => h
    case None => EmptyFragment
  }

  /** The registry effect of `change` with a new name: unregister the old name, then
      register the new one. */
  function Readdress<C>(s: State<Html<C>>, from: string, to: string, sink: SinkId,
                        unregisterLocks: Locks, registerLocks: Locks): Outcome<Html<C>>
  {
    var u := Unregister(s, from, unregisterLocks);
    var r := Register(u.state, to, sink, registerLocks);
    Outcome(r.state, r.returned, [], u.warnings + r.warnings)
  }

  /** Re-addressing a registered receiver to a free name moves its registration: the
      old name is released, the new name routes to the new sink, whatever was buffered
      for the new name becomes the body, no other name changes and the registry stays
      consistent. */
  lemma ReaddressMovesRegistration<C>(s: State<Html<C>>, from: string, to: string, sink: SinkId)
    requires Disjoint(s)
    requires from != to && from in s.callbacks && to !in s.callbacks
    ensures var o := Readdress(s, from, to, sink, AllAcquired, AllAcquired);
            && o.warnings == []
            && from !in o.state.callbacks
            && to in o.state.callbacks && o.state.callbacks[to] == sink
            && to !in o.state.cachedCalls
            && OrEmpty(o.returned) == (if to in s.cachedCalls then s.cachedCalls[to] else EmptyFragment)
            && o.state.callbacks - {from, to} == s.callbacks - {from, to}
            && o.state.cachedCalls - {to} == s.cachedCalls - {to}
            && Disjoint(o.state)
  {
  }

  /** Re-addressing onto a name another receiver holds: the old registration is
      released, the new one is refused, so the component is left reachable under no
      name and shows the empty fragment; the other receiver keeps the name. */
  lemma ReaddressOntoActiveName<C>(s: State<Html<C>>, from: string, to: string, sink: SinkId)
    requires from != to && to in s.callbacks
    ensures var o := Readdress(s, from, to, sink, AllAcquired, AllAcquired);
            && from !in o.state.callbacks
            && to in o.state.callbacks && o.state.callbacks[to] == s.callbacks[to]
            && OrEmpty(o.returned) == EmptyFragment
            && DuplicateRegistration(to) in o.warnings
  {
  }

  /** A component whose `create` was refused because its name was taken still
      unregisters that name on `destroy`, and so removes the other receiver's
      registration. */
  lemma DestroyAfterRefusedCreate<C>(s: State<Html<C>>, name: string, sink: SinkId)
    requires name in s.callbacks
    ensures var c := Register(s, name, sink, AllAcquired);
            var d := Unregister(c.state, name, AllAcquired);
            && OrEmpty(c.returned) == EmptyFragment
            && c.warnings == [DuplicateRegistration(name)]
            && d.warnings == []
            && name !in d.state.callbacks
  {
  }

  class Elsewhere<C> {
    var props: Props
    var currentBody: Html<C>

    /** `create`: register under `props.name` with a fresh callback and show what was
        buffered for that name, or nothing. */
    constructor Create(props: Props, callback: SinkId, service: ElsewhereService<Html<C>>, locks: Locks)
      modifies service
      ensures this.props == props
      ensures var o := Register(old(service.Snapshot()), props.name, callback, locks);
              && service.Snapshot() == o.state
              && currentBody == OrEmpty(o.returned)
              && service.warnings == old(service.warnings) + o.warnings
      ensures service.emitted == old(service.emitted)
    {
      var body := service.RegisterComponent(props.name, callback, locks);
      this.props := props;
      this.currentBody := OrEmpty(body);
    }

    /** `change`: only a new name matters; it moves the registration and replaces the
        body with what the new registration hands back. */
    method Change(props: Props, callback: SinkId, service: ElsewhereService<Html<C>>,
                  unregisterLocks: Locks, registerLocks: Locks) returns (shouldRender: bool)
      modifies this, service
      ensures shouldRender <==> props.name != old(this.props.name)
      ensures !shouldRender ==>
                this.props == old(this.props) && currentBody == old(currentBody) && unchanged(service)
      ensures shouldRender ==>
                var o := Readdress(old(service.Snapshot()), old(this.props.name), props.name, callback,
                                   unregisterLocks, registerLocks);
                && this.props == props
                && currentBody == OrEmpty(o.returned)
                && service.Snapshot() == o.state
                && service.warnings == old(service.warnings) + o.warnings
                && service.emitted == old(service.emitted)
    {
      if props.name != this.props.name {
        service.UnregisterComponent(this.props.name, unregisterLocks);
        var newBody := service.RegisterComponent(props.name, callback, registerLocks);
        this.props := props;
        currentBody := OrEmpty(newBody);
        shouldRender := true;
      } else {
        shouldRender := false;
      }
    }

    /** `update`: a delivered payload becomes the body; always re-render. */
    method Update(msg: Msg<C>) returns (shouldRender: bool)
      modifies this
      ensures shouldRender
      ensures currentBody == msg.body && props == old(props)
    {
      match msg {
        case UpdateBody(newBody) => currentBody := newBody;
      }
      shouldRender := true;
    }

    /** `view`: what is rendered is the current body. */
    method View() returns (body: Html<C>)
      ensures body == currentBody
    {
      body := currentBody;
    }

    /** `destroy`: release the name (the cleanup every receiver owes the registry). */
    method Destroy(service: ElsewhereService<Html<C>>, locks: Locks)
      modifies service
      ensures var o := Unregister(old(service.Snapshot()), props.name, locks);
              service.Snapshot() == o.state && service.warnings == old(service.warnings) + o.warnings
      ensures service.emitted == old(service.emitted)
      ensures locks.callbacks ==> props.name !in service.callbacks
    {
      service.UnregisterComponent(props.name, locks);
    }
  }

  /** A client of the two classes: a receiver created after content was sent to its
      name shows that content, follows its name to a channel with content waiting,
      and on destroy leaves the registry as it found it. */
  method ReceiverPicksUpBufferedContent<C>(a: C, b: C, sinkA: SinkId, sinkB: SinkId)
  {
    var service := new ElsewhereService<Html<C>>.Init();
    service.Send("tooltip", Fragment(a), AllAcquired);
    var receiver := new Elsewhere.Create(Props("tooltip"), sinkA, service, AllAcquired);
    var shown := receiver.View();
    assert shown == Fragment(a);

    service.Send("dialog", Fragment(b), AllAcquired);
    var render := receiver.Change(Props("dialog"), sinkB, service, AllAcquired, AllAcquired);
    shown := receiver.View();
    assert render && shown == Fragment(b);
    assert "tooltip" !in service.callbacks && service.callbacks["dialog"] == sinkB;
    assert service.warnings == [];

    receiver.Destroy(service, AllAcquired);
    assert service.Snapshot() == InitialState();
  }
}
