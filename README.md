# yew-elsewhere relay registry in Dafny

This project models `yew-elsewhere`, a named-channel relay for UI content. A
sender passes a piece of `Html` to a channel name. If a receiver component
(`Elsewhere`) is registered under that name, its callback is invoked with the
content at once. Otherwise the registry (`ElsewhereService`) buffers the content
until a receiver registers under the name, and hands it over then.

- `service.dfy`, module `Service`: the registry.
  - The two maps as a value `State` (`callbacks`: name to sink; `cachedCalls`: name to
    buffered payload).
  - One function per operation: `Register`, `Unregister` and `Relay` (for `send`).
    Each returns an `Outcome`: the new maps, the payload handed back, the sink
    invocations made and the warnings logged. The contract of each states the
    operation's promises on every branch.
  - The class `ElsewhereService`, which updates the two maps in place. Its methods are
    proved equal to those functions. Two ghost logs record every `callback.emit` and
    every `log::warn!`.
  - An independent reference machine for the life cycle of one channel name:
    `Unregistered`, `Pending(p)`, `Active(sink)`. Lemmas prove that every fully
    locked step from a state where no name is both active and buffered acts on its
    own name as that machine does. They also prove that any
    fully locked trace, started from a state where no name is both active and
    buffered, acts on each name as the machine run on that name's calls alone.
  - The invariant that no name is both active and buffered (`Disjoint`), preserved
    along traces without a half-locked registration.
  - Facts about the sink invocations and warnings a trace collects: it delivers only
    payloads that its `send` calls passed in, at most one per `send`, and with every
    lock obtained it reports no lock failure.
- `component.dfy`, module `Component`: the receiver component `Elsewhere`. Its
  hooks `create`, `change`, `update`, `view` and `destroy` are modelled over the fields
  `props` and `current_body`, as a client of the registry class. Lemmas cover
  re-addressing a receiver (`Readdress`). The method `ReceiverPicksUpBufferedContent`
  uses only the two classes' contracts to show a receiver taking over content sent
  before it existed, following its name to a channel with content waiting, and
  leaving the registry empty when destroyed.

Lock acquisition is an input. `Locks(callbacks, cache)` says whether the lock on each
map could be taken. A failed lock makes the operation a no-op with a warning, with one
exception, `register_component` at src/service.rs:49-53: when the callbacks lock is
taken but the cache lock is not, the sink is installed, `None` is returned, any
buffered payload for the name stays in the cache, and no warning is logged. That
branch is the only way to break `Disjoint` (`HalfLockedRegisterBreaksDisjoint`).

## Model

| member | source | states |
|---|---|---|
| `Service.ElsewhereService.Init` | src/service.rs:23-28 | a fresh registry has no receivers, no buffered payloads, and satisfies the invariant |
| `Service.Register` | src/service.rs:39-62 | a taken name or an unavailable callbacks lock: maps unchanged, `None`, a duplicate or lock warning; otherwise the sink is installed under the name, no other receiver or buffered entry changes, and the buffered payload is removed and returned exactly when one exists and the cache lock was taken, else the cache is unchanged |
| `Service.ElsewhereService.RegisterComponent` | src/service.rs:39-62 | the in-place update yields exactly `Register`'s new maps, returned payload and warnings, emits nothing, and keeps the invariant unless only the callbacks lock is taken |
| `Service.Unregister` | src/service.rs:67-75 | with the lock, the name is no longer active and no other receiver changes; a warning is logged exactly when the name was not active, and then nothing changes; the cache is never touched |
| `Service.ElsewhereService.UnregisterComponent` | src/service.rs:67-75 | the in-place update yields exactly `Unregister`'s new maps and warnings and keeps the invariant |
| `Service.Relay` | src/service.rs:78-106 | a registered target's sink is invoked exactly once with the payload and the maps do not change; an unregistered target gets the payload buffered, replacing any earlier one, with a lost-update warning exactly when one was replaced; callbacks never change; a failed lock drops the update with a warning |
| `Service.ElsewhereService.Send` | src/service.rs:78-106 | the in-place update yields exactly `Relay`'s new maps, appends its sink invocations to the delivery log and its warnings to the warning log, and keeps the invariant |
| `Service.StepPreservesDisjoint` | src/service.rs:44-92 | every operation, except a registration that takes the callbacks lock but not the cache lock, keeps "no name both active and buffered" |
| `Service.HalfLockedRegisterBreaksDisjoint` | src/service.rs:48-53 | registering a buffered name when only the callbacks lock is taken returns nothing, logs no warning, installs the sink and keeps the buffered payload, so the name is both active and buffered |
| `Service.RunPreservesDisjoint` | src/service.rs:39-106 | along any sequence of calls that avoids the half-locked registration, the invariant holds in the end |
| `Service.StepRefinesTransition` | src/service.rs:39-106 | from a state where no name is both active and buffered, with all locks taken, each operation changes its own name's channel as the reference life cycle does (same payload returned, same sink invocations) and leaves every other name's channel as it was |
| `Service.RunIsPerChannel` | src/service.rs:39-106 | after any fully locked sequence of calls from a state where no name is both active and buffered, each name's channel is what the reference life cycle reaches on the calls addressed to that name alone |
| `Service.RunDeliversOnlySentPayloads` | src/service.rs:78-82 | along any sequence of calls, sinks are invoked at most once per `send`, and only with payloads that the sequence's `send` calls passed in |
| `Service.FullyLockedRunReportsNoLockFailure` | src/service.rs:58-105 | along any sequence of calls in which every lock is obtained, no lock-failure warning is logged |
| `Service.SendThenRegisterHandsOver` | src/service.rs:44-92 | `send(n, p)` to an inactive name invokes no sink, and a following `register(n, k)` returns `p`, makes `n` active with `k` and leaves nothing buffered for `n` |
| `Service.LastWriteWins` | src/service.rs:49-92 | two sends to an inactive name report the overwrite, and a later registration returns only the second payload |
| `Service.FirstRegistrationWins` | src/service.rs:44-82 | a second registration under an active name is refused with a warning, and a later send invokes only the first sink |
| `Service.UnregisterIdempotent` | src/service.rs:67-75 | unregistering twice leaves the same maps as once, and the second call reports a spurious unregistration |
| `Service.EndToEnd` | src/service.rs:39-106 | register "A" with S1 (nothing returned), send "hello" (S1 invoked), unregister, send "world" (buffered, nothing invoked), register "A" with S2 (returns "world"; only "A" to S2 remains) |
| `Component.Elsewhere.Create` | src/component.rs:23-33 | registers `props.name` with the fresh callback and shows the returned payload, or the empty fragment |
| `Component.Elsewhere.Change` | src/component.rs:35-48 | re-renders exactly when the name changed; an unchanged name leaves the props, the body and the registry untouched; a new name unregisters the old name, registers the new one, stores the new props, and shows the returned payload or the empty fragment |
| `Component.ReaddressMovesRegistration` | src/component.rs:36-44 | moving a registered receiver to a free name releases the old name, routes the new name to the new sink, takes over what was buffered for the new name as the body, changes no other name and keeps the invariant |
| `Component.ReaddressOntoActiveName` | src/component.rs:36-44 | moving onto a name another receiver holds releases the old name, is refused for the new one, leaves the other receiver in place and shows the empty fragment |
| `Component.Elsewhere.Update` | src/component.rs:50-55 | a delivered payload becomes the body, the props stay, and the result is always "re-render" |
| `Component.Elsewhere.View` | src/component.rs:57-59 | renders the current body |
| `Component.Elsewhere.Destroy` | src/component.rs:61-63 | unregisters `props.name`; with the lock, the name is no longer active afterwards |
| `Component.DestroyAfterRefusedCreate` | src/component.rs:61-63 | a component whose registration was refused because its name was taken still unregisters that name on destroy, and so removes the other receiver's registration |

## Left out

- The `RwLock`s themselves: poisoning, contention and concurrent interleavings. Each lock acquisition is an input (`Locks`). `send` releases its read lock before it takes the cache lock (src/service.rs:85-89), so a registration could slip in between; this is not modelled, because each operation is one atomic step here. `send` invokes the sink while it still holds the callbacks read lock (src/service.rs:79-82); a sink that calls back into the registry from inside that invocation is not modelled either, since a delivery is only an entry in the delivery log.
- The `thread_local!` / `Lazy` / `Arc` singleton and `ElsewhereService::get` (src/service.rs:18-20, 31-33): the registry object is passed to each component hook explicitly.
- `log::warn!` output: each warning is recorded as a `Warning` value in a ghost log, not as text.
- yew: `Html` rendering and the `html!` macro, `ComponentLink::callback`, and how `Callback::emit` schedules the component's `update`. Content is an opaque `Html<C>` with a distinguished empty fragment. A fresh callback is a `SinkId` supplied by the caller. An emission is an entry in the delivery log. Routing that entry into the receiving component's `update` is the framework's job and is not modelled.
- The `link` field of `Elsewhere`: it only creates callbacks, which are supplied as `SinkId`s.
- src/lib.rs holds documentation and re-exports only.
