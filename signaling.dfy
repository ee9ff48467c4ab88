/**
 * The signaling relay of the service worker (`handleSignaling` and the two
 * one-shot slots `localPromise` / `remotePromise`), as a pure state machine.
 *
 * The slots are promises, and a promise settles only once: the first value
 * offered to a slot is kept and later ones are ignored. A `'get-local'` or
 * `'get-remote'` request that finds its slot empty waits; when the slot is
 * filled, every waiting request posts the value once. Re-arming the relay
 * (a new click) replaces both promises, so requests still waiting on the old
 * ones never complete. Posting after the ports were reset to `null` throws
 * inside the listener, so nothing is posted.
 */
module Signaling {
  import opened Wrappers

  /** A message on a relay port: a session description `{local, sdp}` / `{remote, sdp}`, or a bare string. */
  datatype Message = Description(local: bool, sdp: string) | Tag(name: string)

  const GetLocal: Message := Tag("get-local")
  const GetRemote: Message := Tag("get-remote")

  /**
   * The relay's state: whether `handleSignaling` is registered for external
   * connections, whether `globalThis.signaling` holds ports, the two slots,
   * the number of requests waiting on each, and what was posted to each port.
   */
  datatype Relay = Relay(
    listening: bool,
    connected: bool,
    local: Option<Message>,
    remote: Option<Message>,
    waitingLocal: nat,
    waitingRemote: nat,
    toRemote: seq<Message>,
    toLocal: seq<Message>)

  /** The state when the worker script starts. */
  const Initial: Relay := Relay(false, false, None, None, 0, 0, [], [])

  /** No request waits on a slot that is already filled. */
  predicate Valid(r: Relay) {
    (r.local.Some? ==> r.waitingLocal == 0) && (r.remote.Some? ==> r.waitingRemote == 0)
  }

  /** `n` copies of `m`. */
  function Repeat(m: Message, n: nat): (r: seq<Message>)
    ensures |r| == n
    ensures forall i :: 0 <= i < n ==> r[i] == m
  {
    if n == 0 then [] else Repeat(m, n - 1) + [m]
  }

  /** What a port has received after `n` listeners each post `m` to it. */
  function Post(out: seq<Message>, m: Message, n: nat, connected: bool): seq<Message> {
    if connected then out + Repeat(m, n) else out
  }

  /** The relay path of `handleClick`: register `handleSignaling` and create two fresh promises. */
  function Arm(r: Relay): Relay {
    r.(listening := true, local := None, remote := None, waitingLocal := 0, waitingRemote := 0)
  }

  /** An external connection, handled by `handleSignaling` only when it is registered. */
  function Connect(r: Relay): Relay {
    if r.listening then r.(connected := true) else r
  }

  /** A message on the remote port: `remoteResolve(message)`. */
  function ReceiveRemote(r: Relay, m: Message): Relay {
    if r.remote.Some? then r
    else r.(remote := Some(m),
             toLocal := Post(r.toLocal, m, r.waitingRemote, r.connected),
             waitingRemote := 0)
  }

  /** A message on the local port: fill the local slot, or serve a request. */
  function ReceiveLocal(r: Relay, m: Message): Relay {
    if m.Description? && m.local then
      if r.local.Some? then r
      else r.(local := Some(m),
               toRemote := Post(r.toRemote, m, r.waitingLocal, r.connected),
               waitingLocal := 0)
    else if m == GetLocal then
      match r.local
      case Some(v) => r.(toRemote := Post(r.toRemote, v, 1, r.connected))
      case None => r.(waitingLocal := r.waitingLocal + 1)
    else if m == GetRemote then
      match r.remote
      case Some(v) => r.(toLocal := Post(r.toLocal, v, 1, r.connected))
      case None => r.(waitingRemote := r.waitingRemote + 1)
    else r
  }

  /** The `'start'` message: deregister `handleSignaling` and reset both ports to `null`. */
  function Stop(r: Relay): Relay {
    r.(listening := false, connected := false)
  }

  datatype Event = Armed | Connected | FromRemote(m: Message) | FromLocal(m: Message) | Stopped

  function Step(r: Relay, e: Event): (s: Relay)
    ensures Valid(r) ==> Valid(s)
    ensures r.toRemote <= s.toRemote && r.toLocal <= s.toLocal
  {
    match e
    case Armed => Arm(r)
    case Connected => Connect(r)
    case FromRemote(m) => ReceiveRemote(r, m)
    case FromLocal(m) => ReceiveLocal(r, m)
    case Stopped => Stop(r)
  }

  function Run(r: Relay, es: seq<Event>): Relay
    decreases |es|
  {
    if es == [] then r else Run(Step(r, es[0]), es[1..])
  }

  predicate NoRearm(es: seq<Event>) {
    forall i :: 0 <= i < |es| ==> !es[i].Armed?
  }

  predicate NoStop(es: seq<Event>) {
    forall i :: 0 <= i < |es| ==> !es[i].Stopped?
  }

  /** The first local-port description in `es` that may fill the local slot. */
  function FirstLocal(es: seq<Event>): Option<Message> {
    if es == [] then None
    else if es[0].FromLocal? && es[0].m.Description? && es[0].m.local then Some(es[0].m)
    else FirstLocal(es[1..])
  }

  /** The first remote-port message in `es`. */
  function FirstRemote(es: seq<Event>): Option<Message> {
    if es == [] then None
    else if es[0].FromRemote? then Some(es[0].m)
    else FirstRemote(es[1..])
  }

  /** How many local-port messages in `es` equal `m`. */
  function Requests(es: seq<Event>, m: Message): nat {
    if es == [] then 0
    else (if es[0] == FromLocal(m) then 1 else 0) + Requests(es[1..], m)
  }

  lemma {:induction false} RunKeepsValid(r: Relay, es: seq<Event>)
    requires Valid(r)
    ensures Valid(Run(r, es))
    decreases |es|
  {
    if es != [] {
      RunKeepsValid(Step(r, es[0]), es[1..]);
    }
  }

  /** Between two re-arms each slot is written once: by its first candidate value. */
  lemma {:induction false} FirstWriteWins(r: Relay, es: seq<Event>)
    requires NoRearm(es)
    ensures Run(r, es).local == if r.local.Some? then r.local else FirstLocal(es)
    ensures Run(r, es).remote == if r.remote.Some? then r.remote else FirstRemote(es)
    decreases |es|
  {
    if es != [] {
      FirstWriteWins(Step(r, es[0]), es[1..]);
    }
  }

  /** One event posts to a port only the value of the slot that port waits on. */
  lemma StepPostsFromSlots(r: Relay, e: Event)
    requires !e.Armed?
    ensures forall i :: |r.toRemote| <= i < |Step(r, e).toRemote| ==> Step(r, e).local == Some(Step(r, e).toRemote[i])
    ensures forall i :: |r.toLocal| <= i < |Step(r, e).toLocal| ==> Step(r, e).remote == Some(Step(r, e).toLocal[i])
  {
  }

  /**
   * Between two re-arms the remote port receives only the value of the local
   * slot, and nothing while that slot is empty.
   */
  lemma {:induction false} RemotePortGetsLocalSlot(r: Relay, es: seq<Event>)
    requires NoRearm(es)
    ensures r.toRemote <= Run(r, es).toRemote
    ensures forall i :: |r.toRemote| <= i < |Run(r, es).toRemote| ==> Run(r, es).local == Some(Run(r, es).toRemote[i])
    ensures Run(r, es).local == None ==> Run(r, es).toRemote == r.toRemote
    decreases |es|
  {
    if es != [] {
      var s := Step(r, es[0]);
      RemotePortGetsLocalSlot(s, es[1..]);
      FirstWriteWins(s, es[1..]);
      StepPostsFromSlots(r, es[0]);
    }
  }

  /**
   * Between two re-arms the local port receives only the value of the remote
   * slot, and nothing while that slot is empty.
   */
  lemma {:induction false} LocalPortGetsRemoteSlot(r: Relay, es: seq<Event>)
    requires NoRearm(es)
    ensures r.toLocal <= Run(r, es).toLocal
    ensures forall i :: |r.toLocal| <= i < |Run(r, es).toLocal| ==> Run(r, es).remote == Some(Run(r, es).toLocal[i])
    ensures Run(r, es).remote == None ==> Run(r, es).toLocal == r.toLocal
    decreases |es|
  {
    if es != [] {
      var s := Step(r, es[0]);
      LocalPortGetsRemoteSlot(s, es[1..]);
      FirstWriteWins(s, es[1..]);
      StepPostsFromSlots(r, es[0]);
    }
  }

  /** While connected, one event answers or queues exactly the requests it carries. */
  lemma StepAccountsRequests(r: Relay, e: Event)
    requires Valid(r) && r.connected && !e.Armed? && !e.Stopped?
    ensures Step(r, e).connected
    ensures |Step(r, e).toRemote| + Step(r, e).waitingLocal
            == |r.toRemote| + r.waitingLocal + (if e == FromLocal(GetLocal) then 1 else 0)
    ensures |Step(r, e).toLocal| + Step(r, e).waitingRemote
            == |r.toLocal| + r.waitingRemote + (if e == FromLocal(GetRemote) then 1 else 0)
  {
  }

  /**
   * While the ports stay connected and the relay is not re-armed, every
   * request is either answered by exactly one post or still waiting; once
   * its slot is filled, none is waiting.
   */
  lemma {:induction false} EveryRequestAnsweredOnce(r: Relay, es: seq<Event>)
    requires Valid(r) && r.connected && NoRearm(es) && NoStop(es)
    ensures |Run(r, es).toRemote| + Run(r, es).waitingLocal == |r.toRemote| + r.waitingLocal + Requests(es, GetLocal)
    ensures |Run(r, es).toLocal| + Run(r, es).waitingRemote == |r.toLocal| + r.waitingRemote + Requests(es, GetRemote)
    ensures Run(r, es).local.Some? ==> |Run(r, es).toRemote| == |r.toRemote| + r.waitingLocal + Requests(es, GetLocal)
    ensures Run(r, es).remote.Some? ==> |Run(r, es).toLocal| == |r.toLocal| + r.waitingRemote + Requests(es, GetRemote)
    decreases |es|
  {
    RunKeepsValid(r, es);
    if es != [] {
      var s := Step(r, es[0]);
      StepAccountsRequests(r, es[0]);
      EveryRequestAnsweredOnce(s, es[1..]);
    }
  }

  /** A `'get-remote'` sent before the offer arrives is answered with that offer once it does. */
  lemma RequestBeforeOfferIsServed(sdp: string)
    ensures Run(Initial, [Armed, Connected, FromLocal(GetRemote), FromRemote(Description(false, sdp))]).toLocal
            == [Description(false, sdp)]
  {
    var es := [Armed, Connected, FromLocal(GetRemote), FromRemote(Description(false, sdp))];
    var s1 := Step(Initial, es[0]);
    var s2 := Step(s1, es[1]);
    var s3 := Step(s2, es[2]);
    assert Run(Initial, es) == Run(s1, es[1..]);
    assert es[1..][1..] == es[2..];
    assert es[2..][1..] == es[3..];
    assert Run(s1, es[1..]) == Run(s2, es[2..]) == Run(s3, es[3..]);
  }
}
