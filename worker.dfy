/**
 * The extension's service worker: the toolbar-click handler that either
 * starts the relay or asks for the origin to be allowed, the install handler
 * that resumes an interrupted click, and the `'message'` handler that hands
 * the payload to the offscreen document and echoes its keep-alive pings.
 * Browser calls (offscreen documents, script injection, reload, file
 * storage, fetch) are events whose results arrive as parameters.
 */
module Worker {
  import opened Wrappers
  import opened Signaling
  import opened Origins
  import Text

  /** A browser tab: its id and the origin of its URL. */
  datatype Tab = Tab(id: int, origin: string)

  /** What the offscreen document posts to the worker: `null` or a string. */
  datatype Data = Null | Str(s: string)

  const Start: Data := Str("start")

  /** What the worker posts back: the payload body, or `null`. */
  datatype Reply = Body | NullReply

  /**
   * The worker's state: the relay, whether an offscreen document exists,
   * the tab id stored in the `update_manifest.txt` marker file (the only
   * entry of the origin-private directory), whether `chrome.runtime.reload`
   * was requested, and the replies posted to the offscreen document.
   */
  datatype Host = Host(
    relay: Relay,
    offscreenOpen: bool,
    marker: Option<int>,
    reloadRequested: bool,
    replies: seq<Reply>)

  /**
   * `handleClick(tab)` once the origin test has run (`allowed`): close any
   * offscreen document; if the origin is not allowed, ask for the manifest to
   * be rewritten (`result` is what the injected dialog resolved with, `None`
   * when `chrome.scripting.executeScript` rejects and the handler stops) and
   * on `'click'` store the tab id and reload, otherwise remove the marker; if
   * it is allowed, arm the relay and create the offscreen document.
   */
  function Clicked(h: Host, allowed: bool, tabId: int, result: Option<string>): (r: Host)
    ensures r.offscreenOpen == allowed
    ensures r.replies == h.replies
    ensures allowed ==> r.relay == Arm(h.relay) && r.marker == h.marker && r.reloadRequested == h.reloadRequested
    ensures !allowed ==> r.relay == h.relay
    ensures !allowed && result == None ==> r == h.(offscreenOpen := false)
    ensures !allowed && result == Some("click") ==> r.marker == Some(tabId) && r.reloadRequested
    ensures !allowed && result.Some? && result != Some("click") ==>
      r.marker == None && r.reloadRequested == h.reloadRequested
  {
    var closed := h.(offscreenOpen := false);
    if !allowed then
      match result
      case None => closed
      case Some(answer) =>
        if answer == "click" then closed.(marker := Some(tabId), reloadRequested := true)
        else closed.(marker := None)
    else
      closed.(relay := Arm(h.relay), offscreenOpen := true)
  }

  /** `handleClick(tab)`: the relay path runs exactly when some match contains the tab's origin. */
  function OnClicked(h: Host, tab: Tab, matches: seq<string>, result: Option<string>): (r: Host)
    ensures r.offscreenOpen <==> exists i :: 0 <= i < |matches| && Text.Includes(matches[i], tab.origin)
    ensures r.relay == if IsAuthorized(matches, tab.origin) then Arm(h.relay) else h.relay
  {
    Clicked(h, IsAuthorized(matches, tab.origin), tab.id, result)
  }

  /**
   * `closeOffscreen`, run when the extension is installed or reloaded: close
   * any offscreen document, and when a marker is stored, look the tab up,
   * remove the marker and click again for that tab. `tabOrigin` is the origin
   * of the tab the browser returns for the stored id, or `None` when
   * `chrome.tabs.get` rejects (the tab was closed): the handler then stops
   * before the marker is removed.
   */
  function OnInstalled(h: Host, tabOrigin: Option<string>, matches: seq<string>, result: Option<string>): (r: Host)
    ensures r.replies == h.replies
    ensures h.marker == None ==> r == h.(offscreenOpen := false)
    ensures h.marker.Some? && tabOrigin == None ==> r == h.(offscreenOpen := false)
    ensures h.marker.Some? && tabOrigin.Some? && IsAuthorized(matches, tabOrigin.value) ==>
      r.offscreenOpen && r.marker == None && r.relay == Arm(h.relay) && r.reloadRequested == h.reloadRequested
    ensures h.marker.Some? && tabOrigin.Some? && !IsAuthorized(matches, tabOrigin.value) ==>
      !r.offscreenOpen && r.relay == h.relay
      && (result == Some("click") ==> r.marker == h.marker && r.reloadRequested)
      && (result != Some("click") ==> r.marker == None && r.reloadRequested == h.reloadRequested)
  {
    var closed := h.(offscreenOpen := false);
    match h.marker
    case None => closed
    case Some(id) =>
      match tabOrigin
      case None => closed
      case Some(origin) => OnClicked(closed.(marker := None), Tab(id, origin), matches, result)
  }

  /**
   * The worker's `'message'` handler: `'start'` fetches the payload, answers
   * with its body, deregisters the relay, resets the ports and removes the
   * marker; when the fetch rejects (`fetched` false) the handler stops before
   * replying and nothing changes. Anything else is answered with one `null`.
   */
  function OnMessage(h: Host, data: Data, fetched: bool): (r: Host)
    ensures data == Start && fetched ==>
      r.replies == h.replies + [Body]
      && r.relay == h.relay.(listening := false, connected := false)
      && r.marker == None && r.offscreenOpen == h.offscreenOpen
      && r.reloadRequested == h.reloadRequested
    ensures data == Start && !fetched ==> r == h
    ensures data != Start ==> r == h.(replies := h.replies + [NullReply])
  {
    if data == Start then
      if fetched then h.(replies := h.replies + [Body], relay := Stop(h.relay), marker := None)
      else h
    else
      h.(replies := h.replies + [NullReply])
  }

  /** The worker after `chrome.runtime.reload()`: only the marker file survives. */
  function Reloaded(h: Host): Host {
    Host(Initial, false, h.marker, false, [])
  }

  /**
   * An origin that was not authorised, whose dialog was clicked, is
   * authorised after the reload: the marker brings the click back and it
   * now takes the relay path.
   */
  lemma ApprovedClickResumesOnRelayPath(h: Host, tab: Tab, matches: seq<string>, result: Option<string>)
    requires !IsAuthorized(matches, tab.origin)
    ensures OnClicked(h, tab, matches, Some("click")).reloadRequested
    ensures
      var after := OnInstalled(Reloaded(OnClicked(h, tab, matches, Some("click"))), Some(tab.origin),
                               MergeMatches(matches, [tab.origin + "/*"], false), result);
      after.offscreenOpen && after.marker == None && after.relay == Arm(Initial)
  {
    ApprovedOriginIsAuthorized(matches, tab.origin);
  }

  /** The handler run on each of `ds` in turn, every fetch succeeding. */
  function OnMessages(h: Host, ds: seq<Data>): Host
    decreases |ds|
  {
    if ds == [] then h else OnMessages(OnMessage(h, ds[0], true), ds[1..])
  }

  /** Keep-alive pings are answered one `null` each and change nothing else. */
  lemma {:induction false} PingsOnlyEcho(h: Host, ds: seq<Data>)
    requires forall i :: 0 <= i < |ds| ==> ds[i] != Start
    ensures OnMessages(h, ds) == h.(replies := h.replies + seq(|ds|, _ => NullReply))
    decreases |ds|
  {
    if ds != [] {
      var h' := OnMessage(h, ds[0], true);
      PingsOnlyEcho(h', ds[1..]);
      assert h.replies + [NullReply] + seq(|ds| - 1, _ => NullReply) == h.replies + seq(|ds|, _ => NullReply);
    }
  }

  /** The service worker's module-level state and its event handlers. */
  class ServiceWorker {
    var listening: bool
    var connected: bool
    var local: Option<Message>
    var remote: Option<Message>
    var waitingLocal: nat
    var waitingRemote: nat
    var toRemote: seq<Message>
    var toLocal: seq<Message>
    var offscreenOpen: bool
    var marker: Option<int>
    var reloadRequested: bool
    var replies: seq<Reply>

    function Relay(): Relay
      reads this
    {
      Signaling.Relay(listening, connected, local, remote, waitingLocal, waitingRemote, toRemote, toLocal)
    }

    function State(): Host
      reads this
    {
      Host(Relay(), offscreenOpen, marker, reloadRequested, replies)
    }

    /** The worker script starts; the marker file and an offscreen document may outlive it. */
    constructor (marker: Option<int>, offscreenOpen: bool)
      ensures State() == Host(Initial, offscreenOpen, marker, false, [])
    {
      listening, connected := false, false;
      local, remote := None, None;
      waitingLocal, waitingRemote := 0, 0;
      toRemote, toLocal := [], [];
      this.offscreenOpen := offscreenOpen;
      this.marker := marker;
      reloadRequested := false;
      replies := [];
    }

    /** Each listener waiting on a slot posts its value once. */
    method FlushWaiting(m: Message, toRemotePort: bool, n: nat)
      modifies this
      ensures toRemotePort ==> toRemote == Post(old(toRemote), m, n, connected) && toLocal == old(toLocal)
      ensures !toRemotePort ==> toLocal == Post(old(toLocal), m, n, connected) && toRemote == old(toRemote)
      ensures listening == old(listening) && connected == old(connected)
      ensures local == old(local) && remote == old(remote)
      ensures waitingLocal == old(waitingLocal) && waitingRemote == old(waitingRemote)
      ensures offscreenOpen == old(offscreenOpen) && marker == old(marker)
      ensures reloadRequested == old(reloadRequested) && replies == old(replies)
    {
      if connected {
        var k := 0;
        while k < n
          invariant k <= n
          invariant toRemotePort ==> toRemote == old(toRemote) + Repeat(m, k) && toLocal == old(toLocal)
          invariant !toRemotePort ==> toLocal == old(toLocal) + Repeat(m, k) && toRemote == old(toRemote)
          invariant listening == old(listening) && connected == old(connected)
          invariant local == old(local) && remote == old(remote)
          invariant waitingLocal == old(waitingLocal) && waitingRemote == old(waitingRemote)
          invariant offscreenOpen == old(offscreenOpen) && marker == old(marker)
          invariant reloadRequested == old(reloadRequested) && replies == old(replies)
        {
          if toRemotePort {
            toRemote := toRemote + [m];
          } else {
            toLocal := toLocal + [m];
          }
          k := k + 1;
        }
      }
    }

    /** The relay path: register `handleSignaling` and replace both promises by fresh ones. */
    method ArmRelay()
      modifies this
      ensures State() == old(State()).(relay := Arm(old(Relay())))
    {
      listening := true;
      local, remote := None, None;
      waitingLocal, waitingRemote := 0, 0;
    }

    /** The dialog's result: on `'click'` store the tab id and reload, otherwise remove the marker. */
    method RecordDialogResult(tabId: int, result: string)
      modifies this
      ensures result == "click" ==> State() == old(State()).(marker := Some(tabId), reloadRequested := true)
      ensures result != "click" ==> State() == old(State()).(marker := None)
    {
      if result == "click" {
        marker := Some(tabId);
        reloadRequested := true;
      } else if marker.Some? {
        marker := None;
      }
    }

    method HandleClick(tab: Tab, matches: seq<string>, result: Option<string>)
      modifies this
      ensures State() == OnClicked(old(State()), tab, matches, result)
    {
      var allowed := IsAuthorized(matches, tab.origin);
      offscreenOpen := false;
      if !allowed {
        if result.Some? {
          RecordDialogResult(tab.id, result.value);
        }
      } else {
        ArmRelay();
        offscreenOpen := true;
      }
    }

    method CloseOffscreen(tabOrigin: Option<string>, matches: seq<string>, result: Option<string>)
      modifies this
      ensures State() == OnInstalled(old(State()), tabOrigin, matches, result)
    {
      offscreenOpen := false;
      if marker.Some? && tabOrigin.Some? {
        var id := marker.value;
        marker := None;
        HandleClick(Tab(id, tabOrigin.value), matches, result);
      }
    }

    /** `handleSignaling(port)`, run for an external connection when registered. */
    method HandleSignaling()
      modifies this
      ensures State() == old(State()).(relay := Connect(old(Relay())))
    {
      if listening {
        connected := true;
      }
    }

    method HandleRemotePort(m: Message)
      modifies this
      ensures State() == old(State()).(relay := ReceiveRemote(old(Relay()), m))
    {
      if remote.None? {
        remote := Some(m);
        FlushWaiting(m, false, waitingRemote);
        waitingRemote := 0;
      }
    }

    method HandleLocalPort(m: Message)
      modifies this
      ensures State() == old(State()).(relay := ReceiveLocal(old(Relay()), m))
    {
      if m.Description? && m.local {
        if local.None? {
          local := Some(m);
          FlushWaiting(m, true, waitingLocal);
          waitingLocal := 0;
        }
      } else if m == GetLocal {
        if local.Some? {
          FlushWaiting(local.value, true, 1);
        } else {
          waitingLocal := waitingLocal + 1;
        }
      } else if m == GetRemote {
        if remote.Some? {
          FlushWaiting(remote.value, false, 1);
        } else {
          waitingRemote := waitingRemote + 1;
        }
      }
    }

    method HandleMessage(data: Data, fetched: bool)
      modifies this
      ensures State() == OnMessage(old(State()), data, fetched)
    {
      if data == Start {
        if fetched {
          replies := replies + [Body];
          listening, connected := false, false;
          if marker.Some? {
            marker := None;
          }
        }
      } else {
        replies := replies + [NullReply];
      }
    }
  }
}
