/**
 * The answer side of the negotiation, injected into the web page
 * (`connectDataChannels`): it asks the relay for the offer, and once its own
 * candidates are gathered posts its normalised answer followed by `'get-local'`.
 */
module Page {
  import opened Wrappers
  import opened Signaling
  import opened Sdp
  import opened Text

  class AnswerEndpoint {
    var toRelay: seq<Message>     // port.postMessage
    var awaitingOffer: bool       // the one-shot listener for the offer is registered
    var offer: Option<Message>    // the message whose sdp became the remote description

    /** The port is opened, the listener for the offer registered and `'get-remote'` posted. */
    constructor ()
      ensures toRelay == [GetRemote] && awaitingOffer && offer == None
    {
      toRelay := [GetRemote];
      awaitingOffer := true;
      offer := None;
    }

    /** A message on the port: the first one is taken as the offer and the listener removed. */
    method OnRelayMessage(m: Message)
      modifies this
      ensures old(awaitingOffer) ==> offer == Some(m)
      ensures !old(awaitingOffer) ==> offer == old(offer)
      ensures !awaitingOffer && toRelay == old(toRelay)
    {
      if awaitingOffer {
        offer := Some(m);
        awaitingOffer := false;
      }
    }

    /** The candidate event without a candidate: normalise, post the answer, then `'get-local'`. */
    method OnGatheringComplete(description: SessionDescription)
      modifies this, description
      ensures description.sdp == WithEndOfCandidates(old(description.sdp))
      ensures toRelay == old(toRelay) + [Description(true, description.sdp), GetLocal]
      ensures Includes(description.sdp, EndOfCandidates)
      ensures awaitingOffer == old(awaitingOffer) && offer == old(offer)
    {
      var _ := description.AppendEndOfCandidatesIfMissing();
      toRelay := toRelay + [Description(true, description.sdp), GetLocal];
    }
  }

  /** The events of one negotiation; `offerFirst` says whether the offer reaches the relay before `'get-remote'`. */
  function Negotiation(offer: Message, answer: Message, offerFirst: bool): seq<Event> {
    if offerFirst then [Connected, FromRemote(offer), FromLocal(GetRemote), FromLocal(answer), FromLocal(GetLocal)]
    else [Connected, FromLocal(GetRemote), FromRemote(offer), FromLocal(answer), FromLocal(GetLocal)]
  }

  /**
   * After the ports connect, events carrying one request of each kind and the
   * two descriptions deliver each description once to the port awaiting it.
   */
  lemma Delivered(rest: seq<Event>, offer: Message, answer: Message)
    requires NoRearm(rest) && NoStop(rest)
    requires Requests(rest, GetLocal) == 1 && Requests(rest, GetRemote) == 1
    requires FirstLocal(rest) == Some(answer) && FirstRemote(rest) == Some(offer)
    ensures Run(Step(Arm(Initial), Connected), rest).toLocal == [offer]
    ensures Run(Step(Arm(Initial), Connected), rest).toRemote == [answer]
  {
    var s1 := Step(Arm(Initial), Connected);
    assert s1.connected && Valid(s1) && s1.toLocal == [] && s1.toRemote == [];
    assert s1.local == None && s1.remote == None && s1.waitingLocal == 0 && s1.waitingRemote == 0;
    var r := Run(s1, rest);
    FirstWriteWins(s1, rest);
    EveryRequestAnsweredOnce(s1, rest);
    RemotePortGetsLocalSlot(s1, rest);
    LocalPortGetsRemoteSlot(s1, rest);
    assert |r.toLocal| == 1 && r.toLocal[0] == offer;
    assert |r.toRemote| == 1 && r.toRemote[0] == answer;
  }

  lemma GetLocalDiffers()
    ensures GetLocal != GetRemote
  {
    assert GetLocal.name[4] != GetRemote.name[4];
  }

  /**
   * One negotiation through the relay: the page asks for the offer, the
   * offscreen document's normalised offer arrives on the remote port (before
   * or after that request), and the page's normalised answer and its
   * `'get-local'` arrive on the local port. The page receives the offer and
   * the offscreen document the answer, once each, both carrying the
   * end-of-candidates attribute.
   */
  lemma {:induction false} NegotiationDeliversBothDescriptions(offerSdp: string, answerSdp: string, offerFirst: bool)
    ensures
      var offer := Description(false, WithEndOfCandidates(offerSdp));
      var answer := Description(true, WithEndOfCandidates(answerSdp));
      var r := Run(Arm(Initial), Negotiation(offer, answer, offerFirst));
      r.toLocal == [offer] && r.toRemote == [answer]
      && Includes(r.toLocal[0].sdp, EndOfCandidates) && Includes(r.toRemote[0].sdp, EndOfCandidates)
  {
    var offer := Description(false, WithEndOfCandidates(offerSdp));
    var answer := Description(true, WithEndOfCandidates(answerSdp));
    var es := Negotiation(offer, answer, offerFirst);
    GetLocalDiffers();
    assert es[1..][1..] == es[2..] && es[2..][1..] == es[3..] && es[3..][1..] == es[4..] && es[4..][1..] == [];
    assert Requests(es[4..], GetLocal) == 1 && Requests(es[4..], GetRemote) == 0;
    assert Requests(es[3..], GetLocal) == 1 && Requests(es[3..], GetRemote) == 0;
    assert FirstLocal(es[3..]) == Some(answer);
    if offerFirst {
      assert Requests(es[2..], GetLocal) == 1 && Requests(es[2..], GetRemote) == 1;
    } else {
      assert Requests(es[2..], GetLocal) == 1 && Requests(es[2..], GetRemote) == 0;
      assert FirstRemote(es[2..]) == Some(offer);
    }
    assert FirstLocal(es[2..]) == Some(answer) && FirstRemote(es[1..]) == Some(offer);
    assert FirstLocal(es[1..]) == Some(answer);
    Delivered(es[1..], offer, answer);
  }
}
