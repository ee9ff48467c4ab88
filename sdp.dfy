/**
 * The end-of-candidates normalisation applied to every session description
 * before it is handed on: the Trickle ICE attribute `a=end-of-candidates`
 * (RFC 8840, section 8.2) is appended as its own line when the text does not
 * already carry it.
 */
module Sdp {
  import opened Text

  /** The attribute searched for. */
  const EndOfCandidates: string := "a=end-of-candidates"

  /** The line appended when the attribute is missing. */
  const EndOfCandidatesLine: string := EndOfCandidates + "\r\n"

  /** The description text after normalisation. */
  function WithEndOfCandidates(sdp: string): (r: string)
    ensures Includes(r, EndOfCandidates)
    ensures sdp <= r
    ensures Includes(sdp, EndOfCandidates) ==> r == sdp
    ensures !Includes(sdp, EndOfCandidates) ==> r == sdp + EndOfCandidatesLine
  {
    if IndexOf(sdp, EndOfCandidates) == -1 then
      var r := sdp + EndOfCandidatesLine;
      OccursBetween(sdp, EndOfCandidates, "\r\n");
      assert Includes(r, EndOfCandidates);
      r
    else
      sdp
  }

  /** Normalising twice is normalising once. */
  lemma Idempotent(sdp: string)
    ensures WithEndOfCandidates(WithEndOfCandidates(sdp)) == WithEndOfCandidates(sdp)
  {
  }

  /** A description object whose `sdp` text is updated in place (`sdp += ...`). */
  class SessionDescription {
    var sdp: string

    constructor (sdp: string)
      ensures this.sdp == sdp
    {
      this.sdp := sdp;
    }

    /** `if (d.sdp.indexOf('a=end-of-candidates') === -1) d.sdp += 'a=end-of-candidates\r\n'` */
    method AppendEndOfCandidatesIfMissing() returns (appended: bool)
      modifies this
      ensures appended <==> !Includes(old(sdp), EndOfCandidates)
      ensures sdp == WithEndOfCandidates(old(sdp))
      ensures Includes(sdp, EndOfCandidates)
    {
      appended := IndexOf(sdp, EndOfCandidates) == -1;
      if appended {
        sdp := sdp + EndOfCandidatesLine;
      }
    }
  }
}
