/**
 * The older voter dashboard component: a position picker whose choice
 * triggers a candidate refetch, and one vote button per candidate with a
 * loading flag keyed by candidate id, not by position.
 */
module VoterPanel {

  import opened Api

  const VoteRecorded := "Vote recorded successfully"
  const VoteFailed := "Failed to record vote"
  const PositionsFailed := "Failed to load positions"
  const CandidatesFailed := "Failed to load candidates"

  /** Whether `sub` occurs in `s` (`String.prototype.includes`). */
  predicate Contains(s: string, sub: string)
  {
    exists i :: 0 <= i <= |s| - |sub| && OccursAt(s, sub, i)
  }

  predicate OccursAt(s: string, sub: string, i: int)
  {
    0 <= i <= |s| - |sub| && s[i..i + |sub|] == sub
  }

  /** The message line is green exactly when it contains "success". */
  predicate IsSuccessStyle(message: string)
  {
    Contains(message, "success")
  }

  /** `response.data.msg || "Vote recorded successfully"`. */
  function SuccessMessage(ack: VoteAck): string
  {
    if ack.msg != "" then ack.msg else VoteRecorded
  }

  /** The error message of a failed vote: the shared extraction rule with
      "Failed to record vote" as the fallback, also for an empty join. */
  function VoteErrorMessage(d: Detail): (m: string)
    ensures m != ""
    ensures d.List? && Join(d.msgs) != "" ==> m == Join(d.msgs)
    ensures d.Str? && d.s != "" ==> m == d.s
    ensures d.List? && Join(d.msgs) == "" ==> m == VoteFailed
    ensures !Truthy(d) ==> m == VoteFailed
  {
    ExtractMessage(d, VoteFailed, true)
  }

  /** A text in which no 's' is followed by a 'u' does not contain
      "success". */
  lemma NoSuccessWithoutSu(s: string)
    requires forall i :: 0 <= i < |s| - 1 ==> s[i] != 's' || s[i + 1] != 'u'
    ensures !Contains(s, "success")
  {
    forall i | 0 <= i <= |s| - 7
      ensures !OccursAt(s, "success", i)
    {
      assert s[i..i + 7][0] == s[i] && s[i..i + 7][1] == s[i + 1];
    }
  }

  /**
   * After a failed vote the line is green exactly when the backend's
   * detail contains "success": the fallback "Failed to record vote" never
   * does, and neither do the two load failures.
   */
  lemma ErrorStyleFollowsDetail(d: Detail)
    ensures IsSuccessStyle(VoteErrorMessage(d)) <==>
      (d.Str? && Contains(d.s, "success")) || (d.List? && Contains(Join(d.msgs), "success"))
    ensures !IsSuccessStyle(PositionsFailed) && !IsSuccessStyle(CandidatesFailed)
  {
    NoSuccessWithoutSu(VoteFailed);
    NoSuccessWithoutSu(PositionsFailed);
    NoSuccessWithoutSu(CandidatesFailed);
  }

  /** After an accepted vote the line is green exactly when the backend
      sent no `msg` (the default text contains "success") or its `msg`
      contains "success". */
  lemma SuccessStyleFollowsAck(ack: VoteAck)
    ensures IsSuccessStyle(SuccessMessage(ack)) <==> ack.msg == "" || Contains(ack.msg, "success")
  {
    assert OccursAt(VoteRecorded, "success", 14);
  }

  /** The colour follows the wording, not the outcome: a rejection whose
      detail reads "Vote unsuccessful" is shown green, and an accepted vote
      acknowledged with "Vote recorded" is shown red. */
  lemma StyleFollowsWordingNotOutcome()
    ensures IsSuccessStyle(VoteErrorMessage(Str("Vote unsuccessful")))
    ensures !IsSuccessStyle(SuccessMessage(VoteAck("Vote recorded")))
  {
    assert OccursAt("Vote unsuccessful", "success", 7);
    NoSuccessWithoutSu("Vote recorded");
  }

  /** `disabled={voteLoading[candidate._id]}`. */
  predicate VoteDisabled(voteLoading: map<string, bool>, candidateId: string)
  {
    candidateId in voteLoading && voteLoading[candidateId]
  }

  /** A vote in flight disables only the clicked candidate's button: a
      second candidate of the same position stays clickable. */
  lemma OnlyClickedCandidateDisabled(voteLoading: map<string, bool>, clicked: string, other: string)
    requires other != clicked && !VoteDisabled(voteLoading, other)
    ensures VoteDisabled(voteLoading[clicked := true], clicked)
    ensures !VoteDisabled(voteLoading[clicked := true], other)
  {
  }

  class Panel {
    var positions: seq<Position>
    var candidates: seq<Candidate>
    var selectedPosition: string
    var message: string
    var voteLoading: map<string, bool>

    constructor ()
      ensures positions == [] && candidates == [] && selectedPosition == "" && message == "" && voteLoading == map[]
    {
      positions, candidates, selectedPosition, message, voteLoading := [], [], "", "", map[];
    }

    /** The mount effect: the positions are published and the first one is
        selected; with no positions the selection stays as it was. */
    method LoadPositions(reply: Reply<seq<Position>>) returns (sent: seq<Request>)
      modifies this
      ensures sent == [GetPositions]
      ensures reply.Ok? ==> positions == reply.payload && message == old(message)
      ensures reply.Ok? ==> selectedPosition == if reply.payload != [] then reply.payload[0].name else old(selectedPosition)
      ensures reply.Err? ==> positions == old(positions) && selectedPosition == old(selectedPosition) && message == PositionsFailed
      ensures candidates == old(candidates) && voteLoading == old(voteLoading)
    {
      sent := [GetPositions];
      if reply.Ok? {
        positions := reply.payload;
        if |reply.payload| > 0 {
          selectedPosition := reply.payload[0].name;
        }
      } else {
        message := PositionsFailed;
      }
    }

    /**
     * The effect on `selectedPosition`: while it is "" nothing is fetched;
     * otherwise the candidate list is replaced wholesale by the reply, or
     * a failure message is set and the list is kept.
     */
    method RefreshCandidates(reply: Reply<seq<Candidate>>) returns (sent: seq<Request>)
      modifies this
      ensures selectedPosition == "" ==> sent == [] && candidates == old(candidates) && message == old(message)
      ensures selectedPosition != "" ==> sent == [GetCandidatesOf(selectedPosition)]
      ensures selectedPosition != "" && reply.Ok? ==> candidates == reply.payload && message == old(message)
      ensures selectedPosition != "" && reply.Err? ==> candidates == old(candidates) && message == CandidatesFailed
      ensures positions == old(positions) && selectedPosition == old(selectedPosition) && voteLoading == old(voteLoading)
    {
      sent := [];
      if selectedPosition != "" {
        sent := [GetCandidatesOf(selectedPosition)];
        if reply.Ok? {
          candidates := reply.payload;
        } else {
          message := CandidatesFailed;
        }
      }
    }

    /** Picking a position in the drop-down; a changed value re-runs the
        candidate effect. */
    method ChangePosition(name: string, reply: Reply<seq<Candidate>>) returns (sent: seq<Request>)
      modifies this
      ensures selectedPosition == name
      ensures name == old(selectedPosition) ==> sent == [] && candidates == old(candidates) && message == old(message)
      ensures name != old(selectedPosition) && name != "" ==> sent == [GetCandidatesOf(name)]
      ensures name != old(selectedPosition) && name != "" && reply.Ok? ==> candidates == reply.payload && message == old(message)
      ensures name != old(selectedPosition) && name != "" && reply.Err? ==> candidates == old(candidates) && message == CandidatesFailed
      ensures name != old(selectedPosition) && name == "" ==> sent == [] && candidates == old(candidates) && message == old(message)
      ensures positions == old(positions) && voteLoading == old(voteLoading)
    {
      sent := [];
      if name != selectedPosition {
        selectedPosition := name;
        sent := RefreshCandidates(reply);
      }
    }

    /**
     * Casting a vote for one candidate of the selected position. The
     * candidate's flag is true while the request is pending and false
     * afterwards; every other candidate's flag is kept (functional
     * updates). The message is the backend's `msg` or "Vote recorded
     * successfully" on success, and the extraction rule on failure.
     */
    method HandleVote(candidateId: string, reply: Reply<VoteAck>) returns (pending: map<string, bool>, sent: Request)
      modifies this
      ensures pending == old(voteLoading)[candidateId := true]
      ensures voteLoading == old(voteLoading)[candidateId := false]
      ensures sent == PostVote(candidateId, selectedPosition)
      ensures reply.Ok? ==> message == SuccessMessage(reply.payload)
      ensures reply.Err? ==> message == VoteErrorMessage(reply.detail)
      ensures positions == old(positions) && candidates == old(candidates) && selectedPosition == old(selectedPosition)
    {
      voteLoading := voteLoading[candidateId := true];
      pending := voteLoading;
      sent := PostVote(candidateId, selectedPosition);
      if reply.Ok? {
        message := if reply.payload.msg != "" then reply.payload.msg else VoteRecorded;
      } else if Truthy(reply.detail) {
        if reply.detail.List? {
          var errorMessages := Join(reply.detail.msgs);
          message := if errorMessages != "" then errorMessages else VoteFailed;
        } else {
          message := reply.detail.s;
        }
      } else {
        message := VoteFailed;
      }
      voteLoading := voteLoading[candidateId := false];
    }
  }
}
