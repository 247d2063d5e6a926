/**
 * The older administration panel: one form creates a position, another
 * creates a candidate with an image, and a single message line reports the
 * outcome of either.
 */
module Admin {

  import opened Api
  import VoterPanel

  const PositionsFailed := "Failed to load positions"
  const PositionCreated := "Position created successfully"
  const PositionFailed := "Failed to create position"
  const AllFieldsRequired := "All fields are required"
  const CandidateCreated := "Candidate created successfully"
  const CandidateFailed := "Failed to create candidate"

  /** The message of a failed candidate create: the shared extraction rule
      with "Failed to create candidate" as the fallback, also for an array
      whose join is empty. */
  function CandidateErrorMessage(d: Detail): (m: string)
    ensures m != ""
    ensures d.List? && Join(d.msgs) != "" ==> m == Join(d.msgs)
    ensures d.List? && Join(d.msgs) == "" ==> m == CandidateFailed
    ensures d.Str? && d.s != "" ==> m == d.s
    ensures !Truthy(d) ==> m == CandidateFailed
  {
    ExtractMessage(d, CandidateFailed, true)
  }

  /** `candidateName && candidatePosition && image`: the candidate form is
      complete. */
  predicate Filled(candidateName: string, candidatePosition: string, image: Option<string>)
  {
    candidateName != "" && candidatePosition != "" && image.Some?
  }

  /** The candidate form's submit button: disabled while a create is
      pending or while the name, the position or the image is missing. */
  predicate SubmitDisabled(loading: bool, candidateName: string, candidatePosition: string, image: Option<string>)
  {
    loading || image.None? || candidateName == "" || candidatePosition == ""
  }

  /** An enabled button never leads to the "All fields are required"
      rejection, and the rejection is reachable only with a button that is
      disabled. */
  lemma EnabledSubmitPassesCheck(loading: bool, candidateName: string, candidatePosition: string, image: Option<string>)
    ensures !SubmitDisabled(loading, candidateName, candidatePosition, image) ==> Filled(candidateName, candidatePosition, image)
    ensures !Filled(candidateName, candidatePosition, image) ==> SubmitDisabled(loading, candidateName, candidatePosition, image)
  {
  }

  /**
   * `message.includes("success")` on what the line holds. On a text it is
   * a substring test. An array detail passed through by `detail ||
   * fallback` holds validation objects, not strings, so no element equals
   * "success" and the line is red whatever the messages say.
   */
  predicate ShownSuccessStyle(m: Shown)
  {
    match m
    case Text(t) => VoterPanel.IsSuccessStyle(t)
    case Items(_) => false
  }

  /** The two success texts are green, and the fixed failure texts red. */
  lemma MessagesClassify()
    ensures ShownSuccessStyle(Text(PositionCreated)) && ShownSuccessStyle(Text(CandidateCreated))
    ensures !ShownSuccessStyle(Text(PositionsFailed)) && !ShownSuccessStyle(Text(AllFieldsRequired))
  {
    assert VoterPanel.OccursAt(PositionCreated, "success", 17);
    assert VoterPanel.OccursAt(CandidateCreated, "success", 18);
    VoterPanel.NoSuccessWithoutSu(PositionsFailed);
    VoterPanel.NoSuccessWithoutSu(AllFieldsRequired);
  }

  /** A failed position create is shown green exactly when the detail is a
      text containing "success"; an array detail is always red. */
  lemma PositionErrorStyle(d: Detail)
    ensures ShownSuccessStyle(DetailOr(d, PositionFailed)) <==>
      d.Str? && VoterPanel.Contains(d.s, "success")
  {
    VoterPanel.NoSuccessWithoutSu(PositionFailed);
  }

  /** A failed candidate create is shown green exactly when the detail text,
      or the joined validation messages, contain "success". */
  lemma CandidateErrorStyle(d: Detail)
    ensures ShownSuccessStyle(Text(CandidateErrorMessage(d))) <==>
      (d.Str? && VoterPanel.Contains(d.s, "success")) || (d.List? && VoterPanel.Contains(Join(d.msgs), "success"))
  {
    VoterPanel.NoSuccessWithoutSu(CandidateFailed);
  }

  /** The same wording is coloured differently by its shape: as a string
      detail it is green, and as the `msg` of an array detail it is red,
      even a message that is exactly "success". */
  lemma ArrayDetailStyleQuirk()
    ensures ShownSuccessStyle(DetailOr(Str("Position unsuccessful"), PositionFailed))
    ensures !ShownSuccessStyle(DetailOr(List(["Position unsuccessful"]), PositionFailed))
    ensures !ShownSuccessStyle(DetailOr(List(["success"]), PositionFailed))
  {
    assert VoterPanel.OccursAt("Position unsuccessful", "success", 11);
  }

  class AdminPanel {
    var positionName: string
    var candidateName: string
    var candidatePosition: string
    /** The chosen image file, by name. */
    var image: Option<string>
    var positions: seq<Position>
    var message: Shown
    var createPositionLoading: bool
    var createCandidateLoading: bool

    constructor ()
      ensures positionName == "" && candidateName == "" && candidatePosition == "" && image == None
      ensures positions == [] && message == Text("")
      ensures !createPositionLoading && !createCandidateLoading
    {
      positionName, candidateName, candidatePosition, image := "", "", "", None;
      positions, message := [], Text("");
      createPositionLoading, createCandidateLoading := false, false;
    }

    /** The mount effect: the positions are published and the first one
        becomes the candidate form's position; a failure only sets the
        message. */
    method LoadPositions(reply: Reply<seq<Position>>) returns (sent: seq<Request>)
      modifies this
      ensures sent == [GetPositions]
      ensures reply.Ok? ==> positions == reply.payload && message == old(message)
      ensures reply.Ok? ==> candidatePosition == if reply.payload != [] then reply.payload[0].name else old(candidatePosition)
      ensures reply.Err? ==> positions == old(positions) && candidatePosition == old(candidatePosition) && message == Text(PositionsFailed)
      ensures positionName == old(positionName) && candidateName == old(candidateName) && image == old(image)
      ensures createPositionLoading == old(createPositionLoading) && createCandidateLoading == old(createCandidateLoading)
    {
      sent := [GetPositions];
      if reply.Ok? {
        positions := reply.payload;
        if |reply.payload| > 0 {
          candidatePosition := reply.payload[0].name;
        }
      } else {
        message := Text(PositionsFailed);
      }
    }

    /**
     * `handleCreatePosition`: post the typed name; on success report it,
     * clear the name and refetch the list, which replaces `positions` and
     * supplies the candidate form's position only when that is still empty.
     * A failure of the post or of the refetch reports the detail or "Failed
     * to create position"; a failed refetch comes after the name was
     * cleared. The loading flag is true while the requests are pending and
     * false afterwards.
     */
    method HandleCreatePosition(postReply: Reply<()>, refetch: Reply<seq<Position>>) returns (pending: bool, sent: seq<Request>)
      modifies this
      ensures pending && !createPositionLoading
      ensures postReply.Err? ==> sent == [PostPosition(old(positionName))]
      ensures postReply.Err? ==> message == DetailOr(postReply.detail, PositionFailed)
      ensures postReply.Err? ==> positionName == old(positionName) && positions == old(positions) && candidatePosition == old(candidatePosition)
      ensures postReply.Ok? ==> sent == [PostPosition(old(positionName)), GetPositions] && positionName == ""
      ensures postReply.Ok? && refetch.Ok? ==> message == Text(PositionCreated) && positions == refetch.payload
      ensures postReply.Ok? && refetch.Ok? && refetch.payload != [] && old(candidatePosition) == ""
        ==> candidatePosition == refetch.payload[0].name
      ensures postReply.Ok? && refetch.Ok? && (refetch.payload == [] || old(candidatePosition) != "")
        ==> candidatePosition == old(candidatePosition)
      ensures postReply.Ok? && refetch.Err? ==> message == DetailOr(refetch.detail, PositionFailed)
      ensures postReply.Ok? && refetch.Err? ==> positions == old(positions) && candidatePosition == old(candidatePosition)
      ensures candidateName == old(candidateName) && image == old(image) && createCandidateLoading == old(createCandidateLoading)
    {
      createPositionLoading := true;
      pending := createPositionLoading;
      sent := [PostPosition(positionName)];
      if postReply.Err? {
        message := DetailOr(postReply.detail, PositionFailed);
      } else {
        message := Text(PositionCreated);
        positionName := "";
        sent := sent + [GetPositions];
        if refetch.Err? {
          message := DetailOr(refetch.detail, PositionFailed);
        } else {
          positions := refetch.payload;
          if |refetch.payload| > 0 && candidatePosition == "" {
            candidatePosition := refetch.payload[0].name;
          }
        }
      }
      createPositionLoading := false;
    }

    /**
     * `handleCreateCandidate`: with the name, the position or the image
     * missing the message is "All fields are required" and nothing is sent.
     * Otherwise the candidate is posted; success resets the name, the image
     * and the position (to the first position's name, or "" when there is
     * none), and failure reports the extraction rule's message.
     */
    method HandleCreateCandidate(reply: Reply<()>) returns (pending: bool, sent: seq<Request>)
      modifies this
      ensures !Filled(old(candidateName), old(candidatePosition), old(image)) ==> (
        && !pending && sent == [] && message == Text(AllFieldsRequired)
        && createCandidateLoading == old(createCandidateLoading)
        && candidateName == old(candidateName) && candidatePosition == old(candidatePosition) && image == old(image))
      ensures Filled(old(candidateName), old(candidatePosition), old(image)) ==> (
        && pending && !createCandidateLoading
        && sent == [PostCandidate(old(candidateName), old(candidatePosition))])
      ensures Filled(old(candidateName), old(candidatePosition), old(image)) && reply.Ok? ==> (
        && message == Text(CandidateCreated) && candidateName == "" && image == None
        && candidatePosition == (if positions != [] then positions[0].name else ""))
      ensures Filled(old(candidateName), old(candidatePosition), old(image)) && reply.Err? ==> (
        && message == Text(CandidateErrorMessage(reply.detail))
        && candidateName == old(candidateName) && candidatePosition == old(candidatePosition) && image == old(image))
      ensures positions == old(positions) && positionName == old(positionName) && createPositionLoading == old(createPositionLoading)
    {
      pending, sent := false, [];
      if !Filled(candidateName, candidatePosition, image) {
        message := Text(AllFieldsRequired);
        return;
      }
      createCandidateLoading := true;
      pending := createCandidateLoading;
      sent := [PostCandidate(candidateName, candidatePosition)];
      if reply.Ok? {
        message := Text(CandidateCreated);
        candidateName := "";
        candidatePosition := if |positions| > 0 then positions[0].name else "";
        image := None;
      } else if Truthy(reply.detail) {
        if reply.detail.List? {
          var errorMessages := Join(reply.detail.msgs);
          message := Text(if errorMessages != "" then errorMessages else CandidateFailed);
        } else {
          message := Text(if reply.detail.s != "" then reply.detail.s else CandidateFailed);
        }
      } else {
        message := Text(CandidateFailed);
      }
      createCandidateLoading := false;
    }
  }
}
