/**
 * The position management page: the position list and a one-field add
 * form whose name must not be blank.
 */
module PositionAdmin {

  import opened Api
  import opened Forms

  const LoadFailed := "Failed to load positions"
  const EnterName := "Please enter a position name"
  const Added := "Position added successfully"
  const AddFailed := "Failed to add position"

  class PositionManager {
    var positions: seq<Position>
    var loading: bool
    var newPosition: string
    var submitting: bool

    constructor ()
      ensures positions == [] && loading && newPosition == "" && !submitting
    {
      positions, loading, newPosition, submitting := [], true, "", false;
    }

    /** The mount effect: the list is published on success, a failure is
        toasted, and loading ends either way. */
    method Load(reply: Reply<seq<Position>>) returns (sent: seq<Request>, toast: Option<Toast>)
      modifies this
      ensures sent == [GetPositions] && !loading
      ensures reply.Ok? ==> positions == reply.payload && toast == None
      ensures reply.Err? ==> positions == old(positions) && toast == Some(ErrorToast(Text(LoadFailed)))
      ensures newPosition == old(newPosition) && submitting == old(submitting)
    {
      sent, toast := [GetPositions], None;
      if reply.Ok? {
        positions := reply.payload;
      } else {
        toast := Some(ErrorToast(Text(LoadFailed)));
      }
      loading := false;
    }

    /**
     * `handleSubmit`: a name that is empty or white space only is rejected
     * with a toast and nothing is sent. Otherwise the name is posted as
     * typed, untrimmed; after success the list is replaced by a refetch and
     * the input emptied. A failure of the post or of the refetch keeps the
     * input and reports the detail or "Failed to add position".
     * `submitting` is true while the requests are pending and false
     * afterwards.
     */
    method HandleSubmit(postReply: Reply<()>, refetch: Reply<seq<Position>>) returns (pending: bool, sent: seq<Request>, toasts: seq<Toast>)
      modifies this
      ensures sent == [] <==> Blank(old(newPosition))
      ensures sent == [] ==> !pending && toasts == [ErrorToast(Text(EnterName))]
      ensures sent == [] ==> newPosition == old(newPosition) && positions == old(positions) && submitting == old(submitting)
      ensures sent != [] ==> pending && !submitting && |sent| >= 1 && sent[0] == PostPosition(old(newPosition))
      ensures sent != [] && postReply.Err? ==> (
        && sent == [PostPosition(old(newPosition))] && toasts == [ErrorToast(DetailOr(postReply.detail, AddFailed))]
        && newPosition == old(newPosition) && positions == old(positions))
      ensures sent != [] && postReply.Ok? ==> sent == [PostPosition(old(newPosition)), GetPositions]
      ensures sent != [] && postReply.Ok? && refetch.Ok? ==> (
        && toasts == [SuccessToast(Added)] && positions == refetch.payload && newPosition == "")
      ensures sent != [] && postReply.Ok? && refetch.Err? ==> (
        && toasts == [SuccessToast(Added), ErrorToast(DetailOr(refetch.detail, AddFailed))]
        && newPosition == old(newPosition) && positions == old(positions))
      ensures loading == old(loading)
    {
      pending, sent, toasts := false, [], [];
      var blank := IsBlankInput(newPosition);
      if blank {
        toasts := [ErrorToast(Text(EnterName))];
        return;
      }
      submitting := true;
      pending := submitting;
      sent := [PostPosition(newPosition)];
      if postReply.Err? {
        toasts := [ErrorToast(DetailOr(postReply.detail, AddFailed))];
      } else {
        toasts := [SuccessToast(Added)];
        sent := sent + [GetPositions];
        if refetch.Err? {
          toasts := toasts + [ErrorToast(DetailOr(refetch.detail, AddFailed))];
        } else {
          positions := refetch.payload;
          newPosition := "";
        }
      }
      submitting := false;
    }
  }
}
