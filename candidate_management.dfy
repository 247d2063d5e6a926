/**
 * The candidate management page: the candidate and position lists, an add
 * form (name, position, image) and one delete button per candidate with a
 * pending flag keyed by candidate id.
 */
module CandidateAdmin {

  import opened Api

  const LoadFailed := "Failed to load data"
  const FillAllFields := "Please fill all fields"
  const Added := "Candidate added successfully"
  const AddFailed := "Failed to add candidate"
  const Deleted := "Candidate deleted successfully"
  const DeleteFailed := "Failed to delete candidate"

  /** The add form; the image is the chosen file, by name. */
  datatype CandidateForm = CandidateForm(name: string, position: string, image: Option<string>)

  /** `candidates.filter(c => c._id !== id)`. */
  function RemoveById(cands: seq<Candidate>, id: string): (r: seq<Candidate>)
    ensures |r| <= |cands|
    ensures forall c :: c in r <==> c in cands && c.id != id
  {
    if cands == [] then []
    else (if cands[0].id != id then [cands[0]] else []) + RemoveById(cands[1..], id)
  }

  /** Filtering commutes with concatenation, so the kept candidates keep
      their relative order. */
  lemma {:induction false} RemoveByIdConcat(a: seq<Candidate>, b: seq<Candidate>, id: string)
    ensures RemoveById(a + b, id) == RemoveById(a, id) + RemoveById(b, id)
  {
    if a == [] {
      assert a + b == b;
    } else {
      assert (a + b)[0] == a[0] && (a + b)[1..] == a[1..] + b;
      RemoveByIdConcat(a[1..], b, id);
    }
  }

  /** A list with no candidate of that id is returned unchanged. */
  lemma {:induction false} RemoveByIdAbsent(cands: seq<Candidate>, id: string)
    requires forall i :: 0 <= i < |cands| ==> cands[i].id != id
    ensures RemoveById(cands, id) == cands
  {
    if cands != [] {
      RemoveByIdAbsent(cands[1..], id);
    }
  }

  /** Deleting the same id twice leaves the list of the first delete. */
  lemma RemoveByIdIdempotent(cands: seq<Candidate>, id: string)
    ensures RemoveById(RemoveById(cands, id), id) == RemoveById(cands, id)
  {
    var r := RemoveById(cands, id);
    forall i | 0 <= i < |r|
      ensures r[i].id != id
    {
      assert r[i] in r;
    }
    RemoveByIdAbsent(r, id);
  }

  class CandidateManager {
    var candidates: seq<Candidate>
    var positions: seq<Position>
    var loading: bool
    var showAddForm: bool
    var form: CandidateForm
    var submitting: bool
    /** The pending flag of each delete, by candidate id. */
    var deleting: map<string, bool>

    constructor ()
      ensures candidates == [] && positions == [] && loading && !showAddForm
      ensures form == CandidateForm("", "", None) && !submitting && deleting == map[]
    {
      candidates, positions, loading, showAddForm := [], [], true, false;
      form, submitting, deleting := CandidateForm("", "", None), false, map[];
    }

    /** The mount effect: both lists are fetched together and published
        only when both requests succeed; loading ends either way. */
    method Load(candidatesReply: Reply<seq<Candidate>>, positionsReply: Reply<seq<Position>>) returns (sent: seq<Request>, toast: Option<Toast>)
      modifies this
      ensures sent == [GetAllCandidates, GetPositions] && !loading
      ensures candidatesReply.Ok? && positionsReply.Ok? ==> candidates == candidatesReply.payload && positions == positionsReply.payload && toast == None
      ensures candidatesReply.Err? || positionsReply.Err? ==> candidates == old(candidates) && positions == old(positions)
      ensures candidatesReply.Err? || positionsReply.Err? ==> toast == Some(ErrorToast(Text(LoadFailed)))
      ensures showAddForm == old(showAddForm) && form == old(form) && submitting == old(submitting) && deleting == old(deleting)
    {
      sent := [GetAllCandidates, GetPositions];
      toast := None;
      if candidatesReply.Ok? && positionsReply.Ok? {
        candidates := candidatesReply.payload;
        positions := positionsReply.payload;
      } else {
        toast := Some(ErrorToast(Text(LoadFailed)));
      }
      loading := false;
    }

    /** `handleInputChange`: the named text field takes the value; the
        image and the other field are kept. */
    method HandleInputChange(field: string, value: string)
      modifies this
      ensures field == "name" ==> form == old(form).(name := value)
      ensures field == "position" ==> form == old(form).(position := value)
      ensures field != "name" && field != "position" ==> form == old(form)
      ensures candidates == old(candidates) && positions == old(positions) && showAddForm == old(showAddForm)
      ensures submitting == old(submitting) && deleting == old(deleting) && loading == old(loading)
    {
      if field == "name" {
        form := form.(name := value);
      } else if field == "position" {
        form := form.(position := value);
      }
    }

    /** `handleFileChange`: only the image changes; no file chosen clears
        it. */
    method HandleFileChange(file: Option<string>)
      modifies this
      ensures form == old(form).(image := file)
      ensures candidates == old(candidates) && positions == old(positions) && showAddForm == old(showAddForm)
      ensures submitting == old(submitting) && deleting == old(deleting) && loading == old(loading)
    {
      form := form.(image := file);
    }

    /**
     * `handleSubmit`: a missing name, position or image is reported and
     * nothing is sent. Otherwise the candidate is posted; after success the
     * list is replaced by a refetch, the form is emptied and hidden. A
     * failure of the post or of the refetch keeps the form and reports the
     * detail or "Failed to add candidate" (after the success toast, for a
     * failed refetch). `submitting` is true while the requests are pending
     * and false afterwards.
     */
    method HandleSubmit(postReply: Reply<()>, refetch: Reply<seq<Candidate>>) returns (pending: bool, sent: seq<Request>, toasts: seq<Toast>)
      modifies this
      ensures old(form).name == "" || old(form).position == "" || old(form).image.None? ==> (
        && !pending && sent == [] && toasts == [ErrorToast(Text(FillAllFields))]
        && form == old(form) && candidates == old(candidates) && showAddForm == old(showAddForm) && submitting == old(submitting))
      ensures old(form).name != "" && old(form).position != "" && old(form).image.Some? ==> (
        && pending && !submitting && |sent| >= 1 && sent[0] == PostCandidate(old(form).name, old(form).position))
      ensures old(form).name != "" && old(form).position != "" && old(form).image.Some? && postReply.Err? ==> (
        && sent == [PostCandidate(old(form).name, old(form).position)]
        && toasts == [ErrorToast(DetailOr(postReply.detail, AddFailed))]
        && form == old(form) && candidates == old(candidates) && showAddForm == old(showAddForm))
      ensures old(form).name != "" && old(form).position != "" && old(form).image.Some? && postReply.Ok? ==> (
        && sent == [PostCandidate(old(form).name, old(form).position), GetAllCandidates])
      ensures old(form).name != "" && old(form).position != "" && old(form).image.Some? && postReply.Ok? && refetch.Ok? ==> (
        && toasts == [SuccessToast(Added)] && candidates == refetch.payload
        && form == CandidateForm("", "", None) && !showAddForm)
      ensures old(form).name != "" && old(form).position != "" && old(form).image.Some? && postReply.Ok? && refetch.Err? ==> (
        && toasts == [SuccessToast(Added), ErrorToast(DetailOr(refetch.detail, AddFailed))]
        && form == old(form) && candidates == old(candidates) && showAddForm == old(showAddForm))
      ensures positions == old(positions) && deleting == old(deleting) && loading == old(loading)
    {
      pending, sent, toasts := false, [], [];
      if form.name == "" || form.position == "" || form.image.None? {
        toasts := [ErrorToast(Text(FillAllFields))];
        return;
      }
      submitting := true;
      pending := submitting;
      sent := [PostCandidate(form.name, form.position)];
      if postReply.Err? {
        toasts := [ErrorToast(DetailOr(postReply.detail, AddFailed))];
      } else {
        toasts := [SuccessToast(Added)];
        sent := sent + [GetAllCandidates];
        if refetch.Err? {
          toasts := toasts + [ErrorToast(DetailOr(refetch.detail, AddFailed))];
        } else {
          candidates := refetch.payload;
          form := CandidateForm("", "", None);
          showAddForm := false;
        }
      }
      submitting := false;
    }

    /**
     * `handleDelete`: the candidate's flag is true while the request is
     * pending and false afterwards, every other flag being the one of the
     * render the click came from. Success removes exactly the candidates
     * with that id, keeping the others in order; failure keeps the list.
     */
    method HandleDelete(id: string, reply: Reply<()>) returns (pending: map<string, bool>, sent: seq<Request>, toast: Toast)
      modifies this
      ensures pending == old(deleting)[id := true]
      ensures deleting == old(deleting)[id := false]
      ensures sent == [DeleteCandidate(id)]
      ensures reply.Ok? ==> candidates == RemoveById(old(candidates), id) && toast == SuccessToast(Deleted)
      ensures reply.Err? ==> candidates == old(candidates) && toast == ErrorToast(DetailOr(reply.detail, DeleteFailed))
      ensures positions == old(positions) && form == old(form) && showAddForm == old(showAddForm)
      ensures submitting == old(submitting) && loading == old(loading)
    {
      var snapshot := deleting;
      deleting := snapshot[id := true];
      pending := deleting;
      sent := [DeleteCandidate(id)];
      if reply.Ok? {
        toast := SuccessToast(Deleted);
        candidates := RemoveById(candidates, id);
      } else {
        toast := ErrorToast(DetailOr(reply.detail, DeleteFailed));
      }
      deleting := snapshot[id := false];
    }
  }
}
