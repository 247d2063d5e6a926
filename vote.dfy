/**
 * The standalone voting page: it groups the fetched candidates by
 * position, opens the first group, and casts votes under a single global
 * loading flag, with its own rule for validation (status 422) errors.
 */
module Vote {

  import opened Api

  const OtherGroup := "Other"
  const SubmitFailed := "Failed to submit vote"
  const FetchFailed := "Failed to fetch candidates"

  /** `candidate.position || "Other"`. */
  function GroupKey(c: Candidate): string
  {
    if c.position != "" then c.position else OtherGroup
  }

  /** The candidates of group `k`, in fetch order. */
  function Members(cands: seq<Candidate>, k: string): seq<Candidate>
  {
    if cands == [] then []
    else Members(cands[..|cands| - 1], k) + (if GroupKey(cands[|cands| - 1]) == k then [cands[|cands| - 1]] else [])
  }

  /** The group keys in the order their first candidate appears. */
  function GroupKeys(cands: seq<Candidate>): seq<string>
  {
    if cands == [] then []
    else
      var keys := GroupKeys(cands[..|cands| - 1]);
      var k := GroupKey(cands[|cands| - 1]);
      if k in keys then keys else keys + [k]
  }

  predicate Distinct(keys: seq<string>)
  {
    forall i, j :: 0 <= i < j < |keys| ==> keys[i] != keys[j]
  }

  /** A key is a group key exactly when its group is non-empty; the keys are
      distinct. */
  lemma {:induction false} GroupKeysMembers(cands: seq<Candidate>)
    ensures Distinct(GroupKeys(cands))
    ensures forall k :: k in GroupKeys(cands) <==> Members(cands, k) != []
  {
    if cands != [] {
      GroupKeysMembers(cands[..|cands| - 1]);
    }
  }

  /**
   * The grouping `reduce`: each candidate is pushed, in fetch order, onto
   * the list under its group key, a new key being added when first met.
   */
  method GroupCandidates(cands: seq<Candidate>) returns (keys: seq<string>, grouped: map<string, seq<Candidate>>)
    ensures keys == GroupKeys(cands)
    ensures grouped.Keys == set k | k in keys
    ensures forall k :: k in grouped ==> grouped[k] == Members(cands, k)
  {
    keys, grouped := [], map[];
    var i := 0;
    while i < |cands|
      invariant 0 <= i <= |cands|
      invariant keys == GroupKeys(cands[..i])
      invariant grouped.Keys == set k | k in keys
      invariant forall k :: k in grouped ==> grouped[k] == Members(cands[..i], k)
    {
      var c := cands[i];
      var pos := if c.position != "" then c.position else OtherGroup;
      GroupKeysMembers(cands[..i]);
      if pos !in grouped {
        keys := keys + [pos];
        grouped := grouped[pos := []];
      }
      grouped := grouped[pos := grouped[pos] + [c]];
      assert cands[..i + 1][..i] == cands[..i];
      i := i + 1;
    }
    assert cands[..i] == cands;
  }

  /** Every fetched candidate appears in the group of its own key and in
      no other group. */
  lemma {:induction false} InExactlyOneGroup(cands: seq<Candidate>, c: Candidate)
    requires c in cands
    ensures GroupKey(c) in GroupKeys(cands) && c in Members(cands, GroupKey(c))
    ensures forall k :: k != GroupKey(c) ==> c !in Members(cands, k)
  {
    var init := cands[..|cands| - 1];
    assert cands == init + [cands[|cands| - 1]];
    if c != cands[|cands| - 1] {
      InExactlyOneGroup(init, c);
    }
    MembersHaveKey(cands);
    GroupKeysMembers(cands);
  }

  lemma {:induction false} MembersHaveKey(cands: seq<Candidate>)
    ensures forall k, c :: c in Members(cands, k) ==> GroupKey(c) == k
  {
    if cands != [] {
      MembersHaveKey(cands[..|cands| - 1]);
    }
  }

  /** The sizes of the groups, summed over `keys`. */
  function SumSizes(keys: seq<string>, cands: seq<Candidate>): nat
  {
    if keys == [] then 0 else SumSizes(keys[..|keys| - 1], cands) + |Members(cands, keys[|keys| - 1])|
  }

  lemma {:induction false} SumSizesSnoc(keys: seq<string>, cands: seq<Candidate>, c: Candidate)
    requires Distinct(keys)
    ensures SumSizes(keys, cands + [c]) == SumSizes(keys, cands) + (if GroupKey(c) in keys then 1 else 0)
  {
    assert (cands + [c])[..|cands|] == cands;
    if keys != [] {
      var init := keys[..|keys| - 1];
      SumSizesSnoc(init, cands, c);
      assert keys == init + [keys[|keys| - 1]];
    }
  }

  /** The group sizes add up to the number of fetched candidates: the
      groups partition the fetched list. */
  lemma {:induction false} GroupSizesSum(cands: seq<Candidate>)
    ensures SumSizes(GroupKeys(cands), cands) == |cands|
  {
    if cands != [] {
      var init := cands[..|cands| - 1];
      var c := cands[|cands| - 1];
      assert cands == init + [c];
      var keys := GroupKeys(init);
      GroupSizesSum(init);
      GroupKeysMembers(init);
      SumSizesSnoc(keys, init, c);
      if GroupKey(c) !in keys {
        assert GroupKeys(cands) == keys + [GroupKey(c)];
        assert (keys + [GroupKey(c)])[..|keys|] == keys;
      }
    }
  }

  /** `Object.keys(grouped)[0]`: the first group key, absent when nothing
      was fetched. */
  function FirstPosition(keys: seq<string>): Option<string>
  {
    if keys == [] then None else Some(keys[0])
  }

  /** The page opens on the group of the first fetched candidate, and opens
      none when no candidate was fetched. */
  lemma {:induction false} FirstPositionOfFirstCandidate(cands: seq<Candidate>)
    ensures FirstPosition(GroupKeys(cands)) == if cands == [] then None else Some(GroupKey(cands[0]))
  {
    if |cands| > 1 {
      var init := cands[..|cands| - 1];
      FirstPositionOfFirstCandidate(init);
      assert init[0] == cands[0];
    } else if |cands| == 1 {
      assert cands[..0] == [];
    }
  }

  /**
   * The error message of a failed vote. On status 422 an array detail
   * gives its `msg` fields joined with ", " with no fallback, and any other
   * detail gives itself or "Failed to submit vote" when it is falsy; on any
   * other status a truthy detail is shown as it is (an array included) and
   * otherwise "Failed to submit vote".
   */
  function VoteErrorMessage(status: int, d: Detail): (m: Shown)
    ensures status == 422 ==> m == Text(ExtractMessage(d, SubmitFailed, false))
    ensures status != 422 ==> m == DetailOr(d, SubmitFailed)
  {
    if status == 422 then
      match d
      case List(msgs) => Text(Join(msgs))
      case Str(s) => Text(if s != "" then s else SubmitFailed)
      case NoDetail => Text(SubmitFailed)
    else if Truthy(d) then
      match d
      case List(msgs) => Items(msgs)
      case Str(s) => Text(s)
      case NoDetail => Text(SubmitFailed)
    else Text(SubmitFailed)
  }

  /** Unlike the other pages, a 422 with an empty validation list shows an
      empty message, and a list with only empty messages shows separators;
      a 422 never shows the raw array. */
  lemma EmptyValidationList(msgs: seq<string>)
    ensures VoteErrorMessage(422, List([])) == Text("")
    ensures VoteErrorMessage(422, List(msgs)) == Text("") <==> msgs == [] || msgs == [""]
    ensures !VoteErrorMessage(422, List(msgs)).Items?
  {
    JoinEmpty(msgs);
  }

  /** The page's state between renders. */
  class VotePage {
    var candidatesByPosition: map<string, seq<Candidate>>
    /** The key order of `candidatesByPosition`. */
    var positionOrder: seq<string>
    var activePosition: Option<string>
    var isLoading: bool

    constructor ()
      ensures candidatesByPosition == map[] && positionOrder == [] && activePosition == None && !isLoading
    {
      candidatesByPosition, positionOrder, activePosition, isLoading := map[], [], None, false;
    }

    /** The mount effect: on success the groups are published and the first
        group is made active; on failure nothing changes but a toast. */
    method FetchCandidates(reply: Reply<seq<Candidate>>) returns (sent: seq<Request>, toast: Option<Toast>)
      modifies this
      ensures sent == [GetAllCandidates]
      ensures reply.Ok? ==> positionOrder == GroupKeys(reply.payload) && activePosition == FirstPosition(positionOrder)
      ensures reply.Ok? ==> candidatesByPosition.Keys == (set k | k in positionOrder)
      ensures reply.Ok? ==> forall k :: k in candidatesByPosition ==> candidatesByPosition[k] == Members(reply.payload, k)
      ensures reply.Ok? ==> toast == None
      ensures reply.Err? ==> toast == Some(ErrorToast(Text(FetchFailed)))
      ensures reply.Err? ==> candidatesByPosition == old(candidatesByPosition) && positionOrder == old(positionOrder) && activePosition == old(activePosition)
      ensures isLoading == old(isLoading)
    {
      sent := [GetAllCandidates];
      if reply.Ok? {
        var keys, grouped := GroupCandidates(reply.payload);
        candidatesByPosition, positionOrder := grouped, keys;
        activePosition := FirstPosition(keys);
        toast := None;
      } else {
        toast := Some(ErrorToast(Text(FetchFailed)));
      }
    }

    /** A tab click makes that group active. */
    method SelectPosition(k: string)
      modifies this
      ensures activePosition == Some(k)
      ensures candidatesByPosition == old(candidatesByPosition) && positionOrder == old(positionOrder) && isLoading == old(isLoading)
    {
      activePosition := Some(k);
    }

    /**
     * Casting a vote: the single loading flag is true while the request is
     * pending (`pending`), whatever candidate was clicked, and false
     * afterwards on every path.
     */
    method HandleVote(candidateId: string, reply: Reply<VoteAck>) returns (pending: bool, sent: Request, toast: Toast)
      modifies this
      ensures pending && !isLoading
      ensures sent == PostVoteJson(candidateId)
      ensures reply.Ok? ==> toast == SuccessToast("Vote submitted successfully")
      ensures reply.Err? ==> toast == ErrorToast(VoteErrorMessage(reply.status, reply.detail))
      ensures candidatesByPosition == old(candidatesByPosition) && positionOrder == old(positionOrder) && activePosition == old(activePosition)
    {
      isLoading := true;
      pending := isLoading;
      sent := PostVoteJson(candidateId);
      if reply.Ok? {
        toast := SuccessToast("Vote submitted successfully");
      } else {
        toast := ErrorToast(VoteErrorMessage(reply.status, reply.detail));
      }
      isLoading := false;
    }
  }
}
