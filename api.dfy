/**
 * Values exchanged with the election backend, shared by every page: the
 * entities it returns, the outcome of one awaited request, the requests a
 * handler sends, and the rules that turn an error payload into the text a
 * user is shown.
 */
module Api {

  datatype Option<+T> = None | Some(value: T)

  /** An electable office; its name is its identifier. */
  datatype Position = Position(name: string)

  /** A candidate as the backend lists it (`_id`, `name`, `position`,
      `image_url`); a missing field is the empty string. */
  datatype Candidate = Candidate(id: string, name: string, position: string, imageUrl: string)

  /** The identity `/users/me` returns. */
  datatype User = User(username: string, isAdmin: bool)

  /** The `detail` field of an error payload: absent, a string, or a list of
      validation objects, kept here by their `msg` fields. Where a page
      passes the list through unread, it still holds objects, not these
      strings. */
  datatype Detail = NoDetail | Str(s: string) | List(msgs: seq<string>)

  /** The outcome of one awaited request. A request that got no response at
      all is `Err(0, NoDetail)`. */
  datatype Reply<T> = Ok(payload: T) | Err(status: int, detail: Detail)

  /** The body of a successful vote: `{msg}`, "" when absent. */
  datatype VoteAck = VoteAck(msg: string)

  /** The value of the first field named `key`, if any. */
  function FormValue(form: seq<(string, string)>, key: string): Option<string>
  {
    if form == [] then None
    else if form[0].0 == key then Some(form[0].1)
    else FormValue(form[1..], key)
  }

  /** A field that comes before every other field of its name is the one
      looked up. */
  lemma {:induction false} FormValueAt(form: seq<(string, string)>, i: nat, key: string)
    requires i < |form| && form[i].0 == key
    requires forall j :: 0 <= j < i ==> form[j].0 != key
    ensures FormValue(form, key) == Some(form[i].1)
  {
    if i > 0 {
      FormValueAt(form[1..], i - 1, key);
    }
  }

  /** A name no field carries is absent. */
  lemma {:induction false} FormValueMissing(form: seq<(string, string)>, key: string)
    requires forall j :: 0 <= j < |form| ==> form[j].0 != key
    ensures FormValue(form, key) == None
  {
    if form != [] {
      FormValueMissing(form[1..], key);
    }
  }

  /** The requests the handlers send, one constructor per endpoint. */
  datatype Request =
    | PostToken(form: seq<(string, string)>)
    | GetMe(bearer: Option<string>)
    | PostRegister(username: string, email: string, password: string)
    | GetPositions
    | GetCandidatesOf(position: string)
    | GetAllCandidates
    | GetResults
    | PostVote(candidateId: string, votePosition: string)
    | PostVoteJson(jsonCandidateId: string)
    | PostPosition(positionName: string)
    | PostCandidate(candidateName: string, candidatePosition: string)
    | DeleteCandidate(deleteId: string)

  /** What a toast or a message line is given: a string, or, where a page
      passes an array `detail` straight through, the array itself. */
  datatype Shown = Text(text: string) | Items(items: seq<string>)

  /** A toast notification. */
  datatype Toast = SuccessToast(message: string) | ErrorToast(shown: Shown)

  /** JavaScript truthiness of a detail: "" and an absent detail are falsy,
      every array (even an empty one) is truthy. */
  predicate Truthy(d: Detail)
  {
    match d
    case NoDetail => false
    case Str(s) => s != ""
    case List(_) => true
  }

  /** `detail || fallback`: the detail itself when it is truthy. */
  function DetailOr(d: Detail, fallback: string): Shown
  {
    match d
    case Str(s) => if s != "" then Text(s) else Text(fallback)
    case List(msgs) => Items(msgs)
    case NoDetail => Text(fallback)
  }

  /** `detail || fallback` never shows an empty text when the fallback is
      not empty, and shows the fallback exactly when the detail is falsy. */
  lemma DetailOrNotBlank(d: Detail, fallback: string)
    requires fallback != ""
    ensures DetailOr(d, fallback) != Text("")
    ensures DetailOr(d, fallback) == Text(fallback) <==> !Truthy(d) || d == Str(fallback)
  {
  }

  /** `msgs.join(", ")`. */
  function Join(msgs: seq<string>): string
  {
    if msgs == [] then ""
    else if |msgs| == 1 then msgs[0]
    else Join(msgs[..|msgs| - 1]) + ", " + msgs[|msgs| - 1]
  }

  function TotalLength(msgs: seq<string>): nat
  {
    if msgs == [] then 0 else TotalLength(msgs[..|msgs| - 1]) + |msgs[|msgs| - 1]|
  }

  /** The joined text holds every message and one ", " between each two. */
  lemma {:induction false} JoinLength(msgs: seq<string>)
    requires msgs != []
    ensures |Join(msgs)| == TotalLength(msgs) + 2 * (|msgs| - 1)
  {
    if |msgs| > 1 {
      JoinLength(msgs[..|msgs| - 1]);
    } else {
      assert msgs[..0] == [];
    }
  }

  /** The message after the last separator is the last message, and the
      text before it is the join of the others. */
  lemma JoinSnoc(msgs: seq<string>, m: string)
    requires msgs != []
    ensures Join(msgs + [m]) == Join(msgs) + ", " + m
  {
    assert (msgs + [m])[..|msgs|] == msgs;
  }

  /** Joining yields "" exactly for no messages or one empty message; two
      messages always leave at least the separator. */
  lemma {:induction false} JoinEmpty(msgs: seq<string>)
    ensures Join(msgs) == "" <==> msgs == [] || msgs == [""]
  {
    if |msgs| > 1 {
      JoinLength(msgs);
    }
  }

  /**
   * The recurring extraction rule for an error payload: an array detail
   * gives its `msg` fields joined with ", " (replaced by the fallback when
   * the join is empty and `fallbackOnEmptyJoin` holds), a non-empty string
   * gives itself, anything else gives the fallback.
   */
  function ExtractMessage(d: Detail, fallback: string, fallbackOnEmptyJoin: bool): (r: string)
    ensures d.List? && (Join(d.msgs) != "" || !fallbackOnEmptyJoin) ==> r == Join(d.msgs)
    ensures d.Str? && d.s != "" ==> r == d.s
    ensures !Truthy(d) ==> r == fallback
    ensures fallbackOnEmptyJoin && fallback != "" ==> r != ""
    ensures r == "" && fallback != "" ==> !fallbackOnEmptyJoin && d.List? && (d.msgs == [] || d.msgs == [""])
  {
    JoinEmpty(if d.List? then d.msgs else []);
    match d
    case List(msgs) =>
      var joined := Join(msgs);
      if joined == "" && fallbackOnEmptyJoin then fallback else joined
    case Str(s) => if s != "" then s else fallback
    case NoDetail => fallback
  }
}
