/**
 * The voter's dashboard page: it loads the positions and, one request per
 * position, their candidates; it infers which positions the user has
 * already voted for by probing the vote endpoint with a sentinel candidate
 * id; and it casts one vote per position with a per-position in-flight
 * flag.
 */
module Ballot {

  import opened Api

  /** The rejection detail that marks a position as already voted. */
  const AlreadyVoted := "Already voted for this position"
  /** The candidate id of a probe vote. */
  const ProbeCandidateId := "test"
  const VoteFailed := "Failed to record vote"
  const LoadFailed := "Failed to load voting data"

  function Names(positions: seq<Position>): (names: seq<string>)
    ensures |names| == |positions| && forall i :: 0 <= i < |positions| ==> names[i] == positions[i].name
  {
    if positions == [] then [] else [positions[0].name] + Names(positions[1..])
  }

  /** Only a rejection whose detail is exactly `AlreadyVoted` says the user
      has voted; an accepted probe or any other error says nothing. */
  predicate IsDuplicateRejection(r: Reply<VoteAck>)
  {
    r.Err? && r.detail == Str(AlreadyVoted)
  }

  /** The positions, in order, whose probe came back as a duplicate
      rejection. */
  function ProbedVoted(names: seq<string>, probe: string -> Reply<VoteAck>): seq<string>
  {
    if names == [] then []
    else ProbedVoted(names[..|names| - 1], probe)
         + (if IsDuplicateRejection(probe(names[|names| - 1])) then [names[|names| - 1]] else [])
  }

  /** A position is found voted exactly when it was probed and the probe was
      rejected as a duplicate, and the found list follows position order. */
  lemma {:induction false} ProbedVotedMembers(names: seq<string>, probe: string -> Reply<VoteAck>)
    ensures forall n :: n in ProbedVoted(names, probe) <==> n in names && IsDuplicateRejection(probe(n))
    ensures |ProbedVoted(names, probe)| <= |names|
  {
    if names != [] {
      var init := names[..|names| - 1];
      ProbedVotedMembers(init, probe);
      assert names == init + [names[|names| - 1]];
    }
  }

  /**
   * The probe loop: one sentinel vote per position, in order; a position
   * enters the voted list only on the duplicate rejection.
   */
  method ProbeVotedPositions(positions: seq<Position>, probe: string -> Reply<VoteAck>)
    returns (votedPos: seq<string>, sent: seq<Request>)
    ensures votedPos == ProbedVoted(Names(positions), probe)
    ensures |sent| == |positions|
    ensures forall i :: 0 <= i < |positions| ==> sent[i] == PostVote(ProbeCandidateId, positions[i].name)
  {
    votedPos, sent := [], [];
    var i := 0;
    while i < |positions|
      invariant 0 <= i <= |positions|
      invariant votedPos == ProbedVoted(Names(positions)[..i], probe)
      invariant |sent| == i
      invariant forall k :: 0 <= k < i ==> sent[k] == PostVote(ProbeCandidateId, positions[k].name)
    {
      var name := positions[i].name;
      sent := sent + [PostVote(ProbeCandidateId, name)];
      var reply := probe(name);
      if reply.Err? && reply.detail == Str(AlreadyVoted) {
        votedPos := votedPos + [name];
      }
      assert Names(positions)[..i + 1][..i] == Names(positions)[..i];
      i := i + 1;
    }
    assert Names(positions)[..i] == Names(positions);
  }

  /** Whether every position's candidate fetch succeeds. */
  predicate AllFetched(positions: seq<Position>, fetch: string -> Reply<seq<Candidate>>)
  {
    forall p :: p in positions ==> fetch(p.name).Ok?
  }

  /** The positions fetch and every candidate fetch succeed. */
  predicate CatalogLoads(positionsReply: Reply<seq<Position>>, fetch: string -> Reply<seq<Candidate>>)
  {
    positionsReply.Ok? && AllFetched(positionsReply.payload, fetch)
  }

  /** `m` maps each position's name to its fetched candidate list, and has
      no other key. */
  ghost predicate IsCatalog(m: map<string, seq<Candidate>>, positions: seq<Position>, fetch: string -> Reply<seq<Candidate>>)
  {
    && m.Keys == (set p | p in positions :: p.name)
    && forall p :: p in positions ==> fetch(p.name).Ok? && m[p.name] == fetch(p.name).payload
  }

  /** `sent` asks for the candidates of a prefix of the positions, in
      order, and every request before the last one succeeded. */
  predicate CandidateRequests(sent: seq<Request>, positions: seq<Position>, fetch: string -> Reply<seq<Candidate>>)
  {
    && |sent| <= |positions|
    && (forall i :: 0 <= i < |sent| ==> sent[i] == GetCandidatesOf(positions[i].name))
    && (forall i :: 0 <= i < |sent| - 1 ==> fetch(positions[i].name).Ok?)
  }

  /**
   * The catalog loop: one candidate request per position, in order, each
   * result stored under the position's name; the first failure abandons the
   * loop so that no partial map is returned.
   */
  method FetchCandidates(positions: seq<Position>, fetch: string -> Reply<seq<Candidate>>)
    returns (catalog: Option<map<string, seq<Candidate>>>, sent: seq<Request>)
    ensures catalog.Some? <==> AllFetched(positions, fetch)
    ensures catalog.Some? ==> IsCatalog(catalog.value, positions, fetch)
    ensures catalog.Some? ==> |sent| == |positions|
    ensures catalog.None? ==> 0 < |sent| <= |positions| && fetch(positions[|sent| - 1].name).Err?
    ensures CandidateRequests(sent, positions, fetch)
  {
    var candidatesData: map<string, seq<Candidate>> := map[];
    sent := [];
    var i := 0;
    while i < |positions|
      invariant 0 <= i <= |positions| && |sent| == i
      invariant forall k :: 0 <= k < i ==> sent[k] == GetCandidatesOf(positions[k].name)
      invariant forall k :: 0 <= k < i ==> fetch(positions[k].name).Ok?
      invariant candidatesData.Keys == set k | 0 <= k < i :: positions[k].name
      invariant forall k :: 0 <= k < i ==> candidatesData[positions[k].name] == fetch(positions[k].name).payload
    {
      var name := positions[i].name;
      sent := sent + [GetCandidatesOf(name)];
      var reply := fetch(name);
      if reply.Err? {
        catalog := None;
        return;
      }
      candidatesData := candidatesData[name := reply.payload];
      i := i + 1;
    }
    forall p | p in positions ensures fetch(p.name).Ok? && p.name in candidatesData {
      var k :| 0 <= k < |positions| && positions[k] == p;
    }
    assert candidatesData.Keys == set p | p in positions :: p.name by {
      forall n | n in candidatesData.Keys ensures n in set p | p in positions :: p.name {
        var k :| 0 <= k < i && positions[k].name == n;
        assert positions[k] in positions;
      }
    }
    catalog := Some(candidatesData);
  }

  /**
   * The requests the mount effect sends once the positions have arrived,
   * in order. If a candidate fetch fails, the requests stop at that
   * position. Otherwise they are every position's candidate request, then
   * "/results", then, only when "/results" succeeded, one sentinel probe
   * vote per position.
   */
  predicate LoadRequests(sent: seq<Request>, positions: seq<Position>, fetch: string -> Reply<seq<Candidate>>, resultsReply: Reply<()>)
  {
    var n := |positions|;
    if !AllFetched(positions, fetch) then
      && CandidateRequests(sent, positions, fetch)
      && 0 < |sent| && fetch(positions[|sent| - 1].name).Err?
    else
      && |sent| == n + 1 + (if resultsReply.Ok? then n else 0)
      && (forall i :: 0 <= i < n ==> sent[i] == GetCandidatesOf(positions[i].name))
      && sent[n] == GetResults
      && (forall i :: n + 1 <= i < |sent| ==> sent[i] == PostVote(ProbeCandidateId, positions[i - n - 1].name))
  }

  /**
   * A sentinel vote reaches the vote endpoint only after every candidate
   * fetch and the "/results" fetch succeeded, and then every position is
   * probed exactly once.
   */
  lemma ProbesOnlyAfterCatalogAndResults(sent: seq<Request>, positions: seq<Position>, fetch: string -> Reply<seq<Candidate>>, resultsReply: Reply<()>)
    requires LoadRequests(sent, positions, fetch, resultsReply)
    ensures forall i :: 0 <= i < |sent| && sent[i].PostVote? ==> AllFetched(positions, fetch) && resultsReply.Ok?
    ensures AllFetched(positions, fetch) && resultsReply.Ok? ==>
      forall p :: p in positions ==> PostVote(ProbeCandidateId, p.name) in sent
  {
    var n := |positions|;
    if AllFetched(positions, fetch) && resultsReply.Ok? {
      forall p | p in positions
        ensures PostVote(ProbeCandidateId, p.name) in sent
      {
        var k :| 0 <= k < n && positions[k] == p;
        assert sent[n + 1 + k] == PostVote(ProbeCandidateId, p.name);
      }
    }
  }

  /** The requests of a load in which every candidate fetch succeeded. */
  lemma FullLoadRequests(fetched: seq<Request>, probes: seq<Request>, positions: seq<Position>,
                         fetch: string -> Reply<seq<Candidate>>, resultsReply: Reply<()>)
    requires AllFetched(positions, fetch)
    requires |fetched| == |positions|
    requires forall i :: 0 <= i < |positions| ==> fetched[i] == GetCandidatesOf(positions[i].name)
    requires resultsReply.Ok? ==> |probes| == |positions|
    requires resultsReply.Ok? ==> forall i :: 0 <= i < |positions| ==> probes[i] == PostVote(ProbeCandidateId, positions[i].name)
    requires resultsReply.Err? ==> probes == []
    ensures LoadRequests(fetched + [GetResults] + probes, positions, fetch, resultsReply)
  {
    var n := |positions|;
    var sent := fetched + [GetResults] + probes;
    forall i | n + 1 <= i < |sent|
      ensures sent[i] == PostVote(ProbeCandidateId, positions[i - n - 1].name)
    {
      assert sent[i] == probes[i - n - 1];
    }
  }

  /**
   * What the mount effect computes once the positions have arrived: the
   * candidate map when every candidate fetch succeeded, and then, when the
   * results fetch also succeeded, the voted list the probe loop finds; and
   * the requests sent on the way.
   */
  method LoadBallot(positions: seq<Position>, fetch: string -> Reply<seq<Candidate>>,
                    resultsReply: Reply<()>, probe: string -> Reply<VoteAck>)
    returns (catalog: Option<map<string, seq<Candidate>>>, voted: Option<seq<string>>, sent: seq<Request>)
    ensures catalog.Some? <==> AllFetched(positions, fetch)
    ensures catalog.Some? ==> IsCatalog(catalog.value, positions, fetch)
    ensures voted.Some? <==> catalog.Some? && resultsReply.Ok?
    ensures voted.Some? ==> voted.value == ProbedVoted(Names(positions), probe)
    ensures LoadRequests(sent, positions, fetch, resultsReply)
  {
    voted := None;
    var fetched;
    catalog, fetched := FetchCandidates(positions, fetch);
    sent := fetched;
    if catalog.Some? {
      var probes := [];
      if resultsReply.Ok? {
        var votedPos;
        votedPos, probes := ProbeVotedPositions(positions, probe);
        voted := Some(votedPos);
      }
      FullLoadRequests(fetched, probes, positions, fetch, resultsReply);
      sent := fetched + [GetResults] + probes;
    }
  }

  /** The whole mount effect on values: the positions fetch, then the
      load that follows it when it succeeded. */
  method MountEffect(positionsReply: Reply<seq<Position>>, fetch: string -> Reply<seq<Candidate>>,
                     resultsReply: Reply<()>, probe: string -> Reply<VoteAck>)
    returns (catalog: Option<map<string, seq<Candidate>>>, voted: Option<seq<string>>, sent: seq<Request>)
    ensures catalog.Some? <==> CatalogLoads(positionsReply, fetch)
    ensures catalog.Some? ==> IsCatalog(catalog.value, positionsReply.payload, fetch)
    ensures voted.Some? <==> CatalogLoads(positionsReply, fetch) && resultsReply.Ok?
    ensures voted.Some? ==> voted.value == ProbedVoted(Names(positionsReply.payload), probe)
    ensures |sent| >= 1 && sent[0] == GetPositions
    ensures positionsReply.Err? ==> sent == [GetPositions]
    ensures positionsReply.Ok? ==> LoadRequests(sent[1..], positionsReply.payload, fetch, resultsReply)
  {
    catalog, voted, sent := None, None, [GetPositions];
    if positionsReply.Ok? {
      var loadSent;
      catalog, voted, loadSent := LoadBallot(positionsReply.payload, fetch, resultsReply, probe);
      sent := sent + loadSent;
      assert sent[1..] == loadSent;
    }
  }

  /** What a position's card shows. */
  datatype Panel =
    | VotedPanel
    | NoCandidatesPanel
    | BallotPanel(choices: seq<Candidate>, selected: Option<string>, castDisabled: bool)

  /** `!selectedCandidates[name] || submitting[name]`. */
  predicate CastDisabled(selected: map<string, string>, submitting: map<string, bool>, name: string)
  {
    (name !in selected || selected[name] == "") || (name in submitting && submitting[name])
  }

  /**
   * The card for one position: the "already voted" panel whenever the
   * position is in the voted list; the "no candidates" panel when its
   * fetched list is empty; otherwise its candidates (none when the catalog
   * has no entry for it) and a cast button that is disabled while nothing
   * is selected or a submission for this position is in flight.
   */
  function PositionPanel(name: string, votedPositions: seq<string>, candidates: map<string, seq<Candidate>>,
                         selected: map<string, string>, submitting: map<string, bool>): (p: Panel)
    ensures p.VotedPanel? <==> name in votedPositions
    ensures p.NoCandidatesPanel? <==> name !in votedPositions && name in candidates && candidates[name] == []
    ensures p.BallotPanel? ==> p.choices == (if name in candidates then candidates[name] else [])
    ensures p.BallotPanel? ==> (p.castDisabled <==> CastDisabled(selected, submitting, name))
    ensures p.BallotPanel? ==> (p.selected.Some? <==> name in selected)
  {
    if name in votedPositions then VotedPanel
    else if name in candidates && candidates[name] == [] then NoCandidatesPanel
    else
      BallotPanel(if name in candidates then candidates[name] else [],
                  if name in selected then Some(selected[name]) else None,
                  CastDisabled(selected, submitting, name))
  }

  /** A position's button is disabled while its own vote is in flight and,
      once the vote has finished, only when nothing is selected; the flag
      of one position never changes another position's button. */
  lemma InFlightDisablesOnlyItsPosition(selected: map<string, string>, submitting: map<string, bool>, name: string, other: string)
    requires other != name
    ensures CastDisabled(selected, submitting[name := true], name)
    ensures CastDisabled(selected, submitting[name := false], name) <==> (name !in selected || selected[name] == "")
    ensures CastDisabled(selected, submitting[name := true], other) == CastDisabled(selected, submitting, other)
  {
  }

  /** The dashboard's state between renders. */
  class Dashboard {
    var positions: seq<Position>
    var candidates: map<string, seq<Candidate>>
    var votedPositions: seq<string>
    var loading: bool
    var selectedCandidates: map<string, string>
    var submitting: map<string, bool>

    constructor ()
      ensures positions == [] && candidates == map[] && votedPositions == []
      ensures loading && selectedCandidates == map[] && submitting == map[]
    {
      positions, candidates, votedPositions := [], map[], [];
      loading, selectedCandidates, submitting := true, map[], map[];
    }

    /**
     * The mount effect. The positions are published as soon as they arrive;
     * the candidate map is published once, after every candidate fetch
     * succeeded; the voted list is published once, after the results fetch
     * and the probe loop. Any failure ends the sequence with an error toast;
     * loading ends on every path.
     */
    method FetchData(positionsReply: Reply<seq<Position>>, fetch: string -> Reply<seq<Candidate>>,
                     resultsReply: Reply<()>, probe: string -> Reply<VoteAck>)
      returns (sent: seq<Request>, toast: Option<Toast>)
      modifies this
      ensures !loading
      ensures |sent| >= 1 && sent[0] == GetPositions
      ensures positionsReply.Err? ==> sent == [GetPositions]
      ensures positionsReply.Ok? ==> LoadRequests(sent[1..], positionsReply.payload, fetch, resultsReply)
      ensures selectedCandidates == old(selectedCandidates) && submitting == old(submitting)
      ensures positions == (if positionsReply.Ok? then positionsReply.payload else old(positions))
      ensures CatalogLoads(positionsReply, fetch) ==> IsCatalog(candidates, positionsReply.payload, fetch)
      ensures !CatalogLoads(positionsReply, fetch) ==> candidates == old(candidates)
      ensures votedPositions ==
                if CatalogLoads(positionsReply, fetch) && resultsReply.Ok?
                then ProbedVoted(Names(positionsReply.payload), probe)
                else old(votedPositions)
      ensures toast.Some? <==> !(CatalogLoads(positionsReply, fetch) && resultsReply.Ok?)
      ensures toast.Some? ==> toast.value == ErrorToast(Text(LoadFailed))
    {
      toast := Some(ErrorToast(Text(LoadFailed)));
      var catalog, voted;
      catalog, voted, sent := MountEffect(positionsReply, fetch, resultsReply, probe);
      if positionsReply.Ok? {
        positions := positionsReply.payload;
      }
      if catalog.Some? {
        candidates := catalog.value;
      }
      if voted.Some? {
        votedPositions := voted.value;
        toast := None;
      }
      loading := false;
    }

    /** Choosing a candidate for a position changes only that position's
        entry of the selection map. */
    method Select(name: string, candidateId: string)
      modifies this
      ensures selectedCandidates == old(selectedCandidates)[name := candidateId]
      ensures positions == old(positions) && candidates == old(candidates) && votedPositions == old(votedPositions)
      ensures loading == old(loading) && submitting == old(submitting)
    {
      selectedCandidates := selectedCandidates[name := candidateId];
    }

    /**
     * Casting a vote. While the request is pending the position's flag is
     * true (`pending`); afterwards it is false on every path, and no other
     * key differs from the map before the vote. Only an accepted vote
     * appends the position to the voted list; any rejection, the duplicate
     * one included, leaves the list as it was and shows the detail or
     * "Failed to record vote".
     */
    method HandleVote(name: string, candidateId: string, reply: Reply<VoteAck>)
      returns (sent: Request, pending: map<string, bool>, toast: Toast)
      modifies this
      ensures sent == PostVote(candidateId, name)
      ensures pending == old(submitting)[name := true]
      ensures submitting == old(submitting)[name := false]
      ensures reply.Ok? ==> votedPositions == old(votedPositions) + [name]
      ensures reply.Ok? ==> toast == SuccessToast("Vote for " + name + " recorded successfully!")
      ensures reply.Err? ==> votedPositions == old(votedPositions)
      ensures reply.Err? ==> toast == ErrorToast(DetailOr(reply.detail, VoteFailed))
      ensures positions == old(positions) && candidates == old(candidates)
      ensures loading == old(loading) && selectedCandidates == old(selectedCandidates)
    {
      var snapshot := submitting;
      submitting := snapshot[name := true];
      pending := submitting;
      sent := PostVote(candidateId, name);
      if reply.Ok? {
        toast := SuccessToast("Vote for " + name + " recorded successfully!");
        votedPositions := votedPositions + [name];
      } else {
        toast := ErrorToast(DetailOr(reply.detail, VoteFailed));
      }
      submitting := snapshot[name := false];
    }
  }
}
