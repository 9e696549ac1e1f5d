/**
 * The vote listing screen: it fetches the current election's votes from the
 * relayer, optionally for one candidate, and keeps the paginator's offset.
 */
module Votes {
  import opened Base
  import opened JsStrings
  import opened Web3

  /** How many votes either loader asks for, always from offset 0. */
  const FetchLimit: int := 50

  /** Every field of the component, as one value. */
  datatype VotesState = VotesState(
    candidates: seq<Candidate>,
    electionId: int,
    votes: seq<OnChainVote>,
    limit: int,
    start: int,
    loading: bool,
    candidateId: Option<int>)

  /** The options `loadVotes` passes for election `eid`. */
  function LoadVotesOptions(eid: int): ListOptions {
    ListOptions(Some(eid), Some(0), Some(FetchLimit))
  }

  /** The query `loadVotes` sends: the election, offset 0 and limit 50, in that order and nothing else. */
  lemma LoadVotesQuery(eid: int)
    ensures ListVotesQuery(Some(LoadVotesOptions(eid))) == [("electionId", IntToString(eid)), ("start", "0"), ("limit", "50")]
  {
    assert IntToString(50) == "50" by {
      assert NatToString(50) == NatToString(5) + [DigitChar(0)];
    }
  }

  class VotesComponent {
    const web3: Web3Service
    var candidates: seq<Candidate>
    var electionId: int
    var votes: seq<OnChainVote>
    var limit: int
    var start: int
    var loading: bool
    var candidateId: Option<int>

    function State(): VotesState
      reads this
    {
      VotesState(candidates, electionId, votes, limit, start, loading, candidateId)
    }

    constructor (web3: Web3Service)
      ensures this.web3 == web3
      ensures State() == VotesState([], 0, [], 10, 0, false, None)
    {
      this.web3 := web3;
      candidates, electionId, votes, limit, start, loading, candidateId := [], 0, [], 10, 0, false, None;
    }

    /** `onPageChange(event)`: the offset of the page and its size; nothing else changes. */
    method OnPageChange(pageIndex: int, pageSize: int)
      modifies this
      ensures State() == old(State()).(start := pageIndex * pageSize, limit := pageSize)
      ensures start == pageIndex * limit
    {
      start := pageIndex * pageSize;
      limit := pageSize;
    }

    /** `loadVotes()`: the current election from offset 0, limit 50, whatever `start` and `limit` hold. */
    method LoadVotes(chain: Ledger, reply: Reply<VotesPage>) returns (request: Option<string>, r: Result<(), Failure>)
      modifies this
      ensures CurrentElectionId(chain).Err? ==>
        request == None && r == Err(CurrentElectionId(chain).error) && State() == old(State())
      ensures CurrentElectionId(chain).Ok? ==>
        && request == Some(WithQuery(RelayerUrl + "/votes", ListVotesQuery(Some(LoadVotesOptions(CurrentElectionId(chain).value)))))
        && (Checked(reply).Ok? ==> r == Ok(()) && State() == old(State()).(votes := reply.json.items))
        && (Checked(reply).Err? ==> r == Err(Checked(reply).error) && State() == old(State()))
    {
      var eid := CurrentElectionId(chain);
      if eid.Err? {
        return None, Err(eid.error);
      }
      var url, page := ListVotes(Some(ListOptions(Some(eid.value), Some(0), Some(FetchLimit))), reply);
      request := Some(url);
      if page.Err? {
        return request, Err(page.error);
      }
      votes := page.value.items;
      r := Ok(());
    }

    /** `loadVotesByCandidate()`: the current election and the chosen candidate, offset 0, limit 50. */
    method LoadVotesByCandidate(chain: Ledger, reply: Reply<VotesPage>) returns (request: Option<string>, r: Result<(), Failure>)
      modifies this
      ensures CurrentElectionId(chain).Err? ==>
        request == None && r == Err(CurrentElectionId(chain).error) && State() == old(State())
      ensures CurrentElectionId(chain).Ok? ==>
        && request == Some(RelayerUrl + "/votes/by-candidate?" +
                           Serialize(ByCandidateQuery(CurrentElectionId(chain).value, old(candidateId), 0, FetchLimit)))
        && (Checked(reply).Ok? ==> r == Ok(()) && State() == old(State()).(votes := reply.json.items))
        && (Checked(reply).Err? ==> r == Err(Checked(reply).error) && State() == old(State()))
    {
      var eid := CurrentElectionId(chain);
      if eid.Err? {
        return None, Err(eid.error);
      }
      var (url, page) := ListVotesByCandidate(eid.value, candidateId, reply, 0, FetchLimit);
      request := Some(url);
      if page.Err? {
        return request, Err(page.error);
      }
      votes := page.value.items;
      r := Ok(());
    }

    /**
     * `ngOnInit()`: `loading` is raised before the fetch and lowered after it;
     * a failure propagates past the lowering, so the flag stays raised. The
     * fetch itself is not interleaved with rendering here, so the raised flag
     * is seen only through the failure case.
     */
    method NgOnInit(chain: Ledger, reply: Reply<VotesPage>)
      returns (request: Option<string>, r: Result<(), Failure>)
      modifies this
      ensures loading <==> r.Err?
      ensures CurrentElectionId(chain).Ok? && Checked(reply).Ok? ==>
        r == Ok(()) && State() == old(State()).(votes := reply.json.items, loading := false)
      ensures r.Err? ==> State() == old(State()).(loading := true)
      ensures r.Err? <==> CurrentElectionId(chain).Err? || Checked(reply).Err?
    {
      loading := true;
      request, r := LoadVotes(chain, reply);
      if r.Err? {
        return;
      }
      loading := false;
    }
  }
}
