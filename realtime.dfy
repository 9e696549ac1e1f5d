/**
 * The live results screen: it loads the election, keeps a running total of
 * the counts and recomputes it after every notification.
 */
module Realtime {
  import opened Base
  import opened Web3
  import opened Tally
  import opened Views

  /** The tag under which this screen registers its vote listener. */
  const RealtimeListener: Listener := 1

  /** Every field of the component, as one value. */
  datatype RealtimeState = RealtimeState(
    electionId: int,
    candidates: seq<Candidate>,
    images: map<int, string>,
    total: int)

  /** The shown total is the sum of the shown counts. */
  predicate Consistent(s: RealtimeState) {
    s.total == Sum(s.candidates)
  }

  /** `loadInitial()`: values assigned as they arrive; the total is recomputed only after all three reads. */
  function AfterLoadInitial(s: RealtimeState, l: Loaded): RealtimeState {
    var t := s.(electionId := l.electionId.GetOr(s.electionId),
                candidates := l.candidates.GetOr(s.candidates),
                images := l.images.GetOr(s.images));
    if l.outcome.Ok? then t.(total := Sum(t.candidates)) else t
  }

  /** A successful load leaves the ledger's candidates with their total. */
  lemma LoadInitialConsistent(s: RealtimeState, chain: Ledger, metaReply: Reply<MetaBody>)
    requires Load(chain, metaReply).outcome.Ok?
    ensures var t := AfterLoadInitial(s, Load(chain, metaReply));
      Consistent(t) && t.candidates == GetAllCandidates(chain).value
  {
    LoadOutcome(chain, metaReply);
  }

  /**
   * A load that fails on the image read has replaced the candidates but not
   * the total, so the shown total disagrees with them; `ngOnInit` then stops
   * before subscribing with `onVote`, so no notification arrives to recompute it.
   */
  lemma FailedLoadCanLeaveTotalStale()
    ensures
      var chain := Ledger(true, "0xC", "0x60", Num(1), Num(1), [RawRecord(map[], [Num(1), Str("A"), Num(3)])], map[]);
      var s := RealtimeState(0, [], map[], 0);
      var t := AfterLoadInitial(s, Load(chain, Unreachable));
      !Consistent(t) && t.candidates != []
  {
    var raw := RawRecord(map[], [Num(1), Str("A"), Num(3)]);
    var chain := Ledger(true, "0xC", "0x60", Num(1), Num(1), [raw], map[]);
    assert DecodeCandidate(raw) == Ok(Candidate(1, Some(Str("A")), 3, None));
    assert [raw][1..] == [];
    assert DecodeAll([raw]) == Ok([Candidate(1, Some(Str("A")), 3, None)] + []);
    var cs := [Candidate(1, Some(Str("A")), 3, None)];
    assert Sum(cs) == Sum(cs[..0]) + 3;
  }

  /** The state after the callback: the patch, then `computeTotal()`. */
  function Patched(s: RealtimeState, e: VoteEvent): RealtimeState {
    var cs := ApplyVote(s.candidates, e);
    s.(candidates := cs, total := Sum(cs))
  }

  /** The callback moves a consistent total by exactly the change of the patched count. */
  lemma PatchedTotal(s: RealtimeState, e: VoteEvent)
    requires Consistent(s)
    ensures Consistent(Patched(s, e))
    ensures FirstIndex(s.candidates, e.candidateId).None? ==> Patched(s, e) == s
    ensures FirstIndex(s.candidates, e.candidateId).Some? ==>
      Patched(s, e).total == s.total - s.candidates[FirstIndex(s.candidates, e.candidateId).value].voteCount + e.newTotal
  {
    SumAfterVote(s.candidates, e);
  }

  /** Delivering a notification twice leaves candidates and total as one delivery does. */
  lemma PatchedIdempotent(s: RealtimeState, e: VoteEvent)
    ensures Patched(Patched(s, e), e) == Patched(s, e)
  {
    ApplyVoteIdempotent(s.candidates, e);
  }

  class RealtimeComponent {
    const web3: Web3Service
    var electionId: int
    var candidates: seq<Candidate>
    var images: map<int, string>
    var total: int

    function State(): RealtimeState
      reads this
    {
      RealtimeState(electionId, candidates, images, total)
    }

    constructor (web3: Web3Service)
      ensures this.web3 == web3
      ensures State() == RealtimeState(0, [], map[], 0) && Consistent(State())
    {
      this.web3 := web3;
      electionId, candidates, images, total := 0, [], map[], 0;
    }

    /** `computeTotal()` */
    method ComputeTotal()
      modifies this
      ensures State() == old(State()).(total := Sum(candidates))
      ensures Consistent(State())
    {
      total := Sum(candidates);
    }

    /** `loadInitial()`; a failure propagates. */
    method LoadInitial(chain: Ledger, metaReply: Reply<MetaBody>) returns (r: Result<(), Failure>)
      modifies this
      ensures State() == AfterLoadInitial(old(State()), Load(chain, metaReply))
      ensures r == Load(chain, metaReply).outcome
    {
      var l := LoadViewData(chain, metaReply);
      electionId := l.electionId.GetOr(electionId);
      candidates := l.candidates.GetOr(candidates);
      images := l.images.GetOr(images);
      r := l.outcome;
      if r.Ok? {
        ComputeTotal();
      }
    }

    /** `ngOnInit()`: no `catch`, so a failed load propagates and no listener is registered. */
    method NgOnInit(chain: Ledger, metaReply: Reply<MetaBody>) returns (r: Result<(), Failure>)
      modifies this, web3
      ensures r == Load(chain, metaReply).outcome
      ensures State() == AfterLoadInitial(old(State()), Load(chain, metaReply))
      ensures web3.signer == old(web3.signer) && web3.contractWrite == old(web3.contractWrite)
      ensures web3.voteListeners == old(web3.voteListeners) + (if r.Ok? then [RealtimeListener] else [])
    {
      r := LoadInitial(chain, metaReply);
      if r.Ok? {
        web3.OnVote(RealtimeListener);
      }
    }

    /** The registered callback: patch the first candidate with the id, then recompute the total. */
    method OnVoteEvent(e: VoteEvent)
      modifies this
      ensures State() == Patched(old(State()), e)
      ensures Consistent(State())
    {
      var k := FindById(candidates, e.candidateId);
      if k.Some? {
        candidates := candidates[k.value := candidates[k.value].(voteCount := e.newTotal)];
      }
      ComputeTotal();
    }

    /** `ngOnDestroy()` */
    method NgOnDestroy()
      modifies web3
      ensures web3.voteListeners == []
      ensures web3.signer == old(web3.signer) && web3.contractWrite == old(web3.contractWrite)
    {
      web3.OffVote();
    }
  }
}
