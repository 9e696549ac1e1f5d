/**
 * The voting screen: it loads the election, preselects the first candidate,
 * patches counts from live notifications and submits a vote through the
 * relayer once the voter's data is complete.
 */
module Votacion {
  import opened Base
  import opened Web3
  import opened Tally
  import opened Views

  /** The tag under which this screen registers its vote listener. */
  const VotacionListener: Listener := 0

  const Prompt: string := "Completa DNI, huella y selecciona un candidato."

  /** Every field of the component, as one value. */
  datatype VotacionState = VotacionState(
    dni: string,
    fingerprint: string,
    electionId: int,
    candidates: seq<Candidate>,
    images: map<int, string>,
    selectedId: Option<int>,
    msg: string)

  /**
   * `loadData()`: the loaded values are assigned as they arrive; once all
   * three reads succeed, a non-empty list selects its first candidate.
   */
  function AfterLoad(s: VotacionState, l: Loaded): (t: VotacionState)
    ensures l.outcome.Ok? && t.candidates != [] ==> t.selectedId == Some(t.candidates[0].id)
    ensures !(l.outcome.Ok? && t.candidates != []) ==> t.selectedId == s.selectedId
    ensures t.dni == s.dni && t.fingerprint == s.fingerprint && t.msg == s.msg
  {
    var t := s.(electionId := l.electionId.GetOr(s.electionId),
                candidates := l.candidates.GetOr(s.candidates),
                images := l.images.GetOr(s.images));
    if l.outcome.Ok? && t.candidates != [] then t.(selectedId := Some(t.candidates[0].id)) else t
  }

  /** After a successful load with candidates, the selection names a loaded candidate. */
  lemma LoadSelectsLoadedCandidate(s: VotacionState, chain: Ledger, metaReply: Reply<MetaBody>)
    requires Load(chain, metaReply).outcome.Ok?
    requires GetAllCandidates(chain).Ok? && GetAllCandidates(chain).value != []
    ensures var t := AfterLoad(s, Load(chain, metaReply));
      && t.candidates == GetAllCandidates(chain).value
      && t.selectedId.Some?
      && FirstIndex(t.candidates, t.selectedId.value) == Some(0)
  {
    LoadOutcome(chain, metaReply);
  }

  /** Notifications keep the ids, so a selection that named a candidate still does. */
  lemma SelectionSurvivesVotes(candidates: seq<Candidate>, es: seq<VoteEvent>, id: int)
    ensures FirstIndex(ApplyAll(candidates, es), id) == FirstIndex(candidates, id)
  {
    IdsAfterAll(candidates, es, id);
  }

  class VotacionComponent {
    const web3: Web3Service
    var dni: string
    var fingerprint: string
    var electionId: int
    var candidates: seq<Candidate>
    var images: map<int, string>
    var selectedId: Option<int>
    var msg: string

    function State(): VotacionState
      reads this
    {
      VotacionState(dni, fingerprint, electionId, candidates, images, selectedId, msg)
    }

    constructor (web3: Web3Service)
      ensures this.web3 == web3
      ensures State() == VotacionState("", "", 0, [], map[], None, "")
    {
      this.web3 := web3;
      dni, fingerprint, electionId, candidates, images, selectedId, msg := "", "", 0, [], map[], None, "";
    }

    /** `loadData()`; a failure propagates. */
    method LoadData(chain: Ledger, metaReply: Reply<MetaBody>) returns (r: Result<(), Failure>)
      modifies this
      ensures State() == AfterLoad(old(State()), Load(chain, metaReply))
      ensures r == Load(chain, metaReply).outcome
    {
      var l := LoadViewData(chain, metaReply);
      electionId := l.electionId.GetOr(electionId);
      candidates := l.candidates.GetOr(candidates);
      images := l.images.GetOr(images);
      r := l.outcome;
      if r.Ok? && candidates != [] {
        selectedId := Some(candidates[0].id);
      }
    }

    /** `ngOnInit()`: the listener is registered only after a successful load. */
    method NgOnInit(chain: Ledger, metaReply: Reply<MetaBody>)
      modifies this, web3
      ensures web3.signer == old(web3.signer) && web3.contractWrite == old(web3.contractWrite)
      ensures var l := Load(chain, metaReply);
        && (l.outcome.Ok? ==>
             State() == AfterLoad(old(State()), l) && web3.voteListeners == old(web3.voteListeners) + [VotacionListener])
        && (l.outcome.Err? ==>
             && State() == AfterLoad(old(State()), l).(msg := "Error cargando datos: " + Shown(l.outcome.error))
             && web3.voteListeners == old(web3.voteListeners))
    {
      var r := LoadData(chain, metaReply);
      if r.Err? {
        msg := "Error cargando datos: " + Shown(r.error);
        return;
      }
      web3.OnVote(VotacionListener);
    }

    /** The registered callback: `find` the candidate, then `c.voteCount = newTotal`. */
    method OnVoteEvent(e: VoteEvent)
      modifies this
      ensures State() == old(State()).(candidates := ApplyVote(old(candidates), e))
    {
      var k := FindById(candidates, e.candidateId);
      if k.Some? {
        candidates := candidates[k.value := candidates[k.value].(voteCount := e.newTotal)];
      }
    }

    /** `ngOnDestroy()` */
    method NgOnDestroy()
      modifies web3
      ensures web3.voteListeners == []
      ensures web3.signer == old(web3.signer) && web3.contractWrite == old(web3.contractWrite)
    {
      web3.OffVote();
    }

    /** `vote()`: nothing is posted unless DNI, fingerprint and a selection are all present. */
    method Vote(reply: Reply<TxBody>) returns (posted: Option<string>)
      modifies this
      ensures posted.Some? <==> old(dni) != "" && old(fingerprint) != "" && old(selectedId).Some?
      ensures posted.None? ==> State() == old(State()).(msg := Prompt)
      ensures posted.Some? ==>
        var (url, r) := VoteRelayerSimple(old(dni), old(fingerprint), old(selectedId).value, reply);
        && posted == Some(url)
        && (r.Ok? ==> State() == old(State()).(msg := "\U{2705} Voto emitido. TX: " + r.value))
        && (r.Err? ==> State() == old(State()).(msg := "\U{274C} " + Shown(r.error, "Error de red")))
    {
      msg := "";
      if dni == "" || fingerprint == "" || selectedId.None? {
        msg := Prompt;
        return None;
      }
      var (url, r) := VoteRelayerSimple(dni, fingerprint, selectedId.value, reply);
      posted := Some(url);
      if r.Ok? {
        msg := "\U{2705} Voto emitido. TX: " + r.value;
      } else {
        msg := "\U{274C} " + Shown(r.error, "Error de red");
      }
    }
  }
}
