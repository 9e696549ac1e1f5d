/**
 * What the administration, voting and realtime screens share: the load of
 * election id, candidates and images in that order, and the image lookup
 * with its placeholder.
 */
module Views {
  import opened Base
  import opened Web3

  /** What each of the three reads of a load produced; a read happens only after the earlier ones succeeded. */
  datatype Loaded = Loaded(
    electionId: Option<int>,
    candidates: Option<seq<Candidate>>,
    images: Option<map<int, string>>,
    outcome: Result<(), Failure>)

  /**
   * `electionId = await currentElectionId()`, then `candidates = await
   * getAllCandidates()`, then `images = await getCandidateMeta(electionId || 0)`,
   * stopping at the first failure.
   */
  function Load(chain: Ledger, metaReply: Reply<MetaBody>): Loaded {
    match CurrentElectionId(chain)
    case Err(e) => Loaded(None, None, None, Err(e))
    case Ok(eid) =>
      match GetAllCandidates(chain)
      case Err(e) => Loaded(Some(eid), None, None, Err(e))
      case Ok(cs) =>
        match CandidateMeta(eid, metaReply)
        case Err(e) => Loaded(Some(eid), Some(cs), None, Err(e))
        case Ok(m) => Loaded(Some(eid), Some(cs), Some(m), Ok(()))
  }

  /**
   * A load succeeds exactly when all three reads do, and then carries their
   * values; the reads stop at the first failure, so a later value is present
   * only when the earlier ones are, and a failure never carries images.
   */
  lemma LoadOutcome(chain: Ledger, metaReply: Reply<MetaBody>)
    ensures var l := Load(chain, metaReply);
      && (l.outcome.Ok? <==>
           CurrentElectionId(chain).Ok? && GetAllCandidates(chain).Ok? && CandidateMeta(CurrentElectionId(chain).value, metaReply).Ok?)
      && (l.outcome.Ok? ==>
           && l.electionId == Some(CurrentElectionId(chain).value)
           && l.candidates == Some(GetAllCandidates(chain).value)
           && l.images == Some(CandidateMeta(CurrentElectionId(chain).value, metaReply).value))
      && (l.electionId.Some? <==> CurrentElectionId(chain).Ok?)
      && (l.candidates.Some? ==> l.electionId.Some?)
      && (l.images.Some? <==> l.outcome.Ok?)
  {
  }

  /**
   * With the node down or no contract deployed nothing is read, and the load
   * fails with the network error or the no-contract message.
   */
  lemma LoadNotDeployed(chain: Ledger, metaReply: Reply<MetaBody>)
    requires !Deployed(chain)
    ensures Load(chain, metaReply) ==
      Loaded(None, None, None, Err(if chain.reachable then NoContract(chain.address) else NodeDown))
  {
    NotDeployedFailsEveryRead(chain, 0, 0);
  }

  /** The three reads, in order. */
  method LoadViewData(chain: Ledger, metaReply: Reply<MetaBody>) returns (l: Loaded)
    ensures l == Load(chain, metaReply)
  {
    var eid := CurrentElectionId(chain);
    if eid.Err? {
      return Loaded(None, None, None, Err(eid.error));
    }
    var cs := GetAllCandidates(chain);
    if cs.Err? {
      return Loaded(Some(eid.value), None, None, Err(cs.error));
    }
    var _, meta := GetCandidateMeta(eid.value, metaReply);
    if meta.Err? {
      return Loaded(Some(eid.value), Some(cs.value), None, Err(meta.error));
    }
    l := Loaded(Some(eid.value), Some(cs.value), Some(meta.value), Ok(()));
  }

  /**
   * `e?.message || fallback`: the error's message, or the screen's fallback
   * text when the message is empty (`Error` unless the screen names another).
   */
  function Shown(f: Failure, fallback: string := "Error"): (r: string)
    ensures Message(f) != "" ==> r == Message(f)
    ensures Message(f) == "" ==> r == fallback
    ensures fallback != "" ==> r != ""
  {
    if Message(f) != "" then Message(f) else fallback
  }

  const Placeholder: string := "assets/placeholder.png"

  /** `imgFor(c)`: the stored image for the candidate's id, unless it is missing or empty. */
  function ImgFor(images: map<int, string>, c: Candidate): (url: string)
    ensures url != ""
    ensures c.id in images && images[c.id] != "" ==> url == images[c.id]
    ensures c.id !in images || images[c.id] == "" ==> url == Placeholder
  {
    if c.id in images && images[c.id] != "" then images[c.id] else Placeholder
  }
}
