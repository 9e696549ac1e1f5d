/**
 * The client's gateway to the ledger and to the relayer (`Web3Service`).
 *
 * The ledger is given as a `Ledger` value holding what the node would answer
 * (the code at the contract address and the raw contract return values), and
 * every relayer request is given the `Reply` the relayer would send back.
 */
module Web3 {
  import opened Base
  import opened JsStrings

  const RelayerUrl: string := "http://localhost:3000"

  /** `Number.MAX_SAFE_INTEGER`: `BigNumber.toNumber` throws beyond it. */
  const MaxSafeInteger: int := 9007199254740991

  /** A raw value returned by the contract: a big number or a string. */
  datatype Value = Num(n: int) | Str(s: string)

  /** An ethers call result: members reachable by name and by position. */
  datatype RawRecord = RawRecord(named: map<string, Value>, positional: seq<Value>)

  /** A decoded candidate; `name` and `imageURI` are kept as received (`None` is `undefined`). */
  datatype Candidate = Candidate(id: int, name: Option<Value>, voteCount: int, imageURI: Option<Value>)

  datatype OnChainVote = OnChainVote(id: int, candidateId: int, timestamp: int)

  /** What the ledger node answers for the configured contract address; an unreachable node answers nothing. */
  datatype Ledger = Ledger(
    reachable: bool,
    address: string,
    code: string,
    currentElectionId: Value,
    candidatesCount: Value,
    candidates: seq<RawRecord>,
    elections: map<int, RawRecord>)

  /** The ways an operation of the service throws. */
  datatype Failure =
    | NodeDown                      // the JSON-RPC node does not answer
    | NoContract(address: string)   // assertContract
    | NoWallet                      // no injected wallet
    | AccountsRejected              // the user declined eth_requestAccounts
    | NeedWallet                    // needWrite
    | Reverted(reason: string)      // a contract call or transaction reverted
    | Overflow                      // BigNumber.toNumber beyond the safe range
    | NotANumber                    // toNumber on a missing or non-numeric member
    | NetworkDown                   // fetch rejected
    | Rejected(text: string)        // non-ok HTTP status, the body text

  /** `e.message` */
  function Message(f: Failure): string {
    match f
    case NoContract(a) =>
      "No hay contrato en " + a + " (localhost:8545). Redeploy y actualiza assets/contract.json."
    case NodeDown => "could not detect network"
    case NoWallet => "Instala MetaMask"
    case AccountsRejected => "User rejected the request."
    case NeedWallet => "Conecta wallet para firmar transacciones"
    case Reverted(reason) => reason
    case Overflow => "overflow"
    case NotANumber => "toNumber is not a function"
    case NetworkDown => "Failed to fetch"
    case Rejected(text) => text
  }

  // ---------------------------------------------------------------- ledger reads

  /** The contract is deployed: the code is neither empty nor `0x`. */
  predicate HasContract(code: string) {
    code != "" && code != "0x"
  }

  /** The node answers and the contract is deployed, so every read gets past `assertContract`. */
  predicate Deployed(chain: Ledger) {
    chain.reachable && HasContract(chain.code)
  }

  /** `assertContract`: `getCode` rejects when the node is down, then the code is checked. */
  function AssertContract(chain: Ledger): (r: Result<(), Failure>)
    ensures !chain.reachable ==> r == Err(NodeDown)
    ensures chain.reachable ==> (r.Err? <==> chain.code == "" || chain.code == "0x")
    ensures chain.reachable && r.Err? ==> r.error == NoContract(chain.address)
  {
    if !chain.reachable then Err(NodeDown)
    else if !HasContract(chain.code) then Err(NoContract(chain.address))
    else Ok(())
  }

  /** `BigNumber.toNumber()` */
  function ToNumber(v: Value): (r: Result<int, Failure>)
    ensures r.Ok? <==> v.Num? && -MaxSafeInteger <= v.n <= MaxSafeInteger
    ensures r.Ok? ==> v == Num(r.value)
    ensures r.Err? ==> r.error == (if v.Num? then Overflow else NotANumber)
  {
    match v
    case Num(n) => if -MaxSafeInteger <= n <= MaxSafeInteger then Ok(n) else Err(Overflow)
    case Str(_) => Err(NotANumber)
  }

  /** `t[key] ?? t[index]` */
  function Field(t: RawRecord, key: string, index: nat): (r: Option<Value>)
    ensures key in t.named ==> r == Some(t.named[key])
    ensures key !in t.named ==> (r.Some? <==> index < |t.positional|)
    ensures key !in t.named && index < |t.positional| ==> r == Some(t.positional[index])
  {
    if key in t.named then Some(t.named[key])
    else if index < |t.positional| then Some(t.positional[index])
    else None
  }

  /** `(t[key] ?? t[index]).toNumber()`; `undefined.toNumber()` throws. */
  function NumberField(t: RawRecord, key: string, index: nat): (r: Result<int, Failure>)
    ensures r.Ok? ==> Field(t, key, index) == Some(Num(r.value))
    ensures Field(t, key, index).None? ==> r == Err(NotANumber)
    ensures Field(t, key, index).Some? ==> r == ToNumber(Field(t, key, index).value)
  {
    match Field(t, key, index)
    case None => Err(NotANumber)
    case Some(v) => ToNumber(v)
  }

  /** The record built by `getAllCandidates` from one raw candidate; `id` is converted first. */
  function DecodeCandidate(t: RawRecord): (r: Result<Candidate, Failure>)
    ensures r.Ok? ==> Field(t, "id", 0) == Some(Num(r.value.id))
    ensures r.Ok? ==> Field(t, "voteCount", 2) == Some(Num(r.value.voteCount))
    ensures r.Ok? ==> r.value.name == Field(t, "name", 1) && r.value.imageURI == Field(t, "imageURI", 3)
    ensures r.Err? <==> NumberField(t, "id", 0).Err? || NumberField(t, "voteCount", 2).Err?
    ensures NumberField(t, "id", 0).Err? ==> r.error == NumberField(t, "id", 0).error
    ensures NumberField(t, "id", 0).Ok? && r.Err? ==> r.error == NumberField(t, "voteCount", 2).error
  {
    var id :- NumberField(t, "id", 0);
    var votes :- NumberField(t, "voteCount", 2);
    Ok(Candidate(id, Field(t, "name", 1), votes, Field(t, "imageURI", 3)))
  }

  /** `raw.map(decode)`: the first failing element throws; otherwise same length and order. */
  function DecodeAll(raw: seq<RawRecord>): (r: Result<seq<Candidate>, Failure>)
    ensures r.Ok? ==> |r.value| == |raw|
    ensures r.Ok? ==> forall k :: 0 <= k < |raw| ==> DecodeCandidate(raw[k]) == Ok(r.value[k])
    ensures r.Err? ==> exists k :: 0 <= k < |raw| && DecodeCandidate(raw[k]) == Err(r.error)
                                  && forall j :: 0 <= j < k ==> DecodeCandidate(raw[j]).Ok?
    decreases |raw|
  {
    if raw == [] then Ok([])
    else
      var c :- DecodeCandidate(raw[0]);
      var rest :- DecodeAll(raw[1..]);
      assert forall k :: 1 <= k < |raw| ==> raw[k] == raw[1..][k - 1];
      Ok([c] + rest)
  }

  /** The decoding fails exactly when some raw candidate cannot be decoded. */
  lemma {:induction false} DecodeAllFailsIff(raw: seq<RawRecord>)
    ensures DecodeAll(raw).Err? <==> exists k :: 0 <= k < |raw| && DecodeCandidate(raw[k]).Err?
  {
    if DecodeAll(raw).Ok? {
      var cs := DecodeAll(raw).value;
      forall k | 0 <= k < |raw| ensures DecodeCandidate(raw[k]).Ok? {
        assert DecodeCandidate(raw[k]) == Ok(cs[k]);
      }
    }
  }

  /** `currentElectionId()` */
  function CurrentElectionId(chain: Ledger): (r: Result<int, Failure>)
    ensures !Deployed(chain) ==> r == Err(AssertContract(chain).error)
    ensures Deployed(chain) ==> r == ToNumber(chain.currentElectionId)
  {
    var _ :- AssertContract(chain);
    ToNumber(chain.currentElectionId)
  }

  /** `getElection(electionId)`: the raw record, or a revert for an unknown id. */
  function GetElection(chain: Ledger, electionId: int): (r: Result<RawRecord, Failure>)
    ensures !Deployed(chain) ==> r == Err(AssertContract(chain).error)
    ensures Deployed(chain) ==> (r.Ok? <==> electionId in chain.elections)
    ensures r.Ok? ==> r.value == chain.elections[electionId]
  {
    var _ :- AssertContract(chain);
    if electionId in chain.elections then Ok(chain.elections[electionId])
    else Err(Reverted("call revert exception"))
  }

  /** `getCandidatesCount()` */
  function GetCandidatesCount(chain: Ledger): (r: Result<int, Failure>)
    ensures !Deployed(chain) ==> r == Err(AssertContract(chain).error)
    ensures Deployed(chain) ==> r == ToNumber(chain.candidatesCount)
  {
    var _ :- AssertContract(chain);
    ToNumber(chain.candidatesCount)
  }

  /** `getCandidate(i)`: id, name and voteCount only; an index out of range reverts. */
  function GetCandidate(chain: Ledger, i: int): (r: Result<Candidate, Failure>)
    ensures !Deployed(chain) ==> r == Err(AssertContract(chain).error)
    ensures Deployed(chain) && !(0 <= i < |chain.candidates|) ==> r.Err? && r.error.Reverted?
    ensures Deployed(chain) && 0 <= i < |chain.candidates| ==>
      && (r.Ok? <==> DecodeCandidate(chain.candidates[i]).Ok?)
      && (r.Err? ==> r.error == DecodeCandidate(chain.candidates[i]).error)
    ensures r.Ok? ==> 0 <= i < |chain.candidates| && r.value.imageURI.None?
    ensures r.Ok? ==> DecodeCandidate(chain.candidates[i]).Ok?
                      && r.value == DecodeCandidate(chain.candidates[i]).value.(imageURI := None)
  {
    var _ :- AssertContract(chain);
    if 0 <= i < |chain.candidates| then
      var c :- DecodeCandidate(chain.candidates[i]);
      Ok(c.(imageURI := None))
    else
      Err(Reverted("call revert exception"))
  }

  /** `getAllCandidates()` */
  function GetAllCandidates(chain: Ledger): (r: Result<seq<Candidate>, Failure>)
    ensures !Deployed(chain) ==> r == Err(AssertContract(chain).error)
    ensures Deployed(chain) ==> r == DecodeAll(chain.candidates)
    ensures r.Ok? ==> |r.value| == |chain.candidates|
  {
    var _ :- AssertContract(chain);
    DecodeAll(chain.candidates)
  }

  /**
   * None of the reads decodes anything when the node is down or the contract
   * is absent: they all fail alike, with the network error or the no-contract message.
   */
  lemma NotDeployedFailsEveryRead(chain: Ledger, electionId: int, i: int)
    requires !Deployed(chain)
    ensures var e := if chain.reachable then NoContract(chain.address) else NodeDown;
      && CurrentElectionId(chain) == Err(e)
      && GetElection(chain, electionId) == Err(e)
      && GetCandidatesCount(chain) == Err(e)
      && GetCandidate(chain, i) == Err(e)
      && GetAllCandidates(chain) == Err(e)
  {
  }

  // ---------------------------------------------------------------- relayer requests

  /** What `fetch` yields: a rejected promise, or a response with its status, text and JSON body. */
  datatype Reply<T> = Unreachable | Reply(ok: bool, text: string, json: T)

  /** `if (!r.ok) throw new Error(await r.text()); return r.json();` */
  function Checked<T>(reply: Reply<T>): (r: Result<T, Failure>)
    ensures r.Ok? <==> reply.Reply? && reply.ok
    ensures r.Ok? ==> r.value == reply.json
    ensures reply.Unreachable? ==> r == Err(NetworkDown)
    ensures reply.Reply? && !reply.ok ==> r == Err(Rejected(reply.text))
  {
    match reply
    case Unreachable => Err(NetworkDown)
    case Reply(ok, text, json) => if ok then Ok(json) else Err(Rejected(text))
  }

  datatype MetaItem = MetaItem(candidateId: int, imageUrl: Option<string>)
  datatype MetaBody = MetaBody(items: Option<seq<MetaItem>>)

  /** `String(it.imageUrl || '')` */
  function UrlOrEmpty(url: Option<string>): string {
    url.GetOr("")
  }

  /** No item after position `k` carries the same candidate id. */
  ghost predicate LastWithId(items: seq<MetaItem>, k: int)
    requires 0 <= k < |items|
  {
    forall j :: k < j < |items| ==> items[j].candidateId != items[k].candidateId
  }

  /** `m` maps exactly the ids of `items`, each to the image of its last item. */
  ghost predicate IsImageMap(items: seq<MetaItem>, m: map<int, string>) {
    && (forall id :: id in m <==> exists k :: 0 <= k < |items| && items[k].candidateId == id)
    && (forall k :: 0 <= k < |items| && LastWithId(items, k) ==>
          items[k].candidateId in m && m[items[k].candidateId] == UrlOrEmpty(items[k].imageUrl))
  }

  /** The map the loop of `getCandidateMeta` has built after the given items: later items overwrite. */
  function MetaFold(items: seq<MetaItem>): map<int, string>
    decreases |items|
  {
    if items == [] then map[]
    else MetaFold(items[..|items| - 1])[items[|items| - 1].candidateId := UrlOrEmpty(items[|items| - 1].imageUrl)]
  }

  /** The fold's keys are exactly the ids carried by the items. */
  lemma {:induction false} MetaFoldKeys(items: seq<MetaItem>, id: int)
    ensures id in MetaFold(items) <==> exists k :: 0 <= k < |items| && items[k].candidateId == id
    decreases |items|
  {
    if items != [] {
      var n := |items|;
      var init := items[..n - 1];
      MetaFoldKeys(init, id);
      if id != items[n - 1].candidateId {
        if id in MetaFold(items) {
          var k :| 0 <= k < n - 1 && init[k].candidateId == id;
          assert items[k] == init[k];
        }
        if exists k :: 0 <= k < n && items[k].candidateId == id {
          var k :| 0 <= k < n && items[k].candidateId == id;
          assert init[k].candidateId == id;
        }
      }
    }
  }

  /** The item that is last with its id has its image in the fold. */
  lemma {:induction false} MetaFoldValue(items: seq<MetaItem>, k: int)
    requires 0 <= k < |items| && LastWithId(items, k)
    ensures items[k].candidateId in MetaFold(items)
    ensures MetaFold(items)[items[k].candidateId] == UrlOrEmpty(items[k].imageUrl)
    decreases |items|
  {
    var n := |items|;
    if k < n - 1 {
      var init := items[..n - 1];
      assert items[k] == init[k];
      assert items[n - 1].candidateId != items[k].candidateId;
      assert LastWithId(init, k);
      MetaFoldValue(init, k);
    }
  }

  /** The fold keeps exactly the ids of the items, each with the image of its last item. */
  lemma MetaFoldIsImageMap(items: seq<MetaItem>)
    ensures IsImageMap(items, MetaFold(items))
  {
    forall id ensures id in MetaFold(items) <==> exists k :: 0 <= k < |items| && items[k].candidateId == id {
      MetaFoldKeys(items, id);
    }
    forall k | 0 <= k < |items| && LastWithId(items, k)
      ensures items[k].candidateId in MetaFold(items)
      ensures MetaFold(items)[items[k].candidateId] == UrlOrEmpty(items[k].imageUrl)
    {
      MetaFoldValue(items, k);
    }
  }

  /** The `for` loop of `getCandidateMeta` over the relayer's items. */
  method ImageMap(items: seq<MetaItem>) returns (m: map<int, string>)
    ensures m == MetaFold(items)
  {
    m := map[];
    var i := 0;
    while i < |items|
      invariant 0 <= i <= |items|
      invariant m == MetaFold(items[..i])
    {
      assert items[..i + 1][..i] == items[..i];
      m := m[items[i].candidateId := UrlOrEmpty(items[i].imageUrl)];
      i := i + 1;
    }
    assert items[..i] == items;
  }

  /** The URL `getCandidateMeta` fetches, if it fetches at all (`!electionId` returns early). */
  function CandidateMetaRequest(electionId: int): Option<string> {
    if electionId == 0 then None else Some(RelayerUrl + "/candidate-meta?electionId=" + IntToString(electionId))
  }

  /** What `getCandidateMeta(electionId)` resolves to, given the relayer's reply. */
  function CandidateMeta(electionId: int, reply: Reply<MetaBody>): (r: Result<map<int, string>, Failure>)
    ensures electionId == 0 ==> r == Ok(map[])
    ensures electionId != 0 && reply.Unreachable? ==> r == Err(NetworkDown)
    ensures electionId != 0 && reply.Reply? && (!reply.ok || reply.json.items.None?) ==> r == Ok(map[])
    ensures electionId != 0 && reply.Reply? && reply.ok && reply.json.items.Some? ==>
      r.Ok? && IsImageMap(reply.json.items.value, r.value)
    ensures r.Err? ==> r.error == NetworkDown
  {
    if electionId == 0 then Ok(map[])
    else match reply
      case Unreachable => Err(NetworkDown)
      case Reply(ok, _, json) =>
        if !ok || json.items.None? then Ok(map[])
        else
          MetaFoldIsImageMap(json.items.value);
          Ok(MetaFold(json.items.value))
  }

  /** `getCandidateMeta(electionId)`: the request it issues, if any, and the id-to-image map. */
  method GetCandidateMeta(electionId: int, reply: Reply<MetaBody>)
    returns (request: Option<string>, r: Result<map<int, string>, Failure>)
    ensures request == CandidateMetaRequest(electionId)
    ensures r == CandidateMeta(electionId, reply)
  {
    if electionId == 0 {
      return None, Ok(map[]);
    }
    request := Some(RelayerUrl + "/candidate-meta?electionId=" + IntToString(electionId));
    match reply
    case Unreachable =>
      r := Err(NetworkDown);
    case Reply(ok, _, json) =>
      if !ok || json.items.None? {
        r := Ok(map[]);
      } else {
        var m := ImageMap(json.items.value);
        r := Ok(m);
      }
  }

  /** One entry of the `PUT /candidate-meta` body. */
  datatype MetaEntry = MetaEntry(candidateId: int, imageUrl: string)

  /** The body `{ electionId, items }` of the `PUT /candidate-meta` request. */
  datatype MetaSave = MetaSave(electionId: int, items: seq<MetaEntry>)

  /** `saveCandidateMeta(electionId, items)`: the URL and body it puts, and `true` or the thrown text. */
  function SaveCandidateMeta(electionId: int, items: seq<MetaEntry>, reply: Reply<()>):
    (r: (string, MetaSave, Result<bool, Failure>))
    ensures r.0 == RelayerUrl + "/candidate-meta"
    ensures r.1.electionId == electionId && r.1.items == items
    ensures r.2.Ok? <==> reply.Reply? && reply.ok
    ensures r.2.Ok? ==> r.2.value
    ensures reply.Reply? && !reply.ok ==> r.2 == Err(Rejected(reply.text))
    ensures reply.Unreachable? ==> r.2 == Err(NetworkDown)
  {
    (RelayerUrl + "/candidate-meta", MetaSave(electionId, items),
     match Checked(reply)
     case Ok(_) => Ok(true)
     case Err(e) => Err(e))
  }

  /** The JSON body `{txHash}` of a vote submission; the member may be missing. */
  datatype TxBody = TxBody(txHash: Option<string>)

  /** `String(x)` for a string that may be `undefined`. */
  function JsString(s: Option<string>): string {
    s.GetOr("undefined")
  }

  /** `voteRelayerSimple(dni, fingerprint, candidateId)`: the URL posted to and the hash as a string. */
  function VoteRelayerSimple(dni: string, fingerprint: string, candidateId: int, reply: Reply<TxBody>):
    (r: (string, Result<string, Failure>))
    ensures r.0 == RelayerUrl + "/vote/" + IntToString(candidateId)
    ensures r.1.Ok? <==> reply.Reply? && reply.ok
    ensures reply.Reply? && !reply.ok ==> r.1 == Err(Rejected(reply.text))
    ensures r.1.Ok? ==> r.1.value == JsString(reply.json.txHash)
    ensures reply.Unreachable? ==> r.1 == Err(NetworkDown)
  {
    (RelayerUrl + "/vote/" + IntToString(candidateId),
     match Checked(reply)
     case Ok(body) => Ok(JsString(body.txHash))
     case Err(e) => Err(e))
  }

  /** A membership proof as the registry issues it, passed through unread. */
  datatype Proof = Proof(electionId: int, root: string, leaf: string, proof: seq<string>)

  /** `voteRelayer(candidateId, proof)`: no status check, the body is returned as it is. */
  function VoteRelayer(candidateId: int, proof: Proof, reply: Reply<TxBody>): (r: Result<TxBody, Failure>)
    ensures r.Err? <==> reply.Unreachable?
    ensures reply.Reply? ==> r == Ok(reply.json)
  {
    match reply
    case Unreachable => Err(NetworkDown)
    case Reply(_, _, json) => Ok(json)
  }

  datatype SyncBody = SyncBody(root: string, txHash: string)

  /** `syncRootFromRNP()` */
  function SyncRootFromRNP(reply: Reply<SyncBody>): (r: Result<SyncBody, Failure>)
    ensures r.Ok? <==> reply.Reply? && reply.ok
    ensures r.Ok? ==> r.value == reply.json
    ensures reply.Reply? && !reply.ok ==> r == Err(Rejected(reply.text))
    ensures reply.Unreachable? ==> r == Err(NetworkDown)
  {
    Checked(reply)
  }

  /** The JSON body of `GET /votes` and `GET /votes/by-candidate`. */
  datatype VotesPage = VotesPage(
    electionId: int, candidateId: Option<int>, start: int, limit: int, total: int, items: seq<OnChainVote>)

  /** `URLSearchParams` as its list of pairs. */
  type Query = seq<(string, string)>

  /** `q.get(key)`: the first value under `key`. */
  function GetParam(q: Query, key: string): Option<string>
    decreases |q|
  {
    if q == [] then None else if q[0].0 == key then Some(q[0].1) else GetParam(q[1..], key)
  }

  /** The pairs whose key is not `key`. */
  function RemoveParam(q: Query, key: string): (r: Query)
    ensures forall i :: 0 <= i < |r| ==> r[i].0 != key
    ensures (forall i :: 0 <= i < |q| ==> q[i].0 != key) ==> r == q
    ensures forall k :: k != key ==> GetParam(r, k) == GetParam(q, k)
    decreases |q|
  {
    if q == [] then [] else if q[0].0 == key then RemoveParam(q[1..], key) else [q[0]] + RemoveParam(q[1..], key)
  }

  /**
   * `q.set(key, value)`: replaces the first pair under `key` and drops the rest, or appends;
   * the pairs under other keys stay as they were, in their order.
   */
  function SetParam(q: Query, key: string, value: string): (r: Query)
    ensures GetParam(r, key) == Some(value)
    ensures RemoveParam(r, key) == RemoveParam(q, key)
    ensures forall k :: k != key ==> GetParam(r, k) == GetParam(q, k)
    ensures |r| == |RemoveParam(q, key)| + 1
    decreases |q|
  {
    if q == [] then [(key, value)]
    else if q[0].0 == key then [(key, value)] + RemoveParam(q[1..], key)
    else [q[0]] + SetParam(q[1..], key, value)
  }

  /** Setting a key the query does not hold yet appends it. */
  lemma {:induction false} SetParamAppends(q: Query, key: string, value: string)
    requires forall i :: 0 <= i < |q| ==> q[i].0 != key
    ensures SetParam(q, key, value) == q + [(key, value)]
    decreases |q|
  {
    if q != [] {
      SetParamAppends(q[1..], key, value);
      assert [q[0]] + (q[1..] + [(key, value)]) == q + [(key, value)];
    }
  }

  /** `q.toString()`; the values here are decimal numbers, which need no escaping. */
  function Serialize(q: Query): (r: string)
    ensures r == "" <==> q == []
    decreases |q|
  {
    if q == [] then ""
    else q[0].0 + "=" + q[0].1 + (if |q| == 1 then "" else "&" + Serialize(q[1..]))
  }

  datatype ListOptions = ListOptions(electionId: Option<int>, start: Option<int>, limit: Option<int>)

  /** The string form of an optional numeric option, when it is set (`!= null`). */
  function NumberParam(key: string, v: Option<int>): Query {
    if v.Some? then [(key, IntToString(v.value))] else []
  }

  /** The query `listVotes` sends: the non-null options, in the order electionId, start, limit. */
  function ListVotesQuery(options: Option<ListOptions>): Query {
    match options
    case None => []
    case Some(o) => NumberParam("electionId", o.electionId) + NumberParam("start", o.start) + NumberParam("limit", o.limit)
  }

  /** `base?query`, or `base` alone when the query string is empty. */
  function WithQuery(base: string, q: Query): (r: string)
    ensures q == [] ==> r == base
    ensures q != [] ==> r == base + "?" + Serialize(q)
  {
    if Serialize(q) == "" then base else base + "?" + Serialize(q)
  }

  /** The three option keys of `listVotes`, read back from its query, give the options. */
  lemma ListVotesQueryGet(options: Option<ListOptions>)
    ensures options.None? ==> ListVotesQuery(options) == []
    ensures options.Some? ==>
      && GetParam(ListVotesQuery(options), "electionId") == NumberOption(options.value.electionId)
      && GetParam(ListVotesQuery(options), "start") == NumberOption(options.value.start)
      && GetParam(ListVotesQuery(options), "limit") == NumberOption(options.value.limit)
  {
    if options.Some? {
      var o := options.value;
      var e, s, l := NumberParam("electionId", o.electionId), NumberParam("start", o.start), NumberParam("limit", o.limit);
      GetParamConcat(e, s + l, "start");
      GetParamConcat(s, l, "start");
      GetParamConcat(e, s + l, "limit");
      GetParamConcat(s, l, "limit");
      GetParamConcat(e, s + l, "electionId");
      GetParamConcat(s, l, "electionId");
      assert ListVotesQuery(options) == e + (s + l);
    }
  }

  function NumberOption(v: Option<int>): Option<string> {
    if v.Some? then Some(IntToString(v.value)) else None
  }

  lemma {:induction false} GetParamConcat(a: Query, b: Query, key: string)
    requires |a| <= 1
    ensures GetParam(a + b, key) == if a != [] && a[0].0 == key then Some(a[0].1) else GetParam(b, key)
  {
    if a != [] {
      assert (a + b)[1..] == b;
    } else {
      assert a + b == b;
    }
  }

  /** The `URLSearchParams` of `listVotes`: one `set` per non-null option. */
  method ListVotesParams(options: Option<ListOptions>) returns (q: Query)
    ensures q == ListVotesQuery(options)
  {
    var o := if options.Some? then options.value else ListOptions(None, None, None);
    ghost var e, s, l := NumberParam("electionId", o.electionId), NumberParam("start", o.start), NumberParam("limit", o.limit);
    q := [];
    if o.electionId.Some? {
      q := SetParam(q, "electionId", IntToString(o.electionId.value));
    }
    assert q == e;
    if o.start.Some? {
      SetParamAppends(q, "start", IntToString(o.start.value));
      q := SetParam(q, "start", IntToString(o.start.value));
    }
    assert q == e + s;
    if o.limit.Some? {
      SetParamAppends(q, "limit", IntToString(o.limit.value));
      q := SetParam(q, "limit", IntToString(o.limit.value));
    }
    assert q == e + s + l;
    assert ListVotesQuery(options) == e + s + l;
  }

  /** `listVotes(options)`: the URL requested and the page received. */
  method ListVotes(options: Option<ListOptions>, reply: Reply<VotesPage>) returns (url: string, r: Result<VotesPage, Failure>)
    ensures url == WithQuery(RelayerUrl + "/votes", ListVotesQuery(options))
    ensures r == Checked(reply)
  {
    var q := ListVotesParams(options);
    url := if Serialize(q) != "" then RelayerUrl + "/votes?" + Serialize(q) else RelayerUrl + "/votes";
    r := Checked(reply);
  }

  /** The URL of `listVotes` carries a `?` exactly when some option is set. */
  lemma ListVotesUrlHasQueryIff(options: Option<ListOptions>)
    ensures (WithQuery(RelayerUrl + "/votes", ListVotesQuery(options)) != RelayerUrl + "/votes") <==>
            (options.Some? && (options.value.electionId.Some? || options.value.start.Some? || options.value.limit.Some?))
  {
    var q := ListVotesQuery(options);
    if q != [] {
      assert |Serialize(q)| > 0;
      assert |WithQuery(RelayerUrl + "/votes", q)| > |RelayerUrl + "/votes"|;
    }
  }

  /** `String(x)` for a number that may be `undefined`. */
  function OptionalNumberString(v: Option<int>): string {
    if v.Some? then IntToString(v.value) else "undefined"
  }

  /** The query of `listVotesByCandidate`: all four parameters, in this order. */
  function ByCandidateQuery(electionId: int, candidateId: Option<int>, start: int, limit: int): Query {
    [("electionId", IntToString(electionId)), ("candidateId", OptionalNumberString(candidateId)),
     ("start", IntToString(start)), ("limit", IntToString(limit))]
  }

  /** `listVotesByCandidate(electionId, candidateId, start = 0, limit = 50)` */
  function ListVotesByCandidate(electionId: int, candidateId: Option<int>, reply: Reply<VotesPage>, start: int := 0, limit: int := 50):
    (r: (string, Result<VotesPage, Failure>))
    ensures r.0 == RelayerUrl + "/votes/by-candidate?" + Serialize(ByCandidateQuery(electionId, candidateId, start, limit))
    ensures r.1.Ok? <==> reply.Reply? && reply.ok
    ensures reply.Reply? && !reply.ok ==> r.1 == Err(Rejected(reply.text))
    ensures r.1.Ok? ==> r.1.value == reply.json
    ensures reply.Unreachable? ==> r.1 == Err(NetworkDown)
  {
    (RelayerUrl + "/votes/by-candidate?" + Serialize(ByCandidateQuery(electionId, candidateId, start, limit)), Checked(reply))
  }

  // ---------------------------------------------------------------- wallet and listeners

  /** The injected wallet, as far as the client sees it. */
  datatype Wallet = NoExtension | Extension(grantsAccounts: bool, address: string)

  /** A signer, known by its account address. */
  datatype Signer = Signer(address: string)

  /** A contract write, as sent to the ledger. */
  datatype WriteCall =
    | CreateElectionCall(title: string)
    | AddCandidateCall(electionId: int, name: string)
    | CloseCurrentElectionCall

  /** How a sent transaction ends: mined with a hash, or reverted. */
  datatype TxOutcome = Mined(hash: string) | Failed(reason: string)

  /** `await tx.wait(); return tx.hash;` */
  function TxResult(tx: TxOutcome): (r: Result<string, Failure>)
    ensures r.Ok? <==> tx.Mined?
    ensures r.Ok? ==> r.value == tx.hash
  {
    match tx
    case Mined(h) => Ok(h)
    case Failed(reason) => Err(Reverted(reason))
  }

  /** Listeners are known by a tag of the view that registered them. */
  type Listener = nat

  class Web3Service {
    var signer: Option<Signer>
    var contractWrite: Option<Signer>
    var voteListeners: seq<Listener>

    constructor ()
      ensures signer == None && contractWrite == None && voteListeners == []
    {
      signer, contractWrite, voteListeners := None, None, [];
    }

    /** `connectWallet()`: the write handle is set only once the contract is found. */
    method ConnectWallet(wallet: Wallet, chain: Ledger) returns (r: Result<string, Failure>)
      modifies this
      ensures voteListeners == old(voteListeners)
      ensures wallet.NoExtension? ==> r == Err(NoWallet) && signer == old(signer) && contractWrite == old(contractWrite)
      ensures wallet.Extension? && !wallet.grantsAccounts ==>
        r == Err(AccountsRejected) && signer == old(signer) && contractWrite == old(contractWrite)
      ensures wallet.Extension? && wallet.grantsAccounts ==>
        && signer == Some(Signer(wallet.address))
        && contractWrite == (if Deployed(chain) then Some(Signer(wallet.address)) else old(contractWrite))
        && r == (if Deployed(chain) then Ok(wallet.address) else Err(AssertContract(chain).error))
    {
      if wallet.NoExtension? {
        return Err(NoWallet);
      }
      if !wallet.grantsAccounts {
        return Err(AccountsRejected);
      }
      var s := Signer(wallet.address);
      signer := Some(s);
      var check := AssertContract(chain);
      if check.Err? {
        return Err(check.error);
      }
      contractWrite := Some(s);
      r := Ok(s.address);
    }

    /** `needWrite()` */
    method NeedWrite() returns (r: Result<(), Failure>)
      ensures r.Ok? <==> contractWrite.Some?
      ensures r.Err? ==> r.error == NeedWallet
    {
      r := if contractWrite.None? then Err(NeedWallet) else Ok(());
    }

    /** `createElection(title)`: nothing is sent without a write handle. */
    method CreateElection(title: string, tx: TxOutcome) returns (sent: Option<WriteCall>, r: Result<string, Failure>)
      ensures contractWrite.None? ==> sent == None && r == Err(NeedWallet)
      ensures contractWrite.Some? ==> sent == Some(CreateElectionCall(title)) && r == TxResult(tx)
    {
      var w := NeedWrite();
      if w.Err? {
        return None, Err(w.error);
      }
      sent := Some(CreateElectionCall(title));
      r := TxResult(tx);
    }

    /** `addCandidate(name)`: checks the handle, then reads the current election id. */
    method AddCandidate(name: string, chain: Ledger, tx: TxOutcome) returns (sent: Option<WriteCall>, r: Result<string, Failure>)
      ensures contractWrite.None? ==> sent == None && r == Err(NeedWallet)
      ensures contractWrite.Some? && CurrentElectionId(chain).Err? ==> sent == None && r == Err(CurrentElectionId(chain).error)
      ensures contractWrite.Some? && CurrentElectionId(chain).Ok? ==>
        sent == Some(AddCandidateCall(CurrentElectionId(chain).value, name)) && r == TxResult(tx)
    {
      var w := NeedWrite();
      if w.Err? {
        return None, Err(w.error);
      }
      var eid := CurrentElectionId(chain);
      if eid.Err? {
        return None, Err(eid.error);
      }
      sent := Some(AddCandidateCall(eid.value, name));
      r := TxResult(tx);
    }

    /** `closeCurrentElection()` */
    method CloseCurrentElection(tx: TxOutcome) returns (sent: Option<WriteCall>, r: Result<string, Failure>)
      ensures contractWrite.None? ==> sent == None && r == Err(NeedWallet)
      ensures contractWrite.Some? ==> sent == Some(CloseCurrentElectionCall) && r == TxResult(tx)
    {
      var w := NeedWrite();
      if w.Err? {
        return None, Err(w.error);
      }
      sent := Some(CloseCurrentElectionCall);
      r := TxResult(tx);
    }

    /** `onVote(cb)`: adds a listener; earlier ones stay registered. */
    method OnVote(listener: Listener)
      modifies this
      ensures voteListeners == old(voteListeners) + [listener]
      ensures signer == old(signer) && contractWrite == old(contractWrite)
    {
      voteListeners := voteListeners + [listener];
    }

    /** `offVote()`: removes every vote listener. */
    method OffVote()
      modifies this
      ensures voteListeners == []
      ensures signer == old(signer) && contractWrite == old(contractWrite)
    {
      voteListeners := [];
    }

    /** `removeAllListeners()`: drops the listeners of both contract objects. */
    method RemoveAllListeners()
      modifies this
      ensures voteListeners == []
      ensures signer == old(signer) && contractWrite == old(contractWrite)
    {
      voteListeners := [];
    }
  }
}
