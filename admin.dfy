/**
 * The administration screen: form fields, guards that refuse to call the
 * service with missing data, the status line each action leaves, the
 * ordered refresh of election id, candidates and images, and the parsing of
 * the multi-line candidate list.
 */
module Admin {
  import opened Base
  import opened JsStrings
  import opened Web3
  import opened Views

  /** What the placeholder administration operations of the service return: nothing. */
  const StubResult: string := "undefined"

  /** A call on one of the service's placeholder administration operations. */
  datatype AdminCall =
    | RegisterCenterCall(centerId: int, name: string)
    | SetCenterAdminCall(centerId: int, adminAddr: string, allowed: bool)
    | CalcRootCall(centerId: int, mesaId: int)
    | SetCenterMesaRootCall(centerId: int, mesaId: int, root: string)
    | OpenCenterCall(centerId: int)
    | CloseCenterCall(centerId: int)
    | StartElectionCall(newCandidates: seq<string>, replaceCandidates: bool)
    | ClearCandidatesCall

  /** The status line of every handler's `catch`. */
  function ErrorStatus(f: Failure): string {
    "Error: " + Shown(f)
  }

  // ---------------------------------------------------------------- the candidate list

  /** `.map(s => s.trim()).filter(Boolean)` */
  function CleanLines(lines: seq<string>): (r: seq<string>)
    ensures |r| <= |lines|
    ensures forall i :: 0 <= i < |r| ==> r[i] != "" && Trim(r[i]) == r[i]
    decreases |lines|
  {
    if lines == [] then []
    else
      var t := Trim(lines[0]);
      if t == "" then CleanLines(lines[1..]) else [t] + CleanLines(lines[1..])
  }

  /** Lines that are already trimmed and non-empty pass through unchanged. */
  lemma {:induction false} CleanLinesOfCleanNames(names: seq<string>)
    requires forall i :: 0 <= i < |names| ==> names[i] != "" && Trim(names[i]) == names[i]
    ensures CleanLines(names) == names
    decreases |names|
  {
    if names != [] {
      CleanLinesOfCleanNames(names[1..]);
      assert [names[0]] + names[1..] == names;
    }
  }

  /** Cleaning works line by line: the cleaned lines of a concatenation are the two cleaned parts, in order. */
  lemma {:induction false} CleanLinesConcat(a: seq<string>, b: seq<string>)
    ensures CleanLines(a + b) == CleanLines(a) + CleanLines(b)
    decreases |a|
  {
    if a == [] {
      assert a + b == b;
    } else {
      assert (a + b)[0] == a[0];
      assert (a + b)[1..] == a[1..] + b;
      CleanLinesConcat(a[1..], b);
    }
  }

  /** One line is kept trimmed, or dropped when only whitespace is left of it. */
  lemma CleanLinesSingle(l: string)
    ensures CleanLines([l]) == if Trim(l) == "" then [] else [Trim(l)]
  {
    assert [l][1..] == [];
  }

  /** Two lines around an empty one: the text splits at both line breaks. */
  lemma SplitAroundBlank(x: string, y: string)
    requires '\n' !in x && '\n' !in y
    ensures Split(x + "\n\n" + y, '\n') == [x] + ([""] + [y])
  {
    assert x + "\n\n" + y == x + ['\n'] + ("" + ['\n'] + y);
    SplitAfterPiece(x, "" + ['\n'] + y, '\n');
    SplitAfterPiece("", y, '\n');
    SplitNoSeparator(y, '\n');
  }

  /** Two lines with text around a blank one: the blank line is dropped and the others are trimmed. */
  lemma CleanLinesAroundBlank(x: string, y: string)
    requires Trim(x) != "" && Trim(y) != ""
    ensures CleanLines([x] + ([""] + [y])) == [Trim(x)] + [Trim(y)]
  {
    CleanLinesConcat([x], [""] + [y]);
    CleanLinesConcat([""], [y]);
    CleanLinesSingle(x);
    CleanLinesSingle("");
    CleanLinesSingle(y);
  }

  /**
   * Two names separated by an empty line: the blank line is dropped and the
   * surrounding whitespace of each name goes.
   */
  lemma CandidateListAroundBlank(x: string, y: string)
    requires '\n' !in x && '\n' !in y
    requires Trim(x) != "" && Trim(y) != ""
    ensures CandidateList(x + "\n\n" + y, true) == [Trim(x), Trim(y)]
  {
    SplitAroundBlank(x, y);
    CleanLinesAroundBlank(x, y);
  }

  /** The shape `" a \n\n b "`: two padded characters around a blank line give the two characters. */
  lemma CandidateListPadded(a: char, b: char)
    requires !IsSpace(a) && !IsSpace(b)
    ensures CandidateList([' ', a, ' '] + "\n\n" + [' ', b, ' '], true) == [[a], [b]]
  {
    TrimPadded(a);
    TrimPadded(b);
    CandidateListAroundBlank([' ', a, ' '], [' ', b, ' ']);
  }

  /** The list `startElection` sends: one trimmed, non-empty name per line, or none unless replacing. */
  function CandidateList(multiline: string, replace: bool): (list: seq<string>)
    ensures !replace ==> list == []
    ensures forall i :: 0 <= i < |list| ==> list[i] != "" && Trim(list[i]) == list[i]
  {
    if replace then CleanLines(Split(multiline, '\n')) else []
  }

  /** Writing clean names one per line and parsing the text gives back exactly those names. */
  lemma CandidateListRoundTrip(names: seq<string>)
    requires forall i :: 0 <= i < |names| ==> names[i] != "" && Trim(names[i]) == names[i] && '\n' !in names[i]
    ensures CandidateList(Join(names, '\n'), true) == names
  {
    if names == [] {
      assert Split(Join(names, '\n'), '\n') == [""];
    } else {
      SplitJoin(names, '\n');
      CleanLinesOfCleanNames(names);
    }
  }

  // ---------------------------------------------------------------- saving images

  /** `items` has one entry per key of `images`, each with that key's image, no key twice. */
  ghost predicate ListsImages(items: seq<MetaEntry>, images: map<int, string>) {
    && |items| == |images|
    && (forall i :: 0 <= i < |items| ==> items[i].candidateId in images && items[i].imageUrl == images[items[i].candidateId])
    && (forall id :: id in images ==> exists i :: 0 <= i < |items| && items[i].candidateId == id)
    && (forall i, j :: 0 <= i < j < |items| ==> items[i].candidateId != items[j].candidateId)
  }

  /** `Object.keys(images).map(k => ({ candidateId: Number(k), imageUrl: images[Number(k)] || '' }))` */
  method ImageEntries(images: map<int, string>) returns (items: seq<MetaEntry>)
    ensures ListsImages(items, images)
  {
    var pending := images.Keys;
    items := [];
    while exists id :: id in pending
      invariant pending <= images.Keys
      invariant |items| + |pending| == |images|
      invariant forall i :: 0 <= i < |items| ==>
        items[i].candidateId in images && items[i].candidateId !in pending && items[i].imageUrl == images[items[i].candidateId]
      invariant forall id :: id in images && id !in pending ==> exists i :: 0 <= i < |items| && items[i].candidateId == id
      invariant forall i, j :: 0 <= i < j < |items| ==> items[i].candidateId != items[j].candidateId
      decreases |pending|
    {
      var k :| k in pending;
      var next := items + [MetaEntry(k, images[k])];
      forall id | id in images && id !in pending - {k}
        ensures exists i :: 0 <= i < |next| && next[i].candidateId == id
      {
        if id == k {
          assert next[|items|].candidateId == k;
        } else {
          var i :| 0 <= i < |items| && items[i].candidateId == id;
          assert next[i] == items[i];
        }
      }
      items := next;
      pending := pending - {k};
    }
    assert pending == {};
  }

  // ---------------------------------------------------------------- the component

  /** Every field of the component, as one value. */
  datatype AdminState = AdminState(
    account: Option<string>,
    status: string,
    electionId: int,
    candidates: seq<Candidate>,
    newCandidate: string,
    replaceCandidates: bool,
    newCandidatesMultiline: string,
    centerId: Option<int>,
    centerName: string,
    centerAdminAddr: string,
    mesaId: Option<int>,
    root: string,
    images: map<int, string>)

  /** The field values of a freshly constructed component. */
  const Initial: AdminState :=
    AdminState(None, "", 0, [], "", false, "", None, "", "", None, "", map[])

  /**
   * `refresh()`: the load's values are assigned as they arrive, so a failure
   * keeps the values of the reads that succeeded before it.
   */
  function Refreshed(s: AdminState, chain: Ledger, metaReply: Reply<MetaBody>): (AdminState, Result<(), Failure>) {
    var l := Load(chain, metaReply);
    (s.(electionId := l.electionId.GetOr(s.electionId),
        candidates := l.candidates.GetOr(s.candidates),
        images := l.images.GetOr(s.images)),
     l.outcome)
  }

  /** A refresh inside a handler's `try`: a failure lands in the status line. */
  function AfterRefresh(s: AdminState, chain: Ledger, metaReply: Reply<MetaBody>): AdminState {
    var (t, r) := Refreshed(s, chain, metaReply);
    if r.Ok? then t else t.(status := ErrorStatus(r.error))
  }

  /** A refresh touches only the election id, the candidates and the images. */
  lemma RefreshKeepsForm(s: AdminState, chain: Ledger, metaReply: Reply<MetaBody>)
    ensures Refreshed(s, chain, metaReply).0.(electionId := s.electionId, candidates := s.candidates, images := s.images) == s
  {
  }

  /**
   * With the node down or no contract deployed a refresh fails with the
   * network error or the no-contract message and changes nothing.
   */
  lemma RefreshNotDeployed(s: AdminState, chain: Ledger, metaReply: Reply<MetaBody>)
    requires !Deployed(chain)
    ensures Refreshed(s, chain, metaReply) ==
      (s, Err(if chain.reachable then NoContract(chain.address) else NodeDown))
  {
    LoadNotDeployed(chain, metaReply);
  }

  class AdminComponent {
    const web3: Web3Service
    var account: Option<string>
    var status: string
    var electionId: int
    var candidates: seq<Candidate>
    var newCandidate: string
    var replaceCandidates: bool
    var newCandidatesMultiline: string
    var centerId: Option<int>
    var centerName: string
    var centerAdminAddr: string
    var mesaId: Option<int>
    var root: string
    var images: map<int, string>

    function State(): AdminState
      reads this
    {
      AdminState(account, status, electionId, candidates, newCandidate, replaceCandidates,
                 newCandidatesMultiline, centerId, centerName, centerAdminAddr, mesaId, root, images)
    }

    constructor (web3: Web3Service)
      ensures this.web3 == web3 && State() == Initial
    {
      this.web3 := web3;
      account, status, electionId, candidates := None, "", 0, [];
      newCandidate, replaceCandidates, newCandidatesMultiline := "", false, "";
      centerId, centerName, centerAdminAddr, mesaId, root := None, "", "", None, "";
      images := map[];
    }

    /** `refresh()`; a failure propagates to the caller. */
    method Refresh(chain: Ledger, metaReply: Reply<MetaBody>) returns (r: Result<(), Failure>)
      modifies this
      ensures (State(), r) == Refreshed(old(State()), chain, metaReply)
    {
      var l := LoadViewData(chain, metaReply);
      electionId := l.electionId.GetOr(electionId);
      candidates := l.candidates.GetOr(candidates);
      images := l.images.GetOr(images);
      r := l.outcome;
    }

    /** `ngOnInit()`: a refresh whose failure nobody catches. */
    method NgOnInit(chain: Ledger, metaReply: Reply<MetaBody>) returns (r: Result<(), Failure>)
      modifies this
      ensures (State(), r) == Refreshed(old(State()), chain, metaReply)
    {
      r := Refresh(chain, metaReply);
    }

    /** `ngOnDestroy()` */
    method NgOnDestroy()
      modifies web3
      ensures web3.voteListeners == []
      ensures web3.signer == old(web3.signer) && web3.contractWrite == old(web3.contractWrite)
    {
      web3.RemoveAllListeners();
    }

    /** A refresh inside a `try`: its failure becomes the status line. */
    method RefreshOrReport(chain: Ledger, metaReply: Reply<MetaBody>)
      modifies this
      ensures State() == AfterRefresh(old(State()), chain, metaReply)
    {
      var r := Refresh(chain, metaReply);
      if r.Err? {
        status := ErrorStatus(r.error);
      }
    }

    /** `connect()` */
    method Connect(wallet: Wallet, chain: Ledger)
      modifies this, web3
      ensures web3.voteListeners == old(web3.voteListeners)
      ensures wallet.NoExtension? ==>
        && State() == old(State()).(status := ErrorStatus(NoWallet))
        && web3.signer == old(web3.signer) && web3.contractWrite == old(web3.contractWrite)
      ensures wallet.Extension? && !wallet.grantsAccounts ==>
        && State() == old(State()).(status := ErrorStatus(AccountsRejected))
        && web3.signer == old(web3.signer) && web3.contractWrite == old(web3.contractWrite)
      ensures wallet.Extension? && wallet.grantsAccounts && !Deployed(chain) ==>
        && State() == old(State()).(status := ErrorStatus(AssertContract(chain).error))
        && web3.signer == Some(Signer(wallet.address)) && web3.contractWrite == old(web3.contractWrite)
      ensures wallet.Extension? && wallet.grantsAccounts && Deployed(chain) ==>
        && State() == old(State()).(account := Some(wallet.address), status := "Conectado: " + wallet.address)
        && web3.signer == Some(Signer(wallet.address)) && web3.contractWrite == Some(Signer(wallet.address))
    {
      var r := web3.ConnectWallet(wallet, chain);
      if r.Err? {
        status := ErrorStatus(r.error);
        return;
      }
      account := Some(r.value);
      status := "Conectado: " + r.value;
    }

    /**
     * `addCandidate()`: the write reads the election id from `chain`; the
     * refresh after a mined transaction reads the ledger as `after` shows it.
     */
    method AddCandidate(chain: Ledger, tx: TxOutcome, after: Ledger, metaReply: Reply<MetaBody>) returns (sent: Option<WriteCall>)
      modifies this
      ensures web3.contractWrite.None? ==> sent == None && State() == old(State()).(status := ErrorStatus(NeedWallet))
      ensures web3.contractWrite.Some? && CurrentElectionId(chain).Err? ==>
        sent == None && State() == old(State()).(status := ErrorStatus(CurrentElectionId(chain).error))
      ensures web3.contractWrite.Some? && CurrentElectionId(chain).Ok? ==>
        && sent == Some(AddCandidateCall(CurrentElectionId(chain).value, old(newCandidate)))
        && (tx.Failed? ==> State() == old(State()).(status := ErrorStatus(Reverted(tx.reason))))
        && (tx.Mined? ==>
             State() == AfterRefresh(old(State()).(status := "Candidato a\U{00F1}adido. TX: " + tx.hash, newCandidate := ""), after, metaReply))
    {
      var h;
      sent, h := web3.AddCandidate(newCandidate, chain, tx);
      if h.Err? {
        status := ErrorStatus(h.error);
        return;
      }
      status := "Candidato a\U{00F1}adido. TX: " + h.value;
      newCandidate := "";
      RefreshOrReport(after, metaReply);
    }

    /** `clearCandidates()` */
    method ClearCandidates(chain: Ledger, metaReply: Reply<MetaBody>) returns (call: AdminCall)
      modifies this
      ensures call == ClearCandidatesCall
      ensures State() == AfterRefresh(old(State()).(status := "Candidatos limpiados. TX: " + StubResult), chain, metaReply)
    {
      call := ClearCandidatesCall;
      status := "Candidatos limpiados. TX: " + StubResult;
      RefreshOrReport(chain, metaReply);
    }

    /** `startElection()`: the parsed list is sent only when replacing; the text box is emptied. */
    method StartElection(chain: Ledger, metaReply: Reply<MetaBody>) returns (call: AdminCall)
      modifies this
      ensures call == StartElectionCall(CandidateList(old(newCandidatesMultiline), old(replaceCandidates)), old(replaceCandidates))
      ensures State() == AfterRefresh(
        old(State()).(status := "Elecci\U{00F3}n iniciada. TX: " + StubResult, newCandidatesMultiline := ""), chain, metaReply)
    {
      var list := CandidateList(newCandidatesMultiline, replaceCandidates);
      call := StartElectionCall(list, replaceCandidates);
      status := "Elecci\U{00F3}n iniciada. TX: " + StubResult;
      newCandidatesMultiline := "";
      RefreshOrReport(chain, metaReply);
    }

    /** `registerCenter()`: needs a center id and a non-empty name. */
    method RegisterCenter() returns (call: Option<AdminCall>)
      modifies this
      ensures old(centerId).None? || old(centerName) == "" ==>
        call == None && State() == old(State()).(status := "CenterId y nombre requeridos")
      ensures old(centerId).Some? && old(centerName) != "" ==>
        && call == Some(RegisterCenterCall(old(centerId).value, old(centerName)))
        && State() == old(State()).(status := "Centro registrado. TX: " + StubResult)
    {
      if centerId.None? || centerName == "" {
        status := "CenterId y nombre requeridos";
        return None;
      }
      call := Some(RegisterCenterCall(centerId.value, centerName));
      status := "Centro registrado. TX: " + StubResult;
    }

    /** `setCenterAdmin()`: needs a center id and a non-empty address; always grants. */
    method SetCenterAdmin() returns (call: Option<AdminCall>)
      modifies this
      ensures old(centerId).None? || old(centerAdminAddr) == "" ==>
        call == None && State() == old(State()).(status := "centerId y address requeridos")
      ensures old(centerId).Some? && old(centerAdminAddr) != "" ==>
        && call == Some(SetCenterAdminCall(old(centerId).value, old(centerAdminAddr), true))
        && State() == old(State()).(status := "Admin asignado. TX: " + StubResult)
    {
      if centerId.None? || centerAdminAddr == "" {
        status := "centerId y address requeridos";
        return None;
      }
      call := Some(SetCenterAdminCall(centerId.value, centerAdminAddr, true));
      status := "Admin asignado. TX: " + StubResult;
    }

    /** `calcRoot()`: needs both ids; the placeholder computes the empty root. */
    method CalcRoot() returns (call: Option<AdminCall>)
      modifies this
      ensures old(centerId).None? || old(mesaId).None? ==>
        call == None && State() == old(State()).(status := "centerId y mesaId requeridos")
      ensures old(centerId).Some? && old(mesaId).Some? ==>
        && call == Some(CalcRootCall(old(centerId).value, old(mesaId).value))
        && State() == old(State()).(root := "", status := "Root calculada desde RNP")
    {
      if centerId.None? || mesaId.None? {
        status := "centerId y mesaId requeridos";
        return None;
      }
      call := Some(CalcRootCall(centerId.value, mesaId.value));
      root := "";
      status := "Root calculada desde RNP";
    }

    /** `setRoot()`: needs both ids and a non-empty root. */
    method SetRoot() returns (call: Option<AdminCall>)
      modifies this
      ensures old(centerId).None? || old(mesaId).None? || old(root) == "" ==>
        call == None && State() == old(State()).(status := "Faltan datos")
      ensures old(centerId).Some? && old(mesaId).Some? && old(root) != "" ==>
        && call == Some(SetCenterMesaRootCall(old(centerId).value, old(mesaId).value, old(root)))
        && State() == old(State()).(status := "Root seteada. TX: " + StubResult)
    {
      if centerId.None? || mesaId.None? || root == "" {
        status := "Faltan datos";
        return None;
      }
      call := Some(SetCenterMesaRootCall(centerId.value, mesaId.value, root));
      status := "Root seteada. TX: " + StubResult;
    }

    /** `openCenter()`: needs a center id. */
    method OpenCenter() returns (call: Option<AdminCall>)
      modifies this
      ensures old(centerId).None? ==> call == None && State() == old(State()).(status := "centerId requerido")
      ensures old(centerId).Some? ==>
        && call == Some(OpenCenterCall(old(centerId).value))
        && State() == old(State()).(status := "Centro " + IntToString(old(centerId).value) + " abierto. TX: " + StubResult)
    {
      if centerId.None? {
        status := "centerId requerido";
        return None;
      }
      call := Some(OpenCenterCall(centerId.value));
      status := "Centro " + IntToString(centerId.value) + " abierto. TX: " + StubResult;
    }

    /** `closeCenter()`: needs a center id. */
    method CloseCenter() returns (call: Option<AdminCall>)
      modifies this
      ensures old(centerId).None? ==> call == None && State() == old(State()).(status := "centerId requerido")
      ensures old(centerId).Some? ==>
        && call == Some(CloseCenterCall(old(centerId).value))
        && State() == old(State()).(status := "Centro " + IntToString(old(centerId).value) + " cerrado. TX: " + StubResult)
    {
      if centerId.None? {
        status := "centerId requerido";
        return None;
      }
      call := Some(CloseCenterCall(centerId.value));
      status := "Centro " + IntToString(centerId.value) + " cerrado. TX: " + StubResult;
    }

    /** `saveImages()`: puts one entry per image under the current election id. */
    method SaveImages(reply: Reply<()>) returns (request: (string, MetaSave))
      modifies this
      ensures request.0 == RelayerUrl + "/candidate-meta"
      ensures request.1.electionId == old(electionId) && ListsImages(request.1.items, old(images))
      ensures reply.Reply? && reply.ok ==> State() == old(State()).(status := "Im\U{00E1}genes guardadas")
      ensures reply.Unreachable? ==>
        State() == old(State()).(status := "Error guardando im\U{00E1}genes: " + Shown(NetworkDown))
      ensures reply.Reply? && !reply.ok ==>
        State() == old(State()).(status := "Error guardando im\U{00E1}genes: " + Shown(Rejected(reply.text)))
    {
      var items := ImageEntries(images);
      var (url, body, r) := SaveCandidateMeta(electionId, items, reply);
      request := (url, body);
      if r.Err? {
        status := "Error guardando im\U{00E1}genes: " + Shown(r.error);
        return;
      }
      status := "Im\U{00E1}genes guardadas";
    }

    /** `syncRoot()` */
    method SyncRoot(reply: Reply<SyncBody>)
      modifies this
      ensures reply.Reply? && reply.ok ==>
        State() == old(State()).(status := "Root sincronizada: " + reply.json.root + " (tx: " + reply.json.txHash + ")")
      ensures reply.Unreachable? ==> State() == old(State()).(status := "Error sincronizando root: " + Shown(NetworkDown))
      ensures reply.Reply? && !reply.ok ==>
        State() == old(State()).(status := "Error sincronizando root: " + Shown(Rejected(reply.text)))
    {
      var r := SyncRootFromRNP(reply);
      if r.Err? {
        status := "Error sincronizando root: " + Shown(r.error);
        return;
      }
      status := "Root sincronizada: " + r.value.root + " (tx: " + r.value.txHash + ")";
    }
  }
}
