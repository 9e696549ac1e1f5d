/**
 * The projection both live views keep of the tallies: a `VoteCast`
 * notification sets the count of the first candidate with its id to the
 * event's absolute total, and the realtime view sums the counts.
 */
module Tally {
  import opened Base
  import opened Web3

  /** A `VoteCast` notification after `toNumber`: `(electionId, candidateId, newTotal)`. */
  datatype VoteEvent = VoteEvent(electionId: int, candidateId: int, newTotal: int)

  /** The index `candidates.find(x => x.id === id)` lands on. */
  function FirstIndex(candidates: seq<Candidate>, id: int): (k: Option<nat>)
    ensures k.Some? ==> k.value < |candidates| && candidates[k.value].id == id
    ensures k.Some? ==> forall j :: 0 <= j < k.value ==> candidates[j].id != id
    ensures k.None? ==> forall j :: 0 <= j < |candidates| ==> candidates[j].id != id
    decreases |candidates|
  {
    if candidates == [] then None
    else if candidates[0].id == id then Some(0)
    else match FirstIndex(candidates[1..], id)
      case None => None
      case Some(j) => Some(j + 1)
  }

  /** The left-to-right search of `find`. */
  method FindById(candidates: seq<Candidate>, id: int) returns (k: Option<nat>)
    ensures k == FirstIndex(candidates, id)
  {
    var i := 0;
    while i < |candidates|
      invariant 0 <= i <= |candidates|
      invariant forall j :: 0 <= j < i ==> candidates[j].id != id
    {
      if candidates[i].id == id {
        FirstIndexUnique(candidates, id, i);
        return Some(i);
      }
      i := i + 1;
    }
    k := None;
  }

  /** The first index with `id` is the one `FirstIndex` names. */
  lemma FirstIndexUnique(candidates: seq<Candidate>, id: int, i: nat)
    requires i < |candidates| && candidates[i].id == id
    requires forall j :: 0 <= j < i ==> candidates[j].id != id
    ensures FirstIndex(candidates, id) == Some(i)
  {
    var k := FirstIndex(candidates, id);
    assert k.Some?;
  }

  /** The candidate list after `if (c) c.voteCount = newTotal`; the election id is not looked at. */
  function ApplyVote(candidates: seq<Candidate>, e: VoteEvent): (r: seq<Candidate>)
    ensures |r| == |candidates|
    ensures forall j :: 0 <= j < |r| ==> r[j].id == candidates[j].id
    ensures FirstIndex(candidates, e.candidateId).None? ==> r == candidates
    ensures FirstIndex(candidates, e.candidateId).Some? ==>
      var k := FirstIndex(candidates, e.candidateId).value;
      && r[k] == candidates[k].(voteCount := e.newTotal)
      && forall j :: 0 <= j < |r| && j != k ==> r[j] == candidates[j]
  {
    match FirstIndex(candidates, e.candidateId)
    case None => candidates
    case Some(k) => candidates[k := candidates[k].(voteCount := e.newTotal)]
  }

  /** Ids never change, so the first index of any id survives a patch. */
  lemma FirstIndexAfterVote(candidates: seq<Candidate>, e: VoteEvent, id: int)
    ensures FirstIndex(ApplyVote(candidates, e), id) == FirstIndex(candidates, id)
  {
    var r := ApplyVote(candidates, e);
    match FirstIndex(candidates, id)
    case None =>
      assert forall j :: 0 <= j < |r| ==> r[j].id != id;
    case Some(i) =>
      FirstIndexUnique(r, id, i);
  }

  /** Replaying a notification changes nothing: the patch assigns, it does not add. */
  lemma ApplyVoteIdempotent(candidates: seq<Candidate>, e: VoteEvent)
    ensures ApplyVote(ApplyVote(candidates, e), e) == ApplyVote(candidates, e)
  {
    FirstIndexAfterVote(candidates, e, e.candidateId);
  }

  /** The event's election id has no bearing on the patch. */
  lemma ApplyVoteIgnoresElection(candidates: seq<Candidate>, e: VoteEvent, otherElection: int)
    ensures ApplyVote(candidates, e.(electionId := otherElection)) == ApplyVote(candidates, e)
  {
  }

  /** The notifications applied in arrival order. */
  function ApplyAll(candidates: seq<Candidate>, es: seq<VoteEvent>): (r: seq<Candidate>)
    ensures |r| == |candidates|
    decreases |es|
  {
    if es == [] then candidates else ApplyVote(ApplyAll(candidates, es[..|es| - 1]), es[|es| - 1])
  }

  /** The total carried by the last event for `id`, if any. */
  function LastTotal(es: seq<VoteEvent>, id: int): Option<int>
    decreases |es|
  {
    if es == [] then None
    else if es[|es| - 1].candidateId == id then Some(es[|es| - 1].newTotal)
    else LastTotal(es[..|es| - 1], id)
  }

  /** What candidate `k` looks like once the last event for its id (if any) has been applied. */
  function Expected(candidates: seq<Candidate>, es: seq<VoteEvent>, k: nat): Candidate
    requires k < |candidates|
  {
    var id := candidates[k].id;
    if FirstIndex(candidates, id) == Some(k) && LastTotal(es, id).Some? then
      candidates[k].(voteCount := LastTotal(es, id).value)
    else
      candidates[k]
  }

  /** Last write wins: each first-occurring candidate ends with the total of the last event for it. */
  lemma {:induction false} ApplyAllLastWins(candidates: seq<Candidate>, es: seq<VoteEvent>)
    ensures forall k :: 0 <= k < |candidates| ==> ApplyAll(candidates, es)[k] == Expected(candidates, es, k)
    decreases |es|
  {
    if es != [] {
      var init, e := es[..|es| - 1], es[|es| - 1];
      ApplyAllLastWins(candidates, init);
      var mid := ApplyAll(candidates, init);
      forall k | 0 <= k < |candidates| ensures ApplyAll(candidates, es)[k] == Expected(candidates, es, k) {
        assert mid[k] == Expected(candidates, init, k);
        var id := candidates[k].id;
        IdsAfterAll(candidates, init, id);
        assert mid[k].id == id;
        if e.candidateId == id {
          assert ApplyVote(mid, e)[k] == Expected(candidates, es, k);
        } else {
          assert LastTotal(es, id) == LastTotal(init, id);
          assert ApplyVote(mid, e)[k] == mid[k];
        }
      }
    }
  }

  /** The first index of an id is the same before and after any run of notifications. */
  lemma {:induction false} IdsAfterAll(candidates: seq<Candidate>, es: seq<VoteEvent>, id: int)
    ensures FirstIndex(ApplyAll(candidates, es), id) == FirstIndex(candidates, id)
    ensures forall k :: 0 <= k < |candidates| ==> ApplyAll(candidates, es)[k].id == candidates[k].id
    decreases |es|
  {
    if es != [] {
      IdsAfterAll(candidates, es[..|es| - 1], id);
      FirstIndexAfterVote(ApplyAll(candidates, es[..|es| - 1]), es[|es| - 1], id);
    }
  }

  /** Delivering the whole run a second time leaves the projection as the first delivery left it. */
  lemma ReplayIdempotent(candidates: seq<Candidate>, es: seq<VoteEvent>)
    ensures ApplyAll(candidates, es + es) == ApplyAll(candidates, es)
  {
    ApplyAllLastWins(candidates, es);
    ApplyAllLastWins(candidates, es + es);
    forall k | 0 <= k < |candidates| ensures Expected(candidates, es + es, k) == Expected(candidates, es, k) {
      LastTotalConcat(es, es, candidates[k].id);
    }
  }

  /** In `a + b` the last event for an id is `b`'s if `b` has one, else `a`'s. */
  lemma {:induction false} LastTotalConcat(a: seq<VoteEvent>, b: seq<VoteEvent>, id: int)
    ensures LastTotal(a + b, id) == (if LastTotal(b, id).Some? then LastTotal(b, id) else LastTotal(a, id))
    decreases |b|
  {
    if b == [] {
      assert a + b == a;
    } else {
      var ab := a + b;
      assert ab[..|ab| - 1] == a + b[..|b| - 1];
      assert ab[|ab| - 1] == b[|b| - 1];
      LastTotalConcat(a, b[..|b| - 1], id);
    }
  }

  /** `candidates.reduce((s, c) => s + (c.voteCount || 0), 0)` */
  function Sum(candidates: seq<Candidate>): (r: int)
    ensures (forall i :: 0 <= i < |candidates| ==> candidates[i].voteCount >= 0) ==> r >= 0
    ensures |candidates| == 1 ==> r == candidates[0].voteCount
    decreases |candidates|
  {
    if candidates == [] then 0 else Sum(candidates[..|candidates| - 1]) + candidates[|candidates| - 1].voteCount
  }

  /** `reduce` adds from the left: the sum is the first count plus the sum of the rest. */
  lemma {:induction false} SumFront(candidates: seq<Candidate>)
    requires candidates != []
    ensures Sum(candidates) == candidates[0].voteCount + Sum(candidates[1..])
    decreases |candidates|
  {
    var n := |candidates|;
    if n > 1 {
      var init := candidates[..n - 1];
      SumFront(init);
      assert init[1..] == candidates[1..][..n - 2];
    }
  }

  /** Changing one count changes the sum by exactly the difference. */
  lemma {:induction false} SumUpdate(candidates: seq<Candidate>, k: nat, c: Candidate)
    requires k < |candidates|
    ensures Sum(candidates[k := c]) == Sum(candidates) - candidates[k].voteCount + c.voteCount
    decreases |candidates|
  {
    var n := |candidates|;
    var u := candidates[k := c];
    if k == n - 1 {
      assert u[..n - 1] == candidates[..n - 1];
    } else {
      assert u[..n - 1] == candidates[..n - 1][k := c];
      SumUpdate(candidates[..n - 1], k, c);
    }
  }

  /** The total after a notification: unchanged for an unknown id, else old total minus old count plus new. */
  lemma SumAfterVote(candidates: seq<Candidate>, e: VoteEvent)
    ensures FirstIndex(candidates, e.candidateId).None? ==> Sum(ApplyVote(candidates, e)) == Sum(candidates)
    ensures FirstIndex(candidates, e.candidateId).Some? ==>
      Sum(ApplyVote(candidates, e)) ==
        Sum(candidates) - candidates[FirstIndex(candidates, e.candidateId).value].voteCount + e.newTotal
  {
    if FirstIndex(candidates, e.candidateId).Some? {
      var k := FirstIndex(candidates, e.candidateId).value;
      SumUpdate(candidates, k, candidates[k].(voteCount := e.newTotal));
    }
  }

  /** A worked example: tallies 10 and 5, then candidate 2 reaches 6, for a total of 16. */
  lemma WorkedExample()
    ensures
      var cs := [Candidate(1, Some(Str("A")), 10, None), Candidate(2, Some(Str("B")), 5, None)];
      var after := ApplyVote(cs, VoteEvent(7, 2, 6));
      after == [Candidate(1, Some(Str("A")), 10, None), Candidate(2, Some(Str("B")), 6, None)] && Sum(after) == 16
  {
    var cs := [Candidate(1, Some(Str("A")), 10, None), Candidate(2, Some(Str("B")), 5, None)];
    assert FirstIndex(cs, 2) == Some(1) by {
      assert FirstIndex(cs[1..], 2) == Some(0);
    }
    var after := ApplyVote(cs, VoteEvent(7, 2, 6));
    assert after[..1] == [cs[0]];
    assert after[..1][..0] == [];
  }
}
