/**
 * State conflict resolution: deciding whether a newly seen state PDU becomes
 * the current value of its (context, type, state_key) slot.
 *
 * The datastore's branch walk, the power-level lookup, SHA-1, the event-id
 * codec and the replication fetch are collaborators whose code is not part of
 * this model; they are the fields of `Env`.  The decision itself is stated
 * as functions (`HandleNewStateRec`, `Decide`, `ResolveFrom`) and carried out
 * by the methods of `StateHandler`, which are proved to agree with them.
 */
module State {
  import opened Wrappers
  import opened Builtins

  /** The identity of a PDU: its `pdu_id` and `origin`. */
  datatype PduRef = PduRef(pduId: string, origin: string)

  /** `KeyStateTuple`: the slot a state event or state PDU writes. */
  datatype KeyStateTuple = KeyStateTuple(context: string, pduType: string, stateKey: string)

  /** An element of a branch returned by the datastore's walk of `prev_state` links. */
  datatype BranchPdu = BranchPdu(pduId: string, origin: string, context: string,
                                 userId: Option<string>,     // None: the PDU has no `user_id` attribute
                                 prevStateId: string, prevStateOrigin: string)

  /** A state PDU handed to `handle_new_state`. */
  datatype Pdu = Pdu(pduId: string, origin: string, context: string, pduType: string, stateKey: string)

  function SlotOf(pdu: Pdu): KeyStateTuple
  {
    KeyStateTuple(pdu.context, pdu.pduType, pdu.stateKey)
  }

  /** Which branch of the tree is missing an ancestor (the `missing_branch` index 0 or 1). */
  datatype Side = NewSide | CurrentSide

  /** `get_unresolved_state_tree`'s answer: the two branches, newest first, and the missing side. */
  datatype StateTree = StateTree(newBranch: seq<BranchPdu>, currentBranch: seq<BranchPdu>, missing: Option<Side>)

  /** How a resolution attempt can fail. */
  datatype Error =
    | AncestorPresent     // the lookup found the "missing" ancestor: "Conflict resolution failed"
    | TieBreakExhausted   // every stage tied: "Conflict resolution failed."
    | IndexError          // `[-1]` of an empty branch
    | ValueError          // `max()` of an empty list of power levels
    | NoProgress          // the fetch added nothing, so the source would retry the same call forever

  /** The collaborators of the state handler. */
  datatype Env = Env(
    // the branch walk, from the PDU, the slots' current pointers and the PDUs held locally
    stateTree: (Pdu, map<KeyStateTuple, PduRef>, set<PduRef>) -> StateTree,
    // `store.get_power_level(context, user_id)`
    powerLevel: (string, string) -> int,
    // `hashlib.sha1(s).hexdigest()`
    sha1Hex: string -> string,
    // the (destination, PDU) pairs replication can fetch
    served: set<(string, PduRef)>,
    encodeEventId: (string, string) -> string,
    decodeEventId: (string, string) -> PduRef)

  /** Every PDU that replication could ever deliver. */
  function Fetchable(env: Env): set<PduRef>
  {
    set p | p in env.served :: p.1
  }

  // ---------------------------------------------------------------------------
  // The tie-break stages

  /** A stage score: a number (power level, length) or a hex digest. */
  datatype Score = Num(n: int) | Hex(h: string)

  /** Python 2's `<` on the scores: numbers by value, strings lexicographically, numbers before strings. */
  predicate Less(a: Score, b: Score)
  {
    match (a, b)
    case (Num(x), Num(y)) => x < y
    case (Hex(x), Hex(y)) => StrLess(x, y)
    case (Num(_), Hex(_)) => true
    case (Hex(_), Num(_)) => false
  }

  /** The scores are strictly and totally ordered. */
  lemma ScoreTrichotomy(a: Score, b: Score)
    ensures Less(a, b) || a == b || Less(b, a)
    ensures !(Less(a, b) && Less(b, a))
    ensures !Less(a, a)
  {
    if a.Hex? && b.Hex? {
      StrLessTrichotomy(a.h, b.h);
      StrLessTrichotomy(a.h, a.h);
    } else if a.Hex? {
      StrLessTrichotomy(a.h, a.h);
    }
  }

  /** `branch[:-1] if common_ancestor else branch`: the shared last element does not vote. */
  function Voters(branch: seq<BranchPdu>, common: bool): (r: seq<BranchPdu>)
    ensures common && |branch| > 0 ==> r == branch[..|branch| - 1]
    ensures !common ==> r == branch
  {
    if common && |branch| > 0 then branch[..|branch| - 1] else branch
  }

  /** The power levels of the voters that have a `user_id`, in branch order. */
  function Powers(env: Env, branch: seq<BranchPdu>): (ps: seq<int>)
    ensures |ps| <= |branch|
    ensures |ps| == 0 <==> forall i :: 0 <= i < |branch| ==> branch[i].userId.None?
    ensures forall i :: 0 <= i < |branch| && branch[i].userId.Some? ==>
      env.powerLevel(branch[i].context, branch[i].userId.value) in ps
    ensures forall x :: x in ps ==>
      exists i :: 0 <= i < |branch| && branch[i].userId.Some? &&
        x == env.powerLevel(branch[i].context, branch[i].userId.value)
  {
    if |branch| == 0 then []
    else
      var rest := Powers(env, branch[1..]);
      assert forall i :: 1 <= i < |branch| ==> branch[i] == branch[1..][i - 1];
      var e := branch[0];
      if e.userId.Some? then [env.powerLevel(e.context, e.userId.value)] + rest else rest
  }

  /** `_do_power_level_conflict_res`: each side's highest power among its voters. */
  function PowerStage(env: Env, nb: seq<BranchPdu>, cb: seq<BranchPdu>, common: bool): (r: Result<(Score, Score), Error>)
    ensures r.Failure? <==> |Powers(env, Voters(nb, common))| == 0 || |Powers(env, Voters(cb, common))| == 0
    ensures r.Failure? ==> r.error == ValueError
    ensures r.Success? ==> r.value.0.Num? && r.value.1.Num?
    ensures r.Success? ==>
      (forall i :: 0 <= i < |Voters(nb, common)| && Voters(nb, common)[i].userId.Some? ==>
         env.powerLevel(Voters(nb, common)[i].context, Voters(nb, common)[i].userId.value) <= r.value.0.n)
      && (forall i :: 0 <= i < |Voters(cb, common)| && Voters(cb, common)[i].userId.Some? ==>
         env.powerLevel(Voters(cb, common)[i].context, Voters(cb, common)[i].userId.value) <= r.value.1.n)
      && r.value.0.n in Powers(env, Voters(nb, common))
      && r.value.1.n in Powers(env, Voters(cb, common))
  {
    var np := Powers(env, Voters(nb, common));
    var cp := Powers(env, Voters(cb, common));
    if |np| == 0 || |cp| == 0 then Failure(ValueError)
    else
      forall i | 0 <= i < |Voters(nb, common)| && Voters(nb, common)[i].userId.Some?
        ensures env.powerLevel(Voters(nb, common)[i].context, Voters(nb, common)[i].userId.value) <= Max(np)
      {
        var p := env.powerLevel(Voters(nb, common)[i].context, Voters(nb, common)[i].userId.value);
        var j :| 0 <= j < |np| && np[j] == p;
      }
      forall i | 0 <= i < |Voters(cb, common)| && Voters(cb, common)[i].userId.Some?
        ensures env.powerLevel(Voters(cb, common)[i].context, Voters(cb, common)[i].userId.value) <= Max(cp)
      {
        var p := env.powerLevel(Voters(cb, common)[i].context, Voters(cb, common)[i].userId.value);
        var j :| 0 <= j < |cp| && cp[j] == p;
      }
      Success((Num(Max(np)), Num(Max(cp))))
  }

  /** `_do_chain_length_conflict_res`: the full lengths, shared element included. */
  function LengthStage(nb: seq<BranchPdu>, cb: seq<BranchPdu>): (Score, Score)
  {
    (Num(|nb|), Num(|cb|))
  }

  /** `[p.pdu_id + p.origin for p in branch]`. */
  function IdOrigins(branch: seq<BranchPdu>): (r: seq<string>)
    ensures |r| == |branch|
    ensures forall i :: 0 <= i < |branch| ==> r[i] == branch[i].pduId + branch[i].origin
  {
    if |branch| == 0 then [] else [branch[0].pduId + branch[0].origin] + IdOrigins(branch[1..])
  }

  /** The string `_do_hash_conflict_res` hashes: every `pdu_id + origin`, concatenated without separator. */
  function HashInput(branch: seq<BranchPdu>): string
  {
    Join("", IdOrigins(branch))
  }

  /** `_do_hash_conflict_res`: the hex SHA-1 digests of both hash inputs. */
  function HashStage(env: Env, nb: seq<BranchPdu>, cb: seq<BranchPdu>): (r: (Score, Score))
    ensures r.0.Hex? && r.1.Hex?
    ensures HashInput(nb) == HashInput(cb) ==> r.0 == r.1
  {
    (Hex(env.sha1Hex(HashInput(nb))), Hex(env.sha1Hex(HashInput(cb))))
  }

  /** Stage `k` of `_do_conflict_res`: power level, then chain length, then hash. */
  function Stage(env: Env, k: nat, nb: seq<BranchPdu>, cb: seq<BranchPdu>, common: bool): Result<(Score, Score), Error>
    requires k < 3
  {
    if k == 0 then PowerStage(env, nb, cb, common)
    else if k == 1 then Success(LengthStage(nb, cb))
    else Success(HashStage(env, nb, cb))
  }

  /** The tie-break from stage `k` on: the first stage whose scores differ decides. */
  function ResolveFrom(env: Env, nb: seq<BranchPdu>, cb: seq<BranchPdu>, common: bool, k: nat): Result<bool, Error>
    requires k <= 3
    decreases 3 - k
  {
    if k == 3 then Failure(TieBreakExhausted)
    else
      match Stage(env, k, nb, cb, common)
      case Failure(e) => Failure(e)
      case Success((newRes, currRes)) =>
        if Less(newRes, currRes) then Success(false)
        else if Less(currRes, newRes) then Success(true)
        else ResolveFrom(env, nb, cb, common, k + 1)
  }

  predicate Tied(s: Result<(Score, Score), Error>)
  {
    s.Success? && s.value.0 == s.value.1
  }

  predicate Differs(s: Result<(Score, Score), Error>)
  {
    s.Success? && s.value.0 != s.value.1
  }

  lemma {:induction false} DecidedAt(env: Env, nb: seq<BranchPdu>, cb: seq<BranchPdu>, common: bool, i: nat, k: nat)
    requires i <= k < 3
    requires forall j :: i <= j < k ==> Tied(Stage(env, j, nb, cb, common))
    requires Differs(Stage(env, k, nb, cb, common))
    ensures ResolveFrom(env, nb, cb, common, i) ==
            Success(Less(Stage(env, k, nb, cb, common).value.1, Stage(env, k, nb, cb, common).value.0))
    decreases k - i
  {
    var s := Stage(env, i, nb, cb, common);
    ScoreTrichotomy(s.value.0, s.value.1);
    if i < k {
      DecidedAt(env, nb, cb, common, i + 1, k);
    }
  }

  /**
   * The stages run in priority order: when every earlier stage ties and stage
   * `k` differs, stage `k` decides, and the new branch wins exactly when its
   * score is the larger.
   */
  lemma FirstDifferingStageDecides(env: Env, nb: seq<BranchPdu>, cb: seq<BranchPdu>, common: bool, k: nat)
    requires k < 3
    requires forall j :: 0 <= j < k ==> Tied(Stage(env, j, nb, cb, common))
    requires Differs(Stage(env, k, nb, cb, common))
    ensures ResolveFrom(env, nb, cb, common, 0) ==
            Success(Less(Stage(env, k, nb, cb, common).value.1, Stage(env, k, nb, cb, common).value.0))
  {
    DecidedAt(env, nb, cb, common, 0, k);
  }

  /** When all three stages tie, the tie-break fails. */
  lemma AllStagesTiedFails(env: Env, nb: seq<BranchPdu>, cb: seq<BranchPdu>, common: bool)
    requires forall j :: 0 <= j < 3 ==> Tied(Stage(env, j, nb, cb, common))
    ensures ResolveFrom(env, nb, cb, common, 0) == Failure(TieBreakExhausted)
  {
    assert Tied(Stage(env, 0, nb, cb, common));
    assert Tied(Stage(env, 1, nb, cb, common));
    assert Tied(Stage(env, 2, nb, cb, common));
    ScoreTrichotomy(Stage(env, 0, nb, cb, common).value.0, Stage(env, 0, nb, cb, common).value.1);
    ScoreTrichotomy(Stage(env, 1, nb, cb, common).value.0, Stage(env, 1, nb, cb, common).value.1);
    ScoreTrichotomy(Stage(env, 2, nb, cb, common).value.0, Stage(env, 2, nb, cb, common).value.1);
  }

  /** A side with no voter that has a `user_id` makes `max()` raise before any comparison. */
  lemma NoVotersFails(env: Env, nb: seq<BranchPdu>, cb: seq<BranchPdu>, common: bool)
    requires |Powers(env, Voters(nb, common))| == 0 || |Powers(env, Voters(cb, common))| == 0
    ensures ResolveFrom(env, nb, cb, common, 0) == Failure(ValueError)
  {
  }

  /** Every stage scores the two sides independently: swapping the branches swaps the scores. */
  lemma StageSwap(env: Env, k: nat, nb: seq<BranchPdu>, cb: seq<BranchPdu>, common: bool)
    requires k < 3
    ensures Stage(env, k, cb, nb, common).Success? == Stage(env, k, nb, cb, common).Success?
    ensures Stage(env, k, nb, cb, common).Success? ==>
      Stage(env, k, cb, nb, common).value == (Stage(env, k, nb, cb, common).value.1, Stage(env, k, nb, cb, common).value.0)
  {
  }

  lemma {:induction false} SwapFrom(env: Env, nb: seq<BranchPdu>, cb: seq<BranchPdu>, common: bool, k: nat)
    requires k <= 3
    requires ResolveFrom(env, nb, cb, common, k).Success?
    ensures ResolveFrom(env, cb, nb, common, k) == Success(!ResolveFrom(env, nb, cb, common, k).value)
    decreases 3 - k
  {
    if k < 3 {
      StageSwap(env, k, nb, cb, common);
      var s := Stage(env, k, nb, cb, common);
      ScoreTrichotomy(s.value.0, s.value.1);
      if !Less(s.value.0, s.value.1) && !Less(s.value.1, s.value.0) {
        SwapFrom(env, nb, cb, common, k + 1);
      }
    }
  }

  /** The tie-break is antisymmetric: whichever branch wins as "new" loses as "current". */
  lemma TieBreakAntisymmetric(env: Env, nb: seq<BranchPdu>, cb: seq<BranchPdu>, common: bool)
    requires ResolveFrom(env, nb, cb, common, 0).Success?
    ensures ResolveFrom(env, cb, nb, common, 0) == Success(!ResolveFrom(env, nb, cb, common, 0).value)
  {
    SwapFrom(env, nb, cb, common, 0);
  }

  /**
   * The hash input joins `pdu_id + origin` without a separator, so distinct
   * branches can hash the same string and tie in the last stage.
   */
  lemma HashInputNotInjective(ctx: string, a: string, b: string)
    ensures var nb := [BranchPdu("a", "bc", ctx, None, a, b)];
            var cb := [BranchPdu("ab", "c", ctx, None, a, b)];
            nb != cb && HashInput(nb) == HashInput(cb)
  {
    var nb := [BranchPdu("a", "bc", ctx, None, a, b)];
    var cb := [BranchPdu("ab", "c", ctx, None, a, b)];
    assert "a" + "bc" == "abc" == "ab" + "c";
    assert IdOrigins(nb) == ["abc"];
    assert IdOrigins(cb) == ["abc"];
  }

  // ---------------------------------------------------------------------------
  // The decision

  /** Both branches end in the same PDU: the same `pdu_id` and the same `origin`. */
  predicate CommonAncestor(nb: seq<BranchPdu>, cb: seq<BranchPdu>)
    requires |nb| > 0 && |cb| > 0
  {
    nb[|nb| - 1].pduId == cb[|cb| - 1].pduId && nb[|nb| - 1].origin == cb[|cb| - 1].origin
  }

  /** The decision `_handle_new_state` takes once neither branch is missing an ancestor. */
  function Decide(env: Env, nb: seq<BranchPdu>, cb: seq<BranchPdu>): (r: Result<bool, Error>)
    ensures |cb| == 0 ==> r == Success(true)
    ensures |cb| > 0 && |nb| == 0 ==> r == Failure(IndexError)
    ensures |cb| == 1 && |nb| > 0 && CommonAncestor(nb, cb) ==> r == Success(true)
    ensures |cb| > 0 && |nb| > 0 && !(|cb| == 1 && CommonAncestor(nb, cb)) ==>
      r == ResolveFrom(env, nb, cb, CommonAncestor(nb, cb), 0)
  {
    if |cb| == 0 then Success(true)
    else if |nb| == 0 then Failure(IndexError)
    else
      var common := CommonAncestor(nb, cb);
      if common && |cb| == 1 then Success(true)
      else ResolveFrom(env, nb, cb, common, 0)
  }

  /**
   * With a common ancestor and a new branch holding only that ancestor, the
   * new side has no voter and the power stage raises.
   */
  lemma BareCommonAncestorFails(env: Env, nb: seq<BranchPdu>, cb: seq<BranchPdu>)
    requires |nb| == 1 && |cb| > 1 && CommonAncestor(nb, cb)
    ensures Decide(env, nb, cb) == Failure(ValueError)
  {
    assert Voters(nb, true) == [];
  }

  /**
   * `_handle_new_state`: fetch missing ancestors until the tree is complete,
   * then decide.  Returns the outcome and the PDUs held afterwards (the fetched
   * outliers added).  Each retry holds one more fetchable PDU than the last,
   * which bounds the recursion.
   */
  function HandleNewStateRec(env: Env, pdu: Pdu, current: map<KeyStateTuple, PduRef>, stored: set<PduRef>)
    : (r: (Result<bool, Error>, set<PduRef>))
    ensures stored <= r.1 && r.1 - stored <= Fetchable(env)
    decreases Fetchable(env) - stored
  {
    var tree := env.stateTree(pdu, current, stored);
    match tree.missing
    case Some(side) =>
      var branch := if side == NewSide then tree.newBranch else tree.currentBranch;
      if |branch| == 0 then (Failure(IndexError), stored)
      else
        var missingPrev := branch[|branch| - 1];
        var ref := PduRef(missingPrev.prevStateId, missingPrev.prevStateOrigin);
        if ref in stored then (Failure(AncestorPresent), stored)
        else if (missingPrev.origin, ref) !in env.served then (Failure(NoProgress), stored)
        else
          assert ref in Fetchable(env);
          HandleNewStateRec(env, pdu, current, stored + {ref})
    case None => (Decide(env, tree.newBranch, tree.currentBranch), stored)
  }

  /** Re-running the resolution on the PDUs held afterwards gives the same outcome and fetches nothing. */
  lemma {:induction false} ResolutionStable(env: Env, pdu: Pdu, current: map<KeyStateTuple, PduRef>, stored: set<PduRef>)
    ensures HandleNewStateRec(env, pdu, current, HandleNewStateRec(env, pdu, current, stored).1)
            == HandleNewStateRec(env, pdu, current, stored)
    decreases Fetchable(env) - stored
  {
    var tree := env.stateTree(pdu, current, stored);
    if tree.missing.Some? {
      var branch := if tree.missing.value == NewSide then tree.newBranch else tree.currentBranch;
      if |branch| > 0 {
        var missingPrev := branch[|branch| - 1];
        var ref := PduRef(missingPrev.prevStateId, missingPrev.prevStateOrigin);
        if ref !in stored && (missingPrev.origin, ref) in env.served {
          assert ref in Fetchable(env);
          ResolutionStable(env, pdu, current, stored + {ref});
        }
      }
    }
  }

  /** A rejected PDU stays rejected when evaluated again: the pointer is untouched and the outcome repeats. */
  lemma RejectionIdempotent(env: Env, pdu: Pdu, current: map<KeyStateTuple, PduRef>, stored: set<PduRef>)
    requires HandleNewStateRec(env, pdu, current, stored).0 == Success(false)
    ensures var after := HandleNewStateRec(env, pdu, current, stored).1;
            HandleNewStateRec(env, pdu, current, after) == (Success(false), after)
  {
    ResolutionStable(env, pdu, current, stored);
  }

  /** A complete tree with no current branch accepts the new PDU. */
  lemma NoCurrentStateAccepts(env: Env, pdu: Pdu, current: map<KeyStateTuple, PduRef>, stored: set<PduRef>)
    requires env.stateTree(pdu, current, stored).missing.None?
    requires |env.stateTree(pdu, current, stored).currentBranch| == 0
    ensures HandleNewStateRec(env, pdu, current, stored) == (Success(true), stored)
  {
  }

  /**
   * One missing ancestor that replication can supply: exactly one fetch, then
   * the decision on the completed tree.
   */
  lemma OneBackfill(env: Env, pdu: Pdu, current: map<KeyStateTuple, PduRef>, stored: set<PduRef>, side: Side)
    requires var tree := env.stateTree(pdu, current, stored);
             tree.missing == Some(side) &&
             |if side == NewSide then tree.newBranch else tree.currentBranch| > 0
    requires var tree := env.stateTree(pdu, current, stored);
             var branch := if side == NewSide then tree.newBranch else tree.currentBranch;
             var missingPrev := branch[|branch| - 1];
             var ref := PduRef(missingPrev.prevStateId, missingPrev.prevStateOrigin);
             ref !in stored && (missingPrev.origin, ref) in env.served &&
             env.stateTree(pdu, current, stored + {ref}).missing.None?
    ensures var tree := env.stateTree(pdu, current, stored);
            var branch := if side == NewSide then tree.newBranch else tree.currentBranch;
            var missingPrev := branch[|branch| - 1];
            var ref := PduRef(missingPrev.prevStateId, missingPrev.prevStateOrigin);
            var done := env.stateTree(pdu, current, stored + {ref});
            HandleNewStateRec(env, pdu, current, stored) ==
              (Decide(env, done.newBranch, done.currentBranch), stored + {ref})
  {
    var tree := env.stateTree(pdu, current, stored);
    var branch := if side == NewSide then tree.newBranch else tree.currentBranch;
    var missingPrev := branch[|branch| - 1];
    var ref := PduRef(missingPrev.prevStateId, missingPrev.prevStateOrigin);
    assert ref in Fetchable(env);
  }

  /** The "missing" ancestor found by the lookup raises without fetching. */
  lemma PresentAncestorFails(env: Env, pdu: Pdu, current: map<KeyStateTuple, PduRef>, stored: set<PduRef>, side: Side)
    requires var tree := env.stateTree(pdu, current, stored);
             tree.missing == Some(side) &&
             |if side == NewSide then tree.newBranch else tree.currentBranch| > 0
    requires var tree := env.stateTree(pdu, current, stored);
             var branch := if side == NewSide then tree.newBranch else tree.currentBranch;
             PduRef(branch[|branch| - 1].prevStateId, branch[|branch| - 1].prevStateOrigin) in stored
    ensures HandleNewStateRec(env, pdu, current, stored) == (Failure(AncestorPresent), stored)
  {
  }

  /**
   * A missing ancestor that is not in the store and that its origin does not
   * serve stops the resolution with the store as it was.
   */
  lemma UnservedAncestorStops(env: Env, pdu: Pdu, current: map<KeyStateTuple, PduRef>, stored: set<PduRef>, side: Side)
    requires var tree := env.stateTree(pdu, current, stored);
             tree.missing == Some(side) &&
             |if side == NewSide then tree.newBranch else tree.currentBranch| > 0
    requires var tree := env.stateTree(pdu, current, stored);
             var branch := if side == NewSide then tree.newBranch else tree.currentBranch;
             var ref := PduRef(branch[|branch| - 1].prevStateId, branch[|branch| - 1].prevStateOrigin);
             ref !in stored && (branch[|branch| - 1].origin, ref) !in env.served
    ensures HandleNewStateRec(env, pdu, current, stored) == (Failure(NoProgress), stored)
  {
  }

  // ---------------------------------------------------------------------------
  // handle_new_event

  /** `[e for e in ids if e != id]`. */
  function RemoveId(ids: seq<string>, id: string): (r: seq<string>)
    ensures forall x :: x in r <==> x in ids && x != id
    ensures |r| <= |ids|
  {
    if |ids| == 0 then [] else (if ids[0] == id then [] else [ids[0]]) + RemoveId(ids[1..], id)
  }

  /** Filtering works piece by piece, so the kept entries stay in their original order. */
  lemma {:induction false} RemoveIdDistributes(a: seq<string>, b: seq<string>, id: string)
    ensures RemoveId(a + b, id) == RemoveId(a, id) + RemoveId(b, id)
  {
    if |a| == 0 {
      assert a + b == b;
    } else {
      assert (a + b)[1..] == a[1..] + b;
      RemoveIdDistributes(a[1..], b, id);
    }
  }

  /** A list without the id is kept whole. */
  lemma {:induction false} RemoveIdKeepsOthers(ids: seq<string>, id: string)
    requires id !in ids
    ensures RemoveId(ids, id) == ids
  {
    if |ids| > 0 {
      RemoveIdKeepsOthers(ids[1..], id);
    }
  }

  /** A local event being prepared: `prev_events` and `prev_state` are filled in place. */
  class Event {
    const eventId: string
    const roomId: string
    const eventType: string
    const stateKey: Option<string>     // None: the event has no `state_key` attribute
    var prevEvents: seq<string>
    var prevState: Option<string>

    constructor (eventId: string, roomId: string, eventType: string, stateKey: Option<string>)
      ensures this.eventId == eventId && this.roomId == roomId && this.eventType == eventType
      ensures this.stateKey == stateKey && prevEvents == [] && prevState == None
    {
      this.eventId := eventId;
      this.roomId := roomId;
      this.eventType := eventType;
      this.stateKey := stateKey;
      prevEvents := [];
      prevState := None;
    }
  }

  /**
   * A snapshot of the room: the `prev_events` that `fill_out_prev_events`
   * gives an event, and the current state PDU of the slot, if any.
   */
  datatype Snapshot = Snapshot(prevEvents: seq<string>, prevStatePdu: Option<PduRef>)

  /** The datastore's part in resolution: the slots' current pointers and the PDUs held locally. */
  class DataStore {
    var currentState: map<KeyStateTuple, PduRef>
    var stored: set<PduRef>

    constructor (currentState: map<KeyStateTuple, PduRef>, stored: set<PduRef>)
      ensures this.currentState == currentState && this.stored == stored
    {
      this.currentState := currentState;
      this.stored := stored;
    }

    /** `update_current_state`: point the slot at the PDU. */
    method UpdateCurrentState(ref: PduRef, key: KeyStateTuple)
      modifies this
      ensures currentState == old(currentState)[key := ref]
      ensures stored == old(stored)
    {
      currentState := currentState[key := ref];
    }

    /** `get_pdu`, as an existence check. */
    method HasPdu(ref: PduRef) returns (present: bool)
      ensures present <==> ref in stored
    {
      present := ref in stored;
    }

    /** A PDU fetched as an outlier is held locally from then on. */
    method AddOutlier(ref: PduRef)
      modifies this
      ensures stored == old(stored) + {ref}
      ensures currentState == old(currentState)
    {
      stored := stored + {ref};
    }
  }

  /** `StateHandler`: conflict resolution against one datastore. */
  class StateHandler {
    const store: DataStore
    const env: Env
    const serverName: string

    constructor (store: DataStore, env: Env, serverName: string)
      ensures this.store == store && this.env == env && this.serverName == serverName
    {
      this.store := store;
      this.env := env;
      this.serverName := serverName;
    }

    /**
     * `handle_new_event`: a no-op (None) for an event without a state key;
     * otherwise drop the event's own id from its `prev_events`, stamp
     * `prev_state` from the snapshot's state PDU, point the slot at the event
     * and report True.
     */
    method HandleNewEvent(event: Event, snapshot: Snapshot) returns (r: Option<bool>)
      modifies event, store
      ensures event.stateKey.None? ==> r.None?
      ensures event.stateKey.None? ==> unchanged(event) && unchanged(store)
      ensures event.stateKey.Some? ==> r == Some(true)
      ensures event.stateKey.Some? ==> event.prevEvents == RemoveId(snapshot.prevEvents, event.eventId)
      ensures event.stateKey.Some? ==>
        (event.prevState ==
           if snapshot.prevStatePdu.Some?
           then Some(env.encodeEventId(snapshot.prevStatePdu.value.pduId, snapshot.prevStatePdu.value.origin))
           else old(event.prevState))
      ensures event.stateKey.Some? ==>
        (store.currentState ==
           old(store.currentState)[KeyStateTuple(event.roomId, event.eventType, event.stateKey.value)
                                     := env.decodeEventId(event.eventId, serverName)])
      ensures store.stored == old(store.stored)
    {
      if event.stateKey.None? {
        return None;
      }
      var key := KeyStateTuple(event.roomId, event.eventType, event.stateKey.value);
      event.prevEvents := snapshot.prevEvents;
      event.prevEvents := RemoveId(event.prevEvents, event.eventId);
      var currentState := snapshot.prevStatePdu;
      if currentState.Some? {
        event.prevState := Some(env.encodeEventId(currentState.value.pduId, currentState.value.origin));
      }
      var ref := env.decodeEventId(event.eventId, serverName);
      store.UpdateCurrentState(ref, key);
      return Some(true);
    }

    /** `handle_new_state`: resolve, and point the slot at the PDU only when it won. */
    method HandleNewState(pdu: Pdu) returns (r: Result<bool, Error>)
      modifies store
      ensures (r, store.stored) == HandleNewStateRec(env, pdu, old(store.currentState), old(store.stored))
      ensures r == Success(true) ==>
        store.currentState == old(store.currentState)[SlotOf(pdu) := PduRef(pdu.pduId, pdu.origin)]
      ensures r != Success(true) ==> store.currentState == old(store.currentState)
    {
      r := Resolve(pdu);
      if r == Success(true) {
        store.UpdateCurrentState(PduRef(pdu.pduId, pdu.origin), SlotOf(pdu));
      }
    }

    /** `_handle_new_state`, fetching each missing ancestor and retrying. */
    method Resolve(pdu: Pdu) returns (r: Result<bool, Error>)
      modifies store
      ensures (r, store.stored) == HandleNewStateRec(env, pdu, old(store.currentState), old(store.stored))
      ensures store.currentState == old(store.currentState)
      decreases Fetchable(env) - store.stored
    {
      var tree := env.stateTree(pdu, store.currentState, store.stored);
      if tree.missing.Some? {
        var branch := if tree.missing.value == NewSide then tree.newBranch else tree.currentBranch;
        if |branch| == 0 {
          return Failure(IndexError);
        }
        var missingPrev := branch[|branch| - 1];
        var ref := PduRef(missingPrev.prevStateId, missingPrev.prevStateOrigin);
        var present := store.HasPdu(ref);
        if present {
          return Failure(AncestorPresent);
        }
        if (missingPrev.origin, ref) !in env.served {
          return Failure(NoProgress);
        }
        assert ref in Fetchable(env);
        store.AddOutlier(ref);
        r := Resolve(pdu);
        return;
      }
      var nb, cb := tree.newBranch, tree.currentBranch;
      if |cb| == 0 {
        return Success(true);
      }
      if |nb| == 0 {
        return Failure(IndexError);
      }
      var n := nb[|nb| - 1];
      var c := cb[|cb| - 1];
      var common := n.pduId == c.pduId && n.origin == c.origin;
      if common && |cb| == 1 {
        return Success(true);
      }
      r := DoConflictRes(env, nb, cb, common);
    }
  }

  /** `_do_conflict_res`: run the stages in order until one decides. */
  method DoConflictRes(env: Env, nb: seq<BranchPdu>, cb: seq<BranchPdu>, common: bool) returns (r: Result<bool, Error>)
    ensures r == ResolveFrom(env, nb, cb, common, 0)
  {
    for k := 0 to 3
      invariant ResolveFrom(env, nb, cb, common, 0) == ResolveFrom(env, nb, cb, common, k)
    {
      var scores := Stage(env, k, nb, cb, common);
      if scores.Failure? {
        return Failure(scores.error);
      }
      var (newRes, currRes) := scores.value;
      if Less(newRes, currRes) {
        return Success(false);
      } else if Less(currRes, newRes) {
        return Success(true);
      }
    }
    return Failure(TieBreakExhausted);
  }
}
