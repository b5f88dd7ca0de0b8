/**
 * The MAC UE reconfiguration procedure: up to five awaited steps against the
 * UL demultiplexer, the DL multiplexer and the scheduler, run in a fixed
 * order, with the bearer steps skipped when their lists are empty and the
 * procedure ending at the first failing step. The collaborators are
 * abstracted to the success or failure of each step.
 */
module MacUeReconfiguration {

  /** The steps the procedure can invoke, in the order it invokes them. */
  datatype Step =
    | UlAddModBearers
    | DlAddModBearers
    | SchedUeReconfiguration
    | UlRemoveBearers
    | DlRemoveBearers

  /** A logical channel to add or modify: its LCID and its configuration, left opaque. */
  datatype LogicalChannelConfig = LogicalChannelConfig(lcid: nat, config: nat)

  datatype ReconfigurationRequest = ReconfigurationRequest(
    ueIndex: nat,
    crnti: nat,
    pcellIndex: nat,
    bearersToAddMod: seq<LogicalChannelConfig>,
    bearersToRem: seq<nat>)

  datatype ReconfigurationResponse = ReconfigurationResponse(ueIndex: nat, result: bool)

  /**
   * The steps a request calls for, in order: the two add/mod steps when
   * there are bearers to add or modify, the scheduler step always, and the
   * two remove steps when there are bearers to remove.
   */
  function PlannedSteps(req: ReconfigurationRequest): (steps: seq<Step>)
    ensures SchedUeReconfiguration in steps
    ensures |steps| == 1 + (if req.bearersToAddMod != [] then 2 else 0) + (if req.bearersToRem != [] then 2 else 0)
    ensures (UlAddModBearers in steps) <==> req.bearersToAddMod != []
    ensures (UlRemoveBearers in steps) <==> req.bearersToRem != []
  {
    (if req.bearersToAddMod != [] then [UlAddModBearers, DlAddModBearers] else [])
    + [SchedUeReconfiguration]
    + (if req.bearersToRem != [] then [UlRemoveBearers, DlRemoveBearers] else [])
  }

  /** The response sent back to the DU manager: the request's UE and the given result. */
  function HandleResult(req: ReconfigurationRequest, result: bool): (resp: ReconfigurationResponse)
    ensures resp.ueIndex == req.ueIndex
    ensures resp.result == result
  {
    ReconfigurationResponse(req.ueIndex, result)
  }

  /**
   * Runs the procedure. `outcome(s)` is what step s reports when invoked;
   * `invoked` lists the steps in the order they were invoked. The steps
   * invoked are a prefix of the planned ones, every invoked step but the
   * last succeeded, the procedure stops early only on a failure, and the
   * result is true exactly when every invoked step succeeded.
   */
  method Run(req: ReconfigurationRequest, outcome: Step -> bool)
    returns (resp: ReconfigurationResponse, invoked: seq<Step>)
    ensures resp.ueIndex == req.ueIndex
    ensures 1 <= |invoked| <= |PlannedSteps(req)|
    ensures invoked == PlannedSteps(req)[..|invoked|]
    ensures forall k :: 0 <= k < |invoked| - 1 ==> outcome(invoked[k])
    ensures |invoked| < |PlannedSteps(req)| ==> !outcome(invoked[|invoked| - 1])
    ensures resp.result <==> forall k :: 0 <= k < |invoked| ==> outcome(invoked[k])
    ensures resp.result <==> invoked == PlannedSteps(req) && outcome(invoked[|invoked| - 1])
    ensures (UlAddModBearers in invoked) <==> req.bearersToAddMod != []
    ensures (SchedUeReconfiguration in invoked) <==>
              req.bearersToAddMod == [] || (outcome(UlAddModBearers) && outcome(DlAddModBearers))
  {
    ghost var addMod := if req.bearersToAddMod != [] then [UlAddModBearers, DlAddModBearers] else [];
    ghost var rem := if req.bearersToRem != [] then [UlRemoveBearers, DlRemoveBearers] else [];
    assert PlannedSteps(req) == addMod + [SchedUeReconfiguration] + rem;
    assert SchedUeReconfiguration !in addMod;
    invoked := [];
    if req.bearersToAddMod != [] {
      invoked := invoked + [UlAddModBearers];
      if !outcome(UlAddModBearers) {
        assert !outcome(invoked[|invoked| - 1]);
        assert invoked == PlannedSteps(req)[..1];
        return HandleResult(req, false), invoked;
      }
      invoked := invoked + [DlAddModBearers];
      if !outcome(DlAddModBearers) {
        assert !outcome(invoked[|invoked| - 1]);
        assert invoked == PlannedSteps(req)[..2];
        return HandleResult(req, false), invoked;
      }
    }
    invoked := invoked + [SchedUeReconfiguration];
    assert invoked == addMod + [SchedUeReconfiguration];
    if !outcome(SchedUeReconfiguration) {
      assert !outcome(invoked[|invoked| - 1]);
      assert invoked == PlannedSteps(req)[..|invoked|];
      return HandleResult(req, false), invoked;
    }
    if req.bearersToRem != [] {
      invoked := invoked + [UlRemoveBearers];
      if !outcome(UlRemoveBearers) {
        assert !outcome(invoked[|invoked| - 1]);
        assert invoked == PlannedSteps(req)[..|invoked|];
        return HandleResult(req, false), invoked;
      }
      invoked := invoked + [DlRemoveBearers];
      if !outcome(DlRemoveBearers) {
        assert !outcome(invoked[|invoked| - 1]);
        assert invoked == PlannedSteps(req);
        return HandleResult(req, false), invoked;
      }
    }
    assert invoked == PlannedSteps(req);
    resp := HandleResult(req, true);
  }

  /**
   * Whatever prefix of the plan a run invokes, the scheduler step occurs in
   * it at most once and a remove step only when there are bearers to remove.
   */
  lemma InvokedPrefixFollowsPlan(req: ReconfigurationRequest, n: nat)
    requires n <= |PlannedSteps(req)|
    ensures multiset(PlannedSteps(req)[..n])[SchedUeReconfiguration] <= 1
    ensures (UlRemoveBearers in PlannedSteps(req)[..n] || DlRemoveBearers in PlannedSteps(req)[..n]) ==> req.bearersToRem != []
  {
    var steps := PlannedSteps(req);
    assert DlRemoveBearers in steps ==> req.bearersToRem != [];
    assert multiset(steps)[SchedUeReconfiguration] == 1;
    assert steps == steps[..n] + steps[n..];
    assert multiset(steps) == multiset(steps[..n]) + multiset(steps[n..]);
  }
}
