/**
 The ES920 wrapper. set_wireless and set_only configure the transceiver by a
 fixed, ordered chain of single-parameter setter calls, each followed by an
 early `return -1` when the setter reports failure; set_only then saves to
 flash without checking the save. The default and structure entry points
 forward to set_wireless, and set_load and set_operation each make one
 unchecked call. Every entry point is a pure function of the device oracle
 that returns the calls it made, in order, and its return code.
 */
module Es920Wrap {
  import opened Es920

  /** What an entry point hands back: the driver calls it made, in order, and
      the value it returns to its caller. */
  datatype Outcome = Outcome(trace: seq<Call>, status: int32)

  /** The documented order of the wireless parameters, first to last. */
  const WirelessOrder: seq<Setter> :=
    [Node, Bw, Sf, Ch, Panid, Ownid, Dstid, Acksw, AckRetryNum,
     Trmode, Rcvsw, Rssisw, Opmode, Brate, Slepsw, Slept, Outpw]

  /** Reference call sequence: every setter of `WirelessOrder`, each given the
      structure field it consumes. */
  function Schedule(p: Es920Param): seq<Call>
  {
    seq(|WirelessOrder|, i requires 0 <= i < |WirelessOrder| =>
      Set(WirelessOrder[i], Field(p, WirelessOrder[i])))
  }

  /** `r` is what a fail-fast application of `plan` must produce: the calls
      made are a prefix of `plan` and nothing else (no undo, no extra call);
      the code is 0 exactly when every call of `plan` succeeds, and then all
      of `plan` was issued; otherwise the code is -1, the last call made is
      the first one that failed and every call before it succeeded. */
  ghost predicate FailFast(o: Oracle, plan: seq<Call>, r: Outcome)
  {
    && |r.trace| <= |plan|
    && r.trace == plan[..|r.trace|]
    && (r.status == 0 || r.status == -1)
    && (r.status == 0 <==> AllSucceed(o, plan))
    && (r.status == 0 ==> |r.trace| == |plan|)
    && (r.status == -1 ==>
          && 0 < |r.trace|
          && !Succeeds(o, r.trace[|r.trace| - 1])
          && AllSucceed(o, r.trace[..|r.trace| - 1]))
  }

  /** Issues the calls of `plan` in order and stops at the first one whose
      status is non-zero, returning -1 for any non-zero status; returns 0
      after the last call. */
  function Run(o: Oracle, plan: seq<Call>): (r: Outcome)
    ensures FailFast(o, plan, r)
    decreases |plan|
  {
    if |plan| == 0 then Outcome([], 0)
    else if !Succeeds(o, plan[0]) then Outcome([plan[0]], -1)
    else
      var rest := Run(o, plan[1..]);
      assert plan == [plan[0]] + plan[1..];
      assert [plan[0]] + plan[1..][..|rest.trace|] == plan[..|rest.trace| + 1];
      Outcome([plan[0]] + rest.trace, rest.status)
  }

  /** easel_ES920_set_wireless: the seventeen setters in source order, each
      given its own argument. */
  function SetWireless(
    o: Oracle,
    node: int32, bw: int32, sf: int32, ch: int32, panid: int32, ownid: int32,
    dstid: int32, acksw: int32, ackRetryNum: int32, trmode: int32, rcvsw: int32,
    rssisw: int32, opmode: int32, brate: int32, slepsw: int32, slepNum: int32,
    outpw: int32): (r: Outcome)
    ensures FailFast(o, Schedule(Es920Param(node, bw, sf, ch, panid, ownid, dstid,
                       acksw, ackRetryNum, trmode, rcvsw, rssisw, opmode, brate,
                       slepsw, slepNum, outpw)), r)
  {
    var calls := [
      Set(Node, node),
      Set(Bw, bw),
      Set(Sf, sf),
      Set(Ch, ch),
      Set(Panid, panid),
      Set(Ownid, ownid),
      Set(Dstid, dstid),
      Set(Acksw, acksw),
      Set(AckRetryNum, ackRetryNum),
      Set(Trmode, trmode),
      Set(Rcvsw, rcvsw),
      Set(Rssisw, rssisw),
      Set(Opmode, opmode),
      Set(Brate, brate),
      Set(Slepsw, slepsw),
      Set(Slept, slepNum),
      Set(Outpw, outpw)];
    assert calls == Schedule(Es920Param(node, bw, sf, ch, panid, ownid, dstid,
                      acksw, ackRetryNum, trmode, rcvsw, rssisw, opmode, brate,
                      slepsw, slepNum, outpw));
    Run(o, calls)
  }

  /** The fail-fast chain of `plan` followed, only when every call of it
      succeeded, by one flash save whose own status is never looked at. */
  function RunThenSave(o: Oracle, plan: seq<Call>): (r: Outcome)
    requires SaveParam !in plan
    ensures r.status == 0 || r.status == -1
    ensures r.status == 0 <==> AllSucceed(o, plan)
    ensures r.status == 0 ==> r.trace == plan + [SaveParam]
    ensures r.status == -1 ==> FailFast(o, plan, r)
    ensures multiset(r.trace)[SaveParam] == if r.status == 0 then 1 else 0
  {
    var applied := Run(o, plan);
    if applied.status != 0 then
      assert SaveParam !in applied.trace;
      applied
    else
      Outcome(applied.trace + [SaveParam], 0)
  }

  /** Every mode call in a prefix of `Schedule(p)`, possibly followed by a
      save, passes the structure's mode field. */
  lemma ModeArgument(p: Es920Param, trace: seq<Call>)
    requires
      || (|trace| <= |Schedule(p)| && trace == Schedule(p)[..|trace|])
      || trace == Schedule(p) + [SaveParam]
    ensures forall i :: 0 <= i < |trace| && trace[i].Set? && trace[i].setter == Opmode ==>
              trace[i].arg == p.mode
  {
  }

  /** easel_ES920_set_only: the same chain with the mode setter always given
      the configuration mode, then a flash save on full success. */
  function SetOnly(
    h: Header, o: Oracle,
    node: int32, bw: int32, sf: int32, ch: int32, panid: int32, ownid: int32,
    dstid: int32, acksw: int32, ackRetryNum: int32, trmode: int32, rcvsw: int32,
    rssisw: int32, brate: int32, slepsw: int32, slepNum: int32,
    outpw: int32): (r: Outcome)
    ensures r.status == 0 || r.status == -1
    ensures
      var plan := Schedule(Es920Param(node, bw, sf, ch, panid, ownid, dstid,
                    acksw, ackRetryNum, trmode, rcvsw, rssisw, h.modeConfigration,
                    brate, slepsw, slepNum, outpw));
      && (r.status == 0 <==> AllSucceed(o, plan))
      && (r.status == 0 ==> r.trace == plan + [SaveParam])
      && (r.status == -1 ==> FailFast(o, plan, r))
    ensures forall i :: 0 <= i < |r.trace| && r.trace[i].Set? && r.trace[i].setter == Opmode ==>
              r.trace[i].arg == h.modeConfigration
    ensures multiset(r.trace)[SaveParam] == if r.status == 0 then 1 else 0
  {
    var calls := [
      Set(Node, node),
      Set(Bw, bw),
      Set(Sf, sf),
      Set(Ch, ch),
      Set(Panid, panid),
      Set(Ownid, ownid),
      Set(Dstid, dstid),
      Set(Acksw, acksw),
      Set(AckRetryNum, ackRetryNum),
      Set(Trmode, trmode),
      Set(Rcvsw, rcvsw),
      Set(Rssisw, rssisw),
      Set(Opmode, h.modeConfigration),
      Set(Brate, brate),
      Set(Slepsw, slepsw),
      Set(Slept, slepNum),
      Set(Outpw, outpw)];
    var p := Es920Param(node, bw, sf, ch, panid, ownid, dstid, acksw, ackRetryNum,
               trmode, rcvsw, rssisw, h.modeConfigration, brate, slepsw, slepNum, outpw);
    assert calls == Schedule(p);
    var r := RunThenSave(o, calls);
    ModeArgument(p, r.trace);
    r
  }

  /** The built-in profile of easel_ES920_set_wireless_default, field by field. */
  function DefaultParam(h: Header): Es920Param
  {
    Es920Param(
      node := h.nodeEndDevice,
      bw := h.bandwidth125K,
      sf := h.sf7,
      ch := 1,
      panid := 1,
      ownid := 0,
      dstid := 1,
      ack := h.ackOn,
      retry := 3,
      transmod := h.trasmodPayload,
      rcvid := h.rcvidOn,
      rssi := h.rssiOn,
      mode := h.modeOperation,
      baudrate := h.baud115200,
      sleep := h.sleepOff,
      sleeptime := 50,
      power := 13)
  }

  /** easel_ES920_set_wireless_default: set_wireless on the built-in profile. */
  function SetWirelessDefault(h: Header, o: Oracle): (r: Outcome)
    ensures FailFast(o, Schedule(DefaultParam(h)), r)
  {
    SetWireless(o,
      h.nodeEndDevice,
      h.bandwidth125K,
      h.sf7,
      1,
      1,
      0,
      1,
      h.ackOn,
      3,
      h.trasmodPayload,
      h.rcvidOn,
      h.rssiOn,
      h.modeOperation,
      h.baud115200,
      h.sleepOff,
      50,
      13)
  }

  /** easel_ES920_set_wireless_by_structure: set_wireless on the structure's
      fields, passed positionally. */
  function SetWirelessByStructure(o: Oracle, p: Es920Param): (r: Outcome)
    ensures FailFast(o, Schedule(p), r)
  {
    SetWireless(o,
      p.node,
      p.bw,
      p.sf,
      p.ch,
      p.panid,
      p.ownid,
      p.dstid,
      p.ack,
      p.retry,
      p.transmod,
      p.rcvid,
      p.rssi,
      p.mode,
      p.baudrate,
      p.sleep,
      p.sleeptime,
      p.power)
  }

  /** easel_ES920_set_load: one load-default call; its status is dropped and
      nothing is returned. */
  function SetLoad(o: Oracle): (r: seq<Call>)
    ensures |r| == 1 && r[0] == LoadDefault
  {
    [LoadDefault]
  }

  /** easel_ES920_set_operation: one operation-mode call; its status is
      dropped and nothing is returned. */
  function SetOperation(o: Oracle): (r: seq<Call>)
    ensures |r| == 1 && r[0] == SetModeOperation
  {
    [SetModeOperation]
  }
}
