/**
 Properties relating the wrapper's entry points to each other and to the
 reference call sequence: the fail-fast outcome is unique, a failure at step k
 stops the chain after exactly k + 1 calls, the default entry point and the
 structure adapter are set_wireless on the matching arguments, and set_only is
 set_wireless in configuration mode followed by a save gated on success.
 */
module Es920WrapLemmas {
  import opened Es920
  import opened Es920Wrap

  /** A fail-fast outcome is fully determined by the oracle and the plan. */
  lemma FailFastUnique(o: Oracle, plan: seq<Call>, r1: Outcome, r2: Outcome)
    requires FailFast(o, plan, r1) && FailFast(o, plan, r2)
    ensures r1 == r2
  {
  }

  /** If call k is the first of the plan to fail, a fail-fast application
      made exactly the calls 0..k and returned -1, whatever non-zero status
      call k reported. */
  lemma FailFastStopsAt(o: Oracle, plan: seq<Call>, k: nat, r: Outcome)
    requires FailFast(o, plan, r)
    requires k < |plan|
    requires AllSucceed(o, plan[..k])
    requires !Succeeds(o, plan[k])
    ensures r == Outcome(plan[..k + 1], -1)
  {
  }

  /** set_wireless issues the setters in the documented order, each with the
      structure field it consumes, and nothing else. */
  lemma SetWirelessCallOrder(o: Oracle, p: Es920Param)
    ensures var r := SetWireless(o, p.node, p.bw, p.sf, p.ch, p.panid, p.ownid,
                        p.dstid, p.ack, p.retry, p.transmod, p.rcvid, p.rssi, p.mode,
                        p.baudrate, p.sleep, p.sleeptime, p.power);
      && |r.trace| <= |WirelessOrder|
      && forall i :: 0 <= i < |r.trace| ==>
           r.trace[i] == Set(WirelessOrder[i], Field(p, WirelessOrder[i]))
  {
  }

  /** Fail-fast for set_wireless: when setter k (0-based, in documented order)
      is the first to fail, exactly k + 1 setters were called and the result
      is -1. */
  lemma SetWirelessStopsAtFirstFailure(o: Oracle, p: Es920Param, k: nat)
    requires k < |WirelessOrder|
    requires forall j :: 0 <= j < k ==>
               Succeeds(o, Set(WirelessOrder[j], Field(p, WirelessOrder[j])))
    requires !Succeeds(o, Set(WirelessOrder[k], Field(p, WirelessOrder[k])))
    ensures var r := SetWireless(o, p.node, p.bw, p.sf, p.ch, p.panid, p.ownid,
                        p.dstid, p.ack, p.retry, p.transmod, p.rcvid, p.rssi, p.mode,
                        p.baudrate, p.sleep, p.sleeptime, p.power);
      && r.status == -1
      && |r.trace| == k + 1
      && r.trace == Schedule(p)[..k + 1]
  {
    var r := SetWireless(o, p.node, p.bw, p.sf, p.ch, p.panid, p.ownid,
               p.dstid, p.ack, p.retry, p.transmod, p.rcvid, p.rssi, p.mode,
               p.baudrate, p.sleep, p.sleeptime, p.power);
    assert p == Es920Param(p.node, p.bw, p.sf, p.ch, p.panid, p.ownid,
                  p.dstid, p.ack, p.retry, p.transmod, p.rcvid, p.rssi, p.mode,
                  p.baudrate, p.sleep, p.sleeptime, p.power);
    var plan := Schedule(p);
    assert AllSucceed(o, plan[..k]) by {
      forall j | 0 <= j < k
        ensures Succeeds(o, plan[..k][j])
      {
        assert plan[..k][j] == Set(WirelessOrder[j], Field(p, WirelessOrder[j]));
      }
    }
    FailFastStopsAt(o, plan, k, r);
  }

  /** set_wireless returns 0 if and only if every one of the seventeen
      setters, given its own argument, reports success. */
  lemma SetWirelessSucceedsIff(o: Oracle, p: Es920Param)
    ensures var r := SetWireless(o, p.node, p.bw, p.sf, p.ch, p.panid, p.ownid,
                        p.dstid, p.ack, p.retry, p.transmod, p.rcvid, p.rssi, p.mode,
                        p.baudrate, p.sleep, p.sleeptime, p.power);
      && (r.status == 0 || r.status == -1)
      && (r.status == 0 <==>
            forall s :: s in WirelessOrder ==> Succeeds(o, Set(s, Field(p, s))))
  {
    assert p == Es920Param(p.node, p.bw, p.sf, p.ch, p.panid, p.ownid,
                  p.dstid, p.ack, p.retry, p.transmod, p.rcvid, p.rssi, p.mode,
                  p.baudrate, p.sleep, p.sleeptime, p.power);
    var plan := Schedule(p);
    if AllSucceed(o, plan) {
      forall s | s in WirelessOrder
        ensures Succeeds(o, Set(s, Field(p, s)))
      {
        var i :| 0 <= i < |WirelessOrder| && WirelessOrder[i] == s;
        assert plan[i] == Set(s, Field(p, s));
      }
    }
    if forall s :: s in WirelessOrder ==> Succeeds(o, Set(s, Field(p, s))) {
      forall i | 0 <= i < |plan|
        ensures Succeeds(o, plan[i])
      {
        assert WirelessOrder[i] in WirelessOrder;
      }
    }
  }

  /** Every setter of the driver takes part in the documented order, and no
      setter appears twice in it. */
  lemma WirelessOrderIsComplete(s: Setter)
    ensures s in WirelessOrder
    ensures forall i, j :: 0 <= i < j < |WirelessOrder| ==> WirelessOrder[i] != WirelessOrder[j]
  {
  }

  /** set_wireless_default is set_wireless on exactly the built-in literal
      profile, in the documented order. */
  lemma DefaultProfileCalls(h: Header, o: Oracle)
    ensures var r := SetWirelessDefault(h, o);
      var expected := [
        Set(Node, h.nodeEndDevice),
        Set(Bw, h.bandwidth125K),
        Set(Sf, h.sf7),
        Set(Ch, 1),
        Set(Panid, 1),
        Set(Ownid, 0),
        Set(Dstid, 1),
        Set(Acksw, h.ackOn),
        Set(AckRetryNum, 3),
        Set(Trmode, h.trasmodPayload),
        Set(Rcvsw, h.rcvidOn),
        Set(Rssisw, h.rssiOn),
        Set(Opmode, h.modeOperation),
        Set(Brate, h.baud115200),
        Set(Slepsw, h.sleepOff),
        Set(Slept, 50),
        Set(Outpw, 13)];
      && |r.trace| <= |expected|
      && r.trace == expected[..|r.trace|]
      && (r.status == 0 <==> AllSucceed(o, expected))
      && (r.status == 0 ==> r.trace == expected)
  {
  }

  /** set_wireless_default and the structure adapter applied to the default
      profile give the same calls and the same result. */
  lemma DefaultIsAdapterOnDefaultParam(h: Header, o: Oracle)
    ensures SetWirelessDefault(h, o) == SetWirelessByStructure(o, DefaultParam(h))
  {
  }

  /** The structure adapter gives the same calls and result as set_wireless
      with the structure's fields unpacked positionally. */
  lemma AdapterIsPositional(o: Oracle, p: Es920Param)
    ensures SetWirelessByStructure(o, p) ==
      SetWireless(o, p.node, p.bw, p.sf, p.ch, p.panid, p.ownid, p.dstid, p.ack,
        p.retry, p.transmod, p.rcvid, p.rssi, p.mode, p.baudrate, p.sleep,
        p.sleeptime, p.power)
    ensures SetWirelessByStructure(o, p) == Run(o, Schedule(p))
  {
    FailFastUnique(o, Schedule(p), SetWirelessByStructure(o, p), Run(o, Schedule(p)));
  }

  /** set_only is set_wireless with the mode forced to configuration, followed
      by one save exactly when it returned 0. */
  lemma SetOnlyIsConfiguredSetWireless(h: Header, o: Oracle, p: Es920Param)
    ensures
      var w := SetWirelessByStructure(o, p.(mode := h.modeConfigration));
      SetOnly(h, o, p.node, p.bw, p.sf, p.ch, p.panid, p.ownid, p.dstid, p.ack,
        p.retry, p.transmod, p.rcvid, p.rssi, p.baudrate, p.sleep, p.sleeptime,
        p.power)
      == if w.status == 0 then Outcome(w.trace + [SaveParam], 0) else w
  {
  }

  /** The outcome of a fail-fast run depends only on the statuses of the
      plan's own calls. */
  lemma FailFastTransfers(o1: Oracle, o2: Oracle, plan: seq<Call>, r: Outcome)
    requires forall i :: 0 <= i < |plan| ==> o1(plan[i]) == o2(plan[i])
    requires FailFast(o1, plan, r)
    ensures FailFast(o2, plan, r)
  {
  }

  /** set_only's calls and result depend only on the setters' statuses: the
      save's status (and that of any other primitive) never matters. */
  lemma SetOnlyIgnoresSaveStatus(h: Header, o1: Oracle, o2: Oracle, p: Es920Param)
    requires forall s, a :: o1(Set(s, a)) == o2(Set(s, a))
    ensures
      SetOnly(h, o1, p.node, p.bw, p.sf, p.ch, p.panid, p.ownid, p.dstid, p.ack,
        p.retry, p.transmod, p.rcvid, p.rssi, p.baudrate, p.sleep, p.sleeptime,
        p.power)
      == SetOnly(h, o2, p.node, p.bw, p.sf, p.ch, p.panid, p.ownid, p.dstid, p.ack,
        p.retry, p.transmod, p.rcvid, p.rssi, p.baudrate, p.sleep, p.sleeptime,
        p.power)
  {
    var q := p.(mode := h.modeConfigration);
    SetOnlyIsConfiguredSetWireless(h, o1, p);
    SetOnlyIsConfiguredSetWireless(h, o2, p);
    var w1, w2 := SetWirelessByStructure(o1, q), SetWirelessByStructure(o2, q);
    var plan := Schedule(q);
    forall i | 0 <= i < |plan|
      ensures o1(plan[i]) == o2(plan[i])
    {
      assert plan[i] == Set(WirelessOrder[i], Field(q, WirelessOrder[i]));
    }
    FailFastTransfers(o1, o2, plan, w1);
    FailFastUnique(o2, plan, w1, w2);
  }

  /** set_load and set_operation make their single call whatever the device
      answers, and report nothing back. */
  lemma UnitActionsIgnoreStatus(o1: Oracle, o2: Oracle)
    ensures SetLoad(o1) == SetLoad(o2) == [LoadDefault]
    ensures SetOperation(o1) == SetOperation(o2) == [SetModeOperation]
  {
  }
}
