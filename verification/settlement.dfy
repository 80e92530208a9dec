/** The settlement tracker shared by the withdraw and deposit modals: one poll
    of the cross-chain indexer maps its reply onto the modal's status, the
    hash the poll reveals, the polling flag and the success callback.

    Only the first cross-chain record and its first outbound leg are ever
    inspected. An indexer that fails, answers with an HTTP error or has no
    record yet never moves the state. */
module Settlement {
  import opened Common

  /** `outbound_params[i]`: its `hash` and `tx_finalization_status`. */
  datatype Leg = Leg(hash: Option<string>, finalization: Option<string>)

  /** `CrossChainTxs[i]`: `cctx_status.status` (`None` when `cctx_status`
      itself is missing, so that reading `.status` throws) and
      `outbound_params` (`None` when absent). */
  datatype Cctx = Cctx(status: Option<string>, legs: Option<seq<Leg>>)

  /** One indexer reply: a non-ok HTTP response, a `fetch` or JSON decoding
      that threw, or a decoded body whose `CrossChainTxs` may be absent. */
  datatype Reply = HttpError | FetchThrew | Body(txs: Option<seq<Cctx>>)

  /** The tracker's part of a modal's state. `hash` is the field a poll
      writes: the destination-chain hash in the withdraw modal, the hub-chain
      hash in the deposit modal. `successes` counts `onSuccess` calls. */
  datatype Poller = Poller(status: Status, hash: Option<string>, polling: bool, successes: nat)

  /** Which modal's poll step runs. */
  datatype Flow = WithdrawFlow | DepositFlow

  /** The reply carries a first record with at least one outbound leg. */
  predicate HasLeg(r: Reply) {
    r.Body? && r.txs.Some? && |r.txs.value| > 0 &&
    r.txs.value[0].legs.Some? && |r.txs.value[0].legs.value| > 0
  }

  function FirstCctx(r: Reply): Cctx
    requires HasLeg(r)
  {
    r.txs.value[0]
  }

  function FirstLeg(r: Reply): Leg
    requires HasLeg(r)
  {
    FirstCctx(r).legs.value[0]
  }

  /** The indexer reports the first record's outbound leg as mined. */
  predicate Mined(r: Reply) {
    HasLeg(r) && FirstCctx(r).status == Some("OutboundMined")
  }

  /** The poll reaches a `setTxStatus` call: a first record with an outbound
      leg, whose `cctx_status` can be read. */
  predicate SetsStatus(r: Reply) {
    HasLeg(r) && FirstCctx(r).status.Some?
  }

  /** The indexer reports the leg executed but not yet mined. */
  predicate Executed(r: Reply) {
    HasLeg(r) && FirstCctx(r).status.Some? && !Mined(r) &&
    FirstLeg(r).finalization == Some("Executed")
  }

  /** `checkTransactionStatus` (withdraw modal). The stop is the intended
      one: `polling` becomes false. As written, the handler clears the
      `statusCheckInterval` captured when the interval's callback was
      created. On the first withdrawal after the modal opens, or after its
      reset effect, that is still `null`, so the interval is never cleared
      there (see `WithdrawStepAsWritten`). After "Make Another Withdrawal"
      the captured id is the old, truthy one, and the cleanup effect clears
      the live interval. */
  function WithdrawStep(s: Poller, r: Reply): (t: Poller)
    ensures t.status == s.status || t.status in {Confirming, Processing, OutboundMined}
    ensures !HasLeg(r) ==> t == s
    ensures Mined(r) ==>
      t == Poller(OutboundMined, FirstLeg(r).hash, false, s.successes + 1)
    ensures Executed(r) ==> t == s.(status := Processing, hash := FirstLeg(r).hash)
    ensures HasLeg(r) && FirstCctx(r).status.Some? && !Mined(r) && !Executed(r) ==>
      t == s.(status := Confirming)
    ensures HasLeg(r) && FirstCctx(r).status.None? ==> t == s
  {
    if !HasLeg(r) then s
    else
      var leg := FirstLeg(r);
      match FirstCctx(r).status
      case None => s
      case Some(st) =>
        if st == "OutboundMined" then
          Poller(OutboundMined, leg.hash, false, s.successes + 1)
        else if leg.finalization == Some("Executed") then
          s.(status := Processing, hash := leg.hash)
        else
          s.(status := Confirming)
  }

  /** `checkTransactionStatus` exactly as written: on `OutboundMined` the
      interval is not stopped. */
  function WithdrawStepAsWritten(s: Poller, r: Reply): (t: Poller)
    ensures t.polling == s.polling
    ensures t == WithdrawStep(s, r).(polling := s.polling)
  {
    if Mined(r) then Poller(OutboundMined, FirstLeg(r).hash, s.polling, s.successes + 1)
    else WithdrawStep(s, r)
  }

  /** `checkDepositStatus` (deposit modal). A truthy hash on the first leg is
      recorded before the status is read, so it is recorded even when reading
      `cctx_status.status` then throws. The handler's own `clearInterval`
      receives a stale handle, but its `setStatusCheckInterval(null)` makes the
      cleanup effect clear the real interval; `polling` becomes false. */
  function DepositStep(s: Poller, r: Reply): (t: Poller)
    ensures t.status == s.status || t.status in {Confirming, Processing, OutboundMined}
    ensures !HasLeg(r) ==> t == s
    ensures HasLeg(r) ==>
      t.hash == (if Truthy(FirstLeg(r).hash) then FirstLeg(r).hash else s.hash)
    ensures Mined(r) ==>
      t.status == OutboundMined && !t.polling && t.successes == s.successes + 1
    ensures HasLeg(r) && FirstCctx(r).status.Some? && !Mined(r) ==>
      t.status == (if Executed(r) then Processing else Confirming) &&
      t.polling == s.polling && t.successes == s.successes
    ensures HasLeg(r) && FirstCctx(r).status.None? ==>
      t.status == s.status && t.polling == s.polling && t.successes == s.successes
  {
    if !HasLeg(r) then s
    else
      var leg := FirstLeg(r);
      var s1 := if Truthy(leg.hash) then s.(hash := leg.hash) else s;
      match FirstCctx(r).status
      case None => s1
      case Some(st) =>
        if st == "OutboundMined" then
          s1.(status := OutboundMined, polling := false, successes := s.successes + 1)
        else
          s1.(status := if leg.finalization == Some("Executed") then Processing else Confirming)
  }

  /** One poll of either flow. Common to both: a poll never fails the
      transfer, never returns to `Idle`, and only a mined reply stops polling
      or calls `onSuccess`. */
  function Step(f: Flow, s: Poller, r: Reply): (t: Poller)
    ensures t.status == s.status || t.status in {Confirming, Processing, OutboundMined}
    ensures t.status == OutboundMined ==> s.status == OutboundMined || Mined(r)
    ensures Mined(r) ==> t.status == OutboundMined && !t.polling && t.successes == s.successes + 1
    ensures !Mined(r) ==> t.polling == s.polling && t.successes == s.successes
    ensures !HasLeg(r) ==> t == s
  {
    match f
    case WithdrawFlow => WithdrawStep(s, r)
    case DepositFlow => DepositStep(s, r)
  }

  /** The polls an interval makes: each tick polls while polling is on; once
      it is off, the interval is gone and further ticks do nothing. */
  function Run(f: Flow, s: Poller, rs: seq<Reply>): Poller
    decreases |rs|
  {
    if rs == [] then s
    else Run(f, if s.polling then Step(f, s, rs[0]) else s, rs[1..])
  }

  predicate SomeMined(rs: seq<Reply>) {
    exists i :: 0 <= i < |rs| && Mined(rs[i])
  }

  /** Once polling has stopped, no later tick changes anything: the mined
      state is absorbing. */
  lemma {:induction false} StoppedIsAbsorbing(f: Flow, s: Poller, rs: seq<Reply>)
    requires !s.polling
    ensures Run(f, s, rs) == s
    decreases |rs|
  {
    if rs != [] {
      StoppedIsAbsorbing(f, s, rs[1..]);
    }
  }

  /** However many times the indexer is down, answers an HTTP error or has no
      record yet, the tracker's state does not move. */
  lemma {:induction false} IndexerFailuresChangeNothing(f: Flow, s: Poller, rs: seq<Reply>)
    requires forall i :: 0 <= i < |rs| ==> !HasLeg(rs[i])
    ensures Run(f, s, rs) == s
    decreases |rs|
  {
    if rs != [] {
      assert !HasLeg(rs[0]);
      IndexerFailuresChangeNothing(f, s, rs[1..]);
    }
  }

  /** A tracker that never receives a mined reply never reaches
      `OutboundMined`, never calls `onSuccess` and keeps polling. */
  lemma {:induction false} NoSettlementWithoutMined(f: Flow, s: Poller, rs: seq<Reply>)
    requires s.status != OutboundMined
    requires !SomeMined(rs)
    ensures Run(f, s, rs).status != OutboundMined
    ensures Run(f, s, rs).successes == s.successes
    ensures Run(f, s, rs).polling == s.polling
    decreases |rs|
  {
    if rs != [] {
      assert !Mined(rs[0]);
      assert !SomeMined(rs[1..]) by {
        forall i | 0 <= i < |rs[1..]| ensures !Mined(rs[1..][i]) {
          assert rs[1..][i] == rs[i + 1];
        }
      }
      NoSettlementWithoutMined(f, if s.polling then Step(f, s, rs[0]) else s, rs[1..]);
    }
  }

  /** While polling, `onSuccess` is called exactly once if some reply reports
      the leg mined, and never otherwise; polling stops exactly then. */
  lemma {:induction false} SuccessFiresOnce(f: Flow, s: Poller, rs: seq<Reply>)
    requires s.polling
    ensures Run(f, s, rs).successes == s.successes + (if SomeMined(rs) then 1 else 0)
    ensures Run(f, s, rs).polling == !SomeMined(rs)
    ensures SomeMined(rs) ==> Run(f, s, rs).status == OutboundMined
    decreases |rs|
  {
    if rs != [] {
      var t := Step(f, s, rs[0]);
      if Mined(rs[0]) {
        assert SomeMined(rs);
        StoppedIsAbsorbing(f, t, rs[1..]);
      } else {
        assert SomeMined(rs) == SomeMined(rs[1..]) by {
          if SomeMined(rs) {
            var i :| 0 <= i < |rs| && Mined(rs[i]);
            assert i > 0 && rs[1..][i - 1] == rs[i];
          }
          if SomeMined(rs[1..]) {
            var j :| 0 <= j < |rs[1..]| && Mined(rs[1..][j]);
            assert rs[j + 1] == rs[1..][j];
          }
        }
        SuccessFiresOnce(f, t, rs[1..]);
      }
    }
  }

  /** A record with no outbound leg yet (here, a body without
      `CrossChainTxs`), repeated five times, then a mined leg: the tracker
      goes from `Confirming` straight to `OutboundMined` and calls
      `onSuccess` once. */
  lemma NoRecordThenMined(f: Flow, s: Poller, mined: Reply)
    requires s.polling && s.status == Confirming
    requires Mined(mined)
    ensures var rs := [Body(None), Body(None), Body(None), Body(None), Body(None), mined];
      Run(f, s, rs).status == OutboundMined &&
      Run(f, s, rs).successes == s.successes + 1 && !Run(f, s, rs).polling
  {
    var rs := [Body(None), Body(None), Body(None), Body(None), Body(None), mined];
    assert Mined(rs[5]);
    SuccessFiresOnce(f, s, rs);
  }

  /** As written, the withdraw modal keeps polling after the leg is mined, so
      a second tick that still sees the mined record calls `onSuccess` a
      second time; the intended stop calls it once. */
  lemma AsWrittenRepeatsSuccess(s: Poller, mined: Reply)
    requires s.polling
    requires Mined(mined)
    ensures WithdrawStepAsWritten(WithdrawStepAsWritten(s, mined), mined).successes == s.successes + 2
    ensures Run(WithdrawFlow, s, [mined, mined]).successes == s.successes + 1
  {
    var t := WithdrawStep(s, mined);
    assert [mined, mined][1..] == [mined];
    StoppedIsAbsorbing(WithdrawFlow, t, [mined]);
  }
}
