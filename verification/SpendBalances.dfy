/** The adapter's token balances against the spend of its lanes. */
module SpendBalances {
  import opened Basics
  import opened Words
  import opened SessionTypes
  import opened ExecutionDecoder
  import opened SpendMachine
  import opened SpendInvariants
  import opened SpendTheorems

  /** The lanes that pay `token` to someone other than the adapter itself. */
  function PayingLanes(env: Env, sessions: map<nat, SessionConfig>, token: Address): set<nat> {
    set k | k in sessions && sessions[k].token == token && sessions[k].allowedRecipient != env.adapter
  }

  /** Per lane, the hook's recorded spend. */
  function LaneSpends(env: Env, w: World): map<nat, nat> {
    map k | k in w.sessions :: Spend(env, w.hook, w.sessions[k].sessionId)
  }

  /** Per lane, what its calls moved. */
  function LaneMoves(sessions: map<nat, SessionConfig>, calls: seq<ExternalCall>): map<nat, nat> {
    map k | k in sessions :: Moved(calls, sessions[k].sessionId)
  }

  /** What left the adapter in a token is what the calls of its paying lanes moved. */
  lemma {:induction false} OutflowIsLaneMoves(env: Env, sessions: map<nat, SessionConfig>, calls: seq<ExternalCall>, token: Address)
    requires LanesOk(env, sessions) && CallsOk(sessions, calls)
    ensures Outflow(env, calls, token) == SumOver(LaneMoves(sessions, calls), PayingLanes(env, sessions, token))
  {
    var ks := PayingLanes(env, sessions, token);
    if calls == [] {
      SumOverZero(LaneMoves(sessions, calls), ks);
    } else {
      var fewer, c := calls[..|calls| - 1], calls[|calls| - 1];
      OutflowIsLaneMoves(env, sessions, fewer, token);
      assert LegitCall(sessions, c);
      forall k | k in ks
        ensures At(LaneMoves(sessions, calls), k) == At(LaneMoves(sessions, fewer), k) + if k == c.nonceKey then TransferAmount(c.execution) else 0
      {
        if sessions[k].sessionId == c.sessionId {
          LaneOfId(env, k, sessions[k], c.nonceKey, sessions[c.nonceKey]);
        }
      }
      SumOverBump(LaneMoves(sessions, fewer), LaneMoves(sessions, calls), ks, c.nonceKey, TransferAmount(c.execution));
    }
  }

  /** On every run, a token balance plus the spend of the lanes that pay it out is what the adapter had and received:
      the balance falls by exactly that spend, whatever re-enters. */
  lemma BalanceFallsBySpend(env: Env, balances: map<Address, nat>, txs: seq<Tx>, token: Address)
    ensures var w := RunTxs(env, Genesis(balances), txs);
            At(w.balances, token) + SumOver(LaneSpends(env, w), PayingLanes(env, w.sessions, token)) == At(balances, token) + At(w.inflow, token)
  {
    hide Inv, RunTxs;
    var w := RunTxs(env, Genesis(balances), txs);
    Reachable(env, balances, txs, Num(0));
    forall k | k in w.sessions ensures Spend(env, w.hook, w.sessions[k].sessionId) == Moved(w.calls, w.sessions[k].sessionId) {
      SpendIsCappedAndExact(env, balances, txs, k);
    }
    assert LaneSpends(env, w) == LaneMoves(w.sessions, w.calls);
    OutflowIsLaneMoves(env, w.sessions, w.calls, token);
    assert At(w.balances, token) + Outflow(env, w.calls, token) + 0 == At(balances, token) + Outflow(env, [], token) + At(w.inflow, token);
  }

  /** Tokens sent to the adapter raise its balance of that token by the amount, and change nothing else of chain or contracts,
      as long as the balance fits a word. */
  lemma DepositIff(env: Env, now: nat, w: World, token: Address, amount: nat)
    ensures var r := Do(env, now, w, Deposit(token, amount));
            && (r.Ok? <==> At(w.balances, token) + amount < UINT256_LIMIT)
            && (r.Ok? ==>
                  && At(r.value.balances, token) == At(w.balances, token) + amount
                  && (forall t | t != token :: At(r.value.balances, t) == At(w.balances, t))
                  && r.value == w.(balances := r.value.balances, inflow := r.value.inflow))
  {
  }
}
