/** Deterministic session identity, as hashed words. */
module SessionId {
  import opened Basics
  import opened Words
  import opened SessionTypes

  /** bytes4 is left-aligned in its word. */
  function SelectorWord(selector: Bytes4): Word {
    Num(FromBytes(selector + Zeros(28)))
  }

  function Zeros(n: nat): (z: Bytes)
    ensures |z| == n
  {
    seq(n, _ => 0)
  }

  function FlagWord(flag: bool): Word {
    Num(if flag then 1 else 0)
  }

  function PhysicalHash(c: SessionConfig): Word {
    Keccak([Num(c.sessionKey), Num(c.token), Num(c.allowedTarget), Num(c.allowedRecipient),
            SelectorWord(c.allowedSelector), Num(c.maxPerTransfer), Num(c.maxTotalSpend),
            Num(c.validAfter), Num(c.validUntil), FlagWord(c.allowBatch)])
  }

  function DeriveSessionId(chainId: nat, adapter: Address, account: Address, nonceKey: nat, physicalHash: Word): Word {
    Keccak([Num(chainId), Num(adapter), Num(account), Num(nonceKey), physicalHash])
  }

  function DeriveFromConfig(chainId: nat, adapter: Address, c: SessionConfig): Word {
    DeriveSessionId(chainId, adapter, c.account, c.nonceKey, PhysicalHash(c))
  }

  /** The part of a configuration that its session id fixes: all of it except the id, the policy hash and `revoked`. */
  predicate SamePhysical(a: SessionConfig, b: SessionConfig) {
    a == b.(sessionId := a.sessionId, policyHash := a.policyHash, revoked := a.revoked)
  }

  /** Two configurations share a session id exactly when chain, adapter and every physical field agree. */
  lemma SessionIdInjective(chain1: nat, adapter1: Address, a: SessionConfig, chain2: nat, adapter2: Address, b: SessionConfig)
    ensures DeriveFromConfig(chain1, adapter1, a) == DeriveFromConfig(chain2, adapter2, b)
       <==> chain1 == chain2 && adapter1 == adapter2 && SamePhysical(a, b)
  {
    if DeriveFromConfig(chain1, adapter1, a) == DeriveFromConfig(chain2, adapter2, b) {
      var p, q := DeriveFromConfig(chain1, adapter1, a).preimage, DeriveFromConfig(chain2, adapter2, b).preimage;
      assert p[0] == q[0] && p[1] == q[1] && p[2] == q[2] && p[3] == q[3] && p[4] == q[4];
      var f, g := PhysicalHash(a).preimage, PhysicalHash(b).preimage;
      assert forall i | 0 <= i < 10 :: f[i] == g[i];
      assert f[0] == g[0] && f[1] == g[1] && f[2] == g[2] && f[3] == g[3];
      assert f[5] == g[5] && f[6] == g[6] && f[7] == g[7] && f[8] == g[8] && f[9] == g[9];
      assert f[4] == g[4];
      SelectorWordInjective(a.allowedSelector, b.allowedSelector);
    }
  }

  lemma SelectorWordInjective(s: Bytes4, t: Bytes4)
    requires SelectorWord(s) == SelectorWord(t)
    ensures s == t
  {
    ToFromBytes(s + Zeros(28));
    ToFromBytes(t + Zeros(28));
    assert s == (s + Zeros(28))[..4];
    assert t == (t + Zeros(28))[..4];
  }
}
