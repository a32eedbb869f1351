/** The USDC balances the payouts move (apps/web/lib/chain/fake.ts, `payout.transferBatch` and
    `escrow.release`): the issuer's balance, and every other wallet's, the escrow's among them. */
module Ledger {
  import opened Wrappers
  import opened Sums

  const ESCROW: string := "FakeEscrow111111111111111111111111111111111"

  datatype Payment = Payment(wallet: string, amount: nat)

  datatype Chain = Chain(issuerUsdc: nat, usdc: map<string, nat>)

  function Amount(p: Payment): int { p.amount }

  function Balance(usdc: map<string, nat>, wallet: string): nat {
    if wallet in usdc then usdc[wallet] else 0
  }

  function Credit(usdc: map<string, nat>, p: Payment): map<string, nat> {
    usdc[p.wallet := Balance(usdc, p.wallet) + p.amount]
  }

  function CreditAll(usdc: map<string, nat>, rows: seq<Payment>): map<string, nat> {
    if rows == [] then usdc else Credit(CreditAll(usdc, rows[..|rows| - 1]), rows[|rows| - 1])
  }

  /** `payout.transferBatch`; None when the issuer cannot cover it, and then nothing moved. */
  function TransferBatch(c: Chain, rows: seq<Payment>): Option<Chain> {
    var total := Sum(rows, Amount);
    if c.issuerUsdc < total || total < 0 then None
    else Some(Chain(c.issuerUsdc - total, CreditAll(c.usdc, rows)))
  }

  /** `escrow.release`. */
  function Release(c: Chain, rows: seq<Payment>): Option<Chain> {
    var total := Sum(rows, Amount);
    var bal := Balance(c.usdc, ESCROW);
    if bal < total || total < 0 then None
    else Some(c.(usdc := CreditAll(c.usdc[ESCROW := bal - total], rows)))
  }

  // ------------------------------------------------------------------ conservation

  ghost function AnyKey(m: map<string, nat>): (k: string)
    requires m.Keys != {}
    ensures k in m
  {
    var k :| k in m.Keys; k
  }

  ghost function MapSum(m: map<string, nat>): nat
    decreases m.Keys
  {
    if m.Keys == {} then 0 else m[AnyKey(m)] + MapSum(m - {AnyKey(m)})
  }

  lemma {:induction false} MapSumTakes(m: map<string, nat>, k: string)
    requires k in m
    ensures MapSum(m) == m[k] + MapSum(m - {k})
    decreases m.Keys
  {
    var j := AnyKey(m);
    if j != k {
      MapSumTakes(m - {j}, k);
      MapSumTakes(m - {k}, j);
      assert m - {j} - {k} == m - {k} - {j};
    }
  }

  lemma MapSumSet(m: map<string, nat>, k: string, v: nat)
    ensures MapSum(m[k := v]) == MapSum(m) - Balance(m, k) + v
  {
    MapSumTakes(m[k := v], k);
    assert m[k := v] - {k} == m - {k};
    if k in m {
      MapSumTakes(m, k);
    } else {
      assert m - {k} == m;
    }
  }

  ghost function Total(c: Chain): nat {
    c.issuerUsdc + MapSum(c.usdc)
  }

  lemma {:induction false} CreditAllAdds(usdc: map<string, nat>, rows: seq<Payment>)
    ensures MapSum(CreditAll(usdc, rows)) == MapSum(usdc) + Sum(rows, Amount)
    ensures Sum(rows, Amount) >= 0
  {
    if rows != [] {
      var k := |rows| - 1;
      CreditAllAdds(usdc, rows[..k]);
      var before := CreditAll(usdc, rows[..k]);
      MapSumSet(before, rows[k].wallet, Balance(before, rows[k].wallet) + rows[k].amount);
    }
  }

  function ReceivedBy(wallet: string): Payment -> int {
    (p: Payment) => if p.wallet == wallet then p.amount else 0
  }

  /** A wallet's balance grows by exactly what the rows pay it. */
  lemma {:induction false} CreditAllPays(usdc: map<string, nat>, rows: seq<Payment>, wallet: string)
    ensures Balance(CreditAll(usdc, rows), wallet) == Balance(usdc, wallet) + Sum(rows, ReceivedBy(wallet))
    ensures Sum(rows, ReceivedBy(wallet)) >= 0
  {
    if rows != [] { CreditAllPays(usdc, rows[..|rows| - 1], wallet); }
  }

  /** A transfer from the issuer creates and destroys nothing and pays every wallet its rows. */
  lemma TransferConserves(c: Chain, rows: seq<Payment>, wallet: string)
    requires TransferBatch(c, rows).Some?
    ensures var t := TransferBatch(c, rows).value;
      && Total(t) == Total(c) && t.issuerUsdc == c.issuerUsdc - Sum(rows, Amount)
      && Balance(t.usdc, wallet) == Balance(c.usdc, wallet) + Sum(rows, ReceivedBy(wallet))
      && Balance(t.usdc, wallet) >= Balance(c.usdc, wallet)
  {
    CreditAllAdds(c.usdc, rows);
    CreditAllPays(c.usdc, rows, wallet);
  }

  /** So does a release, which draws on the escrow instead. */
  lemma ReleaseConserves(c: Chain, rows: seq<Payment>, wallet: string)
    requires Release(c, rows).Some?
    ensures var r := Release(c, rows).value;
      && Total(r) == Total(c) && r.issuerUsdc == c.issuerUsdc
      && Balance(r.usdc, wallet) == Balance(c.usdc, wallet) + Sum(rows, ReceivedBy(wallet))
           - (if wallet == ESCROW then Sum(rows, Amount) else 0)
      && Sum(rows, ReceivedBy(wallet)) >= 0
  {
    var drawn := c.usdc[ESCROW := Balance(c.usdc, ESCROW) - Sum(rows, Amount)];
    MapSumSet(c.usdc, ESCROW, Balance(c.usdc, ESCROW) - Sum(rows, Amount));
    CreditAllAdds(drawn, rows);
    CreditAllPays(drawn, rows, wallet);
  }
}
