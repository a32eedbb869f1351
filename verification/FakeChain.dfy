/** The ledger in its own form: balances assigned in place, row by row. */
module FakeChainPorts {
  import opened Wrappers
  import opened Sums
  import opened Ledger

  class FakeChain {
    var issuerUsdc: nat
    var usdc: map<string, nat>

    function State(): Chain
      reads this
    {
      Chain(issuerUsdc, usdc)
    }

    constructor (issuerUsdc: nat, usdc: map<string, nat>)
      ensures State() == Chain(issuerUsdc, usdc)
    {
      this.issuerUsdc, this.usdc := issuerUsdc, usdc;
    }

    method CreditRows(rows: seq<Payment>)
      modifies this`usdc
      ensures usdc == CreditAll(old(usdc), rows)
    {
      for i := 0 to |rows|
        invariant usdc == CreditAll(old(usdc), rows[..i])
      {
        assert rows[..i + 1][..i] == rows[..i];
        usdc := usdc[rows[i].wallet := Balance(usdc, rows[i].wallet) + rows[i].amount];
      }
      assert rows[..|rows|] == rows;
    }

    method Total(rows: seq<Payment>) returns (total: nat)
      ensures total == Sum(rows, Amount)
    {
      total := 0;
      for i := 0 to |rows|
        invariant total == Sum(rows[..i], Amount)
      {
        assert rows[..i + 1][..i] == rows[..i];
        total := total + rows[i].amount;
      }
      assert rows[..|rows|] == rows;
    }

    method TransferBatch(rows: seq<Payment>) returns (ok: bool)
      modifies this
      ensures ok == Ledger.TransferBatch(old(State()), rows).Some?
      ensures State() == if ok then Ledger.TransferBatch(old(State()), rows).value else old(State())
    {
      var total := Total(rows);
      if issuerUsdc < total { return false; }
      issuerUsdc := issuerUsdc - total;
      CreditRows(rows);
      ok := true;
    }

    method Release(rows: seq<Payment>) returns (ok: bool)
      modifies this
      ensures ok == Ledger.Release(old(State()), rows).Some?
      ensures State() == if ok then Ledger.Release(old(State()), rows).value else old(State())
    {
      var total := Total(rows);
      var bal := Balance(usdc, ESCROW);
      if bal < total { return false; }
      usdc := usdc[ESCROW := bal - total];
      CreditRows(rows);
      ok := true;
    }
  }
}
