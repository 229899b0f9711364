/** Totals over balances and head counts over wagers: how each reacts to one update. */
module LedgerSums {
  import opened Basics
  import opened ProgramState
  import opened EscrowSpec

  // ----- Money -----

  ghost function Sum(b: Balances, s: set<Account>): nat
    decreases |s|
  {
    if s == {} then 0
    else
      var a :| a in s;
      BalanceOf(b, a) + Sum(b, s - {a})
  }

  lemma {:induction false} SumPicks(b: Balances, s: set<Account>, a: Account)
    requires a in s
    ensures Sum(b, s) == BalanceOf(b, a) + Sum(b, s - {a})
    decreases |s|
  {
    var c :| c in s && Sum(b, s) == BalanceOf(b, c) + Sum(b, s - {c});
    if c != a {
      SumPicks(b, s - {c}, a);
      SumPicks(b, s - {a}, c);
      assert s - {c} - {a} == s - {a} - {c};
    }
  }

  lemma {:induction false} SumAgrees(b: Balances, b': Balances, s: set<Account>)
    requires forall a :: a in s ==> BalanceOf(b, a) == BalanceOf(b', a)
    ensures Sum(b, s) == Sum(b', s)
    decreases |s|
  {
    if s != {} {
      var a :| a in s;
      SumPicks(b, s, a);
      SumPicks(b', s, a);
      SumAgrees(b, b', s - {a});
    }
  }

  ghost function Holders(c: Config, b: Balances, mint: Pubkey): set<Account> {
    set a | a in b.Keys && Denomination(c, a) == mint
  }

  /** All the money of one mint, wherever it is held. */
  ghost function Total(c: Config, b: Balances, mint: Pubkey): nat {
    Sum(b, Holders(c, b, mint))
  }

  /** Listing an account that holds nothing does not change a sum. */
  lemma SumPads(b: Balances, s: set<Account>, a: Account)
    requires a !in b
    ensures Sum(b, s) == Sum(b, s + {a})
  {
    if a !in s {
      SumPicks(b, s + {a}, a);
      assert s + {a} - {a} == s;
    } else {
      assert s + {a} == s;
    }
  }

  lemma TotalPads(c: Config, b: Balances, mint: Pubkey, a: Account)
    requires Denomination(c, a) == mint
    ensures Sum(b, Holders(c, b, mint) + {a}) == Total(c, b, mint)
  {
    if a in b {
      assert Holders(c, b, mint) + {a} == Holders(c, b, mint);
    } else {
      SumPads(b, Holders(c, b, mint), a);
    }
  }

  lemma PairWithinTotal(c: Config, b: Balances, x: Account, y: Account)
    requires x != y && Denomination(c, x) == Denomination(c, y)
    ensures BalanceOf(b, x) + BalanceOf(b, y) <= Total(c, b, Denomination(c, x))
  {
    var mint := Denomination(c, x);
    var s := Holders(c, b, mint) + {x} + {y};
    SumPicks(b, s, x);
    SumPicks(b, s - {x}, y);
    TotalPads(c, b, mint, x);
    if y in b {
      assert s == Holders(c, b, mint) + {x};
    } else {
      SumPads(b, Holders(c, b, mint) + {x}, y);
    }
  }

  lemma MoveKeepsTotal(c: Config, b: Balances, from: Account, to: Account, amount: u64, mint: Pubkey)
    requires from != to && Denomination(c, from) == Denomination(c, to)
    requires Move(b, from, to, amount).Ok?
    ensures Total(c, Move(b, from, to, amount).value, mint) == Total(c, b, mint)
  {
    var b' := Move(b, from, to, amount).value;
    if Denomination(c, from) == mint {
      var s := Holders(c, b, mint) + {from} + {to};
      assert Holders(c, b', mint) == s;
      SumPicks(b, s, from);
      SumPicks(b, s - {from}, to);
      SumPicks(b', s, from);
      SumPicks(b', s - {from}, to);
      SumAgrees(b, b', s - {from} - {to});
      TotalPads(c, b, mint, from);
      if to in b {
        assert s == Holders(c, b, mint) + {from};
      } else {
        SumPads(b, Holders(c, b, mint) + {from}, to);
      }
    } else {
      assert Holders(c, b', mint) == Holders(c, b, mint);
      SumAgrees(b, b', Holders(c, b, mint));
    }
  }

  // ----- Active wagers -----

  function LiveWagers(wagers: Wagers, user: Pubkey): set<u64> {
    set id | id in wagers && IsLive(wagers[id], user)
  }

  function One(b: bool): nat {
    if b then 1 else 0
  }

  lemma LiveAfterUpdate(wagers: Wagers, id: u64, w: Wager, user: Pubkey)
    ensures |LiveWagers(wagers[id := w], user)|
         == |LiveWagers(wagers, user)| - One(id in wagers && IsLive(wagers[id], user)) + One(IsLive(w, user))
  {
    var before, after := LiveWagers(wagers, user), LiveWagers(wagers[id := w], user);
    assert after - {id} == before - {id};
    assert |before| == |before - {id}| + One(id in before);
    assert |after| == |after - {id}| + One(id in after);
  }
}
