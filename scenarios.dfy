/**
 * Concrete records and a request sequence taken from the repository's tests,
 * checked against the model.
 */
module Scenarios {
  import opened Wrappers
  import opened Decimal
  import opened Models
  import opened Views

  /** The record of the model tests: closing balance 110 and both renderings as they expect. */
  lemma GenLedgAcctExample()
    ensures NewAccount("GenLedgAcct", 1234, 100, 10).closing == 110
    ensures Str(NewAccount("GenLedgAcct", 1234, 100, 10)) == "GenLedgAcct | 1234"
    ensures Repr(NewAccount("GenLedgAcct", 1234, 100, 10)) == "GenLedgAcct | 1234 | 100 | 10 | 110"
  {
    GenLedgAcctNumerals();
    var a := NewAccount("GenLedgAcct", 1234, 100, 10);
    var s := Str(a);
    assert s == "GenLedgAcct" + " | " + "1234";
    StrText(s);
    var r := Repr(a);
    assert r == "GenLedgAcct" + " | " + "1234" + " | " + "100" + " | " + "10" + " | " + "110";
    ReprText(r);
  }

  lemma GenLedgAcctNumerals()
    ensures IntToString(1234) == "1234" && IntToString(100) == "100"
    ensures IntToString(10) == "10" && IntToString(110) == "110"
  {
    assert NatToString(123) == "123" by {
      assert NatToString(1) == "1";
      assert NatToString(12) == "12";
    }
    assert NatToString(10) == "10" by {
      assert NatToString(1) == "1";
    }
    assert NatToString(11) == "11" by {
      assert NatToString(1) == "1";
    }
  }

  lemma StrText(s: string)
    requires s == "GenLedgAcct" + " | " + "1234"
    ensures s == "GenLedgAcct | 1234"
  {
  }

  lemma ReprText(s: string)
    requires s == "GenLedgAcct" + " | " + "1234" + " | " + "100" + " | " + "10" + " | " + "110"
    ensures s == "GenLedgAcct | 1234 | 100 | 10 | 110"
  {
  }

  /** A negative balance renders with its minus sign. */
  lemma NegativeBalanceExample()
    ensures Repr(NewAccount("Cash", 7, 5, -12)) == "Cash | 7 | 5 | -12 | -7"
  {
    assert IntToString(-12) == "-12" by {
      assert NatToString(12) == "12" by {
        assert NatToString(1) == "1";
      }
    }
    var r := Repr(NewAccount("Cash", 7, 5, -12));
    assert r == "Cash" + " | " + "7" + " | " + "5" + " | " + "-12" + " | " + "-7";
    NegativeText(r);
  }

  lemma NegativeText(s: string)
    requires s == "Cash" + " | " + "7" + " | " + "5" + " | " + "-12" + " | " + "-7"
    ensures s == "Cash | 7 | 5 | -12 | -7"
  {
  }

  /**
   * A request sequence through the views: a full-access user creates the
   * tests' record, picks it on the update-select page and raises its activity
   * to 20; a freshly registered user is then refused the bulk delete of it.
   */
  method ExampleSession() returns (created: string, updated: Account, refused: Response, kept: bool)
    ensures created == "GenLedgAcct | 1234 | 100 | 10 | 110"
    ensures updated == Account("GenLedgAcct", 1234, 100, 20, 120)
    ensures refused == Forbidden && kept
  {
    var ledger := new Ledger();
    var r := ledger.CreateView({AllPermissions}, "GenLedgAcct", 1234, 100, 10);
    assert r == Redirect(TrialBalanceRoute, None);
    var pk := 1;
    GenLedgAcctExample();
    created := Repr(ledger.accounts[pk]);

    r := ledger.UpdateSelectView(pk);
    r := ledger.UpdateView(r.pk.value, "GenLedgAcct", 1234, 100, 20);
    assert r == Redirect(TrialBalanceRoute, None);
    updated := ledger.accounts[pk];

    var hire := new User();
    r := RegisterFormValid(hire);
    FreshHireDenied();
    refused := ledger.DeleteView(hire.groups, {pk});
    kept := pk in ledger.accounts && ledger.accounts[pk] == updated;
  }
}
