/**
 * Concrete runs of convert on the sample table, with the built-in toFixed(2)
 * taken to be the rule spelled out in Fixed.
 */
module Scenarios {
  import opened Wrappers
  import opened Currencies
  import opened Fixed
  import opened Rates
  import opened Store
  import opened Sync

  /** Typing 100 into the dollar input on the sample table fills in yen, euro and lira. */
  lemma SampleHundredDollars(t: Table, js: Builtins)
    requires DerivedFrom(t, DummyBase)
    requires js.parseFloat("100") == Some(100.0)
    requires forall x :: js.toFixed2(x) == ToFixed2(x)
    ensures Synced(Texts("", "100", "", ""), USD, t, js) == Texts("14980.00", "100", "93.00", "3245.00")
  {
    var f := Texts("", "100", "", "");
    var r := Synced(f, USD, t, js);
    SyncedExact(f, USD, t, DummyBase, js, 100.0);
    SampleRates();
    assert Field(r, JPY) == ToFixed2(14980.0) == "14980.00" by { Text14980(); }
    assert Field(r, EUR) == ToFixed2(93.0) == "93.00" by { Text93(); }
    assert Field(r, TRY) == ToFixed2(3245.0) == "3245.00" by { Text3245(); }
  }

  /** Typing 14980 into the yen input on the sample table gives back exactly 100 dollars. */
  lemma SampleYenBack(t: Table, js: Builtins)
    requires DerivedFrom(t, DummyBase)
    requires js.parseFloat("14980") == Some(14980.0)
    requires forall x :: js.toFixed2(x) == ToFixed2(x)
    ensures Field(Synced(Texts("14980", "", "", ""), JPY, t, js), USD) == "100.00"
  {
    SyncedExact(Texts("14980", "", "", ""), JPY, t, DummyBase, js, 14980.0);
    SampleRates();
    Text100();
  }

  /**
   * A server error leads to the sample rates whatever its body carries, even
   * non-positive quotes, since the page throws before it reads the body.
   */
  lemma ServerErrorFallsBack(p: Payload)
    ensures Fetched(Http(500, Some(p))) == None
  {
  }

  /** The exact cross rates of the sample table that the runs above use. */
  lemma SampleRates()
    ensures ValidBase(DummyBase)
    ensures 100.0 * Rate(DummyBase, USD, JPY) == 14980.0
    ensures 100.0 * Rate(DummyBase, USD, EUR) == 93.0
    ensures 100.0 * Rate(DummyBase, USD, TRY) == 3245.0
    ensures 14980.0 * Rate(DummyBase, JPY, USD) == 100.0
  {
  }

  lemma Text14980()
    ensures ToFixed2(14980.0) == "14980.00"
  {
    assert Hundredths(14980.0) == 1498000;
    assert Digits(14) == "14";
    assert Digits(149) == "149";
    assert Digits(1498) == "1498";
    assert Digits(14980) == "14980";
  }

  lemma Text93()
    ensures ToFixed2(93.0) == "93.00"
  {
    assert Hundredths(93.0) == 9300;
    assert Digits(93) == "93";
  }

  lemma Text3245()
    ensures ToFixed2(3245.0) == "3245.00"
  {
    assert Hundredths(3245.0) == 324500;
    assert Digits(32) == "32";
    assert Digits(324) == "324";
    assert Digits(3245) == "3245";
  }

  lemma Text100()
    ensures ToFixed2(100.0) == "100.00"
  {
    assert Hundredths(100.0) == 10000;
    assert Digits(100) == "100";
  }
}
