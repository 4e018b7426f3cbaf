/** A payment whose credit was lost is credited at another amount: the run that shows it. */
module AutoChargeReplay {
  import opened Options
  import opened KeyedMutex
  import opened Money
  import opened PaymentEvents
  import opened AutoChargeStore
  import opened AutoCharge
  import opened AutoChargeTheorems

  const ONE := Config(true, 1, MICROS_PER_CENT, 2 * MICROS_PER_CENT, 2 * MICROS_PER_CENT)
  const TWO := ONE.(amount := 2 * MICROS_PER_CENT)

  const NO_ENTRIES := Ledger(map[], map[], map[], {})
  const NOTHING_PAID := Engine(map[], map[])
  const PAID := Engine(map[][ChargeKey("e") := "p"], map[]["p" := Payment("t", 1)])

  /** The system around tenant "t", with its account, its calls and their runs. */
  function At(a: Account, calls: seq<Call>, runs: seq<Pc>, engine: Engine, ledger: Ledger): State
    requires |calls| == |runs|
  {
    var n := |calls|;
    var busy := n > 0 && calls[n - 1].phase == Running;
    var last: map<string, nat> := if busy then map["t" := n - 1] else map[];
    State(1, Mutex(last, calls), seq(n, i requires 0 <= i < n => Run("t", 0, "e", runs[i])), last,
          map["t" := a], engine, ledger)
  }

  function RunningCall(): Call { Call("t", None, Running) }

  const MADE := [Charge(MICROS_PER_CENT, 0)]

  function Before(): Account { Fresh(Some(ONE)) }
  function Charged(): Account { Before().(card := Card(MADE, MADE, [], [])) }
  function Lost(): Account { Before().(card := Card(MADE, [], MADE, [])) }
  function Patched(): Account { Lost().(config := Some(TWO)) }

  // ---- Three steps at a time ----

  ghost predicate Leads(s: State, e1: BillingEvent, e2: BillingEvent, e3: BillingEvent, s': State) {
    && Enabled(s, e1) && Enabled(Step(s, e1), e2) && Enabled(Step(Step(s, e1), e2), e3)
    && Step(Step(Step(s, e1), e2), e3) == s'
  }

  lemma Checks()
    ensures Leads(At(Before(), [], [], NOTHING_PAID, NO_ENTRIES), Crossing("t", 0, "e"), Begins(0), Resumes(0, Quiet),
                  At(Before(), [RunningCall()], [Checked(ONE)], NOTHING_PAID, NO_ENTRIES))
  {
  }

  lemma PaysOnce()
    ensures Leads(At(Before(), [RunningCall()], [Checked(ONE)], NOTHING_PAID, NO_ENTRIES),
                  Resumes(0, Clock(0)), Resumes(0, Quiet), Resumes(0, Pays("p", true)),
                  At(Charged(), [RunningCall()], [Paid(ONE, 0, "p", true)], PAID, NO_ENTRIES))
  {
    var s := At(Before(), [RunningCall()], [Checked(ONE)], NOTHING_PAID, NO_ENTRIES);
    var s1 := Step(s, Resumes(0, Clock(0)));
    assert s1 == At(Before(), [RunningCall()], [DayOk(ONE, 0)], NOTHING_PAID, NO_ENTRIES);
    var s2 := Step(s1, Resumes(0, Quiet));
    assert s2 == At(Before(), [RunningCall()], [MonthOk(ONE, 0)], NOTHING_PAID, NO_ENTRIES);
    CentsRoundTrip(ONE.amount, 1);
    assert Before().card.Made(MADE) == Charged().card by { assert [] + MADE == MADE; }
    assert Step(s2, Resumes(0, Pays("p", true))) == At(Charged(), [RunningCall()], [Paid(ONE, 0, "p", true)], PAID, NO_ENTRIES);
  }

  function Over0(): Call { Call("t", None, Cleaned) }

  lemma LosesCredit()
    ensures Leads(At(Charged(), [RunningCall()], [Paid(ONE, 0, "p", true)], PAID, NO_ENTRIES),
                  Resumes(0, Quiet), Resumes(0, CreditThrew(false)), Finishes(0),
                  At(Lost(), [Over0()], [Done(Threw)], PAID, NO_ENTRIES))
  {
    var s := At(Charged(), [RunningCall()], [Paid(ONE, 0, "p", true)], PAID, NO_ENTRIES);
    var s1 := Step(s, Resumes(0, Quiet));
    assert s1 == At(Charged(), [RunningCall()], [Crediting(ONE, 0, "p", true)], PAID, NO_ENTRIES);
    assert Charged().card.Ended() == Lost().card by { assert [] + MADE == MADE; }
    var s2 := Step(s1, Resumes(0, CreditThrew(false)));
    assert s2.runs == [Run("t", 0, "e", Done(Threw))] && s2.accounts == map["t" := Lost()];
    assert s2.active == map[];
  }

  const RAISE := Patch(None, None, Some(2 * MICROS_PER_CENT))

  lemma AmountRaised()
    ensures Leads(At(Lost(), [Over0()], [Done(Threw)], PAID, NO_ENTRIES),
                  Update("t", RAISE), Crossing("t", 0, "e"), Begins(1),
                  At(Patched(), [Over0(), RunningCall()], [Done(Threw), Begin], PAID, NO_ENTRIES))
  {
  }

  lemma ChecksAgain()
    ensures Leads(At(Patched(), [Over0(), RunningCall()], [Done(Threw), Begin], PAID, NO_ENTRIES),
                  Resumes(1, Quiet), Resumes(1, Clock(0)), Resumes(1, Quiet),
                  At(Patched(), [Over0(), RunningCall()], [Done(Threw), MonthOk(TWO, 0)], PAID, NO_ENTRIES))
  {
    var calls := [Over0(), RunningCall()];
    var s1 := Step(At(Patched(), calls, [Done(Threw), Begin], PAID, NO_ENTRIES), Resumes(1, Quiet));
    assert s1 == At(Patched(), calls, [Done(Threw), Checked(TWO)], PAID, NO_ENTRIES);
    var s2 := Step(s1, Resumes(1, Clock(0)));
    assert s2 == At(Patched(), calls, [Done(Threw), DayOk(TWO, 0)], PAID, NO_ENTRIES);
  }

  const BOOKED := Ledger(
    map[]["t" := map[][CreditKeyForPayment("p") := 2 * MICROS_PER_CENT]], map[]["t" := 2 * MICROS_PER_CENT],
    map[]["t" := {"p"}], {("t", "p")})

  lemma CreditsReplay()
    ensures Leads(At(Patched(), [Over0(), RunningCall()], [Done(Threw), MonthOk(TWO, 0)], PAID, NO_ENTRIES),
                  Resumes(1, Pays("p", false)), Resumes(1, Quiet), Resumes(1, Credited(true)),
                  At(Patched(), [Over0(), RunningCall()], [Done(Threw), Recording(TWO, 0, "p", false)], PAID, BOOKED))
  {
    var calls := [Over0(), RunningCall()];
    var s := At(Patched(), calls, [Done(Threw), MonthOk(TWO, 0)], PAID, NO_ENTRIES);
    CentsRoundTrip(TWO.amount, 2);
    assert Patched().card.Made([]) == Patched().card by { assert MADE + [] == MADE; }
    var s1 := Step(s, Resumes(1, Pays("p", false)));
    assert s1 == At(Patched(), calls, [Done(Threw), Paid(TWO, 0, "p", false)], PAID, NO_ENTRIES);
    var s2 := Step(s1, Resumes(1, Quiet));
    assert s2 == At(Patched(), calls, [Done(Threw), Crediting(TWO, 0, "p", false)], PAID, NO_ENTRIES);
    Books();
  }

  lemma Books()
    ensures NO_ENTRIES.Credit("t", "p", 2 * MICROS_PER_CENT, PAID.payments) == BOOKED
  {
    assert {} + {"p"} == {"p"} && {} + {("t", "p")} == {("t", "p")};
  }

  // ---- The run ----

  lemma Then3(s0: State, es: seq<BillingEvent>, s: State, e1: BillingEvent, e2: BillingEvent, e3: BillingEvent, s': State)
    returns (es': seq<BillingEvent>)
    requires s == After(s0, es) && Leads(s, e1, e2, e3, s')
    ensures After(s0, es') == s'
  {
    Extend3(s0, es, s, e1, e2, e3);
    es' := es + [e1, e2, e3];
  }

  /** The run: a payment of one cent whose credit throws; the amount is then raised to two cents and
      the crossing delivered again; the engine replays the payment, and two cents are credited. */
  lemma ReplayTakesNewAmount() returns (es: seq<BillingEvent>)
    ensures var s := After(Init(1, map["t" := ONE]), es);
      && s.engine.payments == map["p" := Payment("t", 1)]
      && s.ledger.BalanceOf("t") == 2 * MICROS_PER_CENT && ("t", "p") in s.ledger.mispriced
  {
    var s0 := Init(1, map["t" := ONE]);
    var s1 := At(Before(), [RunningCall()], [Checked(ONE)], NOTHING_PAID, NO_ENTRIES);
    var s2 := At(Charged(), [RunningCall()], [Paid(ONE, 0, "p", true)], PAID, NO_ENTRIES);
    var s3 := At(Lost(), [Over0()], [Done(Threw)], PAID, NO_ENTRIES);
    var s4 := At(Patched(), [Over0(), RunningCall()], [Done(Threw), Begin], PAID, NO_ENTRIES);
    var s5 := At(Patched(), [Over0(), RunningCall()], [Done(Threw), MonthOk(TWO, 0)], PAID, NO_ENTRIES);
    var s6 := At(Patched(), [Over0(), RunningCall()], [Done(Threw), Recording(TWO, 0, "p", false)], PAID, BOOKED);
    assert s0 == At(Before(), [], [], NOTHING_PAID, NO_ENTRIES);
    Checks();
    es := Then3(s0, [], s0, Crossing("t", 0, "e"), Begins(0), Resumes(0, Quiet), s1);
    PaysOnce();
    es := Then3(s0, es, s1, Resumes(0, Clock(0)), Resumes(0, Quiet), Resumes(0, Pays("p", true)), s2);
    LosesCredit();
    es := Then3(s0, es, s2, Resumes(0, Quiet), Resumes(0, CreditThrew(false)), Finishes(0), s3);
    AmountRaised();
    es := Then3(s0, es, s3, Update("t", RAISE), Crossing("t", 0, "e"), Begins(1), s4);
    ChecksAgain();
    es := Then3(s0, es, s4, Resumes(1, Quiet), Resumes(1, Clock(0)), Resumes(1, Quiet), s5);
    CreditsReplay();
    es := Then3(s0, es, s5, Resumes(1, Pays("p", false)), Resumes(1, Quiet), Resumes(1, Credited(true)), s6);
  }
}
