/** A loan small enough to project by hand: ten units without interest, due in full on one date. */
module Examples {
  import opened Dates
  import opened Contracts
  import opened Portfolio
  import Amortisation
  import Money

  const HOME: Contract := Contract("home", 1, "AMD", UNSET, UNSET, 0, Money.Actual365, Annuity, Civil(2024, 1, 15), Civil(2024, 2, 15),
    15, UNSET, 10, true, Money.Policy(Money.HalfUp, 1), Prepayment(ShortenTerm, 0, [], 0), "")

  const HOUSE: Position := Position("house", HOME, 10, Civil(2024, 1, 15), ReducePrincipal, false)

  const ONE_DUE: Date := Civil(2024, 2, 15)

  /** The same agreement, but for the bank's word that nothing falls due before a date past maturity. */
  const SHUT_HOME: Contract := HOME.(notBeforeDue := Civil(2024, 3, 1))

  lemma HomeHasOneDate()
    ensures Amortisation.PaymentDates(HOME) == Amortisation.Ok([ONE_DUE]) == Amortisation.PaymentDates(SHUT_HOME)
    ensures Amortisation.DatesAhead(HOME, HOUSE.from) == Amortisation.Ok([ONE_DUE])
    ensures Amortisation.DatesAhead(SHUT_HOME, HOUSE.from).Err?
  {
    assert Occurrence(HOME.start, 15, 1) == ONE_DUE;
    assert Occurrence(HOME.start, 15, 2) == Civil(2024, 3, 15);
    assert Amortisation.DatesFrom(HOME, 2) == [] == Amortisation.DatesFrom(SHUT_HOME, 2);
    assert Amortisation.DatesFrom(HOME, 1) == [ONE_DUE] == Amortisation.DatesFrom(SHUT_HOME, 1);
    assert Amortisation.Remaining(SHUT_HOME, [ONE_DUE], HOUSE.from) == [];
  }

  lemma HomeProjects()
    ensures Amortisation.PaymentDates(HOME).Ok? && Amortisation.PaymentDates(SHUT_HOME).Ok?
    ensures Amortisation.Next(HOME, 10, HOUSE.from) == Amortisation.Ok(Amortisation.Obligation(ONE_DUE, 10, 10))
    ensures Amortisation.Next(SHUT_HOME, 10, HOUSE.from).Err?
  {
    hide Amortisation.PaymentDates, Amortisation.DatesAhead, DaysBetween;
    HomeHasOneDate();
    Amortisation.DatesAheadAreAhead(HOME, HOUSE.from);
    var row := Amortisation.LevelRow(HOME, 10, HOUSE.from, ONE_DUE, 10, 1);
    assert row.closing == 0 && row.payment == 10;
    assert Amortisation.LevelRows(HOME, 10, HOUSE.from, [ONE_DUE], 10, 1) == [row];
  }
}
