/** The closed set of history periods accepted by the history endpoint, and the
    provider code each one stands for (src/models/history.py). */
module History {
  import opened Wrappers

  /** One member per enum member of `Period`, in declaration order. */
  datatype Period =
    | Day | Week | Month | Quarter | HalfYr | Year | TwoYr | FiveYr | Decade | Ytd | Max

  /** Every member, in the order the enum declares them. */
  const AllPeriods: seq<Period> :=
    [Day, Week, Month, Quarter, HalfYr, Year, TwoYr, FiveYr, Decade, Ytd, Max]

  /** The string value of a member: the code the price provider understands. */
  function Value(p: Period): (code: string)
    ensures 2 <= |code| <= 3
    ensures code == "max" <==> p == Max
  {
    match p
    case Day => "1d"
    case Week => "5d"
    case Month => "1mo"
    case Quarter => "3mo"
    case HalfYr => "6mo"
    case Year => "1y"
    case TwoYr => "2y"
    case FiveYr => "5y"
    case Decade => "10y"
    case Ytd => "ytd"
    case Max => "max"
  }

  /** Looks `code` up among `ps`, front to back, by member value. */
  function FindByValue(code: string, ps: seq<Period>): (r: Option<Period>)
    ensures r.Some? ==> r.value in ps && Value(r.value) == code
    ensures r.None? <==> forall p :: p in ps ==> Value(p) != code
  {
    if ps == [] then None
    else if Value(ps[0]) == code then Some(ps[0])
    else FindByValue(code, ps[1..])
  }

  /** `Period(code)`: the member whose value is `code`, or None where the enum
      would refuse the value. This is how a query string becomes a `Period`. */
  function FromValue(code: string): (r: Option<Period>)
    ensures r.Some? ==> Value(r.value) == code
    ensures r.None? <==> code !in PeriodCodes()
  {
    AllPeriodsComplete();
    FindByValue(code, AllPeriods)
  }

  /** The set of codes the enum accepts. */
  function PeriodCodes(): (codes: set<string>)
    ensures forall p :: Value(p) in codes
    ensures forall c :: c in codes ==> exists p :: Value(p) == c
  {
    AllPeriodsComplete();
    set p | p in AllPeriods :: Value(p)
  }

  /** The enum has exactly eleven members, listed once each by AllPeriods. */
  lemma AllPeriodsComplete()
    ensures |AllPeriods| == 11
    ensures forall p :: p in AllPeriods
    ensures forall i, j :: 0 <= i < j < |AllPeriods| ==> AllPeriods[i] != AllPeriods[j]
  {
    forall p ensures p in AllPeriods {
      match p
      case Day => assert AllPeriods[0] == p;
      case Week => assert AllPeriods[1] == p;
      case Month => assert AllPeriods[2] == p;
      case Quarter => assert AllPeriods[3] == p;
      case HalfYr => assert AllPeriods[4] == p;
      case Year => assert AllPeriods[5] == p;
      case TwoYr => assert AllPeriods[6] == p;
      case FiveYr => assert AllPeriods[7] == p;
      case Decade => assert AllPeriods[8] == p;
      case Ytd => assert AllPeriods[9] == p;
      case Max => assert AllPeriods[10] == p;
    }
  }

  /** No two members share a code. */
  lemma ValueInjective(p: Period, q: Period)
    ensures Value(p) == Value(q) ==> p == q
  {
  }

  /** Looking a member up by its own value gives that member back. */
  lemma FromValueOfValue(p: Period)
    ensures FromValue(Value(p)) == Some(p)
  {
  }

  /** The eleven codes, member by member. */
  lemma ValueTable()
    ensures Value(Day) == "1d" && Value(Week) == "5d" && Value(Month) == "1mo"
    ensures Value(Quarter) == "3mo" && Value(HalfYr) == "6mo" && Value(Year) == "1y"
    ensures Value(TwoYr) == "2y" && Value(FiveYr) == "5y" && Value(Decade) == "10y"
    ensures Value(Ytd) == "ytd" && Value(Max) == "max"
  {
  }

  /** The codes of pairwise distinct members are as many as the members. */
  lemma {:induction false} CodeCount(ps: seq<Period>)
    requires forall i, j :: 0 <= i < j < |ps| ==> ps[i] != ps[j]
    ensures |set p | p in ps :: Value(p)| == |ps|
  {
    if ps != [] {
      var head := Value(ps[0]);
      var rest := set p | p in ps[1..] :: Value(p);
      CodeCount(ps[1..]);
      assert (set p | p in ps :: Value(p)) == {head} + rest;
      forall p | p in ps[1..] ensures Value(p) != head {
        ValueInjective(p, ps[0]);
      }
      assert head !in rest;
    }
  }

  /** The enum accepts exactly eleven distinct codes. */
  lemma PeriodCodesCount()
    ensures |PeriodCodes()| == 11
  {
    AllPeriodsComplete();
    CodeCount(AllPeriods);
  }
}
