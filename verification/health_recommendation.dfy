/**
  * The health-recommendation card: up to three short recommendations
  * chosen from a fixed, ordered list of rules over the air-quality index,
  * the UV index, the temperature and the wind speed.
  */
module HealthRecommendation {
  import opened Js

  /** The rules, one per recommendation the card can show. */
  datatype Rule = Mask | HighUv | Heat | Cold | StrongWind | Perfect | Sensitive

  /** The `type` of a recommendation. */
  datatype Kind = Warning | Caution | Info | Good

  datatype Icon = ShieldIcon | SunIcon | WindIcon | UsersIcon

  /** The object pushed for a rule. */
  datatype Recommendation = Recommendation(icon: Icon, text: string, kind: Kind, color: string)

  /** The props, with the component's defaults. */
  datatype Readings = Readings(aqi: real, uvIndex: real, temperature: real, windSpeed: real)

  const Defaults := Readings(45.0, 6.0, 25.0, 10.0)

  /** At most this many recommendations are shown. */
  const MaxShown := 3

  /** The order in which the rules are tried. */
  const RuleOrder: seq<Rule> := [Mask, HighUv, Heat, Cold, StrongWind, Perfect, Sensitive]

  /** The card shown for a rule. */
  function Card(r: Rule): Recommendation {
    match r
    case Mask => Recommendation(ShieldIcon, "Wear a mask outdoors", Warning, "text-red-400")
    case HighUv => Recommendation(SunIcon, "High UV - Use sunscreen", Warning, "text-orange-400")
    case Heat => Recommendation(SunIcon, "Stay hydrated, avoid heat", Caution, "text-yellow-400")
    case Cold => Recommendation(WindIcon, "Dress warmly", Caution, "text-blue-400")
    case StrongWind => Recommendation(WindIcon, "Strong winds - Take care", Info, "text-gray-400")
    case Perfect => Recommendation(SunIcon, "Perfect for outdoor activities", Good, "text-green-400")
    case Sensitive => Recommendation(UsersIcon, "Sensitive groups: Take precautions", Warning, "text-purple-400")
  }

  /** When a rule's condition holds; the cold rule is the `else if` of the heat rule. */
  predicate Fires(r: Rule, c: Readings) {
    match r
    case Mask => c.aqi > 100.0
    case HighUv => c.uvIndex > 7.0
    case Heat => c.temperature > 30.0
    case Cold => !(c.temperature > 30.0) && c.temperature < 5.0
    case StrongWind => c.windSpeed > 20.0
    case Perfect => c.aqi <= 50.0 && c.uvIndex <= 5.0 && c.temperature >= 15.0 && c.temperature <= 25.0
    case Sensitive => c.aqi > 50.0 || c.uvIndex > 6.0
  }

  /** The firing test as a function value. */
  function FiresIn(c: Readings): Rule -> bool {
    r => Fires(r, c)
  }

  /** The order lists every rule. */
  lemma AllListed()
    ensures forall r: Rule :: r in RuleOrder
  {
    forall r: Rule
      ensures r in RuleOrder
    {
      match r
      case Mask => assert RuleOrder[0] == r;
      case HighUv => assert RuleOrder[1] == r;
      case Heat => assert RuleOrder[2] == r;
      case Cold => assert RuleOrder[3] == r;
      case StrongWind => assert RuleOrder[4] == r;
      case Perfect => assert RuleOrder[5] == r;
      case Sensitive => assert RuleOrder[6] == r;
    }
  }

  /** The rule that fires, alone, or nothing. */
  function IfFires(r: Rule, c: Readings): seq<Rule> {
    if Fires(r, c) then [r] else []
  }

  /** The rules of a list that fire, in list order: each one tried is appended when it fires. */
  function FiredFrom(rules: seq<Rule>, c: Readings): seq<Rule> {
    if rules == [] then [] else FiredFrom(rules[..|rules| - 1], c) + IfFires(rules[|rules| - 1], c)
  }

  /** A rule is in the fired part of a list exactly when it is in the list and fires. */
  lemma {:induction false} FiredFromMembers(rules: seq<Rule>, c: Readings, r: Rule)
    ensures r in FiredFrom(rules, c) <==> r in rules && Fires(r, c)
  {
    if rules != [] {
      FiredFromMembers(rules[..|rules| - 1], c, r);
      assert rules == rules[..|rules| - 1] + [rules[|rules| - 1]];
    }
  }

  /** Every rule whose condition holds, in rule order, before truncation. */
  function Fired(c: Readings): (rs: seq<Rule>)
    ensures forall r :: r in rs <==> Fires(r, c)
  {
    AllListed();
    forall r ensures r in FiredFrom(RuleOrder, c) <==> Fires(r, c) {
      FiredFromMembers(RuleOrder, c, r);
    }
    FiredFrom(RuleOrder, c)
  }

  /** The fired rules written out one by one. */
  lemma FiredUnrolled(c: Readings)
    ensures Fired(c) == IfFires(Mask, c) + IfFires(HighUv, c) + IfFires(Heat, c) + IfFires(Cold, c) +
      IfFires(StrongWind, c) + IfFires(Perfect, c) + IfFires(Sensitive, c)
  {
    var o := RuleOrder;
    assert o[..6] == [Mask, HighUv, Heat, Cold, StrongWind, Perfect];
    assert o[..6][..5] == [Mask, HighUv, Heat, Cold, StrongWind];
    assert o[..6][..5][..4] == [Mask, HighUv, Heat, Cold];
    assert o[..6][..5][..4][..3] == [Mask, HighUv, Heat];
    assert [Mask, HighUv, Heat][..2] == [Mask, HighUv];
    assert [Mask, HighUv][..1] == [Mask];
    assert [Mask][..0] == [];
    var i1, i2, i3, i4 := IfFires(Mask, c), IfFires(HighUv, c), IfFires(Heat, c), IfFires(Cold, c);
    var i5, i6, i7 := IfFires(StrongWind, c), IfFires(Perfect, c), IfFires(Sensitive, c);
    assert FiredFrom([Mask], c) == i1;
    assert FiredFrom([Mask, HighUv], c) == i1 + i2;
    assert FiredFrom([Mask, HighUv, Heat], c) == i1 + i2 + i3;
    assert FiredFrom(o[..6][..5][..4], c) == i1 + i2 + i3 + i4;
    assert FiredFrom(o[..6][..5], c) == i1 + i2 + i3 + i4 + i5;
    assert FiredFrom(o[..6], c) == i1 + i2 + i3 + i4 + i5 + i6;
  }

  /**
    * `getRecommendations()`: the rules are tried in order, each one that
    * fires is pushed, and the first three pushed are returned.
    */
  method GetRecommendations(c: Readings) returns (recs: seq<Rule>)
    ensures recs == Take(Fired(c), MaxShown)
  {
    var pushed: seq<Rule> := [];
    if c.aqi > 100.0 {
      pushed := pushed + [Mask];
    }
    assert pushed == IfFires(Mask, c);
    if c.uvIndex > 7.0 {
      pushed := pushed + [HighUv];
    }
    assert pushed == IfFires(Mask, c) + IfFires(HighUv, c);
    if c.temperature > 30.0 {
      pushed := pushed + [Heat];
    } else if c.temperature < 5.0 {
      pushed := pushed + [Cold];
    }
    assert pushed == IfFires(Mask, c) + IfFires(HighUv, c) + IfFires(Heat, c) + IfFires(Cold, c);
    if c.windSpeed > 20.0 {
      pushed := pushed + [StrongWind];
    }
    assert pushed == IfFires(Mask, c) + IfFires(HighUv, c) + IfFires(Heat, c) + IfFires(Cold, c) + IfFires(StrongWind, c);
    if c.aqi <= 50.0 && c.uvIndex <= 5.0 && c.temperature >= 15.0 && c.temperature <= 25.0 {
      pushed := pushed + [Perfect];
    }
    assert pushed == IfFires(Mask, c) + IfFires(HighUv, c) + IfFires(Heat, c) + IfFires(Cold, c) + IfFires(StrongWind, c) +
      IfFires(Perfect, c);
    if c.aqi > 50.0 || c.uvIndex > 6.0 {
      pushed := pushed + [Sensitive];
    }
    FiredUnrolled(c);
    recs := if |pushed| <= MaxShown then pushed else pushed[..MaxShown];
  }

  /** The heat and cold recommendations are never both given. */
  lemma HeatColdExclusive(c: Readings)
    ensures !(Heat in Fired(c) && Cold in Fired(c))
    ensures Cold in Fired(c) <==> c.temperature < 5.0
  {
  }

  /** A perfect day and a warning for sensitive groups are never both given. */
  lemma PerfectSensitiveExclusive(c: Readings)
    ensures !(Perfect in Fired(c) && Sensitive in Fired(c))
  {
  }

  /** Whenever the mask rule fires, the sensitive-groups rule fires as well (it may be cut by the limit). */
  lemma MaskImpliesSensitive(c: Readings)
    ensures Mask in Fired(c) ==> Sensitive in Fired(c)
  {
  }

  /** With the default UV index of 6 neither the UV rule nor the perfect-day rule can fire. */
  lemma DefaultUvBlocks(c: Readings)
    requires c.uvIndex == Defaults.uvIndex
    ensures HighUv !in Fired(c) && Perfect !in Fired(c)
  {
  }

  /** With every default no rule fires, so the card shows its fallback message. */
  lemma DefaultsShowFallback()
    ensures Fired(Defaults) == []
    ensures Take(Fired(Defaults), MaxShown) == []
  {
    FiredUnrolled(Defaults);
  }

  /** The fallback message is shown exactly when no rule fires. */
  lemma FallbackIffNoneFires(c: Readings)
    ensures Take(Fired(c), MaxShown) == [] <==> forall r :: !Fires(r, c)
  {
    if Fired(c) != [] {
      assert Fired(c)[0] in Fired(c);
    }
  }

  /** The recommendations shown are the first ones that fire, in rule order, never more than three. */
  lemma ShownArePrefix(c: Readings)
    ensures var shown := Take(Fired(c), MaxShown);
      |shown| <= MaxShown && shown <= Fired(c) &&
      (|Fired(c)| <= MaxShown ==> shown == Fired(c))
  {
  }

  /** At most five rules fire together, since heat excludes cold and a perfect day excludes the sensitive-groups warning; so the limit of three can drop up to two. */
  lemma AtMostFiveFire(c: Readings)
    ensures |Fired(c)| <= 5
  {
    FiredUnrolled(c);
  }
}
