/**
 * The scoring rules: the strength score T of a currency, its five-band
 * strength label S, the BUY/SELL/NEUTRAL bias of a pair from its two labels,
 * and the monetary value of a pip movement for a position.
 */
module TradeUtils {
  import opened Constants
  import opened JsStrings

  /** `calculateT`: the strength score, the sum of the three timeframe readings. */
  function CalculateT(d1: real, h4: real, h1: real): real
  {
    d1 + h4 + h1
  }

  /** `calculateS`: the band of the score. The Neutral band is open at both ends,
      so -1 is Weak and 1 is Strong; -3 is still Weak but 3 is Extreme Strong. */
  function CalculateS(t: real): (s: SValue)
    ensures s == ExtremeStrong <==> 3.0 <= t
    ensures s == Strong <==> 1.0 <= t < 3.0
    ensures s == Neutral <==> -1.0 < t < 1.0
    ensures s == Weak <==> -3.0 <= t <= -1.0
    ensures s == ExtremeWeak <==> t < -3.0
  {
    if t >= 3.0 then ExtremeStrong
    else if t >= 1.0 then Strong
    else if t > -1.0 then Neutral
    else if t >= -3.0 then Weak
    else ExtremeWeak
  }

  /** The order of the labels: Extreme Weak < Weak < Neutral < Strong < Extreme Strong. */
  function Rank(s: SValue): int
  {
    match s
    case ExtremeWeak => -2
    case Weak => -1
    case Neutral => 0
    case Strong => 1
    case ExtremeStrong => 2
  }

  /** A higher score never gets a lower label. */
  lemma CalculateSMonotone(t1: real, t2: real)
    requires t1 <= t2
    ensures Rank(CalculateS(t1)) <= Rank(CalculateS(t2))
  {
  }

  /** The label of the opposite reading: strong and weak change places. */
  function Mirror(s: SValue): SValue
  {
    match s
    case ExtremeWeak => ExtremeStrong
    case Weak => Strong
    case Neutral => Neutral
    case Strong => Weak
    case ExtremeStrong => ExtremeWeak
  }

  /** Negating the score mirrors the label everywhere except at +3 and -3,
      where the bands are closed on the same side (S(3) = Extreme Strong but
      S(-3) = Weak). */
  lemma CalculateSMirror(t: real)
    ensures CalculateS(-t) == Mirror(CalculateS(t)) <==> t != 3.0 && t != -3.0
  {
  }

  /** The labels in the source's `strengths` list: those above Neutral. */
  predicate IsStrong(s: SValue)
  {
    Rank(s) > Rank(Neutral)
  }

  /** The labels in the source's `weaknesses` list: those below Neutral. */
  predicate IsWeak(s: SValue)
  {
    Rank(s) < Rank(Neutral)
  }

  /** `calculateBias`: BUY when the base is strong against a weak quote, SELL in
      the converse case, NEUTRAL in the other 17 of the 25 combinations. */
  function CalculateBias(sBase: SValue, sQuote: SValue): (b: Bias)
    ensures b == BUY <==> IsStrong(sBase) && IsWeak(sQuote)
    ensures b == SELL <==> IsWeak(sBase) && IsStrong(sQuote)
  {
    var strengths := [Strong, ExtremeStrong];
    var weaknesses := [Weak, ExtremeWeak];
    if sBase in strengths && sQuote in weaknesses then BUY
    else if sBase in weaknesses && sQuote in strengths then SELL
    else NEUTRAL
  }

  /** The bias of the reversed pair. */
  function Opposite(b: Bias): Bias
  {
    match b
    case BUY => SELL
    case SELL => BUY
    case NEUTRAL => NEUTRAL
  }

  /** Swapping base and quote swaps BUY and SELL and keeps NEUTRAL. */
  lemma CalculateBiasAntisymmetric(sBase: SValue, sQuote: SValue)
    ensures CalculateBias(sQuote, sBase) == Opposite(CalculateBias(sBase, sQuote))
  {
  }

  /** A Neutral label on either side gives NEUTRAL, as do two labels on the same side. */
  lemma CalculateBiasNeutralCases(s: SValue, s': SValue)
    ensures CalculateBias(Neutral, s) == NEUTRAL && CalculateBias(s, Neutral) == NEUTRAL
    ensures IsStrong(s) && IsStrong(s') ==> CalculateBias(s, s') == NEUTRAL
    ensures IsWeak(s) && IsWeak(s') ==> CalculateBias(s, s') == NEUTRAL
  {
  }

  /** The pairs the pip calculator prices at the yen rate. */
  const JPY_PAIRS: seq<string> := ["EURJPY", "GBPJPY", "USDJPY", "AUDJPY", "NZDJPY"]

  /** `IS_JPY_PAIR`: the name contains one of the yen pairs. */
  predicate IsJpyPair(upper: string)
  {
    exists p :: p in JPY_PAIRS && Includes(upper, p)
  }

  /** The classes of pair the pip calculator tells apart. */
  datatype PipClass = Gold | YenPair | CadQuoted | GbpQuoted | Standard

  /** The class of a pair name, tested on its upper-cased form, first match
      wins: XAUUSD, then any name containing a yen pair, then a CAD suffix,
      then a GBP suffix. */
  function PipClassOf(pair: string): PipClass
  {
    var upper := ToUpperCase(pair);
    if upper == "XAUUSD" then Gold
    else if IsJpyPair(upper) then YenPair
    else if EndsWith(upper, "CAD") then CadQuoted
    else if EndsWith(upper, "GBP") then GbpQuoted
    else Standard
  }

  /** The fixed value of one pip on one standard lot, per class. */
  function ValuePerPipPerLot(c: PipClass): real
  {
    match c
    case Gold => 10.0
    case YenPair => 9.3
    case CadQuoted => 7.3
    case GbpQuoted => 12.5
    case Standard => 10.0
  }

  /** `calculatePipValue`: zero when pips or lot size is zero, otherwise
      pips times lot size times the value per pip of the pair's class. */
  function CalculatePipValue(pair: string, lotSize: real, pips: real): (r: real)
    ensures pips == 0.0 || lotSize == 0.0 ==> r == 0.0
    ensures r == pips * lotSize * ValuePerPipPerLot(PipClassOf(pair))
  {
    if pips == 0.0 || lotSize == 0.0 then 0.0
    else
      var upper := ToUpperCase(pair);
      if upper == "XAUUSD" then
        GoldRate(pips, lotSize);
        pips * 0.1 * lotSize * 100.0
      else
        var isJpyPair := IsJpyPair(upper);
        var valuePerPipPerLot :=
          if isJpyPair then 9.3
          else if EndsWith(upper, "CAD") then 7.3
          else if EndsWith(upper, "GBP") then 12.5
          else 10.0;
        assert valuePerPipPerLot == ValuePerPipPerLot(PipClassOf(pair));
        ReorderProduct(pips, valuePerPipPerLot, lotSize);
        pips * valuePerPipPerLot * lotSize
  }

  /** The gold branch's factors 0.1 and 100 make a rate of 10. */
  lemma GoldRate(pips: real, lotSize: real)
    ensures pips * 0.1 * lotSize * 100.0 == pips * lotSize * 10.0
  {
  }

  lemma ReorderProduct(a: real, b: real, c: real)
    ensures a * b * c == a * c * b
  {
  }

  /** The class of a name is the class of its upper-cased form. */
  lemma PipClassOfIgnoresCase(pair: string)
    ensures PipClassOf(ToUpperCase(pair)) == PipClassOf(pair)
  {
    UpperCaseIdempotent(pair);
  }

  /** The pair name is matched case-insensitively. */
  lemma CalculatePipValueIgnoresCase(pair: string, lotSize: real, pips: real)
    ensures CalculatePipValue(pair, lotSize, pips) == CalculatePipValue(ToUpperCase(pair), lotSize, pips)
  {
    var v := ValuePerPipPerLot(PipClassOf(pair));
    PipClassOfIgnoresCase(pair);
    assert ValuePerPipPerLot(PipClassOf(ToUpperCase(pair))) == v;
  }

  /** The pip value is additive in the pip count and in the lot size. */
  lemma CalculatePipValueBilinear(pair: string, lotSize: real, lotSize': real, pips: real, pips': real)
    ensures CalculatePipValue(pair, lotSize, pips + pips')
         == CalculatePipValue(pair, lotSize, pips) + CalculatePipValue(pair, lotSize, pips')
    ensures CalculatePipValue(pair, lotSize + lotSize', pips)
         == CalculatePipValue(pair, lotSize, pips) + CalculatePipValue(pair, lotSize', pips)
  {
    var v := ValuePerPipPerLot(PipClassOf(pair));
    assert (pips + pips') * lotSize * v == pips * lotSize * v + pips' * lotSize * v;
    assert pips * (lotSize + lotSize') * v == pips * lotSize * v + pips * lotSize' * v;
  }

  /** The class the calculator gives a symbol spelled from two currency codes:
      yen pricing covers only the five listed bases, and a CAD or GBP quote
      decides the rest. */
  function SymbolClass(base: Currency, quote: Currency): PipClass
  {
    if base == GOLD && quote == USD then Gold
    else if quote == JPY && base in JPY_BASES then YenPair
    else if quote == CAD then CadQuoted
    else if quote == GBP then GbpQuoted
    else Standard
  }

  /** The bases of the five yen pairs, in the order of JPY_PAIRS. */
  const JPY_BASES: seq<Currency> := PAIR_BASES

  lemma JpyPairsSpelled()
    ensures |JPY_PAIRS| == |JPY_BASES| == 5
    ensures forall k :: 0 <= k < 5 ==> JPY_PAIRS[k] == Code(JPY_BASES[k]) + Code(JPY)
  {
  }

  /** A two-code symbol is XAUUSD only for GOLD against USD. */
  lemma GoldSymbol(base: Currency, quote: Currency)
    ensures Code(base) + Code(quote) == "XAUUSD" <==> base == GOLD && quote == USD
  {
    assert "XAUUSD" == Code(GOLD) + Code(USD);
    if Code(base) + Code(quote) == "XAUUSD" {
      CodesDetermineSides(base, quote, GOLD, USD);
    }
  }

  /** A two-code symbol contains a yen pair only when it is one. */
  lemma YenSymbol(base: Currency, quote: Currency)
    ensures IsJpyPair(Code(base) + Code(quote)) <==> quote == JPY && base in JPY_BASES
  {
    var sym := Code(base) + Code(quote);
    JpyPairsSpelled();
    forall p | p in JPY_PAIRS ensures Includes(sym, p) <==> sym == p {
      IncludesSameLength(sym, p);
    }
    if sym in JPY_PAIRS {
      var k :| 0 <= k < 5 && JPY_PAIRS[k] == sym;
      CodesDetermineSides(base, quote, JPY_BASES[k], JPY);
    }
    if quote == JPY && base in JPY_BASES {
      var k :| 0 <= k < 5 && JPY_BASES[k] == base;
      assert JPY_PAIRS[k] == sym;
    }
  }

  /** A two-code symbol ends with a code exactly when that is its quote. */
  lemma SuffixSymbol(base: Currency, quote: Currency, c: Currency)
    ensures EndsWith(Code(base) + Code(quote), Code(c)) <==> quote == c
  {
    var sym := Code(base) + Code(quote);
    CodeIsThreeCapitals(base);
    CodeIsThreeCapitals(quote);
    CodeIsThreeCapitals(c);
    assert sym[|sym| - 3..] == Code(quote);
    if Code(quote) == Code(c) {
      CodesDetermineSides(quote, quote, c, c);
    }
  }

  lemma PipClassOfSymbol(base: Currency, quote: Currency)
    ensures PipClassOf(Code(base) + Code(quote)) == SymbolClass(base, quote)
  {
    var sym := Code(base) + Code(quote);
    CodeIsThreeCapitals(base);
    CodeIsThreeCapitals(quote);
    UpperCaseOfCapitals(sym);
    GoldSymbol(base, quote);
    YenSymbol(base, quote);
    SuffixSymbol(base, quote, CAD);
    SuffixSymbol(base, quote, GBP);
    assert Code(CAD) == "CAD" && Code(GBP) == "GBP";
  }

  /** The class the taxonomy's own data predicts: XAUUSD is gold, and every
      other pair is priced by its quote currency. */
  function QuoteClass(p: ForexPair): PipClass
  {
    if p.base == GOLD then Gold
    else match p.quote
      case JPY => YenPair
      case CAD => CadQuoted
      case GBP => GbpQuoted
      case _ => Standard
  }

  lemma {:induction false} PipClassesOfGroups(groups: seq<ForexPairGroup>)
    requires forall g, p :: g in groups && p in g.pairs ==> PairFitsIndex(g.index, p)
    requires forall g, p :: g in groups && p in g.pairs ==> p.base in PAIR_BASES || p == ForexPair("XAUUSD", GOLD, USD)
    ensures forall g, p :: g in groups && p in g.pairs ==> PipClassOf(p.pair) == QuoteClass(p)
  {
    forall g, p | g in groups && p in g.pairs
      ensures PipClassOf(p.pair) == QuoteClass(p)
    {
      assert PairFitsIndex(g.index, p);
      PipClassOfSymbol(p.base, p.quote);
    }
  }

  /** On every pair of the taxonomy the calculator's class is the one its
      quote currency predicts. */
  lemma TaxonomyPipClasses()
    ensures forall g, p :: g in FOREX_PAIRS && p in g.pairs ==> PipClassOf(p.pair) == QuoteClass(p)
  {
    PairsFitTheirIndex();
    PairBases();
    PipClassesOfGroups(FOREX_PAIRS);
  }

  lemma {:induction false} YenQuotedPairsOfGroups(groups: seq<ForexPairGroup>)
    requires forall g, p :: g in groups && p in g.pairs ==> PairFitsIndex(g.index, p)
    requires forall g, p :: g in groups && p in g.pairs ==> p.base in PAIR_BASES || p == ForexPair("XAUUSD", GOLD, USD)
    ensures forall g, p :: g in groups && p in g.pairs ==> (p.quote == JPY <==> p.pair in JPY_PAIRS)
  {
    JpyPairsSpelled();
    forall g, p | g in groups && p in g.pairs
      ensures p.quote == JPY <==> p.pair in JPY_PAIRS
    {
      assert PairFitsIndex(g.index, p);
      if p.pair in JPY_PAIRS {
        var k :| 0 <= k < 5 && JPY_PAIRS[k] == p.pair;
        CodesDetermineSides(p.base, p.quote, JPY_BASES[k], JPY);
      }
      if p.quote == JPY {
        var k :| 0 <= k < 5 && JPY_BASES[k] == p.base;
        assert JPY_PAIRS[k] == p.pair;
      }
    }
  }

  /** The pairs of the taxonomy quoted in JPY are exactly those of JPY_PAIRS. */
  lemma YenQuotedPairsAreJpyPairs()
    ensures forall g, p :: g in FOREX_PAIRS && p in g.pairs ==> (p.quote == JPY <==> p.pair in JPY_PAIRS)
  {
    PairsFitTheirIndex();
    PairBases();
    YenQuotedPairsOfGroups(FOREX_PAIRS);
  }

  /** Each of JPY_PAIRS is a pair of the taxonomy. */
  lemma JpyPairsAreListed()
    ensures forall s :: s in JPY_PAIRS ==> exists g, p :: g in FOREX_PAIRS && p in g.pairs && p.pair == s
  {
    forall s | s in JPY_PAIRS
      ensures exists g, p :: g in FOREX_PAIRS && p in g.pairs && p.pair == s
    {
      var k :| 0 <= k < 5 && JPY_PAIRS[k] == s;
      var (gk, pk) := if k == 0 then (0, 1) else if k == 1 then (1, 1)
                      else if k == 2 then (2, 0) else if k == 3 then (3, 0) else (4, 2);
      var g := FOREX_PAIRS[gk];
      assert g in FOREX_PAIRS && g.pairs[pk] in g.pairs;
    }
  }
}
