/**
 * Reference data of the dashboard: the closed set of currencies, the
 * per-currency correlation record and its initial table, the fixed pair
 * taxonomy grouped by index currency, and the label and bias enumerations.
 */
module Constants {

  /** The closed set of currencies; GOLD stands for the metal. */
  datatype Currency = EUR | USD | JPY | GBP | NZD | AUD | CAD | GOLD

  /** Every currency, in the order of the initial correlation table. */
  const CURRENCIES: seq<Currency> := [EUR, USD, JPY, GBP, NZD, AUD, CAD, GOLD]

  /** The currency's identifier as the source spells it. */
  function Id(c: Currency): string
  {
    match c
    case EUR => "EUR"
    case USD => "USD"
    case JPY => "JPY"
    case GBP => "GBP"
    case NZD => "NZD"
    case AUD => "AUD"
    case CAD => "CAD"
    case GOLD => "GOLD"
  }

  /** The three-letter code a currency contributes to a pair symbol: GOLD is "XAU". */
  function Code(c: Currency): string
  {
    if c == GOLD then "XAU" else Id(c)
  }

  /** One currency's three timeframe readings: daily, 4-hour and 1-hour. */
  datatype Correlation = Correlation(id: Currency, d1: real, h4: real, h1: real)

  /** The table a session starts from: one zeroed row per currency. */
  const INITIAL_CORRELATION_DATA: seq<Correlation> := [
    Correlation(EUR, 0.0, 0.0, 0.0),
    Correlation(USD, 0.0, 0.0, 0.0),
    Correlation(JPY, 0.0, 0.0, 0.0),
    Correlation(GBP, 0.0, 0.0, 0.0),
    Correlation(NZD, 0.0, 0.0, 0.0),
    Correlation(AUD, 0.0, 0.0, 0.0),
    Correlation(CAD, 0.0, 0.0, 0.0),
    Correlation(GOLD, 0.0, 0.0, 0.0)
  ]

  /** A tradable pair: its symbol, base currency and quote currency. */
  datatype ForexPair = ForexPair(pair: string, base: Currency, quote: Currency)

  /** A group's index: a currency, or the synthetic metal index "XAU". */
  datatype GroupIndex = Index(currency: Currency) | XAU

  /** The text of a group index. */
  function IndexName(i: GroupIndex): string
  {
    match i
    case Index(c) => Id(c)
    case XAU => "XAU"
  }

  /** The currency a group's pairs are based on: its index currency, GOLD for XAU. */
  function IndexBase(i: GroupIndex): Currency
  {
    match i
    case Index(c) => c
    case XAU => GOLD
  }

  datatype ForexPairGroup = ForexPairGroup(index: GroupIndex, pairs: seq<ForexPair>)

  /** The fixed taxonomy of 21 pairs in six groups. */
  const FOREX_PAIRS: seq<ForexPairGroup> := [
    ForexPairGroup(Index(EUR), [
      ForexPair("EURUSD", EUR, USD),
      ForexPair("EURJPY", EUR, JPY),
      ForexPair("EURGBP", EUR, GBP),
      ForexPair("EURNZD", EUR, NZD),
      ForexPair("EURCAD", EUR, CAD),
      ForexPair("EURAUD", EUR, AUD)
    ]),
    ForexPairGroup(Index(GBP), [
      ForexPair("GBPUSD", GBP, USD),
      ForexPair("GBPJPY", GBP, JPY),
      ForexPair("GBPNZD", GBP, NZD),
      ForexPair("GBPCAD", GBP, CAD),
      ForexPair("GBPAUD", GBP, AUD)
    ]),
    ForexPairGroup(Index(USD), [
      ForexPair("USDJPY", USD, JPY),
      ForexPair("USDCAD", USD, CAD)
    ]),
    ForexPairGroup(Index(AUD), [
      ForexPair("AUDJPY", AUD, JPY),
      ForexPair("AUDNZD", AUD, NZD),
      ForexPair("AUDCAD", AUD, CAD),
      ForexPair("AUDUSD", AUD, USD)
    ]),
    ForexPairGroup(Index(NZD), [
      ForexPair("NZDCAD", NZD, CAD),
      ForexPair("NZDUSD", NZD, USD),
      ForexPair("NZDJPY", NZD, JPY)
    ]),
    ForexPairGroup(XAU, [
      ForexPair("XAUUSD", GOLD, USD)
    ])
  ]

  /** The five strength labels. */
  datatype SValue = ExtremeWeak | Weak | Neutral | Strong | ExtremeStrong

  /** The directional bias of a pair. */
  datatype Bias = BUY | SELL | NEUTRAL

  /** The pairs of the groups, group after group (`groups.flatMap(g => g.pairs)`). */
  function PairsOf(groups: seq<ForexPairGroup>): seq<ForexPair>
  {
    if groups == [] then [] else groups[0].pairs + PairsOf(groups[1..])
  }

  /** Every pair of the taxonomy, in order. */
  function AllPairs(): seq<ForexPair>
  {
    PairsOf(FOREX_PAIRS)
  }

  /** A pair is listed by `PairsOf(groups)` iff some group lists it. */
  lemma {:induction false} PairsOfMembership(groups: seq<ForexPairGroup>)
    ensures forall p :: p in PairsOf(groups) <==> exists g :: g in groups && p in g.pairs
  {
    if groups != [] {
      PairsOfMembership(groups[1..]);
      assert forall g :: g in groups <==> g == groups[0] || g in groups[1..];
    }
  }

  /** The taxonomy holds 21 pairs. */
  lemma AllPairsCount()
    ensures |AllPairs()| == 21
  {
    assert FOREX_PAIRS[1..][1..][1..][1..][1..][1..] == [];
  }

  /** The initial table has one zeroed row per currency, in the order of CURRENCIES,
      and CURRENCIES lists every currency exactly once. */
  lemma InitialDataOneZeroRowPerCurrency()
    ensures |INITIAL_CORRELATION_DATA| == |CURRENCIES| == 8
    ensures forall i :: 0 <= i < 8 ==> INITIAL_CORRELATION_DATA[i] == Correlation(CURRENCIES[i], 0.0, 0.0, 0.0)
    ensures forall c: Currency :: c in CURRENCIES
    ensures forall i, j :: 0 <= i < j < 8 ==> CURRENCIES[i] != CURRENCIES[j]
  {
    forall c: Currency ensures c in CURRENCIES {
      match c
      case EUR => assert CURRENCIES[0] == c;
      case USD => assert CURRENCIES[1] == c;
      case JPY => assert CURRENCIES[2] == c;
      case GBP => assert CURRENCIES[3] == c;
      case NZD => assert CURRENCIES[4] == c;
      case AUD => assert CURRENCIES[5] == c;
      case CAD => assert CURRENCIES[6] == c;
      case GOLD => assert CURRENCIES[7] == c;
    }
  }

  /** What the taxonomy promises of a pair listed under index `idx`: distinct
      sides, a base that is the index currency (GOLD under XAU) and a symbol
      that spells base then quote. */
  predicate PairFitsIndex(idx: GroupIndex, p: ForexPair)
  {
    && p.base != p.quote
    && p.pair == Code(p.base) + Code(p.quote)
    && p.base == IndexBase(idx)
  }

  predicate EveryPairFits(idx: GroupIndex, ps: seq<ForexPair>)
  {
    ps == [] || (PairFitsIndex(idx, ps[0]) && EveryPairFits(idx, ps[1..]))
  }

  lemma {:induction false} EveryPairFitsEach(idx: GroupIndex, ps: seq<ForexPair>)
    requires EveryPairFits(idx, ps)
    ensures forall p :: p in ps ==> PairFitsIndex(idx, p)
  {
    if ps != [] {
      EveryPairFitsEach(idx, ps[1..]);
    }
  }

  /** What is checked of one group on the literal taxonomy. */
  predicate GroupChecks(g: ForexPairGroup)
  {
    EveryPairFits(g.index, g.pairs) && QuotesDistinct(g.pairs)
  }

  /* The six groups, checked one at a time on the literal taxonomy. */
  lemma EurGroupFits() ensures EveryPairFits(FOREX_PAIRS[0].index, FOREX_PAIRS[0].pairs) {}
  lemma EurQuotesDistinct() ensures QuotesDistinct(FOREX_PAIRS[0].pairs) {}
  lemma GbpGroupFits() ensures EveryPairFits(FOREX_PAIRS[1].index, FOREX_PAIRS[1].pairs) {}
  lemma GbpQuotesDistinct() ensures QuotesDistinct(FOREX_PAIRS[1].pairs) {}
  lemma UsdGroupFits() ensures EveryPairFits(FOREX_PAIRS[2].index, FOREX_PAIRS[2].pairs) {}
  lemma UsdQuotesDistinct() ensures QuotesDistinct(FOREX_PAIRS[2].pairs) {}
  lemma AudGroupFits() ensures EveryPairFits(FOREX_PAIRS[3].index, FOREX_PAIRS[3].pairs) {}
  lemma AudQuotesDistinct() ensures QuotesDistinct(FOREX_PAIRS[3].pairs) {}
  lemma NzdGroupFits() ensures EveryPairFits(FOREX_PAIRS[4].index, FOREX_PAIRS[4].pairs) {}
  lemma NzdQuotesDistinct() ensures QuotesDistinct(FOREX_PAIRS[4].pairs) {}
  lemma XauGroupFits() ensures EveryPairFits(FOREX_PAIRS[5].index, FOREX_PAIRS[5].pairs) {}
  lemma XauQuotesDistinct() ensures QuotesDistinct(FOREX_PAIRS[5].pairs) {}

  lemma EveryGroupChecks()
    ensures forall g :: g in FOREX_PAIRS ==> GroupChecks(g)
  {
    forall k | 0 <= k < |FOREX_PAIRS| ensures GroupChecks(FOREX_PAIRS[k]) {
      if k == 0 { EurGroupFits(); EurQuotesDistinct(); }
      else if k == 1 { GbpGroupFits(); GbpQuotesDistinct(); }
      else if k == 2 { UsdGroupFits(); UsdQuotesDistinct(); }
      else if k == 3 { AudGroupFits(); AudQuotesDistinct(); }
      else if k == 4 { NzdGroupFits(); NzdQuotesDistinct(); }
      else { XauGroupFits(); XauQuotesDistinct(); }
    }
  }

  /** Every pair of every group fits its group's index: distinct sides, base
      equal to the index currency (GOLD under XAU), symbol = base code + quote code. */
  lemma PairsFitTheirIndex()
    ensures forall g, p :: g in FOREX_PAIRS && p in g.pairs ==> PairFitsIndex(g.index, p)
    ensures forall g :: g in FOREX_PAIRS ==> QuotesDistinct(g.pairs)
  {
    EveryGroupChecks();
    forall g, p | g in FOREX_PAIRS && p in g.pairs
      ensures PairFitsIndex(g.index, p)
    {
      EveryPairFitsEach(g.index, g.pairs);
    }
  }

  /** The six group indexes. */
  lemma GroupIndexes()
    ensures forall g :: g in FOREX_PAIRS ==> g.index in [Index(EUR), Index(GBP), Index(USD), Index(AUD), Index(NZD), XAU]
  {
  }

  /** The XAU group holds the single GOLD pair. */
  lemma XauGroupIsGold()
    ensures forall g :: g in FOREX_PAIRS && g.index == XAU ==> g.pairs == [ForexPair("XAUUSD", GOLD, USD)]
  {
  }

  /** No pair of `ps` is quoted in `c`. */
  predicate QuoteAbsent(c: Currency, ps: seq<ForexPair>)
  {
    ps == [] || (ps[0].quote != c && QuoteAbsent(c, ps[1..]))
  }

  /** The pairs of `ps` have pairwise distinct quote currencies. */
  predicate QuotesDistinct(ps: seq<ForexPair>)
  {
    ps == [] || (QuoteAbsent(ps[0].quote, ps[1..]) && QuotesDistinct(ps[1..]))
  }

  /** No group of `groups` is based on `c`. */
  predicate BaseAbsent(c: Currency, groups: seq<ForexPairGroup>)
  {
    groups == [] || (IndexBase(groups[0].index) != c && BaseAbsent(c, groups[1..]))
  }

  /** The groups of `groups` are based on pairwise distinct currencies. */
  predicate BasesDistinct(groups: seq<ForexPairGroup>)
  {
    groups == [] || (BaseAbsent(IndexBase(groups[0].index), groups[1..]) && BasesDistinct(groups[1..]))
  }

  lemma {:induction false} QuoteAbsentEach(c: Currency, ps: seq<ForexPair>)
    requires QuoteAbsent(c, ps)
    ensures forall p :: p in ps ==> p.quote != c
  {
    if ps != [] {
      QuoteAbsentEach(c, ps[1..]);
    }
  }

  lemma {:induction false} BaseAbsentEach(c: Currency, groups: seq<ForexPairGroup>)
    requires BaseAbsent(c, groups)
    ensures forall g :: g in groups ==> IndexBase(g.index) != c
  {
    if groups != [] {
      BaseAbsentEach(c, groups[1..]);
    }
  }

  /** The currencies the taxonomy's non-metal pairs are based on. */
  const PAIR_BASES: seq<Currency> := [EUR, GBP, USD, AUD, NZD]

  lemma {:induction false} BasesOfFittingGroups(groups: seq<ForexPairGroup>)
    requires forall g, p :: g in groups && p in g.pairs ==> PairFitsIndex(g.index, p)
    requires forall g :: g in groups ==> g.index in [Index(EUR), Index(GBP), Index(USD), Index(AUD), Index(NZD), XAU]
    requires forall g :: g in groups && g.index == XAU ==> g.pairs == [ForexPair("XAUUSD", GOLD, USD)]
    ensures forall g, p :: g in groups && p in g.pairs ==> p.base in PAIR_BASES || p == ForexPair("XAUUSD", GOLD, USD)
  {
    forall g, p | g in groups && p in g.pairs
      ensures p.base in PAIR_BASES || p == ForexPair("XAUUSD", GOLD, USD)
    {
      assert PairFitsIndex(g.index, p);
    }
  }

  /** Every pair is based on one of five currencies, except the single GOLD pair XAUUSD. */
  lemma PairBases()
    ensures forall g, p :: g in FOREX_PAIRS && p in g.pairs ==> p.base in PAIR_BASES || p == ForexPair("XAUUSD", GOLD, USD)
  {
    PairsFitTheirIndex();
    GroupIndexes();
    XauGroupIsGold();
    BasesOfFittingGroups(FOREX_PAIRS);
  }

  /** Codes are three capital letters. */
  lemma CodeIsThreeCapitals(c: Currency)
    ensures |Code(c)| == 3 && forall i :: 0 <= i < 3 ==> 'A' <= Code(c)[i] <= 'Z'
  {
  }

  /** Codes are three letters long, so a symbol splits back into its two codes. */
  lemma CodesDetermineSides(a: Currency, b: Currency, c: Currency, d: Currency)
    requires Code(a) + Code(b) == Code(c) + Code(d)
    ensures a == c && b == d
  {
    var s := Code(a) + Code(b);
    assert s[..3] == Code(a) && s[3..] == Code(b);
    assert (Code(c) + Code(d))[..3] == Code(c) && (Code(c) + Code(d))[3..] == Code(d);
  }

  /** The symbols of `ps` are pairwise distinct. */
  ghost predicate DistinctSymbols(ps: seq<ForexPair>)
  {
    forall i, j :: 0 <= i < j < |ps| ==> ps[i].pair != ps[j].pair
  }

  lemma DistinctSymbolsAppend(a: seq<ForexPair>, b: seq<ForexPair>)
    requires DistinctSymbols(a) && DistinctSymbols(b)
    requires forall p, q :: p in a && q in b ==> p.pair != q.pair
    ensures DistinctSymbols(a + b)
  {
    var ab := a + b;
    forall i, j | 0 <= i < j < |ab| ensures ab[i].pair != ab[j].pair {
      if j < |a| {
        assert ab[i] == a[i] && ab[j] == a[j];
      } else if i >= |a| {
        assert ab[i] == b[i - |a|] && ab[j] == b[j - |a|];
      } else {
        assert ab[i] == a[i] && ab[j] == b[j - |a|];
      }
    }
  }

  /** Inside one group, pairs that fit the index and have distinct quotes have
      distinct symbols. */
  lemma {:induction false} GroupSymbolsDistinct(idx: GroupIndex, ps: seq<ForexPair>)
    requires forall p :: p in ps ==> PairFitsIndex(idx, p)
    requires QuotesDistinct(ps)
    ensures DistinctSymbols(ps)
  {
    if ps != [] {
      GroupSymbolsDistinct(idx, ps[1..]);
      QuoteAbsentEach(ps[0].quote, ps[1..]);
      forall q | q in ps[1..] ensures ps[0].pair != q.pair {
        assert ps[0] in ps && q in ps;
        if ps[0].pair == q.pair {
          CodesDetermineSides(ps[0].base, ps[0].quote, q.base, q.quote);
        }
      }
      assert ps == [ps[0]] + ps[1..];
      DistinctSymbolsAppend([ps[0]], ps[1..]);
    }
  }

  /** Groups whose pairs fit their index, with distinct quotes inside each group and
      distinct bases across groups, list pairwise distinct symbols. */
  lemma {:induction false} DistinctSymbolsOfGroups(groups: seq<ForexPairGroup>)
    requires forall g, p :: g in groups && p in g.pairs ==> PairFitsIndex(g.index, p)
    requires forall g :: g in groups ==> QuotesDistinct(g.pairs)
    requires BasesDistinct(groups)
    ensures DistinctSymbols(PairsOf(groups))
  {
    if groups != [] {
      var g, rest := groups[0], groups[1..];
      assert g in groups;
      DistinctSymbolsOfGroups(rest);
      GroupSymbolsDistinct(g.index, g.pairs);
      PairsOfMembership(rest);
      BaseAbsentEach(IndexBase(g.index), rest);
      forall p, q | p in g.pairs && q in PairsOf(rest) ensures p.pair != q.pair {
        var h :| h in rest && q in h.pairs;
        assert h in groups;
        if p.pair == q.pair {
          CodesDetermineSides(p.base, p.quote, q.base, q.quote);
        }
      }
      DistinctSymbolsAppend(g.pairs, PairsOf(rest));
    }
  }

  /** The groups are based on distinct currencies, evaluated on the literal taxonomy. */
  lemma GroupBasesDistinct()
    ensures BasesDistinct(FOREX_PAIRS)
  {
  }

  /** The 21 pair symbols of the taxonomy are pairwise distinct. */
  lemma PairSymbolsDistinct()
    ensures DistinctSymbols(AllPairs())
  {
    PairsFitTheirIndex();
    GroupBasesDistinct();
    DistinctSymbolsOfGroups(FOREX_PAIRS);
  }
}
