/**
 * The non-rendering logic of the trade insights dashboard: the keyed edit of
 * one correlation reading, the views derived from the correlation table
 * (scores and labels, the "any value entered" flag, the pairs with their
 * bias, the currency and pair filters, the flattened insight input) and the
 * four-tab navigation with its gate on entered values.
 */
module TradeInsightsDashboard {
  import opened Constants
  import opened TradeUtils
  import opened JsStrings

  datatype Option<T> = None | Some(value: T)

  // ---------------------------------------------------------------------
  // Editing one reading (`handleCorrelationChange`)
  // ---------------------------------------------------------------------

  /** The editable readings of a correlation row: daily, 4-hour and 1-hour. */
  datatype Field = D1 | H4 | H1

  function Get(row: Correlation, field: Field): real
  {
    match field
    case D1 => row.d1
    case H4 => row.h4
    case H1 => row.h1
  }

  function SetField(row: Correlation, field: Field, v: real): Correlation
  {
    match field
    case D1 => row.(d1 := v)
    case H4 => row.(h4 := v)
    case H1 => row.(h1 := v)
  }

  /** The number an input string stands for: the empty string is 0, anything
      else is what `parseFloat` made of it (`parsed`, None when it is NaN). */
  function NumericValue(value: string, parsed: Option<real>): Option<real>
  {
    if value == "" then Some(0.0) else parsed
  }

  /** The table after the reading `field` of currency `id` was set from the
      input `value`; a NaN input leaves the table as it was. */
  function CorrelationAfterChange(data: seq<Correlation>, id: Currency, field: Field,
                                  value: string, parsed: Option<real>): (r: seq<Correlation>)
    ensures |r| == |data|
    ensures NumericValue(value, parsed) == None ==> r == data
    ensures forall i :: 0 <= i < |data| ==> r[i].id == data[i].id
    ensures forall i :: 0 <= i < |data| && data[i].id != id ==> r[i] == data[i]
    ensures forall i, f :: 0 <= i < |data| && f != field ==> Get(r[i], f) == Get(data[i], f)
    ensures value == "" ==> forall i :: 0 <= i < |data| && data[i].id == id ==> Get(r[i], field) == 0.0
    ensures value != "" && parsed.Some? ==>
              forall i :: 0 <= i < |data| && data[i].id == id ==> Get(r[i], field) == parsed.value
  {
    match NumericValue(value, parsed)
    case None => data
    case Some(v) =>
      seq(|data|, i requires 0 <= i < |data| =>
        if data[i].id == id then SetField(data[i], field, v) else data[i])
  }

  /** Applying the same edit twice has the effect of applying it once. */
  lemma CorrelationChangeIdempotent(data: seq<Correlation>, id: Currency, field: Field,
                                    value: string, parsed: Option<real>)
    ensures var once := CorrelationAfterChange(data, id, field, value, parsed);
            CorrelationAfterChange(once, id, field, value, parsed) == once
  {
    var once := CorrelationAfterChange(data, id, field, value, parsed);
    var twice := CorrelationAfterChange(once, id, field, value, parsed);
    assert forall i :: 0 <= i < |once| ==> twice[i] == once[i];
  }

  /** Editing a reading back to the value it had restores the table. */
  lemma CorrelationChangeUndone(data: seq<Correlation>, id: Currency, field: Field,
                                v: real, value: string, parsed: Option<real>)
    requires forall i :: 0 <= i < |data| && data[i].id == id ==> Get(data[i], field) == v
    requires NumericValue(value, parsed) == Some(v)
    ensures CorrelationAfterChange(data, id, field, value, parsed) == data
  {
    var r := CorrelationAfterChange(data, id, field, value, parsed);
    forall i | 0 <= i < |data|
      ensures r[i] == data[i]
    {
      if data[i].id == id {
        match field
        case D1 => assert r[i].d1 == data[i].d1;
        case H4 => assert r[i].h4 == data[i].h4;
        case H1 => assert r[i].h1 == data[i].h1;
      }
    }
  }

  // ---------------------------------------------------------------------
  // The scored table (`correlationTableData`) and `hasCorrelationValues`
  // ---------------------------------------------------------------------

  /** A correlation row with its strength score and label. */
  datatype CorrelationRow = CorrelationRow(corr: Correlation, t: real, s: SValue)

  function Scored(corr: Correlation): CorrelationRow
  {
    var t := CalculateT(corr.d1, corr.h4, corr.h1);
    CorrelationRow(corr, t, CalculateS(t))
  }

  /** `correlationTableData`: every row of the table with its score and label. */
  function CorrelationTableData(data: seq<Correlation>): (rows: seq<CorrelationRow>)
    ensures |rows| == |data|
    ensures forall i :: 0 <= i < |data| ==>
              rows[i].corr == data[i] && rows[i].t == data[i].d1 + data[i].h4 + data[i].h1
    ensures forall i :: 0 <= i < |data| ==> rows[i].s == CalculateS(rows[i].t)
    ensures forall i :: 0 <= i < |data| ==>
              (rows[i].s == Neutral <==> -1.0 < rows[i].t < 1.0) &&
              (IsStrong(rows[i].s) <==> rows[i].t >= 1.0) &&
              (IsWeak(rows[i].s) <==> rows[i].t <= -1.0)
  {
    seq(|data|, i requires 0 <= i < |data| => Scored(data[i]))
  }

  /** `hasCorrelationValues`: some row has a non-zero score (`.some(c => c.t !== 0)`). */
  function HasCorrelationValues(rows: seq<CorrelationRow>): (b: bool)
    ensures b <==> exists i :: 0 <= i < |rows| && rows[i].t != 0.0
  {
    if rows == [] then false
    else if rows[0].t != 0.0 then true
    else
      var rest := HasCorrelationValues(rows[1..]);
      assert forall i :: 1 <= i < |rows| ==> rows[i] == rows[1..][i - 1];
      rest
  }

  /** The flag speaks of the readings: some currency's readings do not sum to zero. */
  lemma HasCorrelationValuesOfData(data: seq<Correlation>)
    ensures HasCorrelationValues(CorrelationTableData(data)) <==>
            exists i :: 0 <= i < |data| && data[i].d1 + data[i].h4 + data[i].h1 != 0.0
  {
    var rows := CorrelationTableData(data);
    if i :| 0 <= i < |data| && data[i].d1 + data[i].h4 + data[i].h1 != 0.0 {
      assert rows[i].t != 0.0;
    }
  }

  /** An edit leaves the scored rows of every other currency as they were, and
      moves the score of the edited currency by the change of the reading. */
  lemma CorrelationChangeRescoresOneCurrency(data: seq<Correlation>, id: Currency, field: Field,
                                             value: string, parsed: Option<real>, i: int)
    requires 0 <= i < |data|
    requires NumericValue(value, parsed).Some?
    ensures var before := CorrelationTableData(data);
            var after := CorrelationTableData(CorrelationAfterChange(data, id, field, value, parsed));
            (data[i].id != id ==> after[i] == before[i]) &&
            (data[i].id == id ==>
               after[i].t == before[i].t - Get(data[i], field) + NumericValue(value, parsed).value)
  {
    var changed := CorrelationAfterChange(data, id, field, value, parsed);
    if data[i].id == id {
      match field
      case D1 =>
        assert Get(changed[i], H4) == data[i].h4 && Get(changed[i], H1) == data[i].h1;
      case H4 =>
        assert Get(changed[i], D1) == data[i].d1 && Get(changed[i], H1) == data[i].h1;
      case H1 =>
        assert Get(changed[i], D1) == data[i].d1 && Get(changed[i], H4) == data[i].h4;
    }
  }

  /** On the initial table every score is 0, every label Neutral, and the
      flag is down. */
  lemma InitialTableIsNeutral()
    ensures var rows := CorrelationTableData(INITIAL_CORRELATION_DATA);
            |rows| == 8 &&
            (forall i :: 0 <= i < |rows| ==> rows[i].t == 0.0 && rows[i].s == Neutral) &&
            !HasCorrelationValues(rows)
  {
    InitialDataOneZeroRowPerCurrency();
  }

  // ---------------------------------------------------------------------
  // Pairs with their bias (`forexPairsWithBiasByGroup`)
  // ---------------------------------------------------------------------

  /** `new Map(rows.map(c => [c.id, c.s]))`: entries are entered in order. */
  function SValueMap(rows: seq<CorrelationRow>): map<Currency, SValue>
    decreases |rows|
  {
    if rows == [] then map[]
    else SValueMap(rows[..|rows| - 1])[rows[|rows| - 1].corr.id := rows[|rows| - 1].s]
  }

  /** The map has a key for every id of the table and no other. */
  lemma {:induction false} SValueMapKeys(rows: seq<CorrelationRow>)
    ensures forall c :: c in SValueMap(rows) <==> exists i :: 0 <= i < |rows| && rows[i].corr.id == c
    decreases |rows|
  {
    if rows != [] {
      var n := |rows| - 1;
      var init := rows[..n];
      SValueMapKeys(init);
      assert SValueMap(rows) == SValueMap(init)[rows[n].corr.id := rows[n].s];
      forall i | 0 <= i < |rows|
        ensures rows[i].corr.id in SValueMap(rows)
      {
        if i < n {
          assert init[i] == rows[i];
        }
      }
      forall c | c in SValueMap(rows) && c != rows[n].corr.id
        ensures exists i :: 0 <= i < |rows| && rows[i].corr.id == c
      {
        assert c in SValueMap(init);
        var i :| 0 <= i < n && init[i].corr.id == c;
        assert rows[i].corr.id == c;
      }
    }
  }

  /** For a repeated id the last row wins: a row with no later row of the
      same id gives the map's value for that id. */
  lemma {:induction false} SValueMapLastWins(rows: seq<CorrelationRow>, i: int)
    requires 0 <= i < |rows|
    requires forall j :: i < j < |rows| ==> rows[j].corr.id != rows[i].corr.id
    ensures rows[i].corr.id in SValueMap(rows) && SValueMap(rows)[rows[i].corr.id] == rows[i].s
    decreases |rows|
  {
    var n := |rows| - 1;
    if i < n {
      var init := rows[..n];
      assert init[i] == rows[i];
      assert forall j :: i < j < n ==> init[j] == rows[j];
      SValueMapLastWins(init, i);
    }
  }

  /** `sValueMap.get(c) ?? 'Neutral'` */
  function LookupS(m: map<Currency, SValue>, c: Currency): SValue
  {
    if c in m then m[c] else Neutral
  }

  /** The label looked up for a currency is that of its row when it has exactly
      one, and Neutral when it has none. */
  lemma LookupInTable(data: seq<Correlation>, c: Currency)
    ensures var m := SValueMap(CorrelationTableData(data));
            (forall i :: (0 <= i < |data| && data[i].id == c &&
               (forall j :: 0 <= j < |data| && j != i ==> data[j].id != c)) ==>
               LookupS(m, c) == CalculateS(data[i].d1 + data[i].h4 + data[i].h1)) &&
            ((forall i :: 0 <= i < |data| ==> data[i].id != c) ==> LookupS(m, c) == Neutral)
  {
    var rows := CorrelationTableData(data);
    forall i | 0 <= i < |data| && data[i].id == c &&
               (forall j :: 0 <= j < |data| && j != i ==> data[j].id != c)
      ensures LookupS(SValueMap(rows), c) == CalculateS(data[i].d1 + data[i].h4 + data[i].h1)
    {
      assert forall j :: i < j < |rows| ==> rows[j].corr.id != rows[i].corr.id;
      SValueMapLastWins(rows, i);
    }
    if forall i :: 0 <= i < |data| ==> data[i].id != c {
      SValueMapKeys(rows);
      assert forall i :: 0 <= i < |rows| ==> rows[i].corr.id != c;
    }
  }

  /** A pair of the taxonomy with the labels of its two currencies and its bias. */
  datatype PairWithBias = PairWithBias(pair: string, base: Currency, quote: Currency,
                                       bias: Bias, sBase: SValue, sQuote: SValue)

  datatype GroupWithBias = GroupWithBias(index: GroupIndex, pairs: seq<PairWithBias>)

  function WithBias(p: ForexPair, m: map<Currency, SValue>): PairWithBias
  {
    var sBase := LookupS(m, p.base);
    var sQuote := LookupS(m, p.quote);
    PairWithBias(p.pair, p.base, p.quote, CalculateBias(sBase, sQuote), sBase, sQuote)
  }

  /** The pair a biased pair was made from. */
  function PairOf(q: PairWithBias): ForexPair
  {
    ForexPair(q.pair, q.base, q.quote)
  }

  function GroupOf(g: GroupWithBias): ForexPairGroup
  {
    ForexPairGroup(g.index, seq(|g.pairs|, j requires 0 <= j < |g.pairs| => PairOf(g.pairs[j])))
  }

  /** The groups the biased groups were made from. */
  function GroupsOf(gs: seq<GroupWithBias>): seq<ForexPairGroup>
  {
    seq(|gs|, k requires 0 <= k < |gs| => GroupOf(gs[k]))
  }

  /** Every pair of every group gets the labels of its currencies from `m`
      (Neutral when missing) and the bias of those labels; dropping them again
      gives back the groups, so order, count, indexes and pairs are kept. */
  function GroupsWithBias(groups: seq<ForexPairGroup>, m: map<Currency, SValue>): (r: seq<GroupWithBias>)
    ensures GroupsOf(r) == groups
    ensures |r| == |groups|
    ensures forall k :: 0 <= k < |r| ==> |r[k].pairs| == |groups[k].pairs|
    ensures forall k, j :: 0 <= k < |r| && 0 <= j < |r[k].pairs| ==>
              r[k].pairs[j].sBase == LookupS(m, groups[k].pairs[j].base) &&
              r[k].pairs[j].sQuote == LookupS(m, groups[k].pairs[j].quote) &&
              r[k].pairs[j].bias == CalculateBias(r[k].pairs[j].sBase, r[k].pairs[j].sQuote)
  {
    var r := seq(|groups|, k requires 0 <= k < |groups| =>
      GroupWithBias(groups[k].index,
        seq(|groups[k].pairs|, j requires 0 <= j < |groups[k].pairs| => WithBias(groups[k].pairs[j], m))));
    forall k | 0 <= k < |groups|
      ensures GroupOf(r[k]) == groups[k]
    {
      assert GroupOf(r[k]).pairs == groups[k].pairs;
    }
    r
  }

  /** `forexPairsWithBiasByGroup`: the taxonomy with the labels of the scored table. */
  function ForexPairsWithBiasByGroup(rows: seq<CorrelationRow>): (r: seq<GroupWithBias>)
    ensures GroupsOf(r) == FOREX_PAIRS
  {
    GroupsWithBias(FOREX_PAIRS, SValueMap(rows))
  }

  /** When every row is labelled Neutral, every pair has two Neutral labels and
      a NEUTRAL bias. */
  lemma {:induction false} AllNeutralGivesNeutralBias(rows: seq<CorrelationRow>, groups: seq<ForexPairGroup>)
    requires forall i :: 0 <= i < |rows| ==> rows[i].s == Neutral
    ensures var r := GroupsWithBias(groups, SValueMap(rows));
            forall k, j :: 0 <= k < |r| && 0 <= j < |r[k].pairs| ==>
              r[k].pairs[j].sBase == Neutral && r[k].pairs[j].sQuote == Neutral &&
              r[k].pairs[j].bias == NEUTRAL
  {
    var m := SValueMap(rows);
    SValueMapKeys(rows);
    forall c | c in m
      ensures m[c] == Neutral
    {
      var i :| 0 <= i < |rows| && rows[i].corr.id == c;
      var last := LastWith(rows, c, i);
    }
  }

  /** The last row with id `c`, at or after a row `i` known to have it. */
  lemma LastWith(rows: seq<CorrelationRow>, c: Currency, i: int) returns (last: int)
    requires 0 <= i < |rows| && rows[i].corr.id == c
    ensures i <= last < |rows| && rows[last].corr.id == c
    ensures forall j :: last < j < |rows| ==> rows[j].corr.id != c
    ensures c in SValueMap(rows) && SValueMap(rows)[c] == rows[last].s
    decreases |rows| - i
  {
    if j :| i < j < |rows| && rows[j].corr.id == c {
      last := LastWith(rows, c, j);
    } else {
      last := i;
      SValueMapLastWins(rows, i);
    }
  }

  /** On the initial table every pair of the taxonomy is NEUTRAL. */
  lemma InitialBiasIsNeutral()
    ensures var r := ForexPairsWithBiasByGroup(CorrelationTableData(INITIAL_CORRELATION_DATA));
            forall k, j :: 0 <= k < |r| && 0 <= j < |r[k].pairs| ==>
              r[k].pairs[j].sBase == Neutral && r[k].pairs[j].sQuote == Neutral &&
              r[k].pairs[j].bias == NEUTRAL
  {
    var rows := CorrelationTableData(INITIAL_CORRELATION_DATA);
    InitialTableIsNeutral();
    AllNeutralGivesNeutralBias(rows, FOREX_PAIRS);
    assert ForexPairsWithBiasByGroup(rows) == GroupsWithBias(FOREX_PAIRS, SValueMap(rows));
  }

  /** On a table with one row per currency, every pair carries the labels of
      its two currencies' rows and the bias of those labels. */
  lemma PairLabelsFromRows(data: seq<Correlation>, groups: seq<ForexPairGroup>, k: int, j: int, ib: int, iq: int)
    requires Keyed(data)
    requires 0 <= k < |groups| && 0 <= j < |groups[k].pairs|
    requires 0 <= ib < |data| && data[ib].id == groups[k].pairs[j].base
    requires 0 <= iq < |data| && data[iq].id == groups[k].pairs[j].quote
    ensures var q := GroupsWithBias(groups, SValueMap(CorrelationTableData(data)))[k].pairs[j];
            q.sBase == CalculateS(data[ib].d1 + data[ib].h4 + data[ib].h1) &&
            q.sQuote == CalculateS(data[iq].d1 + data[iq].h4 + data[iq].h1) &&
            q.bias == CalculateBias(q.sBase, q.sQuote)
  {
    LookupInTable(data, data[ib].id);
    LookupInTable(data, data[iq].id);
  }

  /** A table whose ids follow CURRENCIES is keyed. */
  lemma KeyedByCurrencies(data: seq<Correlation>)
    requires |data| == |CURRENCIES|
    requires forall i :: 0 <= i < |data| ==> data[i].id == CURRENCIES[i]
    ensures Keyed(data)
  {
    InitialDataOneZeroRowPerCurrency();
  }

  /** A worked case: EUR read 3, 2, 2 (T = 7) and USD read -2, -1, -1 (T = -4)
      label EUR Extreme Strong and USD Extreme Weak, so EURUSD, the first pair
      of the taxonomy, is a BUY. */
  lemma EurUsdScenario()
    ensures var data := [Correlation(EUR, 3.0, 2.0, 2.0), Correlation(USD, -2.0, -1.0, -1.0)]
                        + INITIAL_CORRELATION_DATA[2..];
            var r := ForexPairsWithBiasByGroup(CorrelationTableData(data));
            r[0].pairs[0].pair == "EURUSD" &&
            r[0].pairs[0].sBase == ExtremeStrong && r[0].pairs[0].sQuote == ExtremeWeak &&
            r[0].pairs[0].bias == BUY
  {
    var data := [Correlation(EUR, 3.0, 2.0, 2.0), Correlation(USD, -2.0, -1.0, -1.0)]
                + INITIAL_CORRELATION_DATA[2..];
    InitialDataOneZeroRowPerCurrency();
    KeyedByCurrencies(data);
    var eurUsd := FOREX_PAIRS[0].pairs[0];
    assert eurUsd == ForexPair("EURUSD", EUR, USD);
    PairLabelsFromRows(data, FOREX_PAIRS, 0, 0, 0, 1);
    var rows := CorrelationTableData(data);
    assert ForexPairsWithBiasByGroup(rows) == GroupsWithBias(FOREX_PAIRS, SValueMap(rows));
  }

  // ---------------------------------------------------------------------
  // The insight input (`flatMap(g => g.pairs).map(({pair, bias}) => ...)`)
  // ---------------------------------------------------------------------

  /** What the insight request is told of one pair. */
  datatype InsightPair = InsightPair(pair: string, bias: Bias)

  /** `groups.flatMap(g => g.pairs)` */
  function FlattenBiasGroups(gs: seq<GroupWithBias>): seq<PairWithBias>
  {
    if gs == [] then [] else gs[0].pairs + FlattenBiasGroups(gs[1..])
  }

  function InsightInput(gs: seq<GroupWithBias>): seq<InsightPair>
  {
    var flat := FlattenBiasGroups(gs);
    seq(|flat|, i requires 0 <= i < |flat| => InsightPair(flat[i].pair, flat[i].bias))
  }

  /** Flattening the biased groups lists the pairs of the groups, in order,
      each with the bias of its labels. */
  lemma {:induction false} FlattenGroupsWithBias(groups: seq<ForexPairGroup>, m: map<Currency, SValue>)
    ensures var flat := FlattenBiasGroups(GroupsWithBias(groups, m));
            |flat| == |PairsOf(groups)| &&
            forall i :: 0 <= i < |flat| ==> flat[i] == WithBias(PairsOf(groups)[i], m)
    decreases |groups|
  {
    if groups != [] {
      FlattenGroupsWithBias(groups[1..], m);
      GroupsWithBiasSplit(groups, m);
      var head := GroupsWithBias(groups, m)[0].pairs;
      var rest := FlattenBiasGroups(GroupsWithBias(groups[1..], m));
      var flat := FlattenBiasGroups(GroupsWithBias(groups, m));
      assert flat == head + rest;
      assert PairsOf(groups) == groups[0].pairs + PairsOf(groups[1..]);
      forall i | 0 <= i < |flat|
        ensures flat[i] == WithBias(PairsOf(groups)[i], m)
      {
        if i >= |head| {
          assert flat[i] == rest[i - |head|];
        }
      }
    }
  }

  /** The first biased group is the first group's pairs with their bias, and
      the rest are the biased rest. */
  lemma GroupsWithBiasSplit(groups: seq<ForexPairGroup>, m: map<Currency, SValue>)
    requires groups != []
    ensures var r := GroupsWithBias(groups, m);
            |r[0].pairs| == |groups[0].pairs| &&
            (forall j :: 0 <= j < |groups[0].pairs| ==> r[0].pairs[j] == WithBias(groups[0].pairs[j], m)) &&
            r[1..] == GroupsWithBias(groups[1..], m)
  {
  }

  /** The insight input built from biased groups lists the pairs of the
      groups, in order, each with its symbol and the bias of its currencies'
      looked-up labels. */
  lemma InsightInputOfGroups(groups: seq<ForexPairGroup>, m: map<Currency, SValue>)
    ensures var input := InsightInput(GroupsWithBias(groups, m));
            |input| == |PairsOf(groups)| &&
            forall i :: 0 <= i < |input| ==>
              input[i].pair == PairsOf(groups)[i].pair &&
              input[i].bias == CalculateBias(LookupS(m, PairsOf(groups)[i].base), LookupS(m, PairsOf(groups)[i].quote))
  {
    FlattenGroupsWithBias(groups, m);
  }

  /** The insight input has one entry per pair of the taxonomy, 21 in all, in
      taxonomy order, each carrying the pair's symbol and the bias of its
      currencies' labels. */
  lemma InsightInputOfTable(rows: seq<CorrelationRow>)
    ensures var input := InsightInput(ForexPairsWithBiasByGroup(rows));
            var m := SValueMap(rows);
            |input| == 21 &&
            forall i :: 0 <= i < 21 ==>
              input[i].pair == AllPairs()[i].pair &&
              input[i].bias == CalculateBias(LookupS(m, AllPairs()[i].base), LookupS(m, AllPairs()[i].quote))
  {
    AllPairsCount();
    InsightInputOfGroups(FOREX_PAIRS, SValueMap(rows));
  }

  // ---------------------------------------------------------------------
  // Filters (`filteredCurrencies`, `filteredPairGroups`)
  // ---------------------------------------------------------------------

  /** `c.id.toLowerCase().includes(currencyFilter.toLowerCase())` */
  predicate CurrencyMatches(row: CorrelationRow, filter: string)
  {
    Includes(ToLowerCase(Id(row.corr.id)), ToLowerCase(filter))
  }

  /** `filteredCurrencies`: the rows whose currency id contains the filter, in order. */
  function FilteredCurrencies(rows: seq<CorrelationRow>, filter: string): (r: seq<CorrelationRow>)
    ensures |r| <= |rows|
    ensures forall x :: x in r <==> x in rows && CurrencyMatches(x, filter)
  {
    if rows == [] then []
    else if CurrencyMatches(rows[0], filter) then [rows[0]] + FilteredCurrencies(rows[1..], filter)
    else FilteredCurrencies(rows[1..], filter)
  }

  /** The empty filter keeps every row. */
  lemma {:induction false} FilteredCurrenciesEmptyFilter(rows: seq<CorrelationRow>)
    ensures FilteredCurrencies(rows, "") == rows
    decreases |rows|
  {
    if rows != [] {
      IncludesEmpty(ToLowerCase(Id(rows[0].corr.id)));
      FilteredCurrenciesEmptyFilter(rows[1..]);
      assert [rows[0]] + rows[1..] == rows;
    }
  }

  /** The currency filter keeps order and multiplicity: filtering a
      concatenation filters each part and concatenates the results. */
  lemma {:induction false} FilteredCurrenciesAppend(a: seq<CorrelationRow>, b: seq<CorrelationRow>, filter: string)
    ensures FilteredCurrencies(a + b, filter) == FilteredCurrencies(a, filter) + FilteredCurrencies(b, filter)
    decreases |a|
  {
    if a == [] {
      assert a + b == b;
    } else {
      assert (a + b)[0] == a[0];
      assert (a + b)[1..] == a[1..] + b;
      FilteredCurrenciesAppend(a[1..], b, filter);
    }
  }

  /** One row is kept exactly when its currency matches the filter. */
  lemma FilteredCurrenciesSingle(x: CorrelationRow, filter: string)
    ensures FilteredCurrencies([x], filter) == if CurrencyMatches(x, filter) then [x] else []
  {
    assert [x][1..] == [];
  }

  /** `p.pair.toLowerCase().includes(pairFilter.toLowerCase())` */
  predicate PairMatches(p: ForexPair, filter: string)
  {
    Includes(ToLowerCase(p.pair), ToLowerCase(filter))
  }

  /** `group.index.toLowerCase().includes(pairFilter.toLowerCase())` */
  predicate IndexMatches(g: ForexPairGroup, filter: string)
  {
    Includes(ToLowerCase(IndexName(g.index)), ToLowerCase(filter))
  }

  /** `group.pairs.filter(...)`: the pairs whose symbol contains the filter, in order. */
  function FilterPairs(ps: seq<ForexPair>, filter: string): (r: seq<ForexPair>)
    ensures |r| <= |ps|
    ensures forall p :: p in r <==> p in ps && PairMatches(p, filter)
  {
    if ps == [] then []
    else if PairMatches(ps[0], filter) then [ps[0]] + FilterPairs(ps[1..], filter)
    else FilterPairs(ps[1..], filter)
  }

  /** The pair filter keeps order and multiplicity. */
  lemma {:induction false} FilterPairsAppend(a: seq<ForexPair>, b: seq<ForexPair>, filter: string)
    ensures FilterPairs(a + b, filter) == FilterPairs(a, filter) + FilterPairs(b, filter)
    decreases |a|
  {
    if a == [] {
      assert a + b == b;
    } else {
      assert (a + b)[0] == a[0];
      assert (a + b)[1..] == a[1..] + b;
      FilterPairsAppend(a[1..], b, filter);
    }
  }

  /** One pair is kept exactly when its symbol matches the filter. */
  lemma FilterPairsSingle(p: ForexPair, filter: string)
    ensures FilterPairs([p], filter) == if PairMatches(p, filter) then [p] else []
  {
    assert [p][1..] == [];
  }

  /** A group narrowed to its matching pairs (`{...group, pairs: ...}`). */
  function Narrowed(g: ForexPairGroup, filter: string): ForexPairGroup
  {
    ForexPairGroup(g.index, FilterPairs(g.pairs, filter))
  }

  /** Whether a narrowed group stays: it has pairs left or its index matches. */
  predicate GroupKept(g: ForexPairGroup, filter: string)
  {
    |g.pairs| > 0 || IndexMatches(g, filter)
  }

  /** The narrowing map followed by the filter on groups, in order. */
  function NarrowGroups(groups: seq<ForexPairGroup>, filter: string): (r: seq<ForexPairGroup>)
    ensures |r| <= |groups|
    ensures forall g :: g in r <==>
              exists h :: h in groups && g == Narrowed(h, filter) && GroupKept(g, filter)
  {
    if groups == [] then []
    else
      var rest := NarrowGroups(groups[1..], filter);
      var g := Narrowed(groups[0], filter);
      assert forall h :: h in groups <==> h == groups[0] || h in groups[1..];
      if GroupKept(g, filter) then [g] + rest else rest
  }

  /** Narrowing keeps the order of the groups: a concatenation narrows part by part. */
  lemma {:induction false} NarrowGroupsAppend(a: seq<ForexPairGroup>, b: seq<ForexPairGroup>, filter: string)
    ensures NarrowGroups(a + b, filter) == NarrowGroups(a, filter) + NarrowGroups(b, filter)
    decreases |a|
  {
    if a == [] {
      assert a + b == b;
    } else {
      assert (a + b)[0] == a[0];
      assert (a + b)[1..] == a[1..] + b;
      NarrowGroupsAppend(a[1..], b, filter);
    }
  }

  /** One group becomes its narrowed form when that is kept, and nothing otherwise. */
  lemma NarrowGroupsSingle(g: ForexPairGroup, filter: string)
    ensures NarrowGroups([g], filter) ==
            if GroupKept(Narrowed(g, filter), filter) then [Narrowed(g, filter)] else []
  {
    assert [g][1..] == [];
  }

  /** `filteredPairGroups` over the given groups: an empty filter returns them
      as they are; otherwise every pair left contains the filter, every group
      left has pairs or a matching index, and a group is left exactly when its
      narrowed form is kept. */
  function FilterPairGroups(groups: seq<ForexPairGroup>, filter: string): (r: seq<ForexPairGroup>)
    ensures filter == "" ==> r == groups
    ensures filter != "" ==> forall g, p :: g in r && p in g.pairs ==> p in PairsOf(groups) && PairMatches(p, filter)
    ensures filter != "" ==> forall g :: g in r ==> |g.pairs| > 0 || IndexMatches(g, filter)
    ensures filter != "" ==> forall h :: h in groups ==>
              (Narrowed(h, filter) in r <==> GroupKept(Narrowed(h, filter), filter))
  {
    if filter == "" then groups
    else
      var r := NarrowGroups(groups, filter);
      PairsOfMembership(groups);
      r
  }

  /** `filteredPairGroups` keeps the order of the groups, for every filter. */
  lemma FilterPairGroupsAppend(a: seq<ForexPairGroup>, b: seq<ForexPairGroup>, filter: string)
    ensures FilterPairGroups(a + b, filter) == FilterPairGroups(a, filter) + FilterPairGroups(b, filter)
  {
    if filter != "" {
      NarrowGroupsAppend(a, b, filter);
    }
  }

  /** A non-empty filter turns one group into its narrowed form when that is
      kept, and into nothing otherwise. */
  lemma FilterPairGroupsSingle(g: ForexPairGroup, filter: string)
    ensures FilterPairGroups([g], filter) ==
            if filter == "" || GroupKept(Narrowed(g, filter), filter) then [if filter == "" then g else Narrowed(g, filter)] else []
  {
    if filter != "" {
      NarrowGroupsSingle(g, filter);
    }
  }

  /** `filteredPairGroups` as the dashboard computes it, over the taxonomy. */
  function FilteredPairGroups(pairFilter: string): (r: seq<ForexPairGroup>)
    ensures pairFilter == "" ==> r == FOREX_PAIRS
  {
    FilterPairGroups(FOREX_PAIRS, pairFilter)
  }

  /** The pair filter is case-insensitive: an upper-cased filter picks the same pairs. */
  lemma {:induction false} FilterPairsIgnoresCase(ps: seq<ForexPair>, filter: string)
    ensures FilterPairs(ps, ToUpperCase(filter)) == FilterPairs(ps, filter)
    decreases |ps|
  {
    LowerCaseOfUpperCase(filter);
    if ps != [] {
      FilterPairsIgnoresCase(ps[1..], filter);
    }
  }

  lemma {:induction false} NarrowGroupsIgnoresCase(groups: seq<ForexPairGroup>, filter: string)
    ensures NarrowGroups(groups, ToUpperCase(filter)) == NarrowGroups(groups, filter)
    decreases |groups|
  {
    LowerCaseOfUpperCase(filter);
    if groups != [] {
      FilterPairsIgnoresCase(groups[0].pairs, filter);
      NarrowGroupsIgnoresCase(groups[1..], filter);
    }
  }

  /** `filteredPairGroups` gives the same groups for a filter and its upper-cased form. */
  lemma PairFilterIgnoresCase(groups: seq<ForexPairGroup>, filter: string)
    ensures FilterPairGroups(groups, ToUpperCase(filter)) == FilterPairGroups(groups, filter)
  {
    if filter != "" {
      assert |ToUpperCase(filter)| > 0;
      NarrowGroupsIgnoresCase(groups, filter);
    }
  }

  // ---------------------------------------------------------------------
  // Tabs
  // ---------------------------------------------------------------------

  datatype Tab = CorrelationTab | TradePlanTab | AiInsightsTab | BudgetingTab

  datatype TabEntry = TabEntry(id: Tab, tabLabel: string)

  /** The four tabs in the order the user steps through them. */
  const TABS: seq<TabEntry> := [
    TabEntry(CorrelationTab, "1. Correlation"),
    TabEntry(TradePlanTab, "2. Trade Plan"),
    TabEntry(AiInsightsTab, "3. AI Insights"),
    TabEntry(BudgetingTab, "4. Budgeting")
  ]

  /** `tabs.findIndex(t => t.id === tab)`: the first position holding `tab`, -1 if none. */
  function FindIndex(tabs: seq<TabEntry>, tab: Tab): (i: int)
    ensures -1 <= i < |tabs|
    ensures i == -1 <==> forall k :: 0 <= k < |tabs| ==> tabs[k].id != tab
    ensures i >= 0 ==> tabs[i].id == tab && forall k :: 0 <= k < i ==> tabs[k].id != tab
  {
    if tabs == [] then -1
    else if tabs[0].id == tab then 0
    else
      var i := FindIndex(tabs[1..], tab);
      assert forall k :: 1 <= k < |tabs| ==> tabs[k] == tabs[1..][k - 1];
      if i == -1 then -1 else i + 1
  }

  /** Every tab is found in TABS, at a position in [0, 3], and every position
      of TABS is where its own tab is found. */
  lemma TabIndexInRange()
    ensures forall tab :: 0 <= FindIndex(TABS, tab) <= 3 && TABS[FindIndex(TABS, tab)].id == tab
    ensures forall k :: 0 <= k < |TABS| ==> FindIndex(TABS, TABS[k].id) == k
  {
    forall tab: Tab
      ensures FindIndex(TABS, tab) >= 0
    {
      match tab
      case CorrelationTab => assert TABS[0].id == tab;
      case TradePlanTab => assert TABS[1].id == tab;
      case AiInsightsTab => assert TABS[2].id == tab;
      case BudgetingTab => assert TABS[3].id == tab;
    }
  }

  /** The position of a tab in TABS. */
  function TabIndex(tab: Tab): (i: int)
    ensures 0 <= i <= 3 && TABS[i].id == tab
  {
    TabIndexInRange();
    FindIndex(TABS, tab)
  }

  /** A fresh session opens on the first tab, and stepping forward from it
      is refused with a toast: its next tab is the trade plan and no value
      has been entered. */
  lemma FirstStepIsGated()
    ensures TabIndex(CorrelationTab) == 0 && TABS[1].id == TradePlanTab
    ensures !HasCorrelationValues(CorrelationTableData(INITIAL_CORRELATION_DATA))
  {
    InitialTableIsNeutral();
  }

  // ---------------------------------------------------------------------
  // The dashboard's state and its handlers
  // ---------------------------------------------------------------------

  /** Ids that are pairwise distinct, so that each currency has at most one row. */
  ghost predicate Keyed(data: seq<Correlation>)
  {
    forall i, j :: 0 <= i < j < |data| ==> data[i].id != data[j].id
  }

  /** The initial table is keyed. */
  lemma InitialDataKeyed()
    ensures Keyed(INITIAL_CORRELATION_DATA)
  {
    InitialDataOneZeroRowPerCurrency();
  }

  /** The dashboard's mutable state: the correlation table and the active tab. */
  class Dashboard {
    var correlationData: seq<Correlation>
    var activeTab: Tab

    /** Each currency has at most one row. */
    ghost predicate Valid()
      reads this
    {
      Keyed(correlationData)
    }

    /** Whether some score of the current table is non-zero. */
    function HasValues(): bool
      reads this
    {
      HasCorrelationValues(CorrelationTableData(correlationData))
    }

    constructor ()
      ensures correlationData == INITIAL_CORRELATION_DATA && activeTab == CorrelationTab
      ensures Valid() && !HasValues()
    {
      correlationData := INITIAL_CORRELATION_DATA;
      activeTab := CorrelationTab;
      InitialDataKeyed();
      InitialTableIsNeutral();
    }

    /** `handleCorrelationChange`: sets one reading of the rows of `id`; an input
        that parses to NaN changes nothing. The active tab is untouched. */
    method HandleCorrelationChange(id: Currency, field: Field, value: string, parsed: Option<real>)
      modifies this`correlationData
      ensures correlationData == CorrelationAfterChange(old(correlationData), id, field, value, parsed)
      ensures old(Valid()) ==> Valid()
    {
      var numericValue := NumericValue(value, parsed);
      if numericValue.None? {
        return;
      }
      correlationData := CorrelationAfterChange(correlationData, id, field, value, parsed);
    }

    /** `navigateToTab`: the trade plan is refused, with a toast, while no value
        has been entered; any other request is followed. */
    method NavigateToTab(tab: Tab) returns (toastShown: bool)
      modifies this`activeTab
      ensures toastShown <==> tab == TradePlanTab && !HasValues()
      ensures activeTab == if toastShown then old(activeTab) else tab
    {
      if tab == TradePlanTab && !HasValues() {
        toastShown := true;
        return;
      }
      toastShown := false;
      activeTab := tab;
    }

    /** `handleNext`: steps to the next tab through the gate of `navigateToTab`;
        on the last tab nothing happens. */
    method HandleNext() returns (toastShown: bool)
      modifies this`activeTab
      ensures var i := TabIndex(old(activeTab));
              if i < 3 then
                (toastShown <==> TABS[i + 1].id == TradePlanTab && !HasValues()) &&
                activeTab == (if toastShown then old(activeTab) else TABS[i + 1].id)
              else
                !toastShown && activeTab == old(activeTab)
      ensures TabIndex(old(activeTab)) <= TabIndex(activeTab) <= TabIndex(old(activeTab)) + 1
    {
      var currentIndex := FindIndex(TABS, activeTab);
      TabIndexInRange();
      if currentIndex < |TABS| - 1 {
        toastShown := NavigateToTab(TABS[currentIndex + 1].id);
      } else {
        toastShown := false;
      }
    }

    /** `handlePrev`: steps back one tab, never gated; on the first tab nothing happens. */
    method HandlePrev()
      modifies this`activeTab
      ensures TabIndex(old(activeTab)) > 0 ==> TabIndex(activeTab) == TabIndex(old(activeTab)) - 1
      ensures TabIndex(old(activeTab)) == 0 ==> activeTab == old(activeTab)
    {
      var currentIndex := FindIndex(TABS, activeTab);
      TabIndexInRange();
      if currentIndex > 0 {
        activeTab := TABS[currentIndex - 1].id;
      }
    }
  }
}
