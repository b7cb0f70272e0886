/**
 * The portfolio normaliser (`buildPortfolio` and its helpers): every cell of every sheet record is
 * cleaned, the records are grouped into sectors at sector-header rows, every other non-blank record
 * becomes an item of the current sector, and the sector and grand totals are chosen.
 *
 * Amounts are reals: sums and the share division are exact here, where the service uses
 * floating point.
 */
module Portfolio {
  import opened Js

  /** A sheet record keyed by column header (`Record<string, any>`). */
  type Row = map<string, JsValue>

  /** The texts a spreadsheet uses for "no value"; the fifth is an em dash read with the wrong encoding. */
  const NaStrings: set<string> := {"#N/A", "#N/A N.A.", "N/A", "NA", "#NA", "\U{00E2}\U{20AC}\U{201D}", "-", "", "n/a", "NaN"}

  /** `NA_STRINGS.has(t)` */
  predicate IsNaToken(t: string) {
    t in NaStrings
  }

  /** What a cleaned cell can be: no undefined, no NaN, no padding, no NA token (an infinity parsed from text stays). */
  predicate IsClean(v: JsValue) {
    match v
    case Undefined => false
    case NaN => false
    case Str(s) => Trimmed(s) && !IsNaToken(s)
    case _ => true
  }

  /**
   * `cleanCell` on a string, once trimmed: null for an NA token, the number `Number` reads from the
   * text without commas unless that is NaN (an infinity included), the text otherwise.
   */
  function CleanText(t: string, host: Host): (r: JsValue)
    requires Trimmed(t)
    ensures r == Null <==> IsNaToken(t)
    ensures IsNumber(r) <==> !IsNaToken(t) && !host.parseNumber(RemoveCommas(t)).NaN?
    ensures IsNumber(r) ==> r == host.parseNumber(RemoveCommas(t))
    ensures !r.Null? && !IsNumber(r) ==> r == Str(t)
    ensures IsClean(r)
  {
    if IsNaToken(t) then Null
    else
      var n := ToNumber(Str(RemoveCommas(t)), host);
      if !n.NaN? && t != "" then n else Str(t)
  }

  /** `cleanCell`: null for missing values and non-finite numbers, strings through `CleanText`, anything else unchanged. */
  function CleanCell(value: JsValue, host: Host): (r: JsValue)
    ensures Nullish(value) || value.NaN? || value.Inf? ==> r == Null
    ensures value.Num? || value.Bool? || value.Obj? ==> r == value
    ensures value.Str? ==> r == CleanText(Trim(value.s), host)
    ensures IsClean(r)
  {
    if Nullish(value) || value.NaN? || value.Inf? then Null
    else if value.Str? then CleanText(Trim(value.s), host)
    else value
  }

  /**
   * Cleaning a cleaned cell changes nothing, unless the cell was text that `Number` reads as an
   * infinity: that cleans to the infinity, and cleaning it again gives null.
   */
  lemma CleanCellIdempotent(value: JsValue, host: Host)
    ensures !CleanCell(value, host).Inf? ==> CleanCell(CleanCell(value, host), host) == CleanCell(value, host)
    ensures CleanCell(value, host).Inf? ==> value.Str? && CleanCell(CleanCell(value, host), host) == Null
  {
    var r := CleanCell(value, host);
    if r.Str? {
      TrimOfTrimmed(r.s);
    }
  }

  /** `num`: the cleaned cell when it is a number, otherwise null. */
  function CellNumber(value: JsValue, host: Host): (r: Option<real>)
    ensures r.Some? <==> CleanCell(value, host).Num?
    ensures r.Some? ==> CleanCell(value, host) == Num(r.value)
  {
    match CleanCell(value, host)
    case Num(x) => Some(x)
    case _ => None
  }

  /** `n || 0` on a `number | null`. */
  function OrZero(n: Option<real>): (r: real)
    ensures n.Some? ==> r == n.value
    ensures n.None? ==> r == 0.0
  {
    if n.Some? && n.value != 0.0 then n.value else 0.0
  }

  /** `a ?? b` on two `number | null`. */
  function Either(a: Option<real>, b: Option<real>): (r: Option<real>)
    ensures a.Some? ==> r == a
    ensures a.None? ==> r == b
  {
    if a.Some? then a else b
  }

  /** `x || y` on numbers. */
  function OrElse(x: real, y: real): (r: real)
    ensures x != 0.0 ==> r == x
    ensures x == 0.0 ==> r == y
  {
    if x != 0.0 then x else y
  }

  /** `row[key]` */
  function Cell(row: Row, key: string): JsValue {
    if key in row then row[key] else Undefined
  }

  /** `v === null || v === ''` */
  predicate Blank(v: JsValue) {
    v == Null || v == Str("")
  }

  /** `detectSectorHeader`: no serial number, symbol or quantity, and a name that is a string. */
  predicate IsSectorHeader(row: Row)
    ensures IsSectorHeader(row) ==> Vacant(row, "No") && Vacant(row, "NSE/BSE") && Vacant(row, "Qty")
    ensures IsSectorHeader(row) ==>
      Cell(row, "Particulars").Str? || (Nullish(Cell(row, "Particulars")) && Cell(row, "particulars").Str?)
  {
    var no := Coalesce(Coalesce(Cell(row, "No"), Cell(row, "no")), Null);
    var name := Coalesce(Coalesce(Cell(row, "Particulars"), Cell(row, "particulars")), Null);
    var sym := Coalesce(Coalesce(Coalesce(Cell(row, "NSE/BSE"), Cell(row, "NSE")), Cell(row, "BSE")), Null);
    var qty := Coalesce(Coalesce(Cell(row, "Qty"), Cell(row, "qty")), Null);
    Blank(no) && name.Str? && Blank(sym) && Blank(qty)
  }

  /** A column that is missing, null or empty. */
  predicate Vacant(row: Row, key: string) {
    key !in row || Nullish(row[key]) || row[key] == Str("")
  }

  /** On a sheet that uses only the canonical column names, a sector header is exactly a named row with no number, symbol or quantity. */
  lemma SectorHeaderOnCanonicalColumns(row: Row)
    requires "no" !in row && "particulars" !in row && "NSE" !in row && "BSE" !in row && "qty" !in row
    ensures IsSectorHeader(row) <==>
      Vacant(row, "No") && "Particulars" in row && row["Particulars"].Str? && Vacant(row, "NSE/BSE") && Vacant(row, "Qty")
  {
  }

  /** `obj.every(v => v === null || v === '')` over the record's values. */
  predicate IsBlankRow(row: Row) {
    forall k :: k in row ==> Blank(row[k])
  }

  datatype Exchange = NSE | BSE

  /** `{exchange, yahooSymbol}` */
  datatype Listing = Listing(exchange: Option<Exchange>, yahooSymbol: Option<string>)

  /** `/<suffix>$/i` for an upper-case ASCII suffix. */
  predicate EndsWithIgnoringCase(s: string, suffix: string) {
    |suffix| <= |s| && Upper(s[|s| - |suffix|..]) == suffix
  }

  /** `convertSymbol` */
  function ConvertSymbol(raw: JsValue, host: Host): (r: Listing)
    ensures var s := TrimmedText(raw, host);
      && (r.exchange.None? <==> Nullish(raw) || s == "")
      && (r.yahooSymbol.None? <==> r.exchange.None?)
      && (!Nullish(raw) && s != "" ==>
          if EndsWithIgnoringCase(s, ".NS") then r == Listing(Some(NSE), Some(Upper(s)))
          else if EndsWithIgnoringCase(s, ".BO") then r == Listing(Some(BSE), Some(Upper(s)))
          else if AllDigits(s) then r == Listing(Some(BSE), Some(s + ".BO"))
          else r == Listing(Some(NSE), Some(s + ".NS")))
  {
    if Nullish(raw) then Listing(None, None)
    else
      var s := TrimmedText(raw, host);
      if s == "" then Listing(None, None)
      else if EndsWithIgnoringCase(s, ".NS") then Listing(Some(NSE), Some(Upper(s)))
      else if EndsWithIgnoringCase(s, ".BO") then Listing(Some(BSE), Some(Upper(s)))
      else if AllDigits(s) then Listing(Some(BSE), Some(s + ".BO"))
      else Listing(Some(NSE), Some(s + ".NS"))
  }

  lemma UpperSuffix(s: string, n: nat)
    requires n <= |s|
    ensures Upper(s)[|s| - n..] == Upper(s[|s| - n..])
  {
  }

  lemma UpperKeepsSuffix(s: string, suffix: string)
    requires EndsWithIgnoringCase(s, suffix)
    ensures EndsWith(Upper(s), suffix)
  {
    UpperSuffix(s, |suffix|);
  }

  lemma AppendedSuffix(s: string, suffix: string)
    ensures EndsWith(s + suffix, suffix)
  {
    assert (s + suffix)[|s + suffix| - |suffix|..] == suffix;
  }

  lemma DistinctSuffixes(y: string)
    ensures !(EndsWith(y, ".NS") && EndsWith(y, ".BO"))
  {
  }

  /** Whatever the spelling of the input, the exchange agrees with the suffix of the provider symbol. */
  lemma {:induction false} ListingAgreesWithSuffix(raw: JsValue, host: Host)
    ensures var r := ConvertSymbol(raw, host);
      r.yahooSymbol.Some? ==> EndsWith(r.yahooSymbol.value, ".NS") || EndsWith(r.yahooSymbol.value, ".BO")
    ensures var r := ConvertSymbol(raw, host);
      r.yahooSymbol.Some? ==> (r.exchange == Some(NSE) <==> EndsWith(r.yahooSymbol.value, ".NS"))
  {
    var r := ConvertSymbol(raw, host);
    if r.yahooSymbol.Some? {
      var s := TrimmedText(raw, host);
      if EndsWithIgnoringCase(s, ".NS") {
        UpperKeepsSuffix(s, ".NS");
      } else if EndsWithIgnoringCase(s, ".BO") {
        UpperKeepsSuffix(s, ".BO");
      } else if AllDigits(s) {
        AppendedSuffix(s, ".BO");
      } else {
        AppendedSuffix(s, ".NS");
      }
      DistinctSuffixes(r.yahooSymbol.value);
    }
  }

  datatype Item = Item(
    no: Option<real>, name: JsValue, purchasePrice: Option<real>, qty: Option<real>,
    investment: Option<real>, portfolioPct: Option<real>, rawSymbol: JsValue,
    exchange: Option<Exchange>, yahooSymbol: Option<string>, cmp: Option<real>,
    presentValue: Option<real>, gainLoss: Option<real>, gainLossPct: Option<real>,
    marketCap: Option<real>, peTTM: Option<real>, latestEarnings: JsValue)

  datatype Totals = Totals(investment: real, presentValue: real, gainLoss: real, portfolioPct: real)

  datatype Sector = Sector(name: string, totals: Totals, items: seq<Item>)

  datatype PortfolioData = PortfolioData(sheet: string, sectors: seq<Sector>, totals: Totals)

  const Uncategorized := "Uncategorized"

  const ZeroTotals := Totals(0.0, 0.0, 0.0, 0.0)

  /** The item a (cleaned) data record becomes. */
  function MakeItem(row: Row, host: Host): (it: Item)
    ensures it.exchange == ConvertSymbol(Cell(row, "NSE/BSE"), host).exchange
    ensures it.investment == CellNumber(Cell(row, "Investment"), host)
    ensures it.peTTM.Some? <==> CellNumber(Cell(row, "P/E (TTM)"), host).Some? || CellNumber(Cell(row, "P/E"), host).Some?
  {
    var listing := ConvertSymbol(Cell(row, "NSE/BSE"), host);
    Item(
      no := CellNumber(Cell(row, "No"), host),
      name := Coalesce(Cell(row, "Particulars"), Null),
      purchasePrice := CellNumber(Cell(row, "Purchase Price"), host),
      qty := CellNumber(Cell(row, "Qty"), host),
      investment := CellNumber(Cell(row, "Investment"), host),
      portfolioPct := CellNumber(Cell(row, "Portfolio (%)"), host),
      rawSymbol := Coalesce(Cell(row, "NSE/BSE"), Null),
      exchange := listing.exchange,
      yahooSymbol := listing.yahooSymbol,
      cmp := CellNumber(Cell(row, "CMP"), host),
      presentValue := CellNumber(Cell(row, "Present value"), host),
      gainLoss := CellNumber(Cell(row, "Gain/Loss"), host),
      // the source's fallback names the same column twice
      gainLossPct := Either(CellNumber(Cell(row, "Gain/Loss (%)"), host), CellNumber(Cell(row, "Gain/Loss (%)"), host)),
      marketCap := CellNumber(Cell(row, "Market Cap"), host),
      peTTM := Either(CellNumber(Cell(row, "P/E (TTM)"), host), CellNumber(Cell(row, "P/E"), host)),
      latestEarnings := CleanCell(Cell(row, "Latest Earnings"), host))
  }

  /** The name a header row gives its sector: `String(row['Particulars']).trim()`. */
  function SectorName(row: Row, host: Host): string {
    TrimmedText(Cell(row, "Particulars"), host)
  }

  /** The totals a header row sets: `num(..) || 0` on four columns. */
  function HeaderTotals(row: Row, host: Host): Totals {
    Totals(OrZero(CellNumber(Cell(row, "Investment"), host)), OrZero(CellNumber(Cell(row, "Present value"), host)),
           OrZero(CellNumber(Cell(row, "Gain/Loss"), host)), OrZero(CellNumber(Cell(row, "Portfolio (%)"), host)))
  }

  /** `cleaned`: every value of the record through `cleanCell`. */
  function CleanRow(row: Row, host: Host): (c: Row)
    ensures c.Keys == row.Keys
    ensures forall k :: k in c ==> c[k] == CleanCell(row[k], host) && IsClean(c[k])
  {
    map k | k in row :: CleanCell(row[k], host)
  }

  function CleanRows(rows: seq<Row>, host: Host): (r: seq<Row>)
    ensures |r| == |rows|
    ensures forall i :: 0 <= i < |rows| ==> r[i] == CleanRow(rows[i], host)
  {
    seq(|rows|, i requires 0 <= i < |rows| => CleanRow(rows[i], host))
  }

  /** After cleaning, a record is skipped as blank exactly when every cell held nothing, an NA token or a non-finite number. */
  lemma BlankAfterCleaning(row: Row, host: Host)
    ensures IsBlankRow(CleanRow(row, host)) <==> forall k :: k in row ==> CleanCell(row[k], host) == Null
  {
  }

  function Last(sectors: seq<Sector>): Sector
    requires sectors != []
  {
    sectors[|sectors| - 1]
  }

  /** `ensureSector(name)`: the current sector (the last one) is kept when it has that name, otherwise a new one is opened. */
  function EnsureSector(sectors: seq<Sector>, name: string): (r: seq<Sector>)
    ensures r != [] && Last(r).name == name
    ensures sectors != [] && Last(sectors).name == name ==> r == sectors
    ensures sectors == [] || Last(sectors).name != name ==> r == sectors + [Sector(name, ZeroTotals, [])]
  {
    if sectors == [] || Last(sectors).name != name then sectors + [Sector(name, ZeroTotals, [])] else sectors
  }

  function WithTotals(sectors: seq<Sector>, t: Totals): seq<Sector>
    requires sectors != []
  {
    sectors[|sectors| - 1 := Last(sectors).(totals := t)]
  }

  function WithItem(sectors: seq<Sector>, it: Item): seq<Sector>
    requires sectors != []
  {
    sectors[|sectors| - 1 := Last(sectors).(items := Last(sectors).items + [it])]
  }

  predicate IsItemRow(row: Row) {
    !IsSectorHeader(row) && !IsBlankRow(row)
  }

  /** One turn of the row loop on cleaned records. */
  function Place(sectors: seq<Sector>, row: Row, host: Host): (r: seq<Sector>)
    requires sectors != []
    ensures r != [] && |sectors| <= |r| <= |sectors| + 1
    ensures r[..|sectors| - 1] == sectors[..|sectors| - 1]
    ensures r[|sectors| - 1].name == Last(sectors).name
  {
    if IsSectorHeader(row) then WithTotals(EnsureSector(sectors, SectorName(row, host)), HeaderTotals(row, host))
    else if IsBlankRow(row) then sectors
    else WithItem(sectors, MakeItem(row, host))
  }

  /** The sectors after the row loop has seen `rows` (cleaned records). */
  function Grouped(rows: seq<Row>, host: Host): (r: seq<Sector>)
    ensures r != []
  {
    if rows == [] then EnsureSector([], Uncategorized)
    else Place(Grouped(rows[..|rows| - 1], host), rows[|rows| - 1], host)
  }

  /** Every item of every sector, sector by sector. */
  function AllItems(sectors: seq<Sector>): seq<Item> {
    if sectors == [] then [] else AllItems(sectors[..|sectors| - 1]) + Last(sectors).items
  }

  /** The reference list of items: one per item row, in input order. */
  function DataItems(rows: seq<Row>, host: Host): seq<Item> {
    if rows == [] then []
    else DataItems(rows[..|rows| - 1], host) + (if IsItemRow(rows[|rows| - 1]) then [MakeItem(rows[|rows| - 1], host)] else [])
  }

  /** The first sector is always `Uncategorized`: later rows only ever change the last sector or add one. */
  lemma {:induction false} FirstSectorUncategorized(rows: seq<Row>, host: Host)
    ensures Grouped(rows, host)[0].name == Uncategorized
  {
    if rows != [] {
      FirstSectorUncategorized(rows[..|rows| - 1], host);
      var s := Grouped(rows[..|rows| - 1], host);
      if |s| > 1 {
        assert s[..|s| - 1][0] == s[0];
      }
    }
  }

  /** A header row reuses the current sector iff it has the header's name; either way it sets that sector's totals and adds no item. */
  lemma HeaderRowSetsTotals(sectors: seq<Sector>, row: Row, host: Host)
    requires sectors != [] && IsSectorHeader(row)
    ensures var r := Place(sectors, row, host);
      && (|r| == |sectors| <==> Last(sectors).name == SectorName(row, host))
      && Last(r).name == SectorName(row, host)
      && Last(r).totals == HeaderTotals(row, host)
      && Last(r).items == (if |r| == |sectors| then Last(sectors).items else [])
      && r[..|sectors| - 1] == sectors[..|sectors| - 1]
  {
  }

  /** Any other non-blank record becomes exactly one item, appended to the current sector. */
  lemma DataRowAppendsItem(sectors: seq<Sector>, row: Row, host: Host)
    requires sectors != [] && IsItemRow(row)
    ensures var r := Place(sectors, row, host);
      && r[..|sectors| - 1] == sectors[..|sectors| - 1]
      && |r| == |sectors|
      && Last(r) == Last(sectors).(items := Last(sectors).items + [MakeItem(row, host)])
  {
  }

  lemma BlankRowSkipped(sectors: seq<Sector>, row: Row, host: Host)
    requires sectors != [] && !IsSectorHeader(row) && IsBlankRow(row)
    ensures Place(sectors, row, host) == sectors
  {
  }

  lemma AllItemsOfLast(sectors: seq<Sector>, x: Sector)
    requires sectors != []
    ensures AllItems(sectors[|sectors| - 1 := x]) == AllItems(sectors[..|sectors| - 1]) + x.items
  {
    assert sectors[|sectors| - 1 := x][..|sectors| - 1] == sectors[..|sectors| - 1];
  }

  lemma AllItemsAppend(sectors: seq<Sector>, x: Sector)
    ensures AllItems(sectors + [x]) == AllItems(sectors) + x.items
  {
    assert (sectors + [x])[..|sectors|] == sectors;
  }

  lemma PlaceItems(sectors: seq<Sector>, row: Row, host: Host)
    requires sectors != []
    ensures AllItems(Place(sectors, row, host)) == AllItems(sectors) + (if IsItemRow(row) then [MakeItem(row, host)] else [])
  {
    var n := |sectors|;
    AllItemsOfLast(sectors, Last(sectors));
    assert sectors[n - 1 := Last(sectors)] == sectors;
    if IsSectorHeader(row) {
      var e := EnsureSector(sectors, SectorName(row, host));
      if e == sectors {
        AllItemsOfLast(sectors, Last(sectors).(totals := HeaderTotals(row, host)));
      } else {
        AllItemsAppend(sectors, Sector(SectorName(row, host), ZeroTotals, []));
        assert e[..|e| - 1] == sectors;
        AllItemsOfLast(e, Last(e).(totals := HeaderTotals(row, host)));
      }
    } else if !IsBlankRow(row) {
      AllItemsOfLast(sectors, Last(sectors).(items := Last(sectors).items + [MakeItem(row, host)]));
    }
  }

  /** The items of all sectors, read in order, are one per item row, in input order. */
  lemma {:induction false} ItemsInInputOrder(rows: seq<Row>, host: Host)
    ensures AllItems(Grouped(rows, host)) == DataItems(rows, host)
  {
    if rows == [] {
      assert AllItems([Sector(Uncategorized, ZeroTotals, [])]) == [];
    } else {
      ItemsInInputOrder(rows[..|rows| - 1], host);
      PlaceItems(Grouped(rows[..|rows| - 1], host), rows[|rows| - 1], host);
    }
  }

  /** Without any header row there is one sector, `Uncategorized`, with zero totals and every item. */
  lemma {:induction false} HeaderlessSheet(rows: seq<Row>, host: Host)
    requires forall i :: 0 <= i < |rows| ==> !IsSectorHeader(rows[i])
    ensures Grouped(rows, host) == [Sector(Uncategorized, ZeroTotals, DataItems(rows, host))]
  {
    if rows != [] {
      var p := rows[..|rows| - 1];
      assert forall i :: 0 <= i < |p| ==> p[i] == rows[i];
      HeaderlessSheet(p, host);
      var g := Grouped(p, host);
      var row := rows[|rows| - 1];
      assert Grouped(rows, host) == Place(g, row, host);
      assert DataItems(rows, host) == DataItems(p, host) + (if IsItemRow(row) then [MakeItem(row, host)] else []);
      assert !IsSectorHeader(row);
      if IsBlankRow(row) {
        BlankRowSkipped(g, row, host);
        assert DataItems(rows, host) == DataItems(p, host) + [];
        assert DataItems(p, host) + [] == DataItems(p, host);
      } else {
        DataRowAppendsItem(g, row, host);
        var r := Place(g, row, host);
        assert r == [Last(r)];
      }
    }
  }

  datatype Measure = Investment | PresentValue | GainLoss

  function ItemAmount(it: Item, m: Measure): Option<real> {
    match m
    case Investment => it.investment
    case PresentValue => it.presentValue
    case GainLoss => it.gainLoss
  }

  function TotalAmount(t: Totals, m: Measure): real {
    match m
    case Investment => t.investment
    case PresentValue => t.presentValue
    case GainLoss => t.gainLoss
  }

  /** `items.reduce((sum, it) => sum + (it.<m> || 0), 0)` */
  function ItemsSum(items: seq<Item>, m: Measure): real {
    if items == [] then 0.0 else ItemsSum(items[..|items| - 1], m) + OrZero(ItemAmount(items[|items| - 1], m))
  }

  /** A sector's contribution: its header total unless that is zero, otherwise the sum over its items. */
  function SectorAmount(s: Sector, m: Measure): (r: real)
    ensures TotalAmount(s.totals, m) != 0.0 ==> r == TotalAmount(s.totals, m)
    ensures TotalAmount(s.totals, m) == 0.0 ==> r == ItemsSum(s.items, m)
  {
    OrElse(TotalAmount(s.totals, m), ItemsSum(s.items, m))
  }

  /** The grand total, as the `reduce` over the sectors accumulates it. */
  function GrandSum(sectors: seq<Sector>, m: Measure): real {
    if sectors == [] then 0.0 else GrandSum(sectors[..|sectors| - 1], m) + SectorAmount(Last(sectors), m)
  }

  lemma {:induction false} ItemsSumAppend(a: seq<Item>, b: seq<Item>, m: Measure)
    ensures ItemsSum(a + b, m) == ItemsSum(a, m) + ItemsSum(b, m)
  {
    if b == [] {
      assert a + b == a;
    } else {
      assert (a + b)[..|a + b| - 1] == a + b[..|b| - 1];
      ItemsSumAppend(a, b[..|b| - 1], m);
    }
  }

  /** When no sector carries a header total, the grand total is the sum over all items, a missing value counting as 0. */
  lemma {:induction false} GrandSumWithoutHeaderTotals(sectors: seq<Sector>, m: Measure)
    requires forall i :: 0 <= i < |sectors| ==> TotalAmount(sectors[i].totals, m) == 0.0
    ensures GrandSum(sectors, m) == ItemsSum(AllItems(sectors), m)
  {
    if sectors != [] {
      var p := sectors[..|sectors| - 1];
      assert forall i :: 0 <= i < |p| ==> p[i] == sectors[i];
      GrandSumWithoutHeaderTotals(p, m);
      ItemsSumAppend(AllItems(p), Last(sectors).items, m);
    }
  }

  /** A sector with its share of the total investment. */
  function WithShare(s: Sector, total: real): Sector
    requires total > 0.0
  {
    s.(totals := s.totals.(portfolioPct := SectorAmount(s, Investment) / total))
  }

  /** The loop that recomputes every sector's `portfolioPct`. */
  function Shares(sectors: seq<Sector>, total: real): (r: seq<Sector>)
    requires total > 0.0
    ensures |r| == |sectors|
    ensures forall i :: 0 <= i < |sectors| ==> r[i] == WithShare(sectors[i], total)
  {
    if sectors == [] then [] else Shares(sectors[..|sectors| - 1], total) + [WithShare(Last(sectors), total)]
  }

  /** The sum of the sectors' `portfolioPct`. */
  function PctSum(sectors: seq<Sector>): real {
    if sectors == [] then 0.0 else PctSum(sectors[..|sectors| - 1]) + Last(sectors).totals.portfolioPct
  }

  lemma DivisionAdds(a: real, b: real, t: real)
    requires t > 0.0
    ensures a / t + b / t == (a + b) / t
  {
  }

  lemma {:induction false} SharesSum(sectors: seq<Sector>, total: real)
    requires total > 0.0
    ensures PctSum(Shares(sectors, total)) == GrandSum(sectors, Investment) / total
  {
    if sectors != [] {
      var p := sectors[..|sectors| - 1];
      var r := Shares(sectors, total);
      var a := SectorAmount(Last(sectors), Investment);
      SharesSum(p, total);
      assert r[..|r| - 1] == Shares(p, total);
      assert PctSum(r) == PctSum(Shares(p, total)) + a / total;
      DivisionAdds(GrandSum(p, Investment), a, total);
    }
  }

  /** When the total investment is positive, the recomputed sector shares add up to 1. */
  lemma SharesSumToOne(sectors: seq<Sector>)
    requires GrandSum(sectors, Investment) > 0.0
    ensures PctSum(Shares(sectors, GrandSum(sectors, Investment))) == 1.0
  {
    var g := GrandSum(sectors, Investment);
    SharesSum(sectors, g);
    assert g / g == 1.0;
  }

  /** `buildPortfolio(sheetName, rows)` */
  function PortfolioOf(sheet: string, rows: seq<Row>, host: Host): (p: PortfolioData)
    ensures p.sheet == sheet && p.totals.portfolioPct == 1.0
    ensures p.sectors != [] && p.sectors[0].name == Uncategorized
  {
    var sectors := Grouped(CleanRows(rows, host), host);
    FirstSectorUncategorized(CleanRows(rows, host), host);
    var investment := GrandSum(sectors, Investment);
    PortfolioData(sheet, if investment > 0.0 then Shares(sectors, investment) else sectors,
                  Totals(investment, GrandSum(sectors, PresentValue), GrandSum(sectors, GainLoss), 1.0))
  }

  /** What `buildPortfolio` promises about its result as a whole. */
  lemma PortfolioShape(sheet: string, rows: seq<Row>, host: Host)
    ensures var p := PortfolioOf(sheet, rows, host);
      var sectors := Grouped(CleanRows(rows, host), host);
      && p.sheet == sheet
      && p.totals.portfolioPct == 1.0
      && |p.sectors| == |sectors|
      && p.sectors[0].name == Uncategorized
      && (forall i :: 0 <= i < |sectors| ==>
            p.sectors[i].name == sectors[i].name && p.sectors[i].items == sectors[i].items)
      && (p.totals.investment <= 0.0 ==> p.sectors == sectors)
  {
    FirstSectorUncategorized(CleanRows(rows, host), host);
  }

  /** The totals of a sheet without header rows are the sums over its items. */
  lemma HeaderlessTotals(sheet: string, rows: seq<Row>, host: Host, m: Measure)
    requires forall i :: 0 <= i < |rows| ==> !IsSectorHeader(CleanRow(rows[i], host))
    ensures var p := PortfolioOf(sheet, rows, host);
      TotalAmount(p.totals, m) == ItemsSum(DataItems(CleanRows(rows, host), host), m)
  {
    var cleaned := CleanRows(rows, host);
    HeaderlessSheet(cleaned, host);
    GrandSumWithoutHeaderTotals(Grouped(cleaned, host), m);
    assert AllItems([Sector(Uncategorized, ZeroTotals, DataItems(cleaned, host))]) == DataItems(cleaned, host) by {
      assert [Sector(Uncategorized, ZeroTotals, DataItems(cleaned, host))][..0] == [];
    }
  }

  /** The cleaning loop over a record's keys. */
  method CleanRecord(row: Row, host: Host) returns (obj: Row)
    ensures obj == CleanRow(row, host)
  {
    obj := map[];
    var keys := row.Keys;
    while keys != {}
      invariant keys <= row.Keys
      invariant obj.Keys == row.Keys - keys
      invariant forall k :: k in obj ==> obj[k] == CleanCell(row[k], host)
      decreases keys
    {
      var k :| k in keys;
      obj := obj[k := CleanCell(row[k], host)];
      keys := keys - {k};
    }
  }

  /** `s.items.reduce((sum, it) => sum + (it.<m> || 0), 0)` */
  method SumItems(items: seq<Item>, m: Measure) returns (sum: real)
    ensures sum == ItemsSum(items, m)
  {
    sum := 0.0;
    for j := 0 to |items|
      invariant sum == ItemsSum(items[..j], m)
    {
      assert items[..j + 1][..j] == items[..j];
      var amount := ItemAmount(items[j], m);
      sum := sum + (if amount.Some? && amount.value != 0.0 then amount.value else 0.0);
    }
    assert items[..|items|] == items;
  }

  /** `s.totals.<m> || items.reduce(...)`: the item sum is only computed when the header total is zero. */
  method SectorContribution(s: Sector, m: Measure) returns (amount: real)
    ensures amount == SectorAmount(s, m)
  {
    amount := TotalAmount(s.totals, m);
    if amount == 0.0 {
      amount := SumItems(s.items, m);
    }
  }

  /** The first statement of `buildPortfolio`: `rows.map(...)`, each record cleaned by its key loop. */
  method CleanRecords(rows: seq<Row>, host: Host) returns (cleaned: seq<Row>)
    ensures cleaned == CleanRows(rows, host)
  {
    cleaned := [];
    for i := 0 to |rows|
      invariant |cleaned| == i
      invariant forall j :: 0 <= j < i ==> cleaned[j] == CleanRow(rows[j], host)
    {
      var obj := CleanRecord(rows[i], host);
      cleaned := cleaned + [obj];
    }
  }

  /** The row loop, with `currentSector` always the last sector. */
  method GroupRows(cleaned: seq<Row>, host: Host) returns (sectors: seq<Sector>)
    ensures sectors == Grouped(cleaned, host)
  {
    sectors := EnsureSector([], Uncategorized);
    for i := 0 to |cleaned|
      invariant sectors == Grouped(cleaned[..i], host)
    {
      assert cleaned[..i + 1][..i] == cleaned[..i];
      sectors := PlaceRow(sectors, cleaned[i], host);
    }
    assert cleaned[..|cleaned|] == cleaned;
  }

  /** The body of the row loop. */
  method PlaceRow(sectors: seq<Sector>, row: Row, host: Host) returns (r: seq<Sector>)
    requires sectors != []
    ensures r == Place(sectors, row, host)
  {
    r := sectors;
    if IsSectorHeader(row) {
      r := ApplyHeader(r, row, host);
      return;
    }
    if IsBlankRow(row) {
      return;
    }
    var item := MakeItem(row, host);
    var current := r[|r| - 1];
    r := r[|r| - 1 := current.(items := current.items + [item])];
  }

  /** A header row: `ensureSector(sectorName)`, then the four assignments to `currentSector!.totals`. */
  method ApplyHeader(sectors: seq<Sector>, row: Row, host: Host) returns (r: seq<Sector>)
    ensures r == WithTotals(EnsureSector(sectors, SectorName(row, host)), HeaderTotals(row, host))
  {
    r := EnsureSector(sectors, SectorName(row, host));
    var inv := OrZero(CellNumber(Cell(row, "Investment"), host));
    var pv := OrZero(CellNumber(Cell(row, "Present value"), host));
    var gl := OrZero(CellNumber(Cell(row, "Gain/Loss"), host));
    var pct := OrZero(CellNumber(Cell(row, "Portfolio (%)"), host));
    var current := r[|r| - 1];
    current := current.(totals := current.totals.(investment := inv, presentValue := pv, gainLoss := gl, portfolioPct := pct));
    r := r[|r| - 1 := current];
  }

  /** The `reduce` over the sectors into the grand totals. */
  method GrandTotals(sectors: seq<Sector>) returns (investment: real, presentValue: real, gainLoss: real)
    ensures investment == GrandSum(sectors, Investment)
    ensures presentValue == GrandSum(sectors, PresentValue)
    ensures gainLoss == GrandSum(sectors, GainLoss)
  {
    investment, presentValue, gainLoss := 0.0, 0.0, 0.0;
    for i := 0 to |sectors|
      invariant investment == GrandSum(sectors[..i], Investment)
      invariant presentValue == GrandSum(sectors[..i], PresentValue)
      invariant gainLoss == GrandSum(sectors[..i], GainLoss)
    {
      assert sectors[..i + 1][..i] == sectors[..i];
      var inv := SectorContribution(sectors[i], Investment);
      var pv := SectorContribution(sectors[i], PresentValue);
      var gl := SectorContribution(sectors[i], GainLoss);
      investment, presentValue, gainLoss := investment + inv, presentValue + pv, gainLoss + gl;
    }
    assert sectors[..|sectors|] == sectors;
  }

  /** The loop that assigns every sector its share of a positive total investment. */
  method AssignShares(grouped: seq<Sector>, totalInvestment: real) returns (sectors: seq<Sector>)
    requires totalInvestment > 0.0
    ensures sectors == Shares(grouped, totalInvestment)
  {
    sectors := grouped;
    for i := 0 to |sectors|
      invariant |sectors| == |grouped|
      invariant forall j :: 0 <= j < i ==> sectors[j] == WithShare(grouped[j], totalInvestment)
      invariant forall j :: i <= j < |sectors| ==> sectors[j] == grouped[j]
    {
      var s := sectors[i];
      var inv := SectorContribution(s, Investment);
      sectors := sectors[i := s.(totals := s.totals.(portfolioPct := inv / totalInvestment))];
    }
  }

  method BuildPortfolio(sheetName: string, rows: seq<Row>, host: Host) returns (p: PortfolioData)
    ensures p == PortfolioOf(sheetName, rows, host)
  {
    var cleaned := CleanRecords(rows, host);
    var sectors := GroupRows(cleaned, host);
    var investment, presentValue, gainLoss := GrandTotals(sectors);
    var totalInvestment := OrElse(investment, 0.0);
    if totalInvestment > 0.0 {
      sectors := AssignShares(sectors, totalInvestment);
    }
    p := PortfolioData(sheetName, sectors, Totals(investment, presentValue, gainLoss, 1.0));
  }
}
