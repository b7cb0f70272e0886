/**
 * The stock controller: the sheet reader behind `getExcelData` (header-row detection, header
 * names, records), and the cache-then-fetch handlers `getStockPrice`, `getStockMetrics` and
 * `getBatchStocks`, over the shared store and the finance service.
 */
module Controller {
  import opened Js
  import opened Store
  import Cache
  import Finance
  import Portfolio
  import Limiter

  /** A sheet as `sheet_to_json(..., {header: 1, defval: null})` gives it: rows of cells. */
  type Cells = seq<JsValue>

  // ---------------------------------------------------------------------------------------------
  // The header row
  // ---------------------------------------------------------------------------------------------

  /** `r.filter(c => c !== null && c !== '').length` */
  function FilledCount(row: Cells): nat {
    if row == [] then 0 else FilledCount(row[..|row| - 1]) + (if Portfolio.Blank(row[|row| - 1]) then 0 else 1)
  }

  /** The header row: the first row with the most filled cells (0 for an empty sheet). */
  function HeaderIndex(rows: seq<Cells>): (k: nat)
    ensures rows == [] ==> k == 0
    ensures rows != [] ==> k < |rows|
    ensures rows != [] ==> forall j :: 0 <= j < |rows| ==> FilledCount(rows[j]) <= FilledCount(rows[k])
    ensures rows != [] ==> forall j :: 0 <= j < k ==> FilledCount(rows[j]) < FilledCount(rows[k])
  {
    if |rows| <= 1 then 0
    else
      var k := HeaderIndex(rows[..|rows| - 1]);
      if FilledCount(rows[|rows| - 1]) > FilledCount(rows[k]) then |rows| - 1 else k
  }

  /** The `forEach` that tracks `maxFilled` and `headerRowIndex`. */
  method HeaderRowIndex(rows: seq<Cells>) returns (headerRowIndex: nat)
    ensures headerRowIndex == HeaderIndex(rows)
  {
    headerRowIndex := 0;
    var maxFilled: int := -1;
    for idx := 0 to |rows|
      invariant idx == 0 ==> headerRowIndex == 0 && maxFilled == -1
      invariant idx > 0 ==> headerRowIndex == HeaderIndex(rows[..idx]) && headerRowIndex < idx
      invariant idx > 0 ==> maxFilled == FilledCount(rows[headerRowIndex])
    {
      assert rows[..idx + 1][..idx] == rows[..idx];
      if idx > 0 {
        assert rows[..idx][headerRowIndex] == rows[headerRowIndex];
      }
      var filled := FilledCount(rows[idx]);
      if filled > maxFilled {
        maxFilled := filled;
        headerRowIndex := idx;
      }
    }
    assert rows[..|rows|] == rows;
  }

  // ---------------------------------------------------------------------------------------------
  // Header names
  // ---------------------------------------------------------------------------------------------

  /** `h == null ? '' : String(h)` */
  function HeaderText(h: JsValue, host: Host): string {
    if Nullish(h) then "" else ToText(h, host)
  }

  /** `(rows[headerRowIndex] || []).map(...)` */
  function RawHeaders(rows: seq<Cells>, host: Host): (r: seq<string>)
    ensures rows == [] ==> r == []
    ensures rows != [] ==> |r| == |rows[HeaderIndex(rows)]|
    ensures rows != [] ==> forall c :: 0 <= c < |r| ==> r[c] == HeaderText(rows[HeaderIndex(rows)][c], host)
  {
    if rows == [] then []
    else
      var cells := rows[HeaderIndex(rows)];
      seq(|cells|, i requires 0 <= i < |cells| => HeaderText(cells[i], host))
  }

  /** No line break, and no two white-space characters side by side. */
  predicate SingleSpaced(s: string) {
    NoneMatch(s, IsLineBreak) && NoAdjacent(s, IsSpace)
  }

  /** After `replace(/\s+/g, ' ')` every white-space character is a lone space. */
  lemma {:induction false} LoneSpaces(s: string)
    requires forall j :: 0 <= j < |s| && IsSpace(s[j]) ==> s[j] == ' '
    requires NoAdjacent(s, IsSpace)
    ensures SingleSpaced(s)
  {
    assert forall c :: IsLineBreak(c) ==> IsSpace(c) && c != ' ';
  }

  /**
   * Line-break runs and then white-space runs become one space each: the characters other than
   * white space are those of `raw`, in order, and the white space left is lone plain spaces.
   */
  function SpacesCollapsed(raw: string): (s: string)
    ensures SingleSpaced(s) && OnlyBlanks(s, IsSpace)
    ensures Outside(s, IsSpace) == Outside(raw, IsSpace)
  {
    var lines := Collapse(raw, IsLineBreak);
    var collapsed := Collapse(lines, IsSpace);
    LoneSpaces(collapsed);
    CollapseKeepsOutside(raw, IsLineBreak, IsSpace);
    CollapseKeepsOutside(lines, IsSpace, IsSpace);
    collapsed
  }

  /** The collapsed text with its ends trimmed: the same characters other than white space, in order. */
  function CleanedName(raw: string): (name: string)
    ensures Trimmed(name) && SingleSpaced(name) && OnlyBlanks(name, IsSpace)
    ensures Outside(name, IsSpace) == Outside(raw, IsSpace)
  {
    var collapsed := SpacesCollapsed(raw);
    TrimKeepsSingleSpaced(collapsed);
    TrimKeepsOutside(collapsed);
    Trim(collapsed)
  }

  /** Trimming a single-spaced text keeps it single-spaced, with plain spaces only. */
  lemma TrimKeepsSingleSpaced(s: string)
    requires SingleSpaced(s) && OnlyBlanks(s, IsSpace)
    ensures SingleSpaced(Trim(s)) && OnlyBlanks(Trim(s), IsSpace)
  {
    TrimKeeps(s, IsLineBreak);
    TrimKeeps(s, IsSpace);
  }

  /** `col_<i+1>` */
  function ColumnName(i: nat): (name: string)
    ensures |name| > 4 && Trimmed(name) && SingleSpaced(name)
    ensures name[..4] == "col_"
  {
    var digits := NatText(i + 1);
    assert forall j :: 0 <= j < |digits| ==> IsDigit(digits[j]);
    "col_" + digits
  }

  /** The base name of column `i`: its cleaned text, or `col_<i+1>` when that is empty. */
  function HeaderBase(raw: string, i: nat): (name: string)
    ensures name != [] && Trimmed(name) && SingleSpaced(name)
    ensures CleanedName(raw) != [] ==> name == CleanedName(raw)
    ensures CleanedName(raw) == [] ==> name == ColumnName(i)
  {
    var name := CleanedName(raw);
    if name == "" then ColumnName(i) else name
  }

  /** A name that is already a trimmed, single-spaced, non-empty text is its own base. */
  lemma {:induction false} CleanNameKept(raw: string, i: nat)
    requires raw != [] && Trimmed(raw)
    requires forall j :: 0 <= j < |raw| ==> IsSpace(raw[j]) ==> raw[j] == ' '
    requires forall j :: 0 <= j < |raw| - 1 ==> !IsSpace(raw[j]) || !IsSpace(raw[j + 1])
    ensures HeaderBase(raw, i) == raw
  {
    CollapseKeeps(raw, IsLineBreak);
    CollapseKeeps(raw, IsSpace);
    TrimOfTrimmed(raw);
  }

  /** Collapsing leaves a text alone whose matching characters are single spaces. */
  lemma {:induction false} CollapseKeeps(s: string, p: char -> bool)
    requires forall j :: 0 <= j < |s| ==> p(s[j]) ==> s[j] == ' '
    requires forall j :: 0 <= j < |s| - 1 ==> !p(s[j]) || !p(s[j + 1])
    ensures Collapse(s, p) == s
    decreases |s|
  {
    if s != [] {
      var t := s[1..];
      assert forall j :: 0 <= j < |t| ==> t[j] == s[j + 1];
      CollapseKeeps(t, p);
      var head := [s[0]];
      assert s == head + t;
      CollapseAppend(head, t, p);
      if p(s[0]) {
        RunCollapses(head, p);
      } else {
        assert Collapse(head, p) == head;
      }
    }
  }

  /** The base name of every column, in order. */
  function Bases(raws: seq<string>): seq<string> {
    seq(|raws|, i requires 0 <= i < |raws| => HeaderBase(raws[i], i))
  }

  /** How often `b` occurs in `s`. */
  function Occurrences(s: seq<string>, b: string): nat {
    if s == [] then 0 else Occurrences(s[..|s| - 1], b) + (if s[|s| - 1] == b then 1 else 0)
  }

  /** `b` occurs in `s` exactly when its count is positive. */
  lemma {:induction false} OccursIffCounted(s: seq<string>, b: string)
    ensures Occurrences(s, b) > 0 <==> exists j :: 0 <= j < |s| && s[j] == b
  {
    if s != [] {
      var p := s[..|s| - 1];
      OccursIffCounted(p, b);
      if exists j :: 0 <= j < |p| && p[j] == b {
        var j :| 0 <= j < |p| && p[j] == b;
        assert s[j] == b;
      }
      if exists j :: 0 <= j < |s| && s[j] == b {
        var j :| 0 <= j < |s| && s[j] == b;
        if j < |p| {
          assert p[j] == b;
        }
      }
    }
  }

  /** The header for `base` after the names `before`: the first occurrence as it is, the k-th repeat as `<base>_k`. */
  function Disambiguated(before: seq<string>, base: string): string {
    var k := Occurrences(before, base);
    if k == 0 then base else base + "_" + NatText(k)
  }

  /** The headers, one per column, each disambiguated against the base names before it. */
  function Headers(bases: seq<string>): seq<string> {
    seq(|bases|, i requires 0 <= i < |bases| => Disambiguated(bases[..i], bases[i]))
  }

  /** A column keeps its base name exactly when no earlier column has the same base; a repeat gets `_k` appended. */
  lemma FirstOccurrenceKept(bases: seq<string>, i: nat)
    requires i < |bases|
    ensures Headers(bases)[i] == bases[i] <==> forall j :: 0 <= j < i ==> bases[j] != bases[i]
    ensures Headers(bases)[i] != bases[i] ==>
      Headers(bases)[i] == bases[i] + "_" + NatText(Occurrences(bases[..i], bases[i]))
  {
    var p := bases[..i];
    OccursIffCounted(p, bases[i]);
    assert forall j :: 0 <= j < i ==> p[j] == bases[j];
  }

  /** Distinct base names are kept exactly. */
  lemma DistinctNamesKept(bases: seq<string>)
    requires forall i, j :: 0 <= i < j < |bases| ==> bases[i] != bases[j]
    ensures Headers(bases) == bases
  {
    forall i | 0 <= i < |bases|
      ensures Headers(bases)[i] == bases[i]
    {
      FirstOccurrenceKept(bases, i);
    }
  }

  lemma OneText()
    ensures NatText(1) == "1"
  {
    assert NatText(1) == [Digit(1)];
  }

  /** A literal `X_1` column collides with the renamed second `X`: the headers need not be distinct. */
  lemma RenamedRepeatCanCollide()
    ensures Headers(["X", "X", "X_1"]) == ["X", "X_1", "X_1"]
  {
    var b: seq<string> := ["X", "X", "X_1"];
    OneText();
    assert b[..1] == ["X"] && b[..1][..0] == [];
    assert Occurrences(b[..1], "X") == 1;
    assert b[..2] == ["X", "X"] && b[..2][..1] == ["X"];
    assert Occurrences(["X"], "X_1") == 0 by {
      assert ["X"][..0] == [];
    }
    assert Occurrences(b[..2], "X_1") == 0;
    assert Headers(b)[0] == "X";
    assert Headers(b)[1] == "X" + "_" + "1";
    assert Headers(b)[2] == "X_1";
    assert "X" + "_" + "1" == "X_1";
    assert Headers(b) == ["X", "X_1", "X_1"];
  }

  /** `seen` as the header loop keeps it: a base is present once it has occurred, holding its count less one. */
  ghost predicate Counts(seen: map<string, int>, before: seq<string>) {
    && (forall b :: b in seen <==> Occurrences(before, b) > 0)
    && (forall b :: b in seen ==> seen[b] == Occurrences(before, b) - 1)
  }

  /** Counting one more base name updates `seen` as the loop does. */
  lemma CountsStep(seen: map<string, int>, before: seq<string>, base: string)
    requires Counts(seen, before)
    ensures Counts(if base in seen then seen[base := seen[base] + 1] else seen[base := 0], before + [base])
  {
    var s := before + [base];
    assert s[..|s| - 1] == before;
  }

  /** The name of column `i` before disambiguation. */
  method BaseName(raw: string, i: nat) returns (base: string)
    ensures base == HeaderBase(raw, i)
  {
    var name := CleanedName(raw);
    if name == "" {
      name := "col_" + NatText(i + 1);
    }
    base := name;
  }

  /** One step of the header loop: the first sighting of a base is recorded as 0, a repeat bumps its counter and is suffixed with it. */
  method Register(seen: map<string, int>, ghost before: seq<string>, base: string) returns (seen': map<string, int>, header: string)
    requires Counts(seen, before)
    ensures Counts(seen', before + [base]) && header == Disambiguated(before, base)
  {
    CountsStep(seen, before, base);
    if base !in seen {
      seen' := seen[base := 0];
      header := base;
    } else {
      seen' := seen[base := seen[base] + 1];
      header := base + "_" + NatText(seen'[base]);
    }
  }

  lemma PrefixGrows<T>(s: seq<T>, i: nat)
    requires i < |s|
    ensures s[..i + 1] == s[..i] + [s[i]]
  {
  }

  lemma HeadersExtend(bases: seq<string>, i: nat)
    requires i < |bases|
    ensures Headers(bases)[..i + 1] == Headers(bases)[..i] + [Disambiguated(bases[..i], bases[i])]
  {
  }

  /** One pass of the header loop: column `i`'s header is appended and its base counted. */
  method HeaderStep(seen: map<string, int>, headers: seq<string>, ghost bases: seq<string>, i: nat, raw: string)
    returns (seen': map<string, int>, headers': seq<string>)
    requires i < |bases| && bases[i] == HeaderBase(raw, i)
    requires headers == Headers(bases)[..i] && Counts(seen, bases[..i])
    ensures headers' == Headers(bases)[..i + 1] && Counts(seen', bases[..i + 1])
  {
    var base := BaseName(raw, i);
    var header;
    seen', header := Register(seen, bases[..i], base);
    PrefixGrows(bases, i);
    HeadersExtend(bases, i);
    headers' := headers + [header];
  }

  /** The header loop with its `seen` counters. */
  method BuildHeaders(raws: seq<string>) returns (headers: seq<string>)
    ensures headers == Headers(Bases(raws))
  {
    ghost var bases := Bases(raws);
    headers := [];
    var seen: map<string, int> := map[];
    for i := 0 to |raws|
      invariant headers == Headers(bases)[..i]
      invariant Counts(seen, bases[..i])
    {
      seen, headers := HeaderStep(seen, headers, bases, i, raws[i]);
    }
    assert Headers(bases)[..|raws|] == Headers(bases);
  }

  // ---------------------------------------------------------------------------------------------
  // Records
  // ---------------------------------------------------------------------------------------------

  /** `c < row.length ? row[c] : null` */
  function CellOf(row: Cells, c: nat): JsValue {
    if c < |row| then row[c] else Null
  }

  /** The record of one row: `obj[headers[c]] = ...` for every column, a later column with the same header overwriting. */
  function Record(headers: seq<string>, row: Cells): (obj: Portfolio.Row)
    ensures forall h :: h in obj <==> h in headers
  {
    if headers == [] then map[] else Record(headers[..|headers| - 1], row)[headers[|headers| - 1] := CellOf(row, |headers| - 1)]
  }

  /** A column keeps its own cell unless a later column has the same header; a short row gives null. */
  lemma {:induction false} RecordKeepsColumn(headers: seq<string>, row: Cells, c: nat)
    requires c < |headers| && forall j :: c < j < |headers| ==> headers[j] != headers[c]
    ensures Record(headers, row)[headers[c]] == CellOf(row, c)
  {
    var p := headers[..|headers| - 1];
    if c < |headers| - 1 {
      assert forall j :: c < j < |p| ==> p[j] == headers[j];
      RecordKeepsColumn(p, row, c);
    }
  }

  /** `row.every(c => c === null || c === '')` */
  predicate IsEmptyRow(row: Cells) {
    forall c :: 0 <= c < |row| ==> Portfolio.Blank(row[c])
  }

  /** One record per non-empty row, in order. */
  function Records(headers: seq<string>, rows: seq<Cells>): (r: seq<Portfolio.Row>)
    ensures |r| <= |rows|
  {
    if rows == [] then []
    else
      var last := rows[|rows| - 1];
      Records(headers, rows[..|rows| - 1]) + (if IsEmptyRow(last) then [] else [Record(headers, last)])
  }

  /** The records of the rows after the header row. */
  function DataRecords(headers: seq<string>, rows: seq<Cells>, k: nat): seq<Portfolio.Row> {
    if k < |rows| then Records(headers, rows[k + 1..]) else []
  }

  /** Rows that are all null or empty contribute nothing; every other row contributes one record with exactly the header keys. */
  lemma {:induction false} RecordsOfRows(headers: seq<string>, rows: seq<Cells>)
    ensures (forall i :: 0 <= i < |rows| ==> IsEmptyRow(rows[i])) ==> Records(headers, rows) == []
    ensures (forall i :: 0 <= i < |rows| ==> !IsEmptyRow(rows[i])) ==> |Records(headers, rows)| == |rows|
    ensures forall i :: 0 <= i < |Records(headers, rows)| ==> Records(headers, rows)[i].Keys == set h | h in headers
  {
    if rows != [] {
      var p := rows[..|rows| - 1];
      assert forall i :: 0 <= i < |p| ==> p[i] == rows[i];
      RecordsOfRows(headers, p);
    }
  }

  /** The data loop: rows after the header row, empty ones skipped, one record each. */
  method DataRows(headers: seq<string>, rows: seq<Cells>, headerRowIndex: nat) returns (data: seq<Portfolio.Row>)
    ensures data == DataRecords(headers, rows, headerRowIndex)
  {
    data := [];
    if headerRowIndex >= |rows| {
      return;
    }
    for r := headerRowIndex + 1 to |rows|
      invariant data == Records(headers, rows[headerRowIndex + 1..r])
    {
      assert rows[headerRowIndex + 1..r + 1][..r - headerRowIndex - 1] == rows[headerRowIndex + 1..r];
      var row := rows[r];
      if IsEmptyRow(row) {
        continue;
      }
      var obj := RowRecord(headers, row);
      data := data + [obj];
    }
    assert rows[headerRowIndex + 1..|rows|] == rows[headerRowIndex + 1..];
  }

  /** The inner loop over the headers. */
  method RowRecord(headers: seq<string>, row: Cells) returns (obj: Portfolio.Row)
    ensures obj == Record(headers, row)
  {
    obj := map[];
    for c := 0 to |headers|
      invariant obj == Record(headers[..c], row)
    {
      assert headers[..c + 1][..c] == headers[..c];
      obj := obj[headers[c] := if c < |row| then row[c] else Null];
    }
    assert headers[..|headers|] == headers;
  }

  datatype ExcelReply = FileNotFound | Sheet(portfolio: Portfolio.PortfolioData)

  /** `getExcelData` on the first sheet of the workbook, once read. */
  function ExcelSpec(fileExists: bool, sheetName: string, rows: seq<Cells>, host: Host): (r: ExcelReply)
    ensures r.FileNotFound? <==> !fileExists
    ensures r.Sheet? ==> r.portfolio.sheet == sheetName && r.portfolio.sectors != [] && r.portfolio.sectors[0].name == Portfolio.Uncategorized
  {
    if !fileExists then FileNotFound
    else
      var headers := Headers(Bases(RawHeaders(rows, host)));
      Sheet(Portfolio.PortfolioOf(sheetName, DataRecords(headers, rows, HeaderIndex(rows)), host))
  }

  method GetExcelData(fileExists: bool, sheetName: string, rows: seq<Cells>, host: Host) returns (reply: ExcelReply)
    ensures reply == ExcelSpec(fileExists, sheetName, rows, host)
  {
    if !fileExists {
      return FileNotFound;
    }
    var headerRowIndex := HeaderRowIndex(rows);
    var rawHeaders: seq<string> := [];
    if headerRowIndex < |rows| {
      var cells := rows[headerRowIndex];
      rawHeaders := seq(|cells|, i requires 0 <= i < |cells| => HeaderText(cells[i], host));
    }
    var headers := BuildHeaders(rawHeaders);
    var data := DataRows(headers, rows, headerRowIndex);
    var portfolio := Portfolio.BuildPortfolio(sheetName, data, host);
    return Sheet(portfolio);
  }

  // ---------------------------------------------------------------------------------------------
  // getStockPrice and getStockMetrics
  // ---------------------------------------------------------------------------------------------

  /** What a handler did: the new store, the JSON body or the error passed on, and the provider calls made. */
  datatype HandlerRun = HandlerRun(db: Db, reply: Finance.Outcome<Value>, calls: seq<Finance.Call>)

  /** `getStockPrice`: the cached object under the raw symbol, or a fetch whose price is cached under the raw symbol. */
  function StockPriceSpec(db: Db, ttls: Cache.TtlConfig, provider: Finance.Provider, symbol: string): (r: HandlerRun)
    ensures r.reply.Threw? ==> r.reply.failure.statusCode != 0
    ensures |r.calls| <= 2 && (r.calls != [] ==> r.calls[0] == Finance.QuoteCall(Finance.NormalizeToNSE(symbol)))
    ensures Finance.Hit(Cache.GetCachePriceStep(db, symbol).1) ==> r.calls == [] && r.db == Answered(db)
  {
    var (d1, response) := Cache.GetCachePriceStep(db, symbol);
    if Finance.Hit(response) then HandlerRun(d1, Finance.Returned(response.value), [])
    else
      var run := Finance.FetchPriceSpec(d1, ttls, provider, symbol);
      match run.result
      case Threw(e) => HandlerRun(run.db, Finance.Threw(e), run.calls)
      case Returned(price) =>
        HandlerRun(Cache.CachePriceStep(run.db, ttls, symbol, price), Finance.Returned(Cache.PriceDoc(symbol, price)), run.calls)
  }

  /** `getStockMetrics`: as above with the metrics object, whose stored form carries `latestEarning`. */
  function StockMetricsSpec(db: Db, ttls: Cache.TtlConfig, host: Host, provider: Finance.Provider, symbol: string): (r: HandlerRun)
    ensures r.reply.Threw? ==> r.reply.failure.statusCode != 0
    ensures |r.calls| <= 2 && (r.calls != [] ==> r.calls[0] == Finance.SummaryCall(Finance.NormalizeToNSE(symbol)))
    ensures Finance.Hit(Cache.GetCacheMetricsStep(db, symbol).1) ==> r.calls == [] && r.db == Answered(db)
  {
    var (d1, response) := Cache.GetCacheMetricsStep(db, symbol);
    if Finance.Hit(response) then HandlerRun(d1, Finance.Returned(response.value), [])
    else
      var run := Finance.FetchMetricsSpec(d1, ttls, host, provider, symbol);
      match run.result
      case Threw(e) => HandlerRun(run.db, Finance.Threw(e), run.calls)
      case Returned(m) =>
        HandlerRun(Cache.CacheMetricsStep(run.db, ttls, symbol, m.peRatio, m.latestEarnings),
                   Finance.Returned(Cache.MetricsDoc(symbol, m.peRatio, m.latestEarnings)), run.calls)
  }

  method GetStockPrice(finance: Finance.YahooFinanceService, symbol: string) returns (r: Finance.Outcome<Value>)
    requires finance.Shared()
    modifies finance.cache.store
    ensures var run := StockPriceSpec(old(finance.cache.store.State()), finance.cache.ttls, finance.provider, symbol);
      finance.cache.store.State() == run.db && r == run.reply
  {
    var response := finance.cache.GetCachePrice(symbol);
    if Finance.Hit(response) {
      return Finance.Returned(response.value);
    }
    var price := finance.FetchPrice(symbol);
    if price.Threw? {
      return Finance.Threw(price.failure);
    }
    var result := Cache.PriceDoc(symbol, price.value);
    finance.cache.CachePrice(symbol, price.value);
    return Finance.Returned(result);
  }

  method GetStockMetrics(finance: Finance.YahooFinanceService, symbol: string) returns (r: Finance.Outcome<Value>)
    requires finance.Shared()
    modifies finance.cache.store
    ensures var run := StockMetricsSpec(old(finance.cache.store.State()), finance.cache.ttls, finance.host, finance.provider, symbol);
      finance.cache.store.State() == run.db && r == run.reply
  {
    var response := finance.cache.GetCacheMetrics(symbol);
    if Finance.Hit(response) {
      return Finance.Returned(response.value);
    }
    var metrics := finance.FetchMetrics(symbol);
    if metrics.Threw? {
      return Finance.Threw(metrics.failure);
    }
    var result := Cache.MetricsDoc(symbol, metrics.value.peRatio, metrics.value.latestEarnings);
    finance.cache.CacheMetrics(symbol, metrics.value.peRatio, metrics.value.latestEarnings);
    return Finance.Returned(result);
  }

  /** A truthy object under `price:<symbol>` is the answer, with no fetch. */
  lemma StockPriceHit(db: Db, ttls: Cache.TtlConfig, provider: Finance.Provider, symbol: string)
    requires !NextFails(db) && Cache.PriceKey(symbol) in db.data && ValueTruthy(db.data[Cache.PriceKey(symbol)].value)
    ensures StockPriceSpec(db, ttls, provider, symbol) == HandlerRun(Answered(db), Finance.Returned(db.data[Cache.PriceKey(symbol)].value), [])
  {
  }

  /** A failed fetch is passed on unchanged and nothing is cached under the raw symbol. */
  lemma StockPriceError(db: Db, ttls: Cache.TtlConfig, provider: Finance.Provider, symbol: string)
    requires !Finance.Hit(Cache.GetCachePriceStep(db, symbol).1)
    requires Finance.FetchPriceSpec(Answered(db), ttls, provider, symbol).result.Threw?
    ensures var run := Finance.FetchPriceSpec(Answered(db), ttls, provider, symbol);
      StockPriceSpec(db, ttls, provider, symbol) == HandlerRun(run.db, Finance.Threw(run.result.failure), run.calls)
  {
  }

  /** A fetched price is answered as `{symbol, price}` and cached under the raw symbol on top of the service's state. */
  lemma StockPriceFetched(db: Db, ttls: Cache.TtlConfig, provider: Finance.Provider, symbol: string, p: JsValue)
    requires !Finance.Hit(Cache.GetCachePriceStep(db, symbol).1)
    requires Finance.FetchPriceSpec(Answered(db), ttls, provider, symbol).result == Finance.Returned(p)
    ensures var run := Finance.FetchPriceSpec(Answered(db), ttls, provider, symbol);
      StockPriceSpec(db, ttls, provider, symbol)
      == HandlerRun(Cache.CachePriceStep(run.db, ttls, symbol, p), Finance.Returned(Cache.PriceDoc(symbol, p)), run.calls)
  {
  }

  /** The store holds `v` under `key`, expiring at `expiresAt`. */
  predicate Holds(db: Db, key: string, v: Value, expiresAt: int) {
    (if key in db.data then Some(db.data[key]) else None) == Some(Entry(v, Some(expiresAt)))
  }

  /** Nothing is cached under a raw symbol that differs from its ticker, and a fetch of the ticker gets a numeric quote. */
  predicate FreshQuote(db: Db, ttls: Cache.TtlConfig, provider: Finance.Provider, symbol: string, ticker: string, q: Finance.Quote) {
    symbol != ticker && Cache.PriceKey(symbol) !in db.data && Finance.QuoteFetchable(db, ttls, provider, ticker, q)
  }

  /** The service's write of `price:<ticker>` followed by the controller's write of `price:<symbol>` leaves both entries. */
  lemma BothPriceWrites(d: Db, ttls: Cache.TtlConfig, symbol: string, ticker: string, p: JsValue)
    requires Cache.PriceWriteLands(d, ttls) && symbol != ticker
    ensures var final := Cache.CachePriceStep(Cache.CachePriceStep(d, ttls, ticker, p), ttls, symbol, p);
      && Holds(final, Cache.PriceKey(symbol), Cache.PriceDoc(symbol, p), d.now + Cache.PriceTtl(ttls))
      && Holds(final, Cache.PriceKey(ticker), Cache.PriceDoc(ticker, p), d.now + Cache.PriceTtl(ttls))
  {
    var d4 := Cache.CachePriceStep(d, ttls, ticker, p);
    assert !NextFails(d);
    assert Up(d4) by {
      assert d4.faults == Answered(d).faults;
    }
    assert Cache.PriceKey(symbol) != Cache.PriceKey(ticker) by {
      assert Cache.PriceKey(symbol)[6..] == symbol;
      assert Cache.PriceKey(ticker)[6..] == ticker;
    }
  }

  /** Passing the outbound gate and the throttle after the raw symbol's miss keeps the store healthy and the clock still. */
  lemma AdmitLeavesStoreUp(db: Db, ttls: Cache.TtlConfig, provider: Finance.Provider, ticker: string, q: Finance.Quote)
    requires Finance.QuoteFetchable(db, ttls, provider, ticker, q)
    ensures var d3 := Finance.Admit(Answered(db), Finance.PriceFlag(ticker));
      Cache.PriceWriteLands(d3, ttls) && d3.now == db.now
  {
    var d1 := Answered(db);
    assert Finance.PriceAdmits(d1, ticker);
    Limiter.KeyspacesDisjoint(ticker, Finance.PriceFlag(ticker), Limiter.Yahoo);
    Finance.PassesGateAndThrottle(d1, Cache.PriceKey(ticker), Finance.PriceFlag(ticker));
  }

  /** After the raw symbol's miss, the service fetches the quote and writes it under `price:<ticker>`. */
  lemma {:induction false} FreshQuoteFetched(db: Db, ttls: Cache.TtlConfig, provider: Finance.Provider, symbol: string, ticker: string, q: Finance.Quote)
    requires Finance.QuoteFetchable(db, ttls, provider, ticker, q)
    ensures var d3 := Finance.Admit(Answered(db), Finance.PriceFlag(ticker));
      Finance.PriceLadder(Answered(db), ttls, provider, symbol, ticker)
      == Finance.PriceRun(Cache.CachePriceStep(d3, ttls, ticker, Finance.QuotePrice(q)), Finance.Returned(Finance.QuotePrice(q)), [Finance.QuoteCall(ticker)])
  {
    assert Finance.PriceAdmits(Answered(db), ticker);
    Finance.PriceReachesProvider(Answered(db), ttls, provider, symbol, ticker);
  }

  /** The whole handler on a fresh quote: the service's write, then the controller's, and the `{symbol, price}` reply. */
  lemma {:induction false} FreshQuoteHandled(db: Db, ttls: Cache.TtlConfig, provider: Finance.Provider, symbol: string, q: Finance.Quote)
    requires FreshQuote(db, ttls, provider, symbol, Finance.NormalizeToNSE(symbol), q)
    ensures var ticker := Finance.NormalizeToNSE(symbol);
      var d3 := Finance.Admit(Answered(db), Finance.PriceFlag(ticker));
      var p := Finance.QuotePrice(q);
      StockPriceSpec(db, ttls, provider, symbol)
      == HandlerRun(Cache.CachePriceStep(Cache.CachePriceStep(d3, ttls, ticker, p), ttls, symbol, p), Finance.Returned(Cache.PriceDoc(symbol, p)), [Finance.QuoteCall(ticker)])
  {
    assert Cache.GetCachePriceStep(db, symbol) == (Answered(db), None);
    FreshQuoteFetched(db, ttls, provider, symbol, Finance.NormalizeToNSE(symbol), q);
    StockPriceFetched(db, ttls, provider, symbol, Finance.QuotePrice(q));
  }

  /** The two writes, from the state the gate and the throttle leave behind. */
  lemma {:induction false} AdmittedPriceWrites(db: Db, ttls: Cache.TtlConfig, provider: Finance.Provider, symbol: string, ticker: string, q: Finance.Quote)
    requires symbol != ticker && Finance.QuoteFetchable(db, ttls, provider, ticker, q)
    ensures var p := Finance.QuotePrice(q);
      var final := Cache.CachePriceStep(Cache.CachePriceStep(Finance.Admit(Answered(db), Finance.PriceFlag(ticker)), ttls, ticker, p), ttls, symbol, p);
      && Holds(final, Cache.PriceKey(symbol), Cache.PriceDoc(symbol, p), db.now + Cache.PriceTtl(ttls))
      && Holds(final, Cache.PriceKey(ticker), Cache.PriceDoc(ticker, p), db.now + Cache.PriceTtl(ttls))
  {
    AdmitLeavesStoreUp(db, ttls, provider, ticker, q);
    BothPriceWrites(Finance.Admit(Answered(db), Finance.PriceFlag(ticker)), ttls, symbol, ticker, Finance.QuotePrice(q));
  }

  /**
   * A fresh quote price for a raw symbol that differs from its ticker ends up under two keys:
   * `price:<ticker>` written by the service and `price:<symbol>` written by the controller.
   */
  lemma {:induction false} PriceCachedUnderTwoKeys(db: Db, ttls: Cache.TtlConfig, provider: Finance.Provider, symbol: string, q: Finance.Quote)
    requires FreshQuote(db, ttls, provider, symbol, Finance.NormalizeToNSE(symbol), q)
    ensures var run := StockPriceSpec(db, ttls, provider, symbol);
      var p := Finance.QuotePrice(q);
      var ticker := Finance.NormalizeToNSE(symbol);
      && run.reply == Finance.Returned(Cache.PriceDoc(symbol, p))
      && Holds(run.db, Cache.PriceKey(symbol), Cache.PriceDoc(symbol, p), db.now + Cache.PriceTtl(ttls))
      && Holds(run.db, Cache.PriceKey(ticker), Cache.PriceDoc(ticker, p), db.now + Cache.PriceTtl(ttls))
  {
    FreshQuoteHandled(db, ttls, provider, symbol, q);
    AdmittedPriceWrites(db, ttls, provider, symbol, Finance.NormalizeToNSE(symbol), q);
  }

  /** A fetched metrics object is answered and cached under the raw symbol on top of the service's state. */
  lemma StockMetricsFetched(db: Db, ttls: Cache.TtlConfig, host: Host, provider: Finance.Provider, symbol: string, m: Finance.Metrics)
    requires !Finance.Hit(Cache.GetCacheMetricsStep(db, symbol).1)
    requires Finance.FetchMetricsSpec(Answered(db), ttls, host, provider, symbol).result == Finance.Returned(m)
    ensures var run := Finance.FetchMetricsSpec(Answered(db), ttls, host, provider, symbol);
      StockMetricsSpec(db, ttls, host, provider, symbol)
      == HandlerRun(Cache.CacheMetricsStep(run.db, ttls, symbol, m.peRatio, m.latestEarnings),
                    Finance.Returned(Cache.MetricsDoc(symbol, m.peRatio, m.latestEarnings)), run.calls)
  {
  }

  /** The reply of a fetched `getStockMetrics` is the stored form, so its earnings travel as `latestEarning`. */
  lemma StockMetricsReply(db: Db, ttls: Cache.TtlConfig, host: Host, provider: Finance.Provider, symbol: string, m: Finance.Metrics)
    requires !Finance.Hit(Cache.GetCacheMetricsStep(db, symbol).1)
    requires Finance.FetchMetricsSpec(Answered(db), ttls, host, provider, symbol).result == Finance.Returned(m)
    ensures var run := StockMetricsSpec(db, ttls, host, provider, symbol);
      && run.reply == Finance.Returned(Cache.MetricsDoc(symbol, m.peRatio, m.latestEarnings))
      && Field(run.reply.value, "latestEarning") == Stored(m.latestEarnings)
  {
    StockMetricsFetched(db, ttls, host, provider, symbol, m);
    Cache.MetricsDocCarriesEarning(symbol, m.peRatio, m.latestEarnings);
  }

  // ---------------------------------------------------------------------------------------------
  // getBatchStocks
  // ---------------------------------------------------------------------------------------------

  /** The batch `price` field: the whole cached object on a hit, otherwise the fetched price or null. */
  datatype BatchPrice = CachedPrice(doc: Value) | FetchedPrice(price: JsValue)

  datatype BatchItem =
    | Fetched(symbol: string, price: BatchPrice, metrics: Finance.Metrics)
    | Unfetched(symbol: string, error: string, nullPrice: JsValue, peRatio: JsValue, latestEarnings: JsValue)

  /** A `Promise.allSettled` outcome. */
  datatype Settled = Fulfilled(value: BatchItem) | Rejected

  /** The 400 answer for a body whose `symbols` is not an array, or the items in input order. */
  datatype BatchReply = BadRequest(err: string) | Items(items: seq<BatchItem>)

  const NotAnArray := "Symbol must be an array"
  const FailedToFetch := "Failed to fetch data"

  /** The shape a rejected symbol takes. */
  function FailedItem(symbol: string): BatchItem {
    Unfetched(symbol, FailedToFetch, Null, Str("N/A"), Str("N/A"))
  }

  /** `results.map(...)`: same length and order, every rejection replaced by the failure shape. */
  function Assemble(symbols: seq<string>, results: seq<Settled>): (items: seq<BatchItem>)
    requires |results| == |symbols|
    ensures |items| == |symbols|
    ensures forall i :: 0 <= i < |symbols| && results[i].Fulfilled? ==> items[i] == results[i].value
    ensures forall i :: 0 <= i < |symbols| && results[i].Rejected? ==> items[i] == FailedItem(symbols[i])
  {
    if symbols == [] then []
    else
      var n := |symbols| - 1;
      Assemble(symbols[..n], results[..n]) + [if results[n].Fulfilled? then results[n].value else FailedItem(symbols[n])]
  }

  /** The fetched metrics, or the N/A pair when the fetch failed. */
  function MetricsOrNA(r: Finance.Outcome<Finance.Metrics>): Finance.Metrics {
    if r.Returned? then r.value else Finance.NotAvailable
  }

  datatype SymbolRun = SymbolRun(db: Db, settled: Settled, calls: seq<Finance.Call>)

  /** The outcome is a fulfilled, fetched item for `symbol`. */
  predicate FetchedFor(s: Settled, symbol: string) {
    s.Fulfilled? && s.value.Fetched? && s.value.symbol == symbol
  }

  /** The async mapper for one symbol; every failure inside it is caught, so it always fulfils. */
  function SymbolSpec(db: Db, ttls: Cache.TtlConfig, host: Host, provider: Finance.Provider, symbol: string): (r: SymbolRun)
    ensures FetchedFor(r.settled, symbol)
  {
    var (d, price, calls) := BatchPriceOf(db, ttls, provider, symbol);
    var mrun := Finance.FetchMetricsSpec(d, ttls, host, provider, symbol);
    SymbolRun(mrun.db, Fulfilled(Fetched(symbol, price, MetricsOrNA(mrun.result))), calls + mrun.calls)
  }

  /** The mapper's price: the cached object on a hit, otherwise the fetched price or null when the fetch fails. */
  function BatchPriceOf(db: Db, ttls: Cache.TtlConfig, provider: Finance.Provider, symbol: string): (r: (Db, BatchPrice, seq<Finance.Call>))
    ensures Finance.Hit(Cache.GetCachePriceStep(db, symbol).1) ==> r.2 == [] && r.0 == Answered(db)
  {
    var (d1, cached) := Cache.GetCachePriceStep(db, symbol);
    if Finance.Hit(cached) then (d1, CachedPrice(cached.value), [])
    else
      var run := Finance.FetchPriceSpec(d1, ttls, provider, symbol);
      (run.db, FetchedPrice(if run.result.Returned? then run.result.value else Null), run.calls)
  }

  datatype BatchRun = BatchRun(db: Db, results: seq<Settled>, calls: seq<Finance.Call>)

  /** The mappers run one after another, in input order. */
  function SettleAll(db: Db, ttls: Cache.TtlConfig, host: Host, provider: Finance.Provider, symbols: seq<string>): (r: BatchRun)
    ensures |r.results| == |symbols|
  {
    if symbols == [] then BatchRun(db, [], [])
    else
      var n := |symbols| - 1;
      var prior := SettleAll(db, ttls, host, provider, symbols[..n]);
      var one := SymbolSpec(prior.db, ttls, host, provider, symbols[n]);
      BatchRun(one.db, prior.results + [one.settled], prior.calls + one.calls)
  }

  /** Every outcome is a fulfilled item for the symbol at the same position. */
  lemma {:induction false} SettleAllFetched(db: Db, ttls: Cache.TtlConfig, host: Host, provider: Finance.Provider, symbols: seq<string>)
    ensures var r := SettleAll(db, ttls, host, provider, symbols);
      forall i :: 0 <= i < |symbols| ==> FetchedFor(r.results[i], symbols[i])
  {
    if symbols != [] {
      var n := |symbols| - 1;
      SettleAllFetched(db, ttls, host, provider, symbols[..n]);
      var prior := SettleAll(db, ttls, host, provider, symbols[..n]);
      var one := SymbolSpec(prior.db, ttls, host, provider, symbols[n]);
      AllFetchedGrows(prior.results, symbols, one.settled);
    }
  }

  /** Appending the last symbol's outcome keeps every outcome matched to its symbol. */
  lemma AllFetchedGrows(results: seq<Settled>, symbols: seq<string>, s: Settled)
    requires symbols != [] && |results| == |symbols| - 1
    requires forall i :: 0 <= i < |results| ==> FetchedFor(results[i], symbols[..|symbols| - 1][i])
    requires FetchedFor(s, symbols[|symbols| - 1])
    ensures forall i :: 0 <= i < |symbols| ==> FetchedFor((results + [s])[i], symbols[i])
  {
  }

  /** `getBatchStocks` on `req.body.symbols`; None is any value that is not an array. */
  function BatchSpec(db: Db, ttls: Cache.TtlConfig, host: Host, provider: Finance.Provider, symbols: Option<seq<string>>): (r: (Db, BatchReply, seq<Finance.Call>))
    ensures r.1.BadRequest? <==> symbols.None?
    ensures symbols.Some? ==> r.1.Items? && |r.1.items| == |symbols.value|
  {
    match symbols
    case None => (db, BadRequest(NotAnArray), [])
    case Some(list) =>
      var run := SettleAll(db, ttls, host, provider, list);
      (run.db, Items(Assemble(list, run.results)), run.calls)
  }

  /** A non-array body is answered with 400, without touching the store or the provider. */
  lemma BatchRejectsNonArray(db: Db, ttls: Cache.TtlConfig, host: Host, provider: Finance.Provider)
    ensures BatchSpec(db, ttls, host, provider, None) == (db, BadRequest(NotAnArray), [])
  {
  }

  /** One item per symbol, in input order, each fetched (the mapper never rejects). */
  lemma BatchKeepsOrder(db: Db, ttls: Cache.TtlConfig, host: Host, provider: Finance.Provider, symbols: seq<string>)
    ensures var reply := BatchSpec(db, ttls, host, provider, Some(symbols)).1;
      && reply.Items? && |reply.items| == |symbols|
      && forall i :: 0 <= i < |symbols| ==> reply.items[i].Fetched? && reply.items[i].symbol == symbols[i]
  {
    SettleAllFetched(db, ttls, host, provider, symbols);
  }

  /** A truthy cached object is used as `price` as it is; the metrics come from the service or are the N/A pair. */
  lemma BatchCachedPrice(db: Db, ttls: Cache.TtlConfig, host: Host, provider: Finance.Provider, symbol: string, doc: Value)
    requires !NextFails(db) && Cache.PriceKey(symbol) in db.data && db.data[Cache.PriceKey(symbol)].value == doc && ValueTruthy(doc)
    ensures var mrun := Finance.FetchMetricsSpec(Answered(db), ttls, host, provider, symbol);
      SymbolSpec(db, ttls, host, provider, symbol)
      == SymbolRun(mrun.db, Fulfilled(Fetched(symbol, CachedPrice(doc), MetricsOrNA(mrun.result))), mrun.calls)
  {
    assert Cache.GetCachePriceStep(db, symbol) == (Answered(db), Some(doc));
    assert BatchPriceOf(db, ttls, provider, symbol) == (Answered(db), CachedPrice(doc), []);
    var mrun := Finance.FetchMetricsSpec(Answered(db), ttls, host, provider, symbol);
    assert [] + mrun.calls == mrun.calls;
  }

  /** On a miss a failed fetch gives a null price, and a failed metrics fetch the N/A pair. */
  lemma BatchFailuresDegrade(db: Db, ttls: Cache.TtlConfig, host: Host, provider: Finance.Provider, symbol: string)
    requires !Finance.Hit(Cache.GetCachePriceStep(db, symbol).1)
    ensures var run := Finance.FetchPriceSpec(Answered(db), ttls, provider, symbol);
      var r := SymbolSpec(db, ttls, host, provider, symbol);
      && (run.result.Threw? ==> r.settled.value.price == FetchedPrice(Null))
      && (run.result.Returned? ==> r.settled.value.price == FetchedPrice(run.result.value))
      && (Finance.FetchMetricsSpec(run.db, ttls, host, provider, symbol).result.Threw? ==> r.settled.value.metrics == Finance.NotAvailable)
  {
  }

  method SettleSymbol(finance: Finance.YahooFinanceService, symbol: string) returns (s: Settled)
    requires finance.Shared()
    modifies finance.cache.store
    ensures var run := SymbolSpec(old(finance.cache.store.State()), finance.cache.ttls, finance.host, finance.provider, symbol);
      finance.cache.store.State() == run.db && s == run.settled
  {
    var cached := finance.cache.GetCachePrice(symbol);
    var price: BatchPrice;
    if Finance.Hit(cached) {
      price := CachedPrice(cached.value);
    } else {
      var fetched := finance.FetchPrice(symbol);
      price := FetchedPrice(if fetched.Returned? then fetched.value else Null);
    }
    var m := finance.FetchMetrics(symbol);
    var metrics := MetricsOrNA(m);
    return Fulfilled(Fetched(symbol, price, metrics));
  }

  method GetBatchStocks(finance: Finance.YahooFinanceService, symbols: Option<seq<string>>) returns (reply: BatchReply)
    requires finance.Shared()
    modifies finance.cache.store
    ensures var run := BatchSpec(old(finance.cache.store.State()), finance.cache.ttls, finance.host, finance.provider, symbols);
      finance.cache.store.State() == run.0 && reply == run.1
  {
    if symbols.None? {
      return BadRequest(NotAnArray);
    }
    var list := symbols.value;
    var results := SettleList(finance, list);
    return Items(Assemble(list, results));
  }

  /** `Promise.allSettled(symbols.map(...))`: the mappers in input order, one outcome each. */
  method SettleList(finance: Finance.YahooFinanceService, list: seq<string>) returns (results: seq<Settled>)
    requires finance.Shared()
    modifies finance.cache.store
    ensures var run := SettleAll(old(finance.cache.store.State()), finance.cache.ttls, finance.host, finance.provider, list);
      finance.cache.store.State() == run.db && results == run.results
  {
    results := [];
    ghost var start := finance.cache.store.State();
    for i := 0 to |list|
      invariant var run := SettleAll(start, finance.cache.ttls, finance.host, finance.provider, list[..i]);
        finance.cache.store.State() == run.db && results == run.results
    {
      results := SettleNext(finance, start, list, i, results);
    }
    assert list[..|list|] == list;
  }

  /** One pass of the `map`: the next symbol's mapper extends the outcomes settled so far. */
  method SettleNext(finance: Finance.YahooFinanceService, ghost start: Db, list: seq<string>, i: nat, results: seq<Settled>)
    returns (next: seq<Settled>)
    requires finance.Shared() && i < |list|
    requires var run := SettleAll(start, finance.cache.ttls, finance.host, finance.provider, list[..i]);
      finance.cache.store.State() == run.db && results == run.results
    modifies finance.cache.store
    ensures var run := SettleAll(start, finance.cache.ttls, finance.host, finance.provider, list[..i + 1]);
      finance.cache.store.State() == run.db && next == run.results
  {
    SettleAllSnoc(start, finance.cache.ttls, finance.host, finance.provider, list, i);
    var s := SettleSymbol(finance, list[i]);
    next := results + [s];
  }

  /** The outcomes of a longer prefix are those of the shorter one and the next mapper's. */
  lemma SettleAllSnoc(db: Db, ttls: Cache.TtlConfig, host: Host, provider: Finance.Provider, list: seq<string>, i: nat)
    requires i < |list|
    ensures var prior := SettleAll(db, ttls, host, provider, list[..i]);
      var one := SymbolSpec(prior.db, ttls, host, provider, list[i]);
      SettleAll(db, ttls, host, provider, list[..i + 1]) == BatchRun(one.db, prior.results + [one.settled], prior.calls + one.calls)
  {
    assert list[..i + 1][..i] == list[..i];
    assert list[..i + 1][i] == list[i];
  }
}
