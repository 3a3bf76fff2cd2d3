/**
 * The leaderboard page (`app/bangxh/page.tsx`): `formatNumber`, the mapping
 * that turns the backend's top-10 rows into displayed rows, the fetch that
 * loads both lists, tab selection and which podium slots and medals show.
 */
module Leaderboard {
  import opened Wrappers
  import opened Js
  import Decimal

  /** A leaderboard row as the backend sends it: a JSON object. */
  type Row = map<string, Value>

  // ---------------------------------------------------------------- formatNumber

  /**
   * The replacement `/\B(?=(\d{3})+(?!\d))/g` → "," on a run of digits: a comma
   * goes in front of every digit that is followed by a multiple of three digits,
   * except in front of the first one.
   */
  function Group(d: string): (r: string)
    ensures |d| >= 1 ==> |r| >= 1 && r[0] == d[0]
    decreases |d|
  {
    if |d| <= 3 then d else Group(d[..|d| - 3]) + "," + d[|d| - 3..]
  }

  /** The argument types `formatNumber` accepts: `number | null | undefined`. */
  predicate NumberArg(v: Value) {
    v.Num? || v.Null? || v.Undefined?
  }

  /**
   * `formatNumber(num)`.  On a negative number `\B` does not match between the
   * sign and the first digit, so the sign stays in front of grouped digits.
   */
  function FormatNumber(num: Value): (r: string)
    requires NumberArg(num)
    ensures |r| >= 1
    ensures !num.Num? || num.n == 0 ==> r == "0"
    ensures r[0] == '-' <==> num.Num? && num.n < 0
  {
    if !num.Num? then "0"
    else if num.n < 0 then "-" + Group(Decimal.NatToDigits(-num.n))
    else Group(Decimal.NatToDigits(num.n))
  }

  /** The text with every ',' deleted. */
  function RemoveCommas(s: string): string {
    if s == [] then [] else (if s[0] == ',' then "" else [s[0]]) + RemoveCommas(s[1..])
  }

  /**
   * Digit-grouped text: digits and commas, where the commas stand exactly at the
   * positions whose distance to the end is a multiple of four.  So the first
   * group has one to three digits and every later group exactly three.
   */
  predicate WellGrouped(r: string) {
    && |r| % 4 != 0
    && (forall j :: 0 <= j < |r| ==> (r[j] == ',' <==> (|r| - j) % 4 == 0))
    && (forall j :: 0 <= j < |r| && r[j] != ',' ==> Decimal.IsDigit(r[j]))
  }

  lemma {:induction false} RemoveCommasAppend(a: string, b: string)
    ensures RemoveCommas(a + b) == RemoveCommas(a) + RemoveCommas(b)
  {
    if a == [] {
      assert a + b == b;
    } else {
      assert (a + b)[0] == a[0] && (a + b)[1..] == a[1..] + b;
      RemoveCommasAppend(a[1..], b);
    }
  }

  lemma {:induction false} RemoveCommasDigits(d: string)
    requires Decimal.AllDigits(d)
    ensures RemoveCommas(d) == d
  {
    if d != [] {
      RemoveCommasDigits(d[1..]);
    }
  }

  /** Deleting the commas from `g + "," + t`, where `t` is digits. */
  lemma RemoveCommasJoin(g: string, t: string)
    requires Decimal.AllDigits(t)
    ensures RemoveCommas(g + "," + t) == RemoveCommas(g) + t
  {
    calc {
      RemoveCommas(g + "," + t);
      { RemoveCommasAppend(g + ",", t); }
      RemoveCommas(g + ",") + RemoveCommas(t);
      { RemoveCommasAppend(g, ","); }
      RemoveCommas(g) + RemoveCommas(",") + RemoveCommas(t);
      { assert RemoveCommas(",") == "" by { assert ","[1..] == []; }
        RemoveCommasDigits(t); }
      RemoveCommas(g) + t;
    }
  }

  /** Grouping only inserts commas: deleting them gives the digits back. */
  lemma {:induction false} GroupRoundTrip(d: string)
    requires Decimal.AllDigits(d)
    ensures RemoveCommas(Group(d)) == d
  {
    if |d| <= 3 {
      RemoveCommasDigits(d);
    } else {
      var k := |d| - 3;
      var g := Group(d[..k]);
      calc {
        RemoveCommas(Group(d));
        RemoveCommas(g + "," + d[k..]);
        { RemoveCommasJoin(g, d[k..]); }
        RemoveCommas(g) + d[k..];
        { GroupRoundTrip(d[..k]); }
        d[..k] + d[k..];
        { assert d[..k] + d[k..] == d; }
        d;
      }
    }
  }

  /** Appending a comma and three digits to grouped text keeps it grouped. */
  lemma GroupStep(g: string, t: string)
    requires WellGrouped(g) && |t| == 3 && Decimal.AllDigits(t)
    ensures WellGrouped(g + "," + t)
  {
    var r := g + "," + t;
    forall j | 0 <= j < |r|
      ensures (r[j] == ',' <==> (|r| - j) % 4 == 0)
      ensures r[j] != ',' ==> Decimal.IsDigit(r[j])
    {
      if j < |g| {
        assert r[j] == g[j];
      } else if j > |g| {
        assert r[j] == t[j - |g| - 1];
      }
    }
  }

  /** The shape of grouped digits, and how many commas go in. */
  lemma {:induction false} GroupShape(d: string)
    requires Decimal.AllDigits(d) && |d| >= 1
    ensures WellGrouped(Group(d))
    ensures |Group(d)| == |d| + (|d| - 1) / 3
  {
    if |d| > 3 {
      var k := |d| - 3;
      GroupShape(d[..k]);
      GroupStep(Group(d[..k]), d[k..]);
    }
  }

  /** Numbers of at most three digits come back exactly as `toString` prints them. */
  lemma ShortNumbersUnchanged(n: int)
    requires -1000 < n < 1000
    ensures FormatNumber(Num(n)) == Decimal.IntToString(n)
  {
    var m := if n < 0 then -n else n;
    if m >= 10 {
      assert |Decimal.NatToDigits(m / 10)| <= 2 by {
        if m / 10 >= 10 {
          assert |Decimal.NatToDigits(m / 10 / 10)| == 1;
        }
      }
    }
    assert |Decimal.NatToDigits(m)| <= 3;
  }

  /** Deleting the commas from `formatNumber(n)` gives `n.toString()`. */
  lemma FormatNumberRoundTrip(n: int)
    ensures RemoveCommas(FormatNumber(Num(n))) == Decimal.IntToString(n)
  {
    if n < 0 {
      GroupRoundTrip(Decimal.NatToDigits(-n));
      RemoveCommasAppend("-", Group(Decimal.NatToDigits(-n)));
    } else {
      GroupRoundTrip(Decimal.NatToDigits(n));
    }
  }

  /** `formatNumber(n)` is the sign (if any) followed by well-grouped digits. */
  lemma FormatNumberShape(n: int)
    ensures n >= 0 ==> WellGrouped(FormatNumber(Num(n)))
    ensures n < 0 ==> FormatNumber(Num(n))[0] == '-' && WellGrouped(FormatNumber(Num(n))[1..])
  {
    if n < 0 {
      GroupShape(Decimal.NatToDigits(-n));
      assert FormatNumber(Num(n))[1..] == Group(Decimal.NatToDigits(-n));
    } else {
      GroupShape(Decimal.NatToDigits(n));
    }
  }

  lemma NullAndUndefinedFormatAsZero()
    ensures FormatNumber(Null) == "0" && FormatNumber(Undefined) == "0" && FormatNumber(Num(0)) == "0"
  {
  }

  // ---------------------------------------------------------------- rows

  /** The column fields and the keys their formatted text is written to. */
  const StatKeys: seq<string> := ["sucManh", "sucManhDeTu", "vang", "ngoc"]
  const FormattedKeys: seq<string> := ["formattedSucManh", "formattedSucManhDeTu", "formattedVang", "formattedNgoc"]

  /** The keys the row mapping overwrites. */
  const Overwritten: set<string> := {"rank", "formattedSucManh", "formattedSucManhDeTu", "formattedVang", "formattedNgoc"}

  function Field(row: Row, key: string): Value {
    if key in row then row[key] else Undefined
  }

  /** The `UserData` interface: each statistic, when present, is a number (JSON may also carry `null`). */
  predicate WellTyped(row: Row) {
    forall i :: 0 <= i < |StatKeys| ==> StatKeys[i] in row ==> row[StatKeys[i]].Num? || row[StatKeys[i]].Null?
  }

  /** `formatNumber(user.<stat> || 0)`. */
  function FormatStat(row: Row, key: string): (r: string)
    requires key == "sucManh" || key == "sucManhDeTu" || key == "vang" || key == "ngoc"
    requires WellTyped(row)
    ensures !Truthy(Field(row, key)) ==> r == "0"
    ensures Truthy(Field(row, key)) ==> row[key].Num? && r == FormatNumber(row[key])
  {
    assert key == StatKeys[0] || key == StatKeys[1] || key == StatKeys[2] || key == StatKeys[3];
    FormatNumber(Or(Field(row, key), Num(0)))
  }

  /** `{...user, rank, formattedSucManh, formattedSucManhDeTu, formattedVang, formattedNgoc}`. */
  function ProcessRow(row: Row, rank: int): (r: Row)
    requires WellTyped(row)
    ensures r.Keys == row.Keys + Overwritten
    ensures r["rank"] == Num(rank)
    ensures forall k :: k in row && k !in Overwritten ==> r[k] == row[k]
  {
    row["rank" := Num(rank)]
       ["formattedSucManh" := Str(FormatStat(row, "sucManh"))]
       ["formattedSucManhDeTu" := Str(FormatStat(row, "sucManhDeTu"))]
       ["formattedVang" := Str(FormatStat(row, "vang"))]
       ["formattedNgoc" := Str(FormatStat(row, "ngoc"))]
  }

  predicate AllWellTyped(rows: seq<Row>) {
    forall i :: 0 <= i < |rows| ==> WellTyped(rows[i])
  }

  /** `rows.map((user, index) => ({...user, rank: index + 1, ...}))`. */
  function ProcessRows(rows: seq<Row>): (r: seq<Row>)
    requires AllWellTyped(rows)
    ensures |r| == |rows|
    ensures forall i :: 0 <= i < |r| ==> r[i] == ProcessRow(rows[i], i + 1)
  {
    seq(|rows|, i requires 0 <= i < |rows| => ProcessRow(rows[i], i + 1))
  }

  /** Row i gets rank i + 1 and keeps every field the mapping does not overwrite. */
  lemma ProcessedRowsRankAndKeep(rows: seq<Row>, i: int)
    requires AllWellTyped(rows) && 0 <= i < |rows|
    ensures ProcessRows(rows)[i]["rank"] == Num(i + 1)
    ensures forall k :: k in rows[i] && k !in Overwritten ==> ProcessRows(rows)[i][k] == rows[i][k]
  {
  }

  /** The formatted field `FormattedKeys[j]` of a processed row holds `FormatStat` of the statistic `StatKeys[j]`. */
  lemma FormattedField(row: Row, rank: int, j: int)
    requires WellTyped(row) && 0 <= j < 4
    ensures StatKeys[j] == "sucManh" || StatKeys[j] == "sucManhDeTu" || StatKeys[j] == "vang" || StatKeys[j] == "ngoc"
    ensures ProcessRow(row, rank)[FormattedKeys[j]] == Str(FormatStat(row, StatKeys[j]))
  {
    var r := ProcessRow(row, rank);
    if j == 0 {
      assert FormattedKeys[j] == "formattedSucManh" && StatKeys[j] == "sucManh";
      assert r["formattedSucManh"] == Str(FormatStat(row, "sucManh"));
    } else if j == 1 {
      assert FormattedKeys[j] == "formattedSucManhDeTu" && StatKeys[j] == "sucManhDeTu";
      assert r["formattedSucManhDeTu"] == Str(FormatStat(row, "sucManhDeTu"));
    } else if j == 2 {
      assert FormattedKeys[j] == "formattedVang" && StatKeys[j] == "vang";
      assert r["formattedVang"] == Str(FormatStat(row, "vang"));
    } else {
      assert FormattedKeys[j] == "formattedNgoc" && StatKeys[j] == "ngoc";
      assert r["formattedNgoc"] == Str(FormatStat(row, "ngoc"));
    }
  }

  /**
   * In every processed row, a missing, null or zero statistic is shown as "0";
   * any other is shown as `formatNumber` of it.
   */
  lemma FormattedStat(rows: seq<Row>, i: int, j: int)
    requires AllWellTyped(rows) && 0 <= i < |rows| && 0 <= j < 4
    ensures !Truthy(Field(rows[i], StatKeys[j])) ==> ProcessRows(rows)[i][FormattedKeys[j]] == Str("0")
    ensures Truthy(Field(rows[i], StatKeys[j])) ==>
      ProcessRows(rows)[i][FormattedKeys[j]] == Str(FormatNumber(rows[i][StatKeys[j]]))
  {
    assert ProcessRows(rows)[i] == ProcessRow(rows[i], i + 1);
    FormattedField(rows[i], i + 1, j);
  }

  // ---------------------------------------------------------------- rendering rules

  /** `user.rank && user.rank <= 3`: the rank cell shows a medal. */
  predicate ShowsMedal(row: Row)
    ensures ShowsMedal(row) ==> Field(row, "rank").Num? && Field(row, "rank").n != 0 && Field(row, "rank").n <= 3
    ensures Field(row, "rank").Num? && 1 <= Field(row, "rank").n <= 3 ==> ShowsMedal(row)
  {
    var rank := Field(row, "rank");
    Truthy(rank) && rank.Num? && rank.n <= 3
  }

  /** Podium slot `k` (1, 2 or 3) is rendered, showing row k - 1, when the list has at least k rows. */
  predicate PodiumShows(data: seq<Row>, k: int)
    ensures PodiumShows(data, k) ==> 0 <= k - 1 < |data|
    ensures PodiumShows(data, k) <==> k in {1, 2, 3} && k <= |data|
  {
    1 <= k <= 3 && |data| >= k
  }

  /** In a processed list the medal rows are exactly the first three, the rows the podium shows. */
  lemma MedalsMatchPodium(rows: seq<Row>, i: int)
    requires AllWellTyped(rows) && 0 <= i < |rows|
    ensures ShowsMedal(ProcessRows(rows)[i]) <==> i < 3
    ensures ShowsMedal(ProcessRows(rows)[i]) <==> PodiumShows(ProcessRows(rows), i + 1)
  {
  }

  // ---------------------------------------------------------------- the page

  datatype Tab = SucManh | VangTab

  /** What one awaited `get10…()` call produced: the body's `data` (None when it is missing or falsy), or a throw. */
  datatype Fetch = Fetched(rows: Option<seq<Row>>) | FetchThrew

  function RowsOf(f: Fetch): seq<Row>
    requires f.Fetched?
  {
    if f.rows.Some? then f.rows.value else []
  }

  predicate FetchWellTyped(f: Fetch) {
    f.Fetched? ==> AllWellTyped(RowsOf(f))
  }

  class LeaderboardPage {
    var dataSucManh: seq<Row>
    var dataVang: seq<Row>
    var loading: bool
    var activeTab: Tab

    constructor ()
      ensures dataSucManh == [] && dataVang == [] && loading && activeTab == SucManh
    {
      dataSucManh, dataVang, loading, activeTab := [], [], true, SucManh;
    }

    /** The list the active tab shows. */
    function CurrentData(): (r: seq<Row>)
      reads this
      ensures activeTab == SucManh ==> r == dataSucManh
      ensures activeTab == VangTab ==> r == dataVang
    {
      if activeTab == SucManh then dataSucManh else dataVang
    }

    method SelectTab(tab: Tab)
      modifies this
      ensures activeTab == tab && CurrentData() == (if tab == SucManh then dataSucManh else dataVang)
      ensures dataSucManh == old(dataSucManh) && dataVang == old(dataVang) && loading == old(loading)
    {
      activeTab := tab;
    }

    /**
     * `fetchApi`: the strength list is fetched first and the gold list second
     * (only when the first call did not throw); both lists are replaced only when
     * both calls returned, and loading ends false on every path.
     */
    method FetchApi(first: Fetch, second: Fetch)
      requires FetchWellTyped(first) && FetchWellTyped(second)
      modifies this
      ensures !loading && activeTab == old(activeTab)
      ensures first.Fetched? && second.Fetched? ==>
        dataSucManh == ProcessRows(RowsOf(first)) && dataVang == ProcessRows(RowsOf(second))
      ensures first.FetchThrew? || second.FetchThrew? ==>
        dataSucManh == old(dataSucManh) && dataVang == old(dataVang)
    {
      loading := true;
      if first.Fetched? {
        var response1 := RowsOf(first);
        if second.Fetched? {
          var response2 := RowsOf(second);
          var processedSucManh := ProcessRows(response1);
          var processedVang := ProcessRows(response2);
          dataSucManh := processedSucManh;
          dataVang := processedVang;
        }
      }
      loading := false;
    }
  }
}
