/** The template mapper: record to ordered C 01.00 rows, currency formatting,
    the independent recomputation of the four totals, and the json/csv/html
    export. */
module TemplateMapper {
  import opened Common
  import opened CorepRecord

  // ------------------------------------------------------------------ rows

  /** `(row_number, description, amount)`. */
  datatype Row = Row(rowNumber: string, description: string, amount: Option<int>)

  function RowCode(s: Slot): string {
    match s
    case OrdinaryShareCapital => "010"
    case RetainedEarnings => "020"
    case IntangiblesDeduction => "350"
    case At1Instruments => "120"
    case Tier2Instruments => "200"
  }

  function Description(s: Slot): string {
    match s
    case OrdinaryShareCapital => "Ordinary Share Capital"
    case RetainedEarnings => "Retained Earnings"
    case IntangiblesDeduction => "Intangible Assets Deduction"
    case At1Instruments => "AT1 Instruments"
    case Tier2Instruments => "Tier 2 Instruments"
  }

  /** The position at which the mapper emits a slot's row: 010, 020, 350,
      120, 200 (row 350 comes before 120). */
  function EmitRank(s: Slot): nat {
    match s
    case OrdinaryShareCapital => 0
    case RetainedEarnings => 1
    case IntangiblesDeduction => 2
    case At1Instruments => 3
    case Tier2Instruments => 4
  }

  /** The row of one slot, or nothing when its component is absent. */
  function RowFor(of: OwnFunds, s: Slot): (rows: seq<Row>)
    ensures |rows| <= 1
    ensures rows != [] <==> SlotComponent(of, s).Some?
    ensures rows != [] ==> rows[0] == Row(RowCode(s), Description(s), AmountOrNone(SlotComponent(of, s).value.amount))
  {
    match SlotComponent(of, s)
    case None => []
    case Some(c) => [Row(RowCode(s), Description(s), AmountOrNone(c.amount))]
  }

  /** The order in which `map_to_template` looks the slots up. */
  const EmissionOrder: seq<Slot> :=
    [OrdinaryShareCapital, RetainedEarnings, IntangiblesDeduction, At1Instruments, Tier2Instruments]

  /** The row (or nothing) each slot contributes, in emission order. */
  function Pieces(of: OwnFunds): (p: seq<seq<Row>>)
    ensures |p| == |EmissionOrder| && AtMostOne(p)
    ensures forall k :: 0 <= k < |p| ==> p[k] == RowFor(of, EmissionOrder[k])
  {
    seq(|EmissionOrder|, k requires 0 <= k < |EmissionOrder| => RowFor(of, EmissionOrder[k]))
  }

  /** `map_to_template`. */
  function MapToTemplate(r: Record): (rows: seq<Row>)
    ensures r.ownFunds.None? ==> rows == []
  {
    match r.ownFunds
    case None => []
    case Some(of) => Flatten(Pieces(of))
  }

  /** The row is the one that slot s's present component maps to. */
  predicate RowOfSlot(row: Row, of: OwnFunds, s: Slot) {
    RowFor(of, s) == [row]
  }

  /** The slot a row code stands for. */
  function SlotOfCode(code: string): (s: Option<Slot>)
    ensures s.Some? ==> RowCode(s.value) == code
  {
    if code == "010" then Some(OrdinaryShareCapital)
    else if code == "020" then Some(RetainedEarnings)
    else if code == "350" then Some(IntangiblesDeduction)
    else if code == "120" then Some(At1Instruments)
    else if code == "200" then Some(Tier2Instruments)
    else None
  }

  /** The emission rank of a row code; codes the mapper never emits rank
      last. */
  function CodeRank(code: string): nat {
    match SlotOfCode(code)
    case Some(s) => EmitRank(s)
    case None => |EmissionOrder|
  }

  lemma SlotOfRowCode(s: Slot)
    ensures SlotOfCode(RowCode(s)) == Some(s)
  {
  }

  /** Row i of the mapping is the row of the slot its code names, and that
      slot is the idx[i]-th in emission order. */
  lemma MappedRowAt(of: OwnFunds, i: nat)
    requires i < |Flatten(Pieces(of))|
    ensures SlotOfCode(Flatten(Pieces(of))[i].rowNumber).Some?
    ensures RowOfSlot(Flatten(Pieces(of))[i], of, SlotOfCode(Flatten(Pieces(of))[i].rowNumber).value)
    ensures Origins(Pieces(of))[i] == EmitRank(SlotOfCode(Flatten(Pieces(of))[i].rowNumber).value)
  {
    var p := Pieces(of);
    var idx := Origins(p);
    var rows: seq<Row> := Flatten(p);
    var k := idx[i];
    var s := EmissionOrder[k];
    assert p[k] == [rows[i]] == RowFor(of, s);
    EmissionRank(k);
    SlotOfRowCode(s);
  }

  lemma RankEmission(s: Slot)
    ensures EmitRank(s) < |EmissionOrder| && EmissionOrder[EmitRank(s)] == s
  {
  }

  lemma EmissionRank(k: nat)
    requires k < |EmissionOrder|
    ensures EmitRank(EmissionOrder[k]) == k
  {
  }

  /** Every row stands for a present component (no placeholder rows): its
      code names a slot whose component maps to exactly that row. */
  lemma MappedRowsSound(r: Record)
    ensures forall i :: 0 <= i < |MapToTemplate(r)| ==>
      && r.ownFunds.Some?
      && SlotOfCode(MapToTemplate(r)[i].rowNumber).Some?
      && RowOfSlot(MapToTemplate(r)[i], r.ownFunds.value, SlotOfCode(MapToTemplate(r)[i].rowNumber).value)
  {
    if r.ownFunds.Some? {
      assert MapToTemplate(r) == Flatten(Pieces(r.ownFunds.value));
      forall i | 0 <= i < |MapToTemplate(r)|
        ensures SlotOfCode(MapToTemplate(r)[i].rowNumber).Some?
        ensures RowOfSlot(MapToTemplate(r)[i], r.ownFunds.value, SlotOfCode(MapToTemplate(r)[i].rowNumber).value)
      {
        MappedRowAt(r.ownFunds.value, i);
      }
    } else {
      assert MapToTemplate(r) == [];
    }
  }

  /** Every present component has its row. */
  lemma MappedRowsComplete(r: Record, s: Slot)
    requires r.ownFunds.Some? && SlotComponent(r.ownFunds.value, s).Some?
    ensures |RowFor(r.ownFunds.value, s)| == 1 && RowFor(r.ownFunds.value, s)[0] in MapToTemplate(r)
  {
    var of := r.ownFunds.value;
    var p := Pieces(of);
    var idx := Origins(p);
    assert IsOrigins(p, Flatten(p), idx);
    var k := EmitRank(s);
    RankEmission(s);
    assert p[k] != [];
    var i :| 0 <= i < |idx| && idx[i] == k;
    assert p[k] == [Flatten(p)[i]];
  }

  /** Rows come strictly in emission order 010, 020, 350, 120, 200, so no
      code repeats. */
  lemma MappedRowsOrdered(r: Record)
    ensures forall i, j :: 0 <= i < j < |MapToTemplate(r)| ==>
      CodeRank(MapToTemplate(r)[i].rowNumber) < CodeRank(MapToTemplate(r)[j].rowNumber)
  {
    if r.ownFunds.Some? {
      var of := r.ownFunds.value;
      var p := Pieces(of);
      var idx := Origins(p);
      assert IsOrigins(p, Flatten(p), idx);
      var rows: seq<Row> := Flatten(p);
      forall i, j | 0 <= i < j < |rows|
        ensures CodeRank(rows[i].rowNumber) < CodeRank(rows[j].rowNumber)
      {
        MappedRowAt(of, i);
        MappedRowAt(of, j);
      }
    }
  }

  // ------------------------------------------------------------ currencies

  /** What `format_currency` may receive: None, a number, or a value that
      `float()` rejects. */
  datatype Value = VNone | VNum(n: int) | VText(s: string)

  /** The pound sign as the source file spells it: "Â£", two characters. */
  const GbpPrefix: string := "\U{00C2}\U{00A3}"

  /** `f"{n:,.2f}"` on an integer n. */
  function Decimal2(n: int): string {
    (if n < 0 then "-" else "") + Grouped(if n < 0 then -n else n) + ".00"
  }

  /** `format_currency`, with the currency as `data.get("currency", "GBP")`
      gives it: a string, or None when the key holds None. */
  function FormatCurrency(amount: Value, currency: Option<string>): string {
    match amount
    case VNone => "N/A"
    case VNum(n) => if currency == Some("GBP") then GbpPrefix + Decimal2(n) else Decimal2(n) + " " + Shown(currency)
    case VText(t) => t
  }

  /** Reads back a number printed by Decimal2: drops ".00" and the separators. */
  function ParseDecimal2(s: string): Option<int> {
    if |s| >= 3 && s[|s| - 3..] == ".00" then ParseInt(RemoveChar(s[..|s| - 3], ',')) else None
  }

  lemma ParseDecimal2Suffix(body: string)
    ensures ParseDecimal2(body + ".00") == ParseInt(RemoveChar(body, ','))
  {
    var s := body + ".00";
    assert s[..|s| - 3] == body;
    assert s[|s| - 3..] == ".00";
  }

  /** The digits of a grouped magnitude, separators removed. */
  lemma GroupedDigits(m: nat)
    ensures var d := RemoveChar(Grouped(m), ',');
      d != [] && AllDigits(d) && ParseNat(d) == Some(m)
  {
    GroupedRoundTrip(m);
    var d := RemoveChar(Grouped(m), ',');
    if d == [] {
      assert false;
    }
  }

  lemma {:induction false} Decimal2RoundTrip(n: int)
    ensures ParseDecimal2(Decimal2(n)) == Some(n)
  {
    var m: nat := if n < 0 then -n else n;
    var sign := if n < 0 then "-" else "";
    assert Decimal2(n) == (sign + Grouped(m)) + ".00";
    ParseDecimal2Suffix(sign + Grouped(m));
    RemoveCharAppend(sign, Grouped(m), ',');
    RemoveCharAbsent(sign, ',');
    var digits := RemoveChar(Grouped(m), ',');
    GroupedDigits(m);
    if n < 0 {
      assert (sign + digits)[1..] == digits;
    } else {
      assert sign + digits == digits;
    }
  }

  /** A printed amount starts with a sign or a digit. */
  lemma Decimal2Starts(n: int)
    ensures Decimal2(n)[0] == '-' || IsDigit(Decimal2(n)[0])
  {
    var m: nat := if n < 0 then -n else n;
    GroupedShape(m);
    GroupedFormStartsWithDigit(Grouped(m));
    if n >= 0 {
      assert Decimal2(n)[0] == Grouped(m)[0];
    }
  }

  lemma {:induction false} GroupedFormStartsWithDigit(s: string)
    requires GroupedForm(s)
    ensures s != [] && IsDigit(s[0])
    decreases |s|
  {
    if !(1 <= |s| <= 3 && AllDigits(s)) {
      GroupedFormStartsWithDigit(s[..|s| - 4]);
    }
  }

  /** The number inside a formatted amount reads back as the amount: after
      the "Â£" prefix for GBP, and otherwise before " " and the currency as
      printed ("None" for a currency key holding None). */
  lemma FormatCurrencyRoundTrip(n: int, currency: Option<string>)
    ensures var s := FormatCurrency(VNum(n), currency);
      if currency == Some("GBP") then
        StartsWith(s, GbpPrefix) && ParseDecimal2(s[|GbpPrefix|..]) == Some(n)
      else
        var k := |s| - |Shown(currency)| - 1;
        0 <= k && s[k..] == " " + Shown(currency) && ParseDecimal2(s[..k]) == Some(n)
  {
    Decimal2RoundTrip(n);
    var s := FormatCurrency(VNum(n), currency);
    if currency == Some("GBP") {
      assert s[|GbpPrefix|..] == Decimal2(n);
    } else {
      var k := |s| - |Shown(currency)| - 1;
      assert s[..k] == Decimal2(n);
    }
  }

  /** A formatted number never reads "N/A". */
  lemma FormattedNumberIsNotNA(n: int, currency: Option<string>)
    ensures FormatCurrency(VNum(n), currency) != "N/A"
  {
    Decimal2Starts(n);
    var s := FormatCurrency(VNum(n), currency);
    if currency == Some("GBP") {
      assert s[0] == GbpPrefix[0];
    } else {
      assert s[0] == Decimal2(n)[0];
    }
  }

  // -------------------------------------------------------- formatted rows

  datatype FormattedRow = FormattedRow(
    rowNumber: string, description: string, amount: Option<int>, formattedAmount: string, currency: Option<string>)

  /** One row of `format_template_rows`. */
  function FormatRow(row: Row, currency: Option<string>): (f: FormattedRow)
    ensures f.formattedAmount == "N/A" <==> row.amount.None?
    ensures f.rowNumber == row.rowNumber && f.description == row.description
    ensures f.amount == row.amount && f.currency == currency
  {
    if row.amount.None? then FormattedRow(row.rowNumber, row.description, row.amount, "N/A", currency)
    else
      FormattedNumberIsNotNA(row.amount.value, currency);
      FormattedRow(row.rowNumber, row.description, row.amount, FormatCurrency(VNum(row.amount.value), currency), currency)
  }

  function FormattedRows(rows: seq<Row>, currency: Option<string>): seq<FormattedRow> {
    seq(|rows|, i requires 0 <= i < |rows| => FormatRow(rows[i], currency))
  }

  /** `format_template_rows`: same length and order, "N/A" exactly for a
      missing amount, and the given currency on every row. */
  method FormatTemplateRows(rows: seq<Row>, currency: Option<string>) returns (formatted: seq<FormattedRow>)
    ensures |formatted| == |rows|
    ensures forall i :: 0 <= i < |rows| ==>
      && formatted[i].rowNumber == rows[i].rowNumber
      && formatted[i].amount == rows[i].amount
      && (formatted[i].formattedAmount == "N/A" <==> rows[i].amount.None?)
      && formatted[i].currency == currency
    ensures formatted == FormattedRows(rows, currency)
  {
    formatted := [];
    for i := 0 to |rows|
      invariant formatted == FormattedRows(rows[..i], currency)
    {
      var row := rows[i];
      var formattedAmount := if row.amount.Some? then FormatCurrency(VNum(row.amount.value), currency) else "N/A";
      formatted := formatted + [FormattedRow(row.rowNumber, row.description, row.amount, formattedAmount, currency)];
    }
    assert rows[..|rows|] == rows;
  }

  // ------------------------------------------------------------- summary

  /** `component.get("amount", default)`: None stays None, a missing key
      gives the default. */
  function GetAmount(a: Amount, default: int): Option<int> {
    match a
    case Missing => Some(default)
    case Null => None
    case Num(n) => Some(n)
  }

  /** What one named component adds to a running total: its amount, with a
      missing component, key or None amount adding nothing. */
  function Contribution(tier: Tier, name: string): int {
    match Lookup(tier, name)
    case None => 0
    case Some(c) =>
      match GetAmount(c.amount, 0)
      case None => 0
      case Some(v) => v
  }

  const CapitalComponents: seq<string> := ["ordinary_share_capital", "retained_earnings"]

  function CapitalSum(tier: Tier, names: seq<string>): int {
    if names == [] then 0
    else CapitalSum(tier, names[..|names| - 1]) + Contribution(tier, names[|names| - 1])
  }

  /** The amount of a slot counted as zero when the tier, the component, its
      amount key or its amount is missing. */
  function SlotValue(of: OwnFunds, s: Slot): int {
    match SlotComponent(of, s)
    case None => 0
    case Some(c) => if c.amount.Num? then c.amount.n else 0
  }

  /** `calculate_summary`, the zero-based recomputation of the totals. */
  function SummaryOf(r: Record): (t: Totals)
    ensures r.ownFunds.None? ==> t == Totals(0, 0, 0, 0)
  {
    match r.ownFunds
    case None => Totals(0, 0, 0, 0)
    case Some(of) =>
      var cet1 :=
        match Lookup(of, "CET1")
        case None => 0
        case Some(tier) => CapitalSum(tier, CapitalComponents) - Contribution(tier, "intangibles_deduction");
      var at1 := SlotValue(of, At1Instruments);
      var tier2 := SlotValue(of, Tier2Instruments);
      Totals(cet1, at1, tier2, cet1 + at1 + tier2)
  }

  /** total_cet1 = ordinary + retained - intangibles, and the AT1 and Tier 2
      totals are the instruments' amounts, every missing or None amount
      counting as 0 (never as None); own funds is the sum of the three. */
  lemma SummaryFormula(r: Record)
    requires r.ownFunds.Some?
    ensures var of, t := r.ownFunds.value, SummaryOf(r);
      && t.cet1 == SlotValue(of, OrdinaryShareCapital) + SlotValue(of, RetainedEarnings) - SlotValue(of, IntangiblesDeduction)
      && t.at1 == SlotValue(of, At1Instruments)
      && t.tier2 == SlotValue(of, Tier2Instruments)
      && t.ownFunds == t.cet1 + t.at1 + t.tier2
  {
    var of := r.ownFunds.value;
    match Lookup(of, "CET1")
    case None =>
    case Some(tier) =>
      var names := CapitalComponents;
      assert names[..|names| - 1] == ["ordinary_share_capital"];
      assert CapitalSum(tier, ["ordinary_share_capital"]) == Contribution(tier, "ordinary_share_capital") by {
        assert ["ordinary_share_capital"][..0] == [];
      }
  }

  /** `calculate_summary`, which fills the summary dict in place. */
  method CalculateSummary(r: Record) returns (summary: Totals)
    ensures summary == SummaryOf(r)
  {
    summary := Totals(0, 0, 0, 0);
    if r.ownFunds.None? {
      return;
    }
    var of := r.ownFunds.value;
    var cet1 := Lookup(of, "CET1");
    if cet1.Some? {
      var cet1Total := 0;
      var tier := cet1.value;
      for i := 0 to |CapitalComponents|
        invariant cet1Total == CapitalSum(tier, CapitalComponents[..i])
      {
        assert CapitalComponents[..i + 1][..i] == CapitalComponents[..i];
        var component := Lookup(tier, CapitalComponents[i]);
        if component.Some? {
          var amount := GetAmount(component.value.amount, 0);
          if amount.Some? {
            cet1Total := cet1Total + amount.value;
          }
        }
      }
      assert CapitalComponents[..|CapitalComponents|] == CapitalComponents;
      var deduction := Lookup(tier, "intangibles_deduction");
      if deduction.Some? {
        var amount := GetAmount(deduction.value.amount, 0);
        if amount.Some? {
          cet1Total := cet1Total - amount.value;
        }
      }
      summary := summary.(cet1 := cet1Total);
    }
    var at1 := SlotComponent(of, At1Instruments);
    if at1.Some? {
      var amount := GetAmount(at1.value.amount, 0);
      if amount.Some? {
        summary := summary.(at1 := amount.value);
      }
    }
    var tier2 := SlotComponent(of, Tier2Instruments);
    if tier2.Some? {
      var amount := GetAmount(tier2.value.amount, 0);
      if amount.Some? {
        summary := summary.(tier2 := amount.value);
      }
    }
    summary := summary.(ownFunds := summary.cet1 + summary.at1 + summary.tier2);
  }

  // -------------------------------------------------------------- export

  const ExportFormats: set<string> := {"json", "csv", "html"}

  datatype Export =
    | JsonExport(template: Option<string>, currency: Option<string>, reportingDate: Option<string>, rows: seq<FormattedRow>, summary: Totals)
    | CsvExport(text: string)
    | HtmlExport(text: string)

  /** `data.get("currency", "GBP")`. */
  function CurrencyOf(r: Record): Option<string> {
    r.currency.GetOr("GBP")
  }

  /** `data.get("template", "C 01.00")`. */
  function TemplateOf(r: Record): Option<string> {
    r.template.GetOr(TemplateId)
  }

  const CsvHeader: string := "Row,Description,Amount,Currency"

  /** `str(amount)` for a row amount. */
  function AmountText(a: Option<int>): string {
    match a
    case None => "None"
    case Some(n) => IntText(n)
  }

  /** Reads back what AmountText printed. */
  function ParseAmountText(s: string): Option<Option<int>> {
    if s == "None" then Some(None)
    else
      match ParseInt(s)
      case Some(n) => Some(Some(n))
      case None => None
  }

  function CsvRowLine(row: FormattedRow): string {
    row.rowNumber + "," + row.description + "," + AmountText(row.amount) + "," + Shown(row.currency)
  }

  function TotalLine(caption: string, value: int, currency: Option<string>): string {
    caption + "," + IntText(value) + "," + Shown(currency)
  }

  /** The lines of the CSV export: header, one line per row in order, a blank
      line, "SUMMARY" and the four totals, so rows + 7 lines in all. */
  function CsvLines(rows: seq<FormattedRow>, summary: Totals, currency: Option<string>): (lines: seq<string>)
    ensures |lines| == |rows| + 7
    ensures lines[0] == CsvHeader
    ensures lines[1..|rows| + 1] == CsvBody(rows)
    ensures lines[|rows| + 1..] == CsvTotals(summary, currency)
  {
    var body, totals := CsvBody(rows), CsvTotals(summary, currency);
    var lines := [CsvHeader] + body + totals;
    assert lines[1..|rows| + 1] == body && lines[|rows| + 1..] == totals;
    lines
  }

  /** One line per row, in order. */
  function CsvBody(rows: seq<FormattedRow>): (body: seq<string>)
    ensures |body| == |rows| && forall i :: 0 <= i < |rows| ==> body[i] == CsvRowLine(rows[i])
  {
    seq(|rows|, i requires 0 <= i < |rows| => CsvRowLine(rows[i]))
  }

  /** The blank line, "SUMMARY" and the four totals. */
  function CsvTotals(summary: Totals, currency: Option<string>): (totals: seq<string>)
    ensures |totals| == 6
  {
    ["", "SUMMARY",
     TotalLine("Total CET1", summary.cet1, currency),
     TotalLine("Total AT1", summary.at1, currency),
     TotalLine("Total Tier 2", summary.tier2, currency),
     TotalLine("Total Own Funds", summary.ownFunds, currency)]
  }

  /** `s.split(sep)`. */
  function Split(s: string, sep: char): (parts: seq<string>)
    ensures parts != []
    decreases |s|
  {
    if sep !in s then [s]
    else
      var k := IndexOf(s, sep);
      [s[..k]] + Split(s[k + 1..], sep)
  }

  function IndexOf(s: string, c: char): (k: nat)
    requires c in s
    ensures k < |s| && s[k] == c && c !in s[..k]
  {
    if s[0] == c then 0
    else
      assert c in s[1..] by {
        var j :| 0 <= j < |s| && s[j] == c;
        assert s[1..][j - 1] == c;
      }
      var k := IndexOf(s[1..], c);
      assert s[..k + 1] == [s[0]] + s[1..][..k];
      k + 1
  }

  lemma SplitCons(a: string, b: string, sep: char)
    requires sep !in a
    ensures Split(a + [sep] + b, sep) == [a] + Split(b, sep)
  {
    var s := a + [sep] + b;
    assert s[|a|] == sep;
    assert s[..|a|] == a;
    assert s[|a| + 1..] == b;
  }

  /** A CSV row line splits into its four fields, and the amount field reads
      back as the row's amount. */
  lemma CsvRowRoundTrip(row: FormattedRow)
    requires ',' !in row.rowNumber && ',' !in row.description && ',' !in Shown(row.currency)
    ensures var fields := Split(CsvRowLine(row), ',');
      |fields| == 4 && fields[0] == row.rowNumber && fields[1] == row.description
      && ParseAmountText(fields[2]) == Some(row.amount) && fields[3] == Shown(row.currency)
  {
    var amount := AmountText(row.amount);
    AmountTextRoundTrip(row.amount);
    FourFieldsNested(row.rowNumber, row.description, amount, Shown(row.currency), ',');
    SplitFour(row.rowNumber, row.description, amount, Shown(row.currency), ',');
  }

  /** `str(amount)` has no comma and reads back. */
  lemma AmountTextRoundTrip(a: Option<int>)
    ensures ',' !in AmountText(a)
    ensures ParseAmountText(AmountText(a)) == Some(a)
  {
    if a.Some? {
      var n := a.value;
      IntTextRoundTrip(n);
      var text := AmountText(a);
      if n < 0 {
        assert text == "-" + NatText(-n);
        assert text[0] == '-';
      } else {
        assert IsDigit(text[0]);
      }
      assert text != "None" by {
        assert text[0] != 'N';
      }
    }
  }

  lemma FourFieldsNested(a: string, b: string, c: string, d: string, sep: char)
    ensures a + [sep] + b + [sep] + c + [sep] + d == a + [sep] + (b + [sep] + (c + [sep] + d))
  {
  }

  lemma SplitFour(a: string, b: string, c: string, d: string, sep: char)
    requires sep !in a && sep !in b && sep !in c && sep !in d
    ensures Split(a + [sep] + (b + [sep] + (c + [sep] + d)), sep) == [a, b, c, d]
  {
    SplitThree(b, c, d, sep);
    SplitCons(a, b + [sep] + (c + [sep] + d), sep);
  }

  lemma SplitThree(b: string, c: string, d: string, sep: char)
    requires sep !in b && sep !in c && sep !in d
    ensures Split(b + [sep] + (c + [sep] + d), sep) == [b, c, d]
  {
    SplitTwo(c, d, sep);
    SplitCons(b, c + [sep] + d, sep);
  }

  lemma SplitTwo(c: string, d: string, sep: char)
    requires sep !in c && sep !in d
    ensures Split(c + [sep] + d, sep) == [c, d]
  {
    assert Split(d, sep) == [d];
    SplitCons(c, d, sep);
  }

  /** Rows the mapper emits have no comma in their code or description, so
      with a comma-free currency every CSV row reads back. */
  lemma MappedRowsHaveNoComma(r: Record)
    ensures forall i :: 0 <= i < |MapToTemplate(r)| ==>
      ',' !in MapToTemplate(r)[i].rowNumber && ',' !in MapToTemplate(r)[i].description
  {
    MappedRowsSound(r);
    forall i | 0 <= i < |MapToTemplate(r)|
      ensures ',' !in MapToTemplate(r)[i].rowNumber && ',' !in MapToTemplate(r)[i].description
    {
      var s := SlotOfCode(MapToTemplate(r)[i].rowNumber).value;
      assert RowFor(r.ownFunds.value, s) == [MapToTemplate(r)[i]];
      SlotTextsHaveNoComma(s);
    }
  }

  lemma SlotTextsHaveNoComma(s: Slot)
    ensures ',' !in RowCode(s) && ',' !in Description(s)
  {
  }

  /** Line break plus the eight spaces of indentation in the source's
      triple-quoted HTML. */
  const Nl: string := "\n        "

  function HtmlHead(template: string, currency: string, date: string): string {
    Nl + "<html>" + Nl + "<head><title>COREP Template " + template + "</title></head>" + Nl + "<body>"
    + Nl + "<h1>COREP Template " + template + "</h1>"
    + Nl + "<p>Currency: " + currency + " | Date: " + date + "</p>" + Nl
    + Nl + "<table border=\"1\">" + Nl + "<tr><th>Row</th><th>Description</th><th>Amount</th></tr>" + Nl
  }

  function HtmlRow(row: FormattedRow): string {
    "<tr><td>" + row.rowNumber + "</td><td>" + row.description + "</td><td>" + row.formattedAmount + "</td></tr>"
  }

  const HtmlMiddle: string := Nl + "</table>" + Nl + Nl + "<h2>Summary</h2>" + Nl + "<ul>" + Nl

  /** `key.replace('_', ' ').title()`. */
  function TitleOf(k: TotalKey): string {
    match k
    case TotalCet1 => "Total Cet1"
    case TotalAt1 => "Total At1"
    case TotalTier2 => "Total Tier2"
    case TotalOwnFunds => "Total Own Funds"
  }

  function HtmlItem(k: TotalKey, summary: Totals, currency: Option<string>): string {
    "<li>" + TitleOf(k) + ": " + FormatCurrency(VNum(summary.Get(k)), currency) + "</li>"
  }

  const HtmlEnd: string := Nl + "</ul>" + Nl + "</body>" + Nl + "</html>" + Nl

  /** The HTML page: header, one table row per formatted row in order, then
      one list item per total. */
  function HtmlPage(template: string, currency: Option<string>, date: string, rows: seq<FormattedRow>, summary: Totals): string {
    HtmlHead(template, Shown(currency), date) + HtmlRows(rows) + HtmlMiddle + HtmlItems(summary, currency) + HtmlEnd
  }

  /** One table row per formatted row, in order. */
  function HtmlRows(rows: seq<FormattedRow>): string {
    Concat(seq(|rows|, i requires 0 <= i < |rows| => HtmlRow(rows[i])))
  }

  /** One list item per total, in the order of the summary's keys. */
  function HtmlItems(summary: Totals, currency: Option<string>): string {
    Concat(seq(|TotalKeys|, i requires 0 <= i < |TotalKeys| => HtmlItem(TotalKeys[i], summary, currency)))
  }

  /** The csv branch of `generate_template_export`. */
  method BuildCsv(formattedRows: seq<FormattedRow>, summary: Totals, currency: Option<string>) returns (text: string)
    ensures text == Join(CsvLines(formattedRows, summary, currency), "\n")
  {
    var csvLines := [CsvHeader];
    for i := 0 to |formattedRows|
      invariant csvLines == [CsvHeader] + seq(i, k requires 0 <= k < i => CsvRowLine(formattedRows[k]))
    {
      csvLines := csvLines + [CsvRowLine(formattedRows[i])];
    }
    csvLines := csvLines + ["", "SUMMARY",
      TotalLine("Total CET1", summary.cet1, currency),
      TotalLine("Total AT1", summary.at1, currency),
      TotalLine("Total Tier 2", summary.tier2, currency),
      TotalLine("Total Own Funds", summary.ownFunds, currency)];
    assert csvLines == CsvLines(formattedRows, summary, currency);
    text := Join(csvLines, "\n");
  }

  /** The html branch of `generate_template_export`: the table rows and the
      summary items are appended one at a time. */
  method BuildHtml(template: string, currency: Option<string>, date: string, formattedRows: seq<FormattedRow>, summary: Totals)
    returns (html: string)
    ensures html == HtmlPage(template, currency, date, formattedRows, summary)
  {
    var tableRows := BuildTableRows(formattedRows);
    var listItems := BuildListItems(summary, currency);
    html := HtmlHead(template, Shown(currency), date) + tableRows + HtmlMiddle + listItems + HtmlEnd;
  }

  /** The loop that appends the table rows. */
  method BuildTableRows(formattedRows: seq<FormattedRow>) returns (tableRows: string)
    ensures tableRows == HtmlRows(formattedRows)
  {
    ghost var rowParts := seq(|formattedRows|, i requires 0 <= i < |formattedRows| => HtmlRow(formattedRows[i]));
    tableRows := "";
    for i := 0 to |formattedRows|
      invariant tableRows == Concat(rowParts[..i])
    {
      assert rowParts[..i + 1][..i] == rowParts[..i];
      tableRows := tableRows + HtmlRow(formattedRows[i]);
    }
    assert rowParts[..|formattedRows|] == rowParts;
  }

  /** The loop that appends the summary items. */
  method BuildListItems(summary: Totals, currency: Option<string>) returns (listItems: string)
    ensures listItems == HtmlItems(summary, currency)
  {
    ghost var items := seq(|TotalKeys|, i requires 0 <= i < |TotalKeys| => HtmlItem(TotalKeys[i], summary, currency));
    listItems := "";
    for i := 0 to |TotalKeys|
      invariant listItems == Concat(items[..i])
    {
      assert items[..i + 1][..i] == items[..i];
      listItems := listItems + HtmlItem(TotalKeys[i], summary, currency);
    }
    assert items[..|TotalKeys|] == items;
  }

  /** `generate_template_export`: an unknown format is an error naming it. */
  method GenerateTemplateExport(r: Record, formatType: string) returns (result: Result<Export, string>)
    ensures result.Failure? <==> formatType !in ExportFormats
    ensures result.Failure? ==> result.error == "Unsupported format type: " + formatType
    ensures formatType == "json" ==> result == Success(JsonExport(TemplateOf(r), CurrencyOf(r), r.reportingDate.Get(),
      FormattedRows(MapToTemplate(r), CurrencyOf(r)), SummaryOf(r)))
    ensures formatType == "csv" ==> result == Success(CsvExport(Join(
      CsvLines(FormattedRows(MapToTemplate(r), CurrencyOf(r)), SummaryOf(r), CurrencyOf(r)), "\n")))
    ensures formatType == "html" ==> result == Success(HtmlExport(HtmlPage(Shown(TemplateOf(r)), CurrencyOf(r),
      Shown(r.reportingDate.GetOr("N/A")),
      FormattedRows(MapToTemplate(r), CurrencyOf(r)), SummaryOf(r))))
  {
    var rows := MapToTemplate(r);
    var currency := CurrencyOf(r);
    var formattedRows := FormatTemplateRows(rows, currency);
    var summary := CalculateSummary(r);
    if formatType == "json" {
      assert formatType in ExportFormats;
      result := Success(JsonExport(TemplateOf(r), currency, r.reportingDate.Get(), formattedRows, summary));
    } else if formatType == "csv" {
      assert formatType in ExportFormats;
      var text := BuildCsv(formattedRows, summary, currency);
      result := Success(CsvExport(text));
    } else if formatType == "html" {
      assert formatType in ExportFormats;
      var date := Shown(r.reportingDate.GetOr("N/A"));
      var html := BuildHtml(Shown(TemplateOf(r)), currency, date, formattedRows, summary);
      result := Success(HtmlExport(html));
    } else {
      assert formatType !in ExportFormats;
      result := Failure("Unsupported format type: " + formatType);
    }
  }
}
