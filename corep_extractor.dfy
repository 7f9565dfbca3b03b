/** The rule-based extractor (`SimpleCorepGenerator`): it pulls the five
    amounts out of the user's query with one regular expression each, totals
    them, and builds the C 01.00 record; the module-level wrapper turns any
    exception into an error record. */
module Extractor {
  import opened Common
  import opened CorepRecord

  /** The generator's five patterns, one per amount it looks for. */
  datatype Pattern = OrdinaryPattern | RetainedPattern | At1Pattern | IntangiblesPattern | Tier2Pattern

  /** `re.search(pattern, text)` followed by `match.group(1)`: the digits (with
      their thousands separators) of the first match of a pattern in a text,
      or None when the pattern does not match. The regular expressions are
      not modelled; the extractor is proved correct for every matcher. */
  type Matcher = (Pattern, string) -> Option<string>

  /** `'billion' in text.lower() or 'bn' in text.lower()`: a check on the
      whole query, not on the matched amount. */
  predicate MentionsBillions(text: string) {
    var lower := Lower(text);
    Contains(lower, "billion") || Contains(lower, "bn")
  }

  /** `extract_amount`: None when the pattern does not match or the capture,
      separators removed, is not a number (Python's ValueError); otherwise
      that number, multiplied by 1000 when the query mentions billions. */
  function ExtractAmount(text: string, p: Pattern, matcher: Matcher): (amount: Option<nat>)
    ensures matcher(p, Lower(text)).None? ==> amount.None?
    ensures amount.Some? && MentionsBillions(text) ==> amount.value % 1000 == 0
  {
    match matcher(p, Lower(text))
    case None => None
    case Some(group) =>
      match ParseNat(RemoveChar(group, ','))
      case None => None
      case Some(n) => Some(if MentionsBillions(text) then n * 1000 else n)
  }

  /** A capture written with thousands separators, as the template mapper
      prints amounts, is read back as the amount it shows (times 1000 when the
      query mentions billions). */
  lemma ExtractGroupedAmount(text: string, p: Pattern, matcher: Matcher, n: nat)
    requires matcher(p, Lower(text)) == Some(Grouped(n))
    ensures ExtractAmount(text, p, matcher) == Some(if MentionsBillions(text) then n * 1000 else n)
  {
    GroupedRoundTrip(n);
  }

  /** Any capture whose digits, separators removed, spell n is read back as
      n (times 1000 when the query mentions billions): a plain "1000" as
      well as "1,000" or the irregular "1,0000". */
  lemma ExtractDigitsAmount(text: string, p: Pattern, matcher: Matcher, capture: string, n: nat)
    requires matcher(p, Lower(text)) == Some(capture) && RemoveChar(capture, ',') == NatText(n)
    ensures ExtractAmount(text, p, matcher) == Some(if MentionsBillions(text) then n * 1000 else n)
  {
    NatTextRoundTrip(n);
  }

  /** A capture without separators is read back as the number it spells. */
  lemma ExtractPlainAmount(text: string, p: Pattern, matcher: Matcher, n: nat)
    requires matcher(p, Lower(text)) == Some(NatText(n))
    ensures ExtractAmount(text, p, matcher) == Some(if MentionsBillions(text) then n * 1000 else n)
  {
    assert ',' !in NatText(n);
    RemoveCharAbsent(NatText(n), ',');
    ExtractDigitsAmount(text, p, matcher, NatText(n), n);
  }

  /** "bn" anywhere in the query, in any letter case ("bn", "Bn", "bN",
      "BN") and whether or not it is a word of its own ("abnormal"), scales
      every extracted amount. */
  lemma BillionsAnywhereScale(before: string, bn: string, after: string, p: Pattern, matcher: Matcher,
    capture: string, n: nat)
    requires |bn| == 2 && Lower(bn) == "bn"
    requires matcher(p, Lower(before + bn + after)) == Some(capture) && RemoveChar(capture, ',') == NatText(n)
    ensures ExtractAmount(before + bn + after, p, matcher) == Some(n * 1000)
  {
    var text := before + bn + after;
    ContainsInMiddle(before, bn, after);
    ContainsLower(text, bn);
    ExtractDigitsAmount(text, p, matcher, capture, n);
  }

  /** The five amounts as extracted. */
  datatype Extracted = Extracted(
    ordinary: Option<nat>, retained: Option<nat>, intangibles: Option<nat>, at1: Option<nat>, tier2: Option<nat>)
  {
    function Get(s: Slot): Option<nat> {
      match s
      case OrdinaryShareCapital => ordinary
      case RetainedEarnings => retained
      case IntangiblesDeduction => intangibles
      case At1Instruments => at1
      case Tier2Instruments => tier2
    }
  }

  function PatternOf(s: Slot): Pattern {
    match s
    case OrdinaryShareCapital => OrdinaryPattern
    case RetainedEarnings => RetainedPattern
    case IntangiblesDeduction => IntangiblesPattern
    case At1Instruments => At1Pattern
    case Tier2Instruments => Tier2Pattern
  }

  /** The five `extract_amount` calls on the query. */
  function ExtractAll(query: string, matcher: Matcher): (x: Extracted)
    ensures forall s: Slot :: x.Get(s) == ExtractAmount(query, PatternOf(s), matcher)
  {
    Extracted(
      ExtractAmount(query, OrdinaryPattern, matcher), ExtractAmount(query, RetainedPattern, matcher),
      ExtractAmount(query, IntangiblesPattern, matcher), ExtractAmount(query, At1Pattern, matcher),
      ExtractAmount(query, Tier2Pattern, matcher))
  }

  /** `amount or 0`. */
  function OrZero(a: Option<nat>): nat {
    if a.Some? then a.value else 0
  }

  /** The generator's totals: CET1 is ordinary shares plus retained earnings
      minus intangibles, AT1 and Tier 2 are their instruments, own funds the
      sum of the three; an amount not found counts as 0. */
  function RawTotals(x: Extracted): Totals {
    var cet1 := OrZero(x.ordinary) + OrZero(x.retained) - OrZero(x.intangibles);
    Totals(cet1, OrZero(x.at1), OrZero(x.tier2), cet1 + OrZero(x.at1) + OrZero(x.tier2))
  }

  /** `total if total > 0 else None`. */
  function Reported(total: int): (a: Amount)
    ensures a.Num? <==> total > 0
    ensures a.Num? ==> a.n == total
    ensures !a.Missing?
  {
    if total > 0 then Num(total) else Null
  }

  function ReportedSummary(t: Totals): (s: Summary)
    ensures forall k: TotalKey :: s.Get(k) == Reported(t.Get(k))
  {
    Summary(Reported(t.cet1), Reported(t.at1), Reported(t.tier2), Reported(t.ownFunds))
  }

  /** The amount as stored: a number found, or None. */
  function AmountOf(a: Option<nat>): (amount: Amount)
    ensures amount.Num? <==> a.Some?
    ensures a.Some? ==> amount.n == a.value
  {
    match a
    case None => Null
    case Some(n) => Num(n)
  }

  const FoundText: string := "Extracted from user query"
  const NotFoundText: string := "Not found in query"

  /** The `corep_row` the generator writes for each slot. */
  function ExtractorRow(s: Slot): string {
    match s
    case OrdinaryShareCapital => "010"
    case RetainedEarnings => "020"
    case IntangiblesDeduction => "350"
    case At1Instruments => "120"
    case Tier2Instruments => "200"
  }

  function ExtractedComponent(a: Option<nat>, row: string, refs: seq<string>): Component {
    Component(AmountOf(a), Some(row), Some(refs), Some(if Truthy(AmountOf(a)) then FoundText else NotFoundText))
  }

  function Entry(x: Extracted, refs: seq<string>, s: Slot): (string, Component) {
    (s.ComponentKey(), ExtractedComponent(x.Get(s), ExtractorRow(s), refs))
  }

  /** The `own_funds` section: CET1 with its three components, AT1 and Tier2
      with their instruments. */
  function ExtractedOwnFunds(x: Extracted, refs: seq<string>): OwnFunds {
    [ ("CET1", [Entry(x, refs, OrdinaryShareCapital), Entry(x, refs, RetainedEarnings), Entry(x, refs, IntangiblesDeduction)]),
      ("AT1", [Entry(x, refs, At1Instruments)]),
      ("Tier2", [Entry(x, refs, Tier2Instruments)]) ]
  }

  /** Every slot of the template holds its amount, its row, the references
      and an explanation that says whether the amount was found. */
  lemma ExtractedSlots(x: Extracted, refs: seq<string>, s: Slot)
    ensures SlotComponent(ExtractedOwnFunds(x, refs), s) == Some(ExtractedComponent(x.Get(s), ExtractorRow(s), refs))
  {
    var of := ExtractedOwnFunds(x, refs);
    LookupAt(of, 0);
    LookupAt(of, 1);
    LookupAt(of, 2);
    LookupAt(of[0].1, 1);
    LookupAt(of[0].1, 2);
  }

  /** A component is explained as found exactly when its amount is a number
      other than 0. */
  lemma ExplanationIff(a: Option<nat>, row: string, refs: seq<string>)
    ensures ExtractedComponent(a, row, refs).explanation == Some(FoundText) <==> a.Some? && a.value != 0
  {
    assert FoundText[0] != NotFoundText[0];
  }

  const NotFoundIssue: string := "Amount not found in user query"

  /** The data gap the generator records for a CET1 amount it did not find. */
  function MissingGap(s: Slot): DataGap {
    DataGap(s.ComponentKey(), NotFoundIssue,
      if s == OrdinaryShareCapital then "Please specify ordinary " + "share capital amount"
      else "Please specify retained earnings amount")
  }

  /** The data gaps: ordinary share capital, then retained earnings, each
      when its amount is None or 0. */
  function DataGapsOf(x: Extracted): seq<DataGap> {
    (if !Truthy(AmountOf(x.ordinary)) then [MissingGap(OrdinaryShareCapital)] else [])
    + (if !Truthy(AmountOf(x.retained)) then [MissingGap(RetainedEarnings)] else [])
  }

  /** A data gap is recorded for ordinary share capital and for retained
      earnings exactly when that amount is not found or is 0, in that order;
      the other three amounts never produce one. */
  lemma DataGapsSpec(x: Extracted)
    ensures |DataGapsOf(x)| <= 2
    ensures MissingGap(OrdinaryShareCapital) in DataGapsOf(x) <==> !Truthy(AmountOf(x.ordinary))
    ensures MissingGap(RetainedEarnings) in DataGapsOf(x) <==> !Truthy(AmountOf(x.retained))
    ensures forall g :: g in DataGapsOf(x) ==> g.field in ["ordinary_share_capital", "retained_earnings"]
    ensures |DataGapsOf(x)| == 2 ==> DataGapsOf(x)[0].field == "ordinary_share_capital"
  {
    assert MissingGap(OrdinaryShareCapital).field != MissingGap(RetainedEarnings).field;
  }

  /** A retrieved document; only its `source` key is read, and it may be
      missing. */
  datatype RetrievedDoc = RetrievedDoc(source: Option<string>)

  /** `str(KeyError('source'))`. */
  const MissingSourceError: string := "'source'"

  /** `[doc["source"] for doc in docs]`, which raises KeyError on the first
      document without a source. */
  function Sources(docs: seq<RetrievedDoc>): Result<seq<string>, string> {
    if docs == [] then Success([])
    else
      match Sources(docs[..|docs| - 1])
      case Failure(e) => Failure(e)
      case Success(front) =>
        match docs[|docs| - 1].source
        case None => Failure(MissingSourceError)
        case Some(s) => Success(front + [s])
  }

  /** The list of sources is built exactly when every document has one, and
      then lists them in order; otherwise the error is the KeyError's. */
  lemma {:induction false} SourcesSpec(docs: seq<RetrievedDoc>)
    ensures Sources(docs).Success? <==> forall i :: 0 <= i < |docs| ==> docs[i].source.Some?
    ensures Sources(docs).Success? ==>
      |Sources(docs).value| == |docs| && forall i :: 0 <= i < |docs| ==> Sources(docs).value[i] == docs[i].source.value
    ensures Sources(docs).Failure? ==> Sources(docs).error == MissingSourceError
  {
    if docs != [] {
      var init := docs[..|docs| - 1];
      SourcesSpec(init);
      assert forall i :: 0 <= i < |init| ==> init[i] == docs[i];
    }
  }

  /** `retrieved_docs[:2]`. */
  function FirstTwo(docs: seq<RetrievedDoc>): (first: seq<RetrievedDoc>)
    ensures |first| == if |docs| < 2 then |docs| else 2
    ensures first == docs[..|first|]
  {
    if |docs| < 2 then docs else docs[..2]
  }

  const ReportingDate: string := "2026-01-31"

  /** What `SimpleCorepGenerator.generate_corep_output` returns or raises. */
  function ExtractedRecord(query: string, docs: seq<RetrievedDoc>, matcher: Matcher): Result<Record, string> {
    var x := ExtractAll(query, matcher);
    match Sources(FirstTwo(docs))
    case Failure(e) => Failure(e)
    case Success(refs) =>
      Success(Record(Str(TemplateId), Str("GBP"), Str(ReportingDate), None,
        Some(ExtractedOwnFunds(x, refs)), DataGapsOf(x), Some(ReportedSummary(RawTotals(x)))))
  }

  /** `SimpleCorepGenerator.generate_corep_output`: builds the record with no
      data gaps, then appends one for each CET1 amount it did not find. */
  method GenerateRecord(query: string, docs: seq<RetrievedDoc>, matcher: Matcher) returns (result: Result<Record, string>)
    ensures result == ExtractedRecord(query, docs, matcher)
  {
    var x := ExtractAll(query, matcher);
    var totals := RawTotals(x);
    var refs := Sources(FirstTwo(docs));
    if refs.Failure? {
      return Failure(refs.error);
    }
    var record := Record(Str(TemplateId), Str("GBP"), Str(ReportingDate), None,
      Some(ExtractedOwnFunds(x, refs.value)), [], Some(ReportedSummary(totals)));
    if !Truthy(AmountOf(x.ordinary)) {
      record := record.(dataGaps := record.dataGaps + [MissingGap(OrdinaryShareCapital)]);
    }
    assert record.dataGaps == if !Truthy(AmountOf(x.ordinary)) then [MissingGap(OrdinaryShareCapital)] else [];
    if !Truthy(AmountOf(x.retained)) {
      record := record.(dataGaps := record.dataGaps + [MissingGap(RetainedEarnings)]);
    }
    assert record.dataGaps == DataGapsOf(x);
    return Success(record);
  }

  /** The generator fails exactly when one of the first two documents has no
      source; it is then the KeyError's message that is reported. */
  lemma GenerationFailsIff(query: string, docs: seq<RetrievedDoc>, matcher: Matcher)
    ensures ExtractedRecord(query, docs, matcher).Failure? <==>
      exists i :: 0 <= i < |docs| && i < 2 && docs[i].source.None?
    ensures ExtractedRecord(query, docs, matcher).Failure? ==>
      ExtractedRecord(query, docs, matcher).error == MissingSourceError
  {
    var first := FirstTwo(docs);
    SourcesSpec(first);
    assert forall i :: 0 <= i < |first| ==> first[i] == docs[i];
  }

  /** The references are the sources of the first two documents, in
      order. */
  lemma FirstTwoSources(docs: seq<RetrievedDoc>)
    requires Sources(FirstTwo(docs)).Success?
    ensures var refs := Sources(FirstTwo(docs)).value;
      && |refs| == (if |docs| < 2 then |docs| else 2)
      && forall i :: 0 <= i < |refs| ==> docs[i].source == Some(refs[i])
  {
    var first := FirstTwo(docs);
    SourcesSpec(first);
    var refs := Sources(first).value;
    forall i | 0 <= i < |refs|
      ensures docs[i].source == Some(refs[i])
    {
      assert first[i] == docs[i];
    }
  }

  /** Every component cites the sources of the first two documents, in
      order. */
  lemma ReferencesAreFirstTwoSources(query: string, docs: seq<RetrievedDoc>, matcher: Matcher, s: Slot)
    requires ExtractedRecord(query, docs, matcher).Success?
    ensures var r := ExtractedRecord(query, docs, matcher).value;
      && r.ownFunds.Some? && SlotComponent(r.ownFunds.value, s).Some?
      && var refs := SlotComponent(r.ownFunds.value, s).value.justificationRefs;
      && refs.Some? && |refs.value| == (if |docs| < 2 then |docs| else 2)
      && forall i :: 0 <= i < |refs.value| ==> docs[i].source == Some(refs.value[i])
  {
    var refs := Sources(FirstTwo(docs)).value;
    var x := ExtractAll(query, matcher);
    assert ExtractedRecord(query, docs, matcher).value.ownFunds == Some(ExtractedOwnFunds(x, refs));
    ExtractedSlots(x, refs, s);
    FirstTwoSources(docs);
  }

  /** The error record of the wrapper. */
  function FallbackRecord(e: string): Record {
    var empty := Component(Null, None, None, None);
    Record(Str(TemplateId), Str("GBP"), Absent, Some("Rule-based generation failed: " + e),
      Some([ ("CET1", [("ordinary_share_capital", empty), ("retained_earnings", empty), ("intangibles_deduction", empty)]),
             ("AT1", [("instruments", empty)]),
             ("Tier2", [("instruments", empty)]) ]),
      [DataGap("all", "Processing error: " + e, "Check input format and try again")],
      Some(Summary(Null, Null, Null, Null)))
  }

  /** In the error record every slot is present with a None amount and
      nothing else, and every total is None. */
  lemma FallbackSlots(e: string, s: Slot)
    ensures FallbackRecord(e).ownFunds.Some?
    ensures SlotComponent(FallbackRecord(e).ownFunds.value, s) == Some(Component(Null, None, None, None))
    ensures FallbackRecord(e).summary == Some(Summary(Null, Null, Null, Null))
  {
    var of := FallbackRecord(e).ownFunds.value;
    LookupAt(of, 1);
    LookupAt(of, 2);
    LookupAt(of[0].1, 1);
    LookupAt(of[0].1, 2);
  }

  /** The module-level `generate_corep_output`: the generator's record, or
      the error record when the generator raises; it never fails. */
  method GenerateCorepOutput(query: string, docs: seq<RetrievedDoc>, matcher: Matcher) returns (record: Record)
    ensures ExtractedRecord(query, docs, matcher).Success? ==> record == ExtractedRecord(query, docs, matcher).value
    ensures ExtractedRecord(query, docs, matcher).Failure? ==> record == FallbackRecord(ExtractedRecord(query, docs, matcher).error)
    ensures record.template == Str(TemplateId) && record.currency == Str("GBP") && record.ownFunds.Some?
  {
    var result := GenerateRecord(query, docs, matcher);
    match result
    case Success(r) => record := r;
    case Failure(e) => record := FallbackRecord(e);
  }
}
