/** How the parts fit together in one request: the retriever's results feed
    the extractor, whose record the template mapper lays out and the
    validator checks. The facts here are about records the extractor
    actually produces. */
module Pipeline {
  import opened Common
  import opened CorepRecord
  import opened TemplateMapper
  import opened Validation
  import opened ValidationReport
  import E = Extractor
  import R = Retriever

  /** The mapper's zero-based recomputation of an extracted record gives
      back the extractor's own totals. */
  lemma ExtractedTotalsAgree(x: E.Extracted, refs: seq<string>, r: Record)
    requires r.ownFunds == Some(E.ExtractedOwnFunds(x, refs))
    ensures SummaryOf(r) == E.RawTotals(x)
  {
    var of := r.ownFunds.value;
    SummaryFormula(r);
    forall s: Slot
      ensures SlotValue(of, s) == E.OrZero(x.Get(s))
    {
      E.ExtractedSlots(x, refs, s);
    }
  }

  /** In an extracted record the summary holds the mapper's totals, each
      replaced by None when it is not positive. */
  lemma ExtractedSummary(query: string, docs: seq<E.RetrievedDoc>, matcher: E.Matcher)
    requires E.ExtractedRecord(query, docs, matcher).Success?
    ensures var r := E.ExtractedRecord(query, docs, matcher).value;
      && SummaryOf(r) == E.RawTotals(E.ExtractAll(query, matcher))
      && r.summary == Some(E.ReportedSummary(SummaryOf(r)))
  {
    var r := E.ExtractedRecord(query, docs, matcher).value;
    var x := E.ExtractAll(query, matcher);
    ExtractedTotalsAgree(x, E.Sources(E.FirstTwo(docs)).value, r);
  }

  /** The validator's summary check warns about a total of an extracted
      record exactly when that total is not positive: the extractor reports
      None for it while the mapper recomputes a number. */
  lemma ExtractedMismatchIff(query: string, docs: seq<E.RetrievedDoc>, matcher: E.Matcher, k: TotalKey)
    requires E.ExtractedRecord(query, docs, matcher).Success?
    ensures var r := E.ExtractedRecord(query, docs, matcher).value;
      && r.summary.Some?
      && (Mismatch(k, SummaryOf(r).Get(k), r.summary.value.Get(k)) in SummaryFlags(r) <==> SummaryOf(r).Get(k) <= 0)
  {
    var r := E.ExtractedRecord(query, docs, matcher).value;
    ExtractedSummary(query, docs, matcher);
    SummaryMismatchIff(r, k);
  }

  /** An extracted record lays out as all five rows, in the template's
      order, each under the row number the extractor stored in the
      component and with the amount it extracted. */
  lemma ExtractedRows(query: string, docs: seq<E.RetrievedDoc>, matcher: E.Matcher)
    requires E.ExtractedRecord(query, docs, matcher).Success?
    ensures var r, x := E.ExtractedRecord(query, docs, matcher).value, E.ExtractAll(query, matcher);
      && r.ownFunds.Some?
      && |MapToTemplate(r)| == |EmissionOrder|
      && forall k :: 0 <= k < |EmissionOrder| ==>
        var s := EmissionOrder[k];
        && MapToTemplate(r)[k] == Row(RowCode(s), Description(s), AmountOrNone(E.AmountOf(x.Get(s))))
        && SlotComponent(r.ownFunds.value, s).Some?
        && SlotComponent(r.ownFunds.value, s).value.corepRow == Some(RowCode(s))
  {
    var r, x := E.ExtractedRecord(query, docs, matcher).value, E.ExtractAll(query, matcher);
    var refs := E.Sources(E.FirstTwo(docs)).value;
    var of := r.ownFunds.value;
    assert of == E.ExtractedOwnFunds(x, refs);
    var p := Pieces(of);
    forall k | 0 <= k < |EmissionOrder|
      ensures p[k] == [Row(RowCode(EmissionOrder[k]), Description(EmissionOrder[k]), AmountOrNone(E.AmountOf(x.Get(EmissionOrder[k]))))]
      ensures SlotComponent(of, EmissionOrder[k]).value.corepRow == Some(RowCode(EmissionOrder[k]))
    {
      E.ExtractedSlots(x, refs, EmissionOrder[k]);
    }
    FlattenSingletons(p);
  }

  /** The extractor only ever finds amounts that are not negative, so every
      intangibles deduction it finds draws the validator's warning that a
      deduction should be negative. */
  lemma ExtractedIntangiblesWarned(query: string, docs: seq<E.RetrievedDoc>, matcher: E.Matcher)
    requires E.ExtractedRecord(query, docs, matcher).Success?
    ensures var r, x := E.ExtractedRecord(query, docs, matcher).value, E.ExtractAll(query, matcher);
      && r.ownFunds.Some?
      && (IntangiblesPositive in Cet1Flags(r.ownFunds.value) <==> x.intangibles.Some? && x.intangibles.value != 0)
  {
    var r, x := E.ExtractedRecord(query, docs, matcher).value, E.ExtractAll(query, matcher);
    var refs := E.Sources(E.FirstTwo(docs)).value;
    var of := r.ownFunds.value;
    assert of == E.ExtractedOwnFunds(x, refs);
    E.ExtractedSlots(x, refs, IntangiblesDeduction);
    LookupAt(of, 0);
    IntangiblesWarningIff(of);
  }

  /** The error record of a failed generation raises no error, so the
      report passes it. */
  lemma FallbackPasses(e: string)
    ensures Count(Validate(E.FallbackRecord(e)), Error) == 0
    ensures ReportOf(Validate(E.FallbackRecord(e)), AsWritten).status == Pass
  {
    var r := E.FallbackRecord(e);
    var of := r.ownFunds.value;
    E.FallbackSlots(e, At1Instruments);
    E.FallbackSlots(e, Tier2Instruments);
    LookupAt(of, 0);
    PassesWithoutInstruments(r);
  }

  /** A record with a CET1 tier and no AT1 or Tier 2 instruments raises no
      error. */
  lemma PassesWithoutInstruments(r: Record)
    requires r.ownFunds.Some? && Lookup(r.ownFunds.value, "CET1").Some?
    requires !HasInstruments(r.ownFunds.value, At1) && !HasInstruments(r.ownFunds.value, Tier2)
    ensures Count(Validate(r), Error) == 0 && ReportOf(Validate(r), AsWritten).status == Pass
  {
    ErrorCount(r);
    AsWrittenReportCounts(Validate(r));
  }

  /** Yet every total of the error record draws a mismatch warning, since
      the record reports None where the mapper recomputes 0. */
  lemma FallbackMismatches(e: string, k: TotalKey)
    ensures SummaryOf(E.FallbackRecord(e)) == Totals(0, 0, 0, 0)
    ensures Mismatch(k, 0, Null) in SummaryFlags(E.FallbackRecord(e))
  {
    var r := E.FallbackRecord(e);
    var of := r.ownFunds.value;
    SummaryFormula(r);
    forall s: Slot
      ensures SlotValue(of, s) == 0
    {
      E.FallbackSlots(e, s);
    }
    SummaryMismatchIff(r, k);
  }

  /** A currency key that holds None draws no warning from the regulatory
      checks, yet every amount the export formats ends in " None"; an absent
      key draws the warning, and amounts print in pounds. */
  lemma NoneCurrencyUnflaggedYetPrinted(r: Record, n: int)
    ensures r.currency.NoneValue? ==>
      MissingCurrency !in RegulatoryFlags(r) && FormatCurrency(VNum(n), CurrencyOf(r)) == Decimal2(n) + " None"
    ensures r.currency.Absent? ==>
      MissingCurrency in RegulatoryFlags(r) && FormatCurrency(VNum(n), CurrencyOf(r)) == GbpPrefix + Decimal2(n)
  {
    var of := if r.ownFunds.Some? then r.ownFunds.value else [];
    TopLevelFlagsIff(r);
    RefsWarningsSpec(of);
    assert MissingCurrency !in RefsWarnings(of);
  }

  /** The documents a search returns, as the generator reads them. */
  function DocsOf(results: seq<R.SearchResult>): (docs: seq<E.RetrievedDoc>)
    ensures |docs| == |results| && forall i :: 0 <= i < |results| ==> docs[i].source == Some(results[i].source)
  {
    seq(|results|, i requires 0 <= i < |results| => E.RetrievedDoc(Some(results[i].source)))
  }

  /** Search results always carry a source, so generation from them never
      falls back to the error record, and every component cites the first
      two results. */
  lemma SearchResultsNeverFallBack(results: seq<R.SearchResult>, query: string, matcher: E.Matcher, s: Slot)
    ensures E.ExtractedRecord(query, DocsOf(results), matcher).Success?
    ensures var r := E.ExtractedRecord(query, DocsOf(results), matcher).value;
      && r.ownFunds.Some? && SlotComponent(r.ownFunds.value, s).Some?
      && var refs := SlotComponent(r.ownFunds.value, s).value.justificationRefs;
      && refs.Some? && |refs.value| == (if |results| < 2 then |results| else 2)
      && forall i :: 0 <= i < |refs.value| ==> refs.value[i] == results[i].source
  {
    E.GenerationFailsIff(query, DocsOf(results), matcher);
    E.ReferencesAreFirstTwoSources(query, DocsOf(results), matcher, s);
  }
}
