/** The business rules of the validator: each rule group turns a record into
    a list of flags, and `validate_corep` runs them in a fixed order. Every
    group that loops is a method proved against a specification function of
    the same name without the verb. */
module Validation {
  import opened Common
  import opened CorepRecord
  import opened TemplateMapper

  // ----------------------------------------------------------------- flags

  datatype Severity = Error | Warning | Info
  {
    /** The `type` string of a flag. */
    function Name(): string {
      match this
      case Error => "error"
      case Warning => "warning"
      case Info => "info"
    }
  }

  /** `ValidationFlag`: its fields are set once, in the constructor. */
  datatype Flag = Flag(severity: Severity, message: string, field: Option<string>, suggestion: Option<string>)

  /** A string field of a flag is written out only when it is truthy. */
  predicate Truthful(s: Option<string>) {
    s.Some? && s.value != ""
  }

  /** `ValidationFlag.to_dict`. */
  function ToDict(f: Flag): (d: Dict<string>)
    ensures |d| >= 2 && d[0] == ("type", f.severity.Name()) && d[1] == ("message", f.message)
  {
    [("type", f.severity.Name()), ("message", f.message)]
    + (if Truthful(f.field) then [("field", f.field.value)] else [])
    + (if Truthful(f.suggestion) then [("suggestion", f.suggestion.value)] else [])
  }

  function SeverityNamed(name: string): Option<Severity> {
    if name == "error" then Some(Error)
    else if name == "warning" then Some(Warning)
    else if name == "info" then Some(Info)
    else None
  }

  /** Reads a flag back from its dictionary; a field left out reads as None. */
  function FromDict(d: Dict<string>): Option<Flag> {
    var t, m := Lookup(d, "type"), Lookup(d, "message");
    if t.None? || m.None? || SeverityNamed(t.value).None? then None
    else Some(Flag(SeverityNamed(t.value).value, m.value, Lookup(d, "field"), Lookup(d, "suggestion")))
  }

  lemma SeverityNamedName(sev: Severity)
    ensures SeverityNamed(sev.Name()) == Some(sev)
  {
  }

  /** Looking up a key that none of the first two entries carry skips them. */
  lemma LookupPastTwo(d: Dict<string>, key: string)
    requires |d| >= 2 && d[0].0 != key && d[1].0 != key
    ensures Lookup(d, key) == Lookup(d[2..], key)
  {
    assert d[1..][1..] == d[2..];
  }

  /** The dictionary keeps everything a flag says: reading it back gives the
      flag, with a falsy field or suggestion read back as None. */
  lemma ToDictRoundTrip(f: Flag)
    ensures FromDict(ToDict(f)) == Some(Flag(f.severity, f.message,
      if Truthful(f.field) then f.field else None,
      if Truthful(f.suggestion) then f.suggestion else None))
  {
    var d := ToDict(f);
    var extra := (if Truthful(f.field) then [("field", f.field.value)] else [])
      + (if Truthful(f.suggestion) then [("suggestion", f.suggestion.value)] else []);
    assert d[2..] == extra;
    assert d[1..][0] == ("message", f.message);
    SeverityNamedName(f.severity);
    LookupPastTwo(d, "field");
    LookupPastTwo(d, "suggestion");
    assert Lookup(d, "type") == Some(f.severity.Name());
    assert Lookup(d, "message") == Some(f.message);
    if Truthful(f.field) {
      assert extra[0] == ("field", f.field.value);
      if Truthful(f.suggestion) {
        assert extra[1..][0] == ("suggestion", f.suggestion.value);
      } else {
        assert extra[1..] == [];
      }
    } else if Truthful(f.suggestion) {
      assert extra == [("suggestion", f.suggestion.value)];
      assert extra[1..] == [];
    } else {
      assert extra == [];
    }
  }

  /** The number of flags of one severity (`sum(1 for f in flags if ...)`). */
  function Count(flags: seq<Flag>, sev: Severity): (n: nat)
    ensures n <= |flags|
    ensures n == 0 <==> forall i :: 0 <= i < |flags| ==> flags[i].severity != sev
  {
    if flags == [] then 0
    else Count(flags[..|flags| - 1], sev) + (if flags[|flags| - 1].severity == sev then 1 else 0)
  }

  lemma {:induction false} CountAppend(a: seq<Flag>, b: seq<Flag>, sev: Severity)
    ensures Count(a + b, sev) == Count(a, sev) + Count(b, sev)
    decreases |b|
  {
    if b == [] {
      assert a + b == a;
    } else {
      CountAppend(a, b[..|b| - 1], sev);
      assert (a + b)[..|a + b| - 1] == a + b[..|b| - 1];
      assert (a + b)[|a + b| - 1] == b[|b| - 1];
    }
  }

  predicate NoneOf(flags: seq<Flag>, sev: Severity) {
    forall i :: 0 <= i < |flags| ==> flags[i].severity != sev
  }

  // ---------------------------------------------------------- messages

  // The fixed text of each message is a named constant. A text longer than
  // about forty characters is written as two literals joined by `+`: the
  // verifier sees the characters of short literals only.

  const MissingOwnFundsText: string := "Missing own_funds section " + "in structured output"
  const MissingCet1Text: string := "Missing CET1 section"
  const MissingComponentText: string := "Missing CET1 component: "
  const IntangiblesText: string := "Intangible assets deduction " + "should be negative (deduction from capital)"
  const NoAmountText: string := "No amount specified for CET1 component: "

  const MissingOwnFunds: Flag := Flag(Error, MissingOwnFundsText,
    Some("own_funds"), Some("Ensure the LLM output includes the own_funds structure"))

  const MissingCet1: Flag := Flag(Error, MissingCet1Text,
    Some("CET1"), Some("Include CET1 capital components in the output"))

  function MissingComponent(name: string): Flag {
    Flag(Warning, MissingComponentText + name, Some("CET1." + name), Some("Include " + name + " if applicable to the bank"))
  }

  const IntangiblesPositive: Flag := Flag(Warning, IntangiblesText,
    Some("CET1.intangibles_deduction"), Some("Ensure intangible assets are recorded as negative amounts"))

  function NoAmount(name: string): Flag {
    Flag(Info, NoAmountText + name, Some("CET1." + name),
      Some("Provide amount or confirm component is not applicable"))
  }

  // ------------------------------------------------------------------ CET1

  const RequiredCet1: seq<string> := ["ordinary_share_capital", "retained_earnings"]

  /** A warning for each required component the tier lacks, in order. */
  function MissingRequired(cet1: Tier, names: seq<string>): seq<Flag> {
    if names == [] then []
    else
      var name := names[|names| - 1];
      MissingRequired(cet1, names[..|names| - 1]) + (if Lookup(cet1, name).None? then [MissingComponent(name)] else [])
  }

  /** A missing-component warning is among the flags exactly when it names a
      listed name whose key is absent, and all of them are warnings (order
      and multiplicity: MissingRequiredOne and MissingRequiredAppend). */
  lemma {:induction false} MissingRequiredSpec(cet1: Tier, names: seq<string>)
    ensures NoneOf(MissingRequired(cet1, names), Error) && NoneOf(MissingRequired(cet1, names), Info)
    ensures forall f :: f in MissingRequired(cet1, names) <==>
      (exists i :: 0 <= i < |names| && Lookup(cet1, names[i]).None? && f == MissingComponent(names[i]))
  {
    if names != [] {
      var init := names[..|names| - 1];
      MissingRequiredSpec(cet1, init);
      assert forall i :: 0 <= i < |init| ==> init[i] == names[i];
    }
  }

  /** One name gives one warning exactly when its key is absent. */
  lemma MissingRequiredOne(cet1: Tier, name: string)
    ensures MissingRequired(cet1, [name]) == if Lookup(cet1, name).None? then [MissingComponent(name)] else []
  {
    assert [name][..0] == [];
  }

  /** The warnings for a concatenation of name lists are those of the first
      list followed by those of the second: with MissingRequiredOne this fixes
      them name by name, in the listed order. */
  lemma {:induction false} MissingRequiredAppend(cet1: Tier, a: seq<string>, b: seq<string>)
    ensures MissingRequired(cet1, a + b) == MissingRequired(cet1, a) + MissingRequired(cet1, b)
    decreases |b|
  {
    if b == [] {
      assert a + b == a;
    } else {
      var init := b[..|b| - 1];
      assert (a + b)[..|a + b| - 1] == a + init;
      assert (a + b)[|a + b| - 1] == b[|b| - 1];
      MissingRequiredAppend(cet1, a, init);
    }
  }

  /** The intangibles rule: `get("amount", 0)` above zero. */
  function IntangiblesFlags(cet1: Tier): seq<Flag> {
    match Lookup(cet1, "intangibles_deduction")
    case Some(c) => if c.amount.Num? && c.amount.n > 0 then [IntangiblesPositive] else []
    case None => []
  }

  /** An info flag for each component whose amount key holds None, in the
      order of the tier. */
  function NullAmountInfos(cet1: Tier): seq<Flag> {
    if cet1 == [] then []
    else
      var last := cet1[|cet1| - 1];
      NullAmountInfos(cet1[..|cet1| - 1]) + (if last.1.amount.Null? then [NoAmount(last.0)] else [])
  }

  /** An info is among the flags exactly when it names a component whose
      amount is None, and all of them are infos (order and multiplicity:
      NullAmountInfosOne and NullAmountInfosAppend). */
  lemma {:induction false} NullAmountInfosSpec(cet1: Tier)
    ensures NoneOf(NullAmountInfos(cet1), Error) && NoneOf(NullAmountInfos(cet1), Warning)
    ensures forall f :: f in NullAmountInfos(cet1) <==>
      (exists i :: 0 <= i < |cet1| && cet1[i].1.amount.Null? && f == NoAmount(cet1[i].0))
  {
    if cet1 != [] {
      var init := cet1[..|cet1| - 1];
      NullAmountInfosSpec(init);
      assert forall i :: 0 <= i < |init| ==> init[i] == cet1[i];
    }
  }

  /** One component gives one info exactly when its amount is None. */
  lemma NullAmountInfosOne(name: string, c: Component)
    ensures NullAmountInfos([(name, c)]) == if c.amount.Null? then [NoAmount(name)] else []
  {
    assert [(name, c)][..0] == [];
  }

  /** The infos of a concatenation of tiers are those of the first followed
      by those of the second: with NullAmountInfosOne this fixes them
      component by component, in the tier's order. */
  lemma {:induction false} NullAmountInfosAppend(a: Tier, b: Tier)
    ensures NullAmountInfos(a + b) == NullAmountInfos(a) + NullAmountInfos(b)
    decreases |b|
  {
    if b == [] {
      assert a + b == a;
    } else {
      var init := b[..|b| - 1];
      assert (a + b)[..|a + b| - 1] == a + init;
      assert (a + b)[|a + b| - 1] == b[|b| - 1];
      NullAmountInfosAppend(a, init);
    }
  }

  /** `_validate_cet1`. */
  function Cet1Flags(of: OwnFunds): seq<Flag> {
    match Lookup(of, "CET1")
    case None => [MissingCet1]
    case Some(cet1) => MissingRequired(cet1, RequiredCet1) + IntangiblesFlags(cet1) + NullAmountInfos(cet1)
  }

  /** `_validate_cet1`: the required-components loop, the intangibles check
      and the loop over every component. */
  method ValidateCet1(of: OwnFunds) returns (flags: seq<Flag>)
    ensures flags == Cet1Flags(of)
  {
    var lookup := Lookup(of, "CET1");
    if lookup.None? {
      return [MissingCet1];
    }
    var cet1 := lookup.value;
    flags := CheckRequired(cet1);
    var deduction := Lookup(cet1, "intangibles_deduction");
    if deduction.Some? {
      var amount := GetAmount(deduction.value.amount, 0);
      if amount.Some? && amount.value > 0 {
        flags := flags + [IntangiblesPositive];
      }
    }
    ghost var prefix := flags;
    assert prefix == MissingRequired(cet1, RequiredCet1) + IntangiblesFlags(cet1);
    for i := 0 to |cet1|
      invariant flags == prefix + NullAmountInfos(cet1[..i])
    {
      assert cet1[..i + 1][..i] == cet1[..i];
      var componentName: string, component: Component := cet1[i].0, cet1[i].1;
      if component.amount.Null? {
        assert (prefix + NullAmountInfos(cet1[..i])) + [NoAmount(componentName)] == prefix + (NullAmountInfos(cet1[..i]) + [NoAmount(componentName)]);
        flags := flags + [NoAmount(componentName)];
      }
    }
    assert cet1[..|cet1|] == cet1;
  }

  /** The first loop of `_validate_cet1`, over the required components. */
  method CheckRequired(cet1: Tier) returns (flags: seq<Flag>)
    ensures flags == MissingRequired(cet1, RequiredCet1)
  {
    flags := [];
    for i := 0 to |RequiredCet1|
      invariant flags == MissingRequired(cet1, RequiredCet1[..i])
    {
      assert RequiredCet1[..i + 1][..i] == RequiredCet1[..i];
      var component := RequiredCet1[i];
      if Lookup(cet1, component).None? {
        flags := flags + [MissingComponent(component)];
      }
    }
    assert RequiredCet1[..|RequiredCet1|] == RequiredCet1;
  }

  /** The intangibles warning is raised exactly when the deduction holds a
      positive amount; a missing amount reads as 0 and None is skipped. */
  lemma IntangiblesWarningIff(of: OwnFunds)
    ensures IntangiblesPositive in Cet1Flags(of) <==>
      Lookup(of, "CET1").Some? && SlotComponent(of, IntangiblesDeduction).Some?
      && SlotComponent(of, IntangiblesDeduction).value.amount.Num? && SlotComponent(of, IntangiblesDeduction).value.amount.n > 0
  {
    if Lookup(of, "CET1").Some? {
      var cet1 := Lookup(of, "CET1").value;
      MissingRequiredSpec(cet1, RequiredCet1);
      NullAmountInfosSpec(cet1);
    }
  }

  /** A required component is reported missing exactly when its key is
      absent from the CET1 tier. */
  lemma MissingComponentIff(of: OwnFunds, name: string)
    requires Lookup(of, "CET1").Some? && name in RequiredCet1
    ensures MissingComponent(name) in Cet1Flags(of) <==> Lookup(Lookup(of, "CET1").value, name).None?
  {
    var cet1 := Lookup(of, "CET1").value;
    MissingRequiredSpec(cet1, RequiredCet1);
    NullAmountInfosSpec(cet1);
    var a := MissingRequired(cet1, RequiredCet1);
    var i :| 0 <= i < |RequiredCet1| && RequiredCet1[i] == name;
    if MissingComponent(name) in a {
      var j :| 0 <= j < |RequiredCet1| && Lookup(cet1, RequiredCet1[j]).None? && MissingComponent(name) == MissingComponent(RequiredCet1[j]);
      MissingComponentInjective(name, RequiredCet1[j]);
    }
  }

  lemma MissingComponentInjective(a: string, b: string)
    requires MissingComponent(a) == MissingComponent(b)
    ensures a == b
  {
    var p := "Missing CET1 component: ";
    assert (p + a)[|p|..] == a && (p + b)[|p|..] == b;
  }

  /** Every CET1 entry whose amount is None, and only those, gets an info
      flag naming it. */
  lemma NullAmountInfoIff(of: OwnFunds, name: string)
    requires Lookup(of, "CET1").Some?
    ensures var cet1 := Lookup(of, "CET1").value;
      NoAmount(name) in Cet1Flags(of) <==> exists i :: 0 <= i < |cet1| && cet1[i].0 == name && cet1[i].1.amount.Null?
  {
    var cet1 := Lookup(of, "CET1").value;
    MissingRequiredSpec(cet1, RequiredCet1);
    NullAmountInfosSpec(cet1);
    var c := NullAmountInfos(cet1);
    if NoAmount(name) in c {
      var i :| 0 <= i < |cet1| && cet1[i].1.amount.Null? && NoAmount(name) == NoAmount(cet1[i].0);
      var p := "No amount specified for CET1 component: ";
      assert (p + name)[|p|..] == name && (p + cet1[i].0)[|p|..] == cet1[i].0;
    }
  }

  // ------------------------------------------------------- AT1 and Tier 2

  /** The two tiers above CET1, whose rules are the same. */
  datatype HigherTier = At1 | Tier2
  {
    function Key(): string {
      match this
      case At1 => "AT1"
      case Tier2 => "Tier2"
    }

    function Label(): string {
      match this
      case At1 => "AT1"
      case Tier2 => "Tier 2"
    }

    function Slot(): Slot {
      match this
      case At1 => At1Instruments
      case Tier2 => Tier2Instruments
    }
  }

  function NoTier(t: HigherTier): Flag {
    Flag(Info, "No " + t.Label() + " capital reported", Some(t.Key()),
      Some("Confirm if bank has no " + t.Label() + " instruments or include them if applicable"))
  }

  function InstrumentsZero(t: HigherTier): Flag {
    Flag(Info, t.Label() + " instruments reported as zero", Some(t.Key() + ".instruments"),
      Some("Confirm if bank truly has no " + t.Label() + " instruments"))
  }

  function InstrumentsNull(t: HigherTier): Flag {
    Flag(Warning, t.Label() + " instruments amount is null", Some(t.Key() + ".instruments"),
      Some("Provide amount or confirm no " + t.Label() + " instruments exist"))
  }

  function MissingInstruments(t: HigherTier): Flag {
    Flag(Warning, "Missing " + t.Label() + " instruments section", Some(t.Key() + ".instruments"),
      Some("Include " + t.Label() + " instruments if applicable"))
  }

  /** `_validate_at1` and `_validate_tier2`: at most one flag. An absent
      tier is an info, absent instruments a warning, an instruments amount
      that is None (or missing, which `.get` reads as None) a warning, and
      an amount of zero an info. */
  function HigherTierFlags(of: OwnFunds, t: HigherTier): (flags: seq<Flag>)
    ensures |flags| <= 1 && NoneOf(flags, Error)
    ensures flags == [] <==> (SlotComponent(of, t.Slot()).Some? && SlotComponent(of, t.Slot()).value.amount.Num?
      && SlotComponent(of, t.Slot()).value.amount.n != 0)
  {
    match Lookup(of, t.Key())
    case None => [NoTier(t)]
    case Some(tier) =>
      match Lookup(tier, "instruments")
      case None => [MissingInstruments(t)]
      case Some(instruments) =>
        match instruments.amount
        case Num(n) => if n == 0 then [InstrumentsZero(t)] else []
        case _ => [InstrumentsNull(t)]
  }

  // ------------------------------------------------------------ cross rules

  const OnlyCet1Text: string := "Only CET1 capital reported - confirm " + "no AT1 or Tier 2 instruments exist"

  const OnlyCet1: Flag := Flag(Info, OnlyCet1Text,
    Some("cross_component"), Some("Review if bank should have AT1 or Tier 2 capital instruments"))

  const HigherWithoutCet1Text: string := "Higher tier capital reported " + "but no CET1 capital found"

  const HigherWithoutCet1: Flag := Flag(Error, HigherWithoutCet1Text,
    Some("cross_component"), Some("CET1 capital is typically required before AT1/Tier 2 instruments"))

  /** `has_cet1`: some CET1 component holds an amount other than None and 0. */
  predicate HasCet1(of: OwnFunds) {
    Lookup(of, "CET1").Some? && exists i :: 0 <= i < |Lookup(of, "CET1").value| && Truthy(Lookup(of, "CET1").value[i].1.amount)
  }

  /** `has_at1` / `has_tier2`: the instruments hold an amount other than None
      and 0. */
  predicate HasInstruments(of: OwnFunds, t: HigherTier) {
    SlotComponent(of, t.Slot()).Some? && Truthy(SlotComponent(of, t.Slot()).value.amount)
  }

  /** `_validate_cross_components`. */
  function CrossFlags(of: OwnFunds): (flags: seq<Flag>)
    ensures |flags| <= 1
  {
    var (cet1, at1, tier2) := (HasCet1(of), HasInstruments(of, At1), HasInstruments(of, Tier2));
    (if cet1 && !at1 && !tier2 then [OnlyCet1] else [])
    + (if (at1 || tier2) && !cet1 then [HigherWithoutCet1] else [])
  }

  /** `_validate_cross_components`: the CET1 scan stops at the first
      component with a non-zero amount. */
  method ValidateCrossComponents(of: OwnFunds) returns (flags: seq<Flag>)
    ensures flags == CrossFlags(of)
  {
    var hasCet1 := false;
    var hasAt1 := false;
    var hasTier2 := false;
    var lookup := Lookup(of, "CET1");
    if lookup.Some? {
      var cet1 := lookup.value;
      var i := 0;
      while i < |cet1|
        invariant 0 <= i <= |cet1|
        invariant !hasCet1 ==> forall j :: 0 <= j < i ==> !Truthy(cet1[j].1.amount)
        invariant hasCet1 ==> HasCet1(of)
      {
        var amount := AmountOrNone(cet1[i].1.amount);
        if amount.Some? && amount.value != 0 {
          hasCet1 := true;
          break;
        }
        i := i + 1;
      }
    }
    var at1 := SlotComponent(of, At1Instruments);
    if at1.Some? {
      var amount := AmountOrNone(at1.value.amount);
      if amount.Some? && amount.value != 0 {
        hasAt1 := true;
      }
    }
    var tier2 := SlotComponent(of, Tier2Instruments);
    if tier2.Some? {
      var amount := AmountOrNone(tier2.value.amount);
      if amount.Some? && amount.value != 0 {
        hasTier2 := true;
      }
    }
    assert hasCet1 == HasCet1(of);
    flags := [];
    if hasCet1 && !hasAt1 && !hasTier2 {
      flags := flags + [OnlyCet1];
    }
    if (hasAt1 || hasTier2) && !hasCet1 {
      flags := flags + [HigherWithoutCet1];
    }
  }

  /** Without a non-zero CET1 component every CET1 slot counts 0 in the
      recomputed summary. */
  lemma NoCet1MeansZeroCet1Total(r: Record)
    requires r.ownFunds.Some? && !HasCet1(r.ownFunds.value)
    ensures SummaryOf(r).cet1 == 0
  {
    var of := r.ownFunds.value;
    SummaryFormula(r);
    if Lookup(of, "CET1").Some? {
      var cet1: Tier := Lookup(of, "CET1").value;
      forall s: Slot | s.TierKey() == "CET1"
        ensures SlotValue(of, s) == 0
      {
        LookupSpec(cet1, s.ComponentKey());
        if Lookup(cet1, s.ComponentKey()).Some? {
          var i :| 0 <= i < |cet1| && cet1[i] == (s.ComponentKey(), Lookup(cet1, s.ComponentKey()).value)
            && (forall j :: 0 <= j < i ==> cet1[j].0 != s.ComponentKey());
          assert !Truthy(cet1[i].1.amount);
        }
      }
      assert OrdinaryShareCapital.TierKey() == "CET1";
      assert RetainedEarnings.TierKey() == "CET1";
      assert IntangiblesDeduction.TierKey() == "CET1";
    }
  }

  /** The cross-tier error means the recomputed CET1 total is zero while AT1
      or Tier 2 holds a non-zero amount; the info means CET1 holds capital
      and the recomputed AT1 and Tier 2 totals are zero. */
  lemma CrossFlagsMeaning(r: Record)
    requires r.ownFunds.Some?
    ensures var of, t := r.ownFunds.value, SummaryOf(r);
      && (HigherWithoutCet1 in CrossFlags(of) ==> t.cet1 == 0 && (t.at1 != 0 || t.tier2 != 0))
      && (OnlyCet1 in CrossFlags(of) ==> HasCet1(of) && t.at1 == 0 && t.tier2 == 0)
      && !(HigherWithoutCet1 in CrossFlags(of) && OnlyCet1 in CrossFlags(of))
  {
    var of := r.ownFunds.value;
    SummaryFormula(r);
    if !HasCet1(of) {
      NoCet1MeansZeroCet1Total(r);
    }
  }

  // --------------------------------------------------------------- summary

  const MissingSummary: Flag := Flag(Warning, "Missing summary section",
    Some("summary"), Some("Include summary calculations for total capital amounts"))

  /** `actual != expected` for a total that is present: None never equals a
      number. */
  predicate Differs(actual: Amount, expected: int) {
    actual.Null? || (actual.Num? && actual.n != expected)
  }

  const MismatchText: string := " mismatch: expected "

  function Mismatch(k: TotalKey, expected: int, actual: Amount): Flag {
    Flag(Warning, "Summary " + k.Name() + MismatchText + IntText(expected) + ", got " + AmountText(AmountOrNone(actual)),
      Some("summary." + k.Name()), Some("Verify summary calculations are correct"))
  }

  /** A warning for each listed key present in the summary whose value
      differs from the recomputed one. */
  function MismatchFlags(s: Summary, expected: Totals, keys: seq<TotalKey>): seq<Flag> {
    if keys == [] then []
    else
      var k := keys[|keys| - 1];
      MismatchFlags(s, expected, keys[..|keys| - 1])
      + (if !s.Get(k).Missing? && Differs(s.Get(k), expected.Get(k)) then [Mismatch(k, expected.Get(k), s.Get(k))] else [])
  }

  /** A mismatch warning is among the flags exactly when it names a listed
      key that is present and differs, and all of them are warnings (order
      and multiplicity: MismatchFlagsOne and MismatchFlagsAppend). */
  lemma {:induction false} MismatchFlagsSpec(s: Summary, expected: Totals, keys: seq<TotalKey>)
    ensures NoneOf(MismatchFlags(s, expected, keys), Error) && NoneOf(MismatchFlags(s, expected, keys), Info)
    ensures forall f :: f in MismatchFlags(s, expected, keys) <==>
      (exists i :: 0 <= i < |keys| && !s.Get(keys[i]).Missing? && Differs(s.Get(keys[i]), expected.Get(keys[i]))
        && f == Mismatch(keys[i], expected.Get(keys[i]), s.Get(keys[i])))
  {
    if keys != [] {
      var init, k := keys[..|keys| - 1], keys[|keys| - 1];
      MismatchFlagsSpec(s, expected, init);
      var front := MismatchFlags(s, expected, init);
      var here := if !s.Get(k).Missing? && Differs(s.Get(k), expected.Get(k)) then [Mismatch(k, expected.Get(k), s.Get(k))] else [];
      assert MismatchFlags(s, expected, keys) == front + here;
      assert forall i :: 0 <= i < |init| ==> init[i] == keys[i];
      forall i | 0 <= i < |keys| && !s.Get(keys[i]).Missing? && Differs(s.Get(keys[i]), expected.Get(keys[i]))
        ensures Mismatch(keys[i], expected.Get(keys[i]), s.Get(keys[i])) in front + here
      {
        if i == |keys| - 1 {
          assert keys[i] == k;
        } else {
          assert init[i] == keys[i];
        }
      }
    }
  }

  /** One key gives one warning exactly when it is present and differs. */
  lemma MismatchFlagsOne(s: Summary, expected: Totals, k: TotalKey)
    ensures MismatchFlags(s, expected, [k]) ==
      if !s.Get(k).Missing? && Differs(s.Get(k), expected.Get(k)) then [Mismatch(k, expected.Get(k), s.Get(k))] else []
  {
    assert [k][..0] == [];
  }

  /** The warnings for a concatenation of key lists are those of the first
      list followed by those of the second: with MismatchFlagsOne this fixes
      them key by key, in the listed order. */
  lemma {:induction false} MismatchFlagsAppend(s: Summary, expected: Totals, a: seq<TotalKey>, b: seq<TotalKey>)
    ensures MismatchFlags(s, expected, a + b) == MismatchFlags(s, expected, a) + MismatchFlags(s, expected, b)
    decreases |b|
  {
    if b == [] {
      assert a + b == a;
    } else {
      var init := b[..|b| - 1];
      assert (a + b)[..|a + b| - 1] == a + init;
      assert (a + b)[|a + b| - 1] == b[|b| - 1];
      MismatchFlagsAppend(s, expected, a, init);
    }
  }

  /** `_validate_summary`. */
  function SummaryFlags(r: Record): seq<Flag> {
    match r.summary
    case None => [MissingSummary]
    case Some(s) => MismatchFlags(s, SummaryOf(r), TotalKeys)
  }

  /** `_validate_summary`: recomputes the totals, then compares key by key. */
  method ValidateSummary(r: Record) returns (flags: seq<Flag>)
    ensures flags == SummaryFlags(r)
  {
    if r.summary.None? {
      return [MissingSummary];
    }
    var summary := r.summary.value;
    var calculated := CalculateSummary(r);
    flags := [];
    for i := 0 to |TotalKeys|
      invariant flags == MismatchFlags(summary, calculated, TotalKeys[..i])
    {
      assert TotalKeys[..i + 1][..i] == TotalKeys[..i];
      var key := TotalKeys[i];
      var actual := summary.Get(key);
      if !actual.Missing? {
        var expected := calculated.Get(key);
        if actual.Null? || actual.n != expected {
          flags := flags + [Mismatch(key, expected, actual)];
        }
      }
    }
    assert TotalKeys[..|TotalKeys|] == TotalKeys;
  }

  lemma TotalKeyNamesDistinct(k: TotalKey, l: TotalKey)
    requires "summary." + k.Name() == "summary." + l.Name()
    ensures k == l
  {
    var p := "summary.";
    assert (p + k.Name())[|p|..] == k.Name() && (p + l.Name())[|p|..] == l.Name();
  }

  /** A present summary total gets a mismatch warning exactly when it is None
      or differs from the recomputed total. */
  lemma SummaryMismatchIff(r: Record, k: TotalKey)
    requires r.summary.Some? && !r.summary.value.Get(k).Missing?
    ensures var s, t := r.summary.value, SummaryOf(r);
      Mismatch(k, t.Get(k), s.Get(k)) in SummaryFlags(r) <==> Differs(s.Get(k), t.Get(k))
  {
    var s, t := r.summary.value, SummaryOf(r);
    var f := Mismatch(k, t.Get(k), s.Get(k));
    MismatchFlagsSpec(s, t, TotalKeys);
    if f in SummaryFlags(r) {
      var i :| 0 <= i < |TotalKeys| && !s.Get(TotalKeys[i]).Missing? && Differs(s.Get(TotalKeys[i]), t.Get(TotalKeys[i]))
        && f == Mismatch(TotalKeys[i], t.Get(TotalKeys[i]), s.Get(TotalKeys[i]));
      assert f.field == Mismatch(TotalKeys[i], t.Get(TotalKeys[i]), s.Get(TotalKeys[i])).field;
      TotalKeyNamesDistinct(k, TotalKeys[i]);
    }
    if Differs(s.Get(k), t.Get(k)) {
      var i := match k case TotalCet1 => 0 case TotalAt1 => 1 case TotalTier2 => 2 case TotalOwnFunds => 3;
      assert TotalKeys[i] == k;
    }
  }

  // ------------------------------------------------------------ regulatory

  const MissingCurrencyText: string := "Missing currency specification"
  const MissingDateText: string := "Missing reporting date"
  const UnexpectedTemplateText: string := "Unexpected template reference: "
  const MissingRefsText: string := "Missing regulatory references for "

  const MissingCurrency: Flag := Flag(Warning, MissingCurrencyText,
    Some("currency"), Some("Specify reporting currency (typically GBP for UK banks)"))

  const MissingDate: Flag := Flag(Info, MissingDateText,
    Some("reporting_date"), Some("Include reporting date for the COREP submission"))

  function UnexpectedTemplate(t: Option<string>): Flag {
    Flag(Warning, UnexpectedTemplateText + Shown(t),
      Some("template"), Some("Ensure template is set to 'C 01.00' for Own Funds reporting"))
  }

  function MissingRefs(tierName: string, componentName: string): Flag {
    Flag(Warning, MissingRefsText + tierName + "." + componentName,
      Some(tierName + "." + componentName + ".justification_refs"),
      Some("Include regulatory source references for audit trail"))
  }

  /** The refs key is missing, None or an empty list. */
  predicate LacksRefs(c: Component) {
    c.justificationRefs.None? || c.justificationRefs.value == []
  }

  /** A warning for each component of one tier that lacks references. */
  function TierRefsWarnings(tierName: string, tier: Tier): seq<Flag> {
    if tier == [] then []
    else
      var last := tier[|tier| - 1];
      TierRefsWarnings(tierName, tier[..|tier| - 1]) + (if LacksRefs(last.1) then [MissingRefs(tierName, last.0)] else [])
  }

  /** A warning is among a tier's reference flags exactly when it names a
      component of the tier that lacks references, and all of them are
      warnings (order and multiplicity: TierRefsWarningsOne and
      TierRefsWarningsAppend). */
  lemma {:induction false} TierRefsWarningsSpec(tierName: string, tier: Tier)
    ensures NoneOf(TierRefsWarnings(tierName, tier), Error) && NoneOf(TierRefsWarnings(tierName, tier), Info)
    ensures forall f :: f in TierRefsWarnings(tierName, tier) <==>
      (exists j :: 0 <= j < |tier| && LacksRefs(tier[j].1) && f == MissingRefs(tierName, tier[j].0))
  {
    if tier != [] {
      var init := tier[..|tier| - 1];
      TierRefsWarningsSpec(tierName, init);
      assert forall j :: 0 <= j < |init| ==> init[j] == tier[j];
    }
  }

  /** One component gives one warning exactly when it lacks references. */
  lemma TierRefsWarningsOne(tierName: string, name: string, c: Component)
    ensures TierRefsWarnings(tierName, [(name, c)]) == if LacksRefs(c) then [MissingRefs(tierName, name)] else []
  {
    assert [(name, c)][..0] == [];
  }

  /** The warnings of a concatenation of components are those of the first
      part followed by those of the second: with TierRefsWarningsOne this
      fixes them component by component, in the tier's order. */
  lemma {:induction false} TierRefsWarningsAppend(tierName: string, a: Tier, b: Tier)
    ensures TierRefsWarnings(tierName, a + b) == TierRefsWarnings(tierName, a) + TierRefsWarnings(tierName, b)
    decreases |b|
  {
    if b == [] {
      assert a + b == a;
    } else {
      var init := b[..|b| - 1];
      assert (a + b)[..|a + b| - 1] == a + init;
      assert (a + b)[|a + b| - 1] == b[|b| - 1];
      TierRefsWarningsAppend(tierName, a, init);
    }
  }

  /** A warning for each component of every tier that lacks references, tier
      by tier. */
  function RefsWarnings(of: OwnFunds): seq<Flag> {
    if of == [] then []
    else
      var last := of[|of| - 1];
      RefsWarnings(of[..|of| - 1]) + TierRefsWarnings(last.0, last.1)
  }

  /** A reference warning is among the flags exactly when it names a
      component, of any tier, whose references are missing, None or empty
      (order and multiplicity: RefsWarningsOne, RefsWarningsAppend and the
      tier lemmas). */
  lemma {:induction false} RefsWarningsSpec(of: OwnFunds)
    ensures forall f :: f in RefsWarnings(of) <==>
      (exists i, j :: 0 <= i < |of| && 0 <= j < |of[i].1| && LacksRefs(of[i].1[j].1) && f == MissingRefs(of[i].0, of[i].1[j].0))
  {
    if of != [] {
      var init, last := of[..|of| - 1], of[|of| - 1];
      RefsWarningsSpec(init);
      TierRefsWarningsSpec(last.0, last.1);
      var front, here := RefsWarnings(init), TierRefsWarnings(last.0, last.1);
      assert RefsWarnings(of) == front + here;
      assert forall i :: 0 <= i < |init| ==> init[i] == of[i];
      forall f | f in here
        ensures exists i, j :: 0 <= i < |of| && 0 <= j < |of[i].1| && LacksRefs(of[i].1[j].1) && f == MissingRefs(of[i].0, of[i].1[j].0)
      {
        var j :| 0 <= j < |last.1| && LacksRefs(last.1[j].1) && f == MissingRefs(last.0, last.1[j].0);
        assert of[|of| - 1] == last;
      }
      forall i, j | 0 <= i < |of| && 0 <= j < |of[i].1| && LacksRefs(of[i].1[j].1)
        ensures MissingRefs(of[i].0, of[i].1[j].0) in front + here
      {
        if i == |of| - 1 {
          assert MissingRefs(last.0, last.1[j].0) in here;
        } else {
          assert init[i] == of[i];
        }
      }
    }
  }

  /** One tier gives exactly that tier's warnings. */
  lemma RefsWarningsOne(tierName: string, tier: Tier)
    ensures RefsWarnings([(tierName, tier)]) == TierRefsWarnings(tierName, tier)
  {
    assert [(tierName, tier)][..0] == [];
  }

  /** The warnings of a concatenation of tier lists are those of the first
      followed by those of the second: with RefsWarningsOne and the tier
      lemmas this fixes them tier by tier, component by component. */
  lemma {:induction false} RefsWarningsAppend(a: OwnFunds, b: OwnFunds)
    ensures RefsWarnings(a + b) == RefsWarnings(a) + RefsWarnings(b)
    decreases |b|
  {
    if b == [] {
      assert a + b == a;
    } else {
      var init := b[..|b| - 1];
      assert (a + b)[..|a + b| - 1] == a + init;
      assert (a + b)[|a + b| - 1] == b[|b| - 1];
      RefsWarningsAppend(a, init);
    }
  }

  lemma RefsWarningsPrefix(of: OwnFunds, i: nat)
    requires i < |of|
    ensures RefsWarnings(of[..i + 1]) == RefsWarnings(of[..i]) + TierRefsWarnings(of[i].0, of[i].1)
  {
    assert of[..i + 1][..i] == of[..i];
  }

  /** The reference flags are all warnings. */
  lemma {:induction false} RefsWarningsAreWarnings(of: OwnFunds)
    ensures NoneOf(RefsWarnings(of), Error) && NoneOf(RefsWarnings(of), Info)
  {
    if of != [] {
      var last := of[|of| - 1];
      RefsWarningsAreWarnings(of[..|of| - 1]);
      TierRefsWarningsSpec(last.0, last.1);
    }
  }

  /** `_validate_regulatory_compliance`. */
  function RegulatoryFlags(r: Record): seq<Flag> {
    TopLevelFlags(r) + RefsWarnings(if r.ownFunds.Some? then r.ownFunds.value else [])
  }

  /** The checks of the top-level keys: currency and reporting date must be
      present (even if None), and the template must read "C 01.00". */
  function TopLevelFlags(r: Record): seq<Flag> {
    (if !r.currency.Present() then [MissingCurrency] else [])
    + (if !r.reportingDate.Present() then [MissingDate] else [])
    + (if r.template.Get() != Some(TemplateId) then [UnexpectedTemplate(r.template.Get())] else [])
  }

  /** The currency and date checks ask only whether the key is there: a key
      holding None draws no flag. The template check reads the value: an
      absent key and a None both draw the flag. */
  lemma TopLevelFlagsIff(r: Record)
    ensures MissingCurrency in TopLevelFlags(r) <==> r.currency.Absent?
    ensures MissingDate in TopLevelFlags(r) <==> r.reportingDate.Absent?
    ensures (exists f :: f in TopLevelFlags(r) && f.field == Some("template")) <==> r.template != Str(TemplateId)
  {
    var flags := TopLevelFlags(r);
    if r.template != Str(TemplateId) {
      assert UnexpectedTemplate(r.template.Get()) in flags;
    }
  }

  /** `_validate_regulatory_compliance`: the top-level keys, then a nested
      scan of every tier and component. */
  method ValidateRegulatoryCompliance(r: Record) returns (flags: seq<Flag>)
    ensures flags == RegulatoryFlags(r)
  {
    flags := [];
    if !r.currency.Present() {
      flags := flags + [MissingCurrency];
    }
    ghost var first := flags;
    if !r.reportingDate.Present() {
      flags := flags + [MissingDate];
    }
    ghost var second := flags;
    var template := r.template.Get();
    if template != Some(TemplateId) {
      flags := flags + [UnexpectedTemplate(template)];
    }
    assert flags == TopLevelFlags(r) by {
      assert first == if !r.currency.Present() then [MissingCurrency] else [];
      assert second == first + if !r.reportingDate.Present() then [MissingDate] else [];
      assert flags == second + if template != Some(TemplateId) then [UnexpectedTemplate(template)] else [];
    }
    var refsFlags := ValidateRefs(if r.ownFunds.Some? then r.ownFunds.value else []);
    flags := flags + refsFlags;
  }

  /** The outer loop of the reference scan, over the tiers. */
  method ValidateRefs(of: OwnFunds) returns (flags: seq<Flag>)
    ensures flags == RefsWarnings(of)
  {
    flags := [];
    for i := 0 to |of|
      invariant flags == RefsWarnings(of[..i])
    {
      var tierFlags := ValidateTierRefs(of[i].0, of[i].1);
      RefsWarningsPrefix(of, i);
      flags := flags + tierFlags;
    }
    assert of[..|of|] == of;
  }

  /** The inner loop of `_validate_regulatory_compliance`, over the
      components of one tier. */
  method ValidateTierRefs(tierName: string, tier: Tier) returns (flags: seq<Flag>)
    ensures flags == TierRefsWarnings(tierName, tier)
  {
    flags := [];
    for j := 0 to |tier|
      invariant flags == TierRefsWarnings(tierName, tier[..j])
    {
      assert tier[..j + 1][..j] == tier[..j];
      var componentName: string, component: Component := tier[j].0, tier[j].1;
      if component.justificationRefs.None? || component.justificationRefs.value == [] {
        flags := flags + [MissingRefs(tierName, componentName)];
      }
    }
    assert tier[..|tier|] == tier;
  }

  // -------------------------------------------------------------- validate

  /** `validate_corep`: the groups in the order the source runs them. */
  function Validate(r: Record): seq<Flag> {
    match r.ownFunds
    case None => [MissingOwnFunds]
    case Some(of) =>
      Cet1Flags(of) + HigherTierFlags(of, At1) + HigherTierFlags(of, Tier2) + CrossFlags(of)
      + SummaryFlags(r) + RegulatoryFlags(r)
  }

  /** `validate_corep`. */
  method ValidateCorep(r: Record) returns (flags: seq<Flag>)
    ensures flags == Validate(r)
  {
    if r.ownFunds.None? {
      return [MissingOwnFunds];
    }
    var of := r.ownFunds.value;
    var cet1Flags := ValidateCet1(of);
    flags := cet1Flags;
    flags := flags + HigherTierFlags(of, At1);
    flags := flags + HigherTierFlags(of, Tier2);
    var crossFlags := ValidateCrossComponents(of);
    flags := flags + crossFlags;
    var summaryFlags := ValidateSummary(r);
    flags := flags + summaryFlags;
    var regulatoryFlags := ValidateRegulatoryCompliance(r);
    flags := flags + regulatoryFlags;
  }

  /** The CET1 group raises an error only for a missing CET1 tier. */
  lemma Cet1Errors(of: OwnFunds)
    ensures Count(Cet1Flags(of), Error) == if Lookup(of, "CET1").None? then 1 else 0
  {
    if Lookup(of, "CET1").Some? {
      var cet1 := Lookup(of, "CET1").value;
      var m, n, z := MissingRequired(cet1, RequiredCet1), IntangiblesFlags(cet1), NullAmountInfos(cet1);
      MissingRequiredSpec(cet1, RequiredCet1);
      NullAmountInfosSpec(cet1);
      CountAppend(m + n, z, Error);
      CountAppend(m, n, Error);
    }
  }

  /** The cross group raises an error only for higher-tier capital without
      CET1 capital. */
  lemma CrossErrors(of: OwnFunds)
    ensures Count(CrossFlags(of), Error) ==
      if (HasInstruments(of, At1) || HasInstruments(of, Tier2)) && !HasCet1(of) then 1 else 0
  {
    var only := if HasCet1(of) && !HasInstruments(of, At1) && !HasInstruments(of, Tier2) then [OnlyCet1] else [];
    var err := if (HasInstruments(of, At1) || HasInstruments(of, Tier2)) && !HasCet1(of) then [HigherWithoutCet1] else [];
    assert CrossFlags(of) == only + err;
    CountAppend(only, err, Error);
  }

  /** The summary group raises no errors. */
  lemma SummaryRaisesNoErrors(r: Record)
    ensures Count(SummaryFlags(r), Error) == 0
  {
    if r.summary.Some? {
      MismatchFlagsSpec(r.summary.value, SummaryOf(r), TotalKeys);
    }
  }

  /** The regulatory group raises no errors. */
  lemma RegulatoryRaisesNoErrors(r: Record)
    ensures Count(RegulatoryFlags(r), Error) == 0
  {
    var of := if r.ownFunds.Some? then r.ownFunds.value else [];
    RefsWarningsAreWarnings(of);
    var pre := TopLevelFlags(r);
    var refs := RefsWarnings(of);
    assert RegulatoryFlags(r) == pre + refs;
    assert NoneOf(pre + refs, Error) by {
      forall i | 0 <= i < |pre + refs|
        ensures (pre + refs)[i].severity != Error
      {
        if i >= |pre| {
          assert (pre + refs)[i] == refs[i - |pre|];
        }
      }
    }
  }

  /** Errors come from three places only: a missing own_funds section, a
      missing CET1 tier, and AT1 or Tier 2 capital without CET1 capital. */
  lemma ErrorCount(r: Record)
    ensures Count(Validate(r), Error) ==
      if r.ownFunds.None? then 1
      else
        var of := r.ownFunds.value;
        (if Lookup(of, "CET1").None? then 1 else 0)
        + (if (HasInstruments(of, At1) || HasInstruments(of, Tier2)) && !HasCet1(of) then 1 else 0)
  {
    if r.ownFunds.Some? {
      var of := r.ownFunds.value;
      var c := Cet1Flags(of);
      var a, t := HigherTierFlags(of, At1), HigherTierFlags(of, Tier2);
      var x, s, g := CrossFlags(of), SummaryFlags(r), RegulatoryFlags(r);
      assert Validate(r) == c + a + t + x + s + g;
      CountAppend(c + a + t + x + s, g, Error);
      CountAppend(c + a + t + x, s, Error);
      CountAppend(c + a + t, x, Error);
      CountAppend(c + a, t, Error);
      CountAppend(c, a, Error);
      Cet1Errors(of);
      CrossErrors(of);
      SummaryRaisesNoErrors(r);
      RegulatoryRaisesNoErrors(r);
    }
  }

  /** The status is FAIL exactly when own_funds or CET1 is missing, or AT1 or
      Tier 2 holds capital while CET1 holds none. */
  lemma HasErrorsIff(r: Record)
    ensures Count(Validate(r), Error) > 0 <==>
      r.ownFunds.None? || Lookup(r.ownFunds.value, "CET1").None?
      || ((HasInstruments(r.ownFunds.value, At1) || HasInstruments(r.ownFunds.value, Tier2)) && !HasCet1(r.ownFunds.value))
  {
    ErrorCount(r);
  }
}
