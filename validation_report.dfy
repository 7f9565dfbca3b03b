/** The validation report: flags grouped by kind into a dictionary that is
    built up flag by flag, the counts and PASS/FAIL status derived from that
    grouping, and the recommendations derived from the flags. */
module ValidationReport {
  import opened Common
  import opened CorepRecord
  import opened TemplateMapper
  import opened Validation

  /** The grouped flags: group key to the list of flag dictionaries. */
  type Grouped = Dict<seq<Dict<string>>>

  /** The three groups the grouping starts with, all empty. */
  const InitialGroups: Grouped := [("errors", []), ("warnings", []), ("info", [])]

  /** How a flag's group key is formed. `AsWritten` is the source's
      `f"{flag.type}s"`, which yields "infos" for an info flag, a key the
      report never reads; `Intended` files each kind under one of the three
      keys the grouping starts with. */
  datatype Keying = AsWritten | Intended
  {
    function Key(sev: Severity): string {
      match (this, sev)
      case (_, Error) => "errors"
      case (_, Warning) => "warnings"
      case (AsWritten, Info) => "infos"
      case (Intended, Info) => "info"
    }
  }

  /** The source's key is the kind's name with an "s" appended. */
  lemma AsWrittenKeyIsPlural(sev: Severity)
    ensures AsWritten.Key(sev) == sev.Name() + "s"
  {
  }

  /** Different kinds of flag go to different groups under either keying. */
  lemma KeyInjective(k: Keying, a: Severity, b: Severity)
    requires k.Key(a) == k.Key(b)
    ensures a == b
  {
  }

  /** Replaces the value under the first occurrence of a key. */
  function Update<V>(d: Dict<V>, key: string, v: V): Dict<V> {
    if d == [] then []
    else if d[0].0 == key then [(key, v)] + d[1..]
    else [d[0]] + Update(d[1..], key, v)
  }

  lemma {:induction false} LookupUpdate<V>(d: Dict<V>, key: string, v: V, other: string)
    ensures Lookup(Update(d, key, v), other) ==
      if other == key && Lookup(d, key).Some? then Some(v) else Lookup(d, other)
  {
    if d != [] {
      if d[0].0 == key {
        assert ([(key, v)] + d[1..])[1..] == d[1..];
      } else {
        LookupUpdate(d[1..], key, v, other);
        assert ([d[0]] + Update(d[1..], key, v))[1..] == Update(d[1..], key, v);
      }
    }
  }

  lemma {:induction false} LookupAppendEntry<V>(d: Dict<V>, key: string, v: V, other: string)
    ensures Lookup(d + [(key, v)], other) ==
      if Lookup(d, other).Some? then Lookup(d, other) else if other == key then Some(v) else None
  {
    if d == [] {
      assert [(key, v)][1..] == [];
    } else {
      assert (d + [(key, v)])[1..] == d[1..] + [(key, v)];
      LookupAppendEntry(d[1..], key, v, other);
    }
  }

  /** One step of the grouping loop: append to the group's list when the key
      is there, else start a new group holding the one flag. */
  function AddToGroup(g: Grouped, key: string, item: Dict<string>): Grouped {
    match Lookup(g, key)
    case Some(items) => Update(g, key, items + [item])
    case None => g + [(key, [item])]
  }

  lemma LookupAddToGroup(g: Grouped, key: string, item: Dict<string>, other: string)
    ensures Lookup(AddToGroup(g, key, item), other) ==
      if other == key then Some((if Lookup(g, key).Some? then Lookup(g, key).value else []) + [item])
      else Lookup(g, other)
  {
    match Lookup(g, key)
    case Some(items) => LookupUpdate(g, key, items + [item], other);
    case None =>
      LookupAppendEntry(g, key, [item], other);
      assert [] + [item] == [item];
  }

  /** `format_validation_flags` under a keying. */
  function GroupFlags(flags: seq<Flag>, k: Keying): Grouped {
    if flags == [] then InitialGroups
    else
      var f := flags[|flags| - 1];
      AddToGroup(GroupFlags(flags[..|flags| - 1], k), k.Key(f.severity), ToDict(f))
  }

  /** The dictionaries of the flags whose key is `key`, in order. */
  function Selected(flags: seq<Flag>, k: Keying, key: string): seq<Dict<string>> {
    if flags == [] then []
    else
      var f := flags[|flags| - 1];
      Selected(flags[..|flags| - 1], k, key) + (if k.Key(f.severity) == key then [ToDict(f)] else [])
  }

  /** Every group present holds exactly the flags keyed to it, in order, and
      the three initial groups are always present. */
  lemma {:induction false} GroupFlagsSpec(flags: seq<Flag>, k: Keying, key: string)
    ensures key in ["errors", "warnings", "info"] ==> Lookup(GroupFlags(flags, k), key).Some?
    ensures Lookup(GroupFlags(flags, k), key).Some? ==> Lookup(GroupFlags(flags, k), key).value == Selected(flags, k, key)
  {
    if flags == [] {
      LookupSpec(InitialGroups, key);
    } else {
      var init, f := flags[..|flags| - 1], flags[|flags| - 1];
      GroupFlagsSpec(init, k, key);
      LookupAddToGroup(GroupFlags(init, k), k.Key(f.severity), ToDict(f), key);
      if key == k.Key(f.severity) && Lookup(GroupFlags(init, k), key).None? {
        assert key !in ["errors", "warnings", "info"];
        SelectedEmpty(init, k, key);
      }
    }
  }

  /** A key no flag is filed under when it is absent from the grouping. */
  lemma {:induction false} SelectedEmpty(flags: seq<Flag>, k: Keying, key: string)
    requires Lookup(GroupFlags(flags, k), key).None?
    ensures Selected(flags, k, key) == []
  {
    if flags != [] {
      var init, f := flags[..|flags| - 1], flags[|flags| - 1];
      LookupAddToGroup(GroupFlags(init, k), k.Key(f.severity), ToDict(f), key);
      SelectedEmpty(init, k, key);
    }
  }

  /** The group of one kind holds as many entries as there are flags of that
      kind. */
  lemma {:induction false} SelectedCount(flags: seq<Flag>, k: Keying, sev: Severity)
    ensures |Selected(flags, k, k.Key(sev))| == Count(flags, sev)
  {
    if flags != [] {
      var f := flags[|flags| - 1];
      SelectedCount(flags[..|flags| - 1], k, sev);
      if k.Key(f.severity) == k.Key(sev) {
        KeyInjective(k, f.severity, sev);
      }
    }
  }

  /** Under the source's keying nothing is ever filed under "info". */
  lemma {:induction false} NothingFiledUnderInfo(flags: seq<Flag>)
    ensures Selected(flags, AsWritten, "info") == []
  {
    if flags != [] {
      var f := flags[|flags| - 1];
      NothingFiledUnderInfo(flags[..|flags| - 1]);
    }
  }

  /** `format_validation_flags`: the grouping dictionary starts with three
      empty lists and every flag's dictionary is appended to the list under
      `f"{type}s"`, which is created when missing. */
  method FormatValidationFlags(flags: seq<Flag>) returns (grouped: Grouped)
    ensures grouped == GroupFlags(flags, AsWritten)
    ensures forall sev: Severity :: Lookup(grouped, AsWritten.Key(sev)).Some? ==>
      |Lookup(grouped, AsWritten.Key(sev)).value| == Count(flags, sev)
  {
    grouped := InitialGroups;
    for i := 0 to |flags|
      invariant grouped == GroupFlags(flags[..i], AsWritten)
    {
      assert flags[..i + 1][..i] == flags[..i];
      var flagDict := ToDict(flags[i]);
      var flagTypeKey := flags[i].severity.Name() + "s";
      AsWrittenKeyIsPlural(flags[i].severity);
      var existing := Lookup(grouped, flagTypeKey);
      if existing.Some? {
        grouped := Update(grouped, flagTypeKey, existing.value + [flagDict]);
      } else {
        grouped := grouped + [(flagTypeKey, [flagDict])];
      }
    }
    assert flags[..|flags|] == flags;
    forall sev: Severity | Lookup(grouped, AsWritten.Key(sev)).Some?
      ensures |Lookup(grouped, AsWritten.Key(sev)).value| == Count(flags, sev)
    {
      GroupFlagsSpec(flags, AsWritten, AsWritten.Key(sev));
      SelectedCount(flags, AsWritten, sev);
    }
  }

  // --------------------------------------------------------- recommendations

  /** The recommendations the report can give, in the order it gives them. */
  datatype Recommendation = AddressErrors(errors: nat) | ReviewWarnings(warnings: nat)
    | AddReferences | CompleteAmounts | ValidationPassed
  {
    /** The text of the recommendation. */
    function Text(): string {
      match this
      case AddressErrors(n) => "Address " + IntText(n) + " critical error(s) before submission"
      case ReviewWarnings(n) => "Review " + IntText(n) + " warning(s) for regulatory compliance"
      case AddReferences => "Add regulatory source references for audit trail completeness"
      case CompleteAmounts => "Complete all applicable amount fields or confirm they are truly not applicable"
      case ValidationPassed => "Validation passed - review output for accuracy before submission"
    }
  }

  /** The number of flags whose message mentions `justification_refs`. */
  function RefsMentions(flags: seq<Flag>): nat {
    if flags == [] then 0
    else RefsMentions(flags[..|flags| - 1]) + (if Contains(flags[|flags| - 1].message, "justification_refs") then 1 else 0)
  }

  /** The number of flags whose message mentions `amount` and whose field is
      truthy. */
  function AmountMentions(flags: seq<Flag>): nat {
    if flags == [] then 0
    else
      var f := flags[|flags| - 1];
      AmountMentions(flags[..|flags| - 1]) + (if Contains(f.message, "amount") && Truthful(f.field) then 1 else 0)
  }

  /** `_generate_recommendations`. */
  function Recommendations(flags: seq<Flag>): seq<Recommendation> {
    var (errors, warnings) := (Count(flags, Error), Count(flags, Warning));
    var found :=
      (if errors > 0 then [AddressErrors(errors)] else [])
      + (if warnings > 0 then [ReviewWarnings(warnings)] else [])
      + (if RefsMentions(flags) > 0 then [AddReferences] else [])
      + (if AmountMentions(flags) > 0 then [CompleteAmounts] else []);
    if found == [] then [ValidationPassed] else found
  }

  /** The "passed" recommendation is given, alone, exactly when there are no
      errors, no warnings and no message about references or amounts; info
      flags do not prevent it. */
  lemma RecommendationsIff(flags: seq<Flag>)
    ensures ValidationPassed in Recommendations(flags) <==>
      Count(flags, Error) == 0 && Count(flags, Warning) == 0 && RefsMentions(flags) == 0 && AmountMentions(flags) == 0
    ensures ValidationPassed in Recommendations(flags) ==> Recommendations(flags) == [ValidationPassed]
  {
  }

  /** Each of the other recommendations is given exactly when its condition
      holds, with the counts in its text. */
  lemma RecommendationsGiven(flags: seq<Flag>)
    ensures forall n :: AddressErrors(n) in Recommendations(flags) <==> n == Count(flags, Error) > 0
    ensures forall n :: ReviewWarnings(n) in Recommendations(flags) <==> n == Count(flags, Warning) > 0
    ensures AddReferences in Recommendations(flags) <==> RefsMentions(flags) > 0
    ensures CompleteAmounts in Recommendations(flags) <==> AmountMentions(flags) > 0
  {
  }

  /** A record whose only flag is the missing reporting date, an info flag,
      still gets the "passed" recommendation. */
  lemma PassedDespiteInfo()
    ensures Recommendations([MissingDate]) == [ValidationPassed]
  {
    var message := MissingDate.message;
    DateTextLacksJU();
    ContainedCharOccurs(message, "justification_refs", 'j');
    ContainedCharOccurs(message, "amount", 'u');
    assert [MissingDate][..0] == [];
    assert RefsMentions([MissingDate]) == 0;
    assert AmountMentions([MissingDate]) == 0;
  }

  lemma DateTextLacksJU()
    ensures 'j' !in MissingDateText && 'u' !in MissingDateText
  {
  }

  /** A CET1 component whose amount holds None always brings the
      amount-fields recommendation. */
  lemma NullAmountBringsRecommendation(r: Record, i: nat)
    requires r.ownFunds.Some? && Lookup(r.ownFunds.value, "CET1").Some?
    requires i < |Lookup(r.ownFunds.value, "CET1").value| && Lookup(r.ownFunds.value, "CET1").value[i].1.amount.Null?
    ensures CompleteAmounts in Recommendations(Validate(r))
  {
    var of := r.ownFunds.value;
    var cet1: Tier := Lookup(of, "CET1").value;
    var name := cet1[i].0;
    NullAmountInfoIff(of, name);
    var f := NoAmount(name);
    assert f in Cet1Flags(of);
    assert f in Validate(r);
    NoAmountMentionsAmount(name);
    AmountsRecommended(Validate(r), f);
  }

  /** One flag about an amount, with a field, is enough for the amount-fields
      recommendation. */
  lemma AmountsRecommended(flags: seq<Flag>, f: Flag)
    requires f in flags && Contains(f.message, "amount") && Truthful(f.field)
    ensures CompleteAmounts in Recommendations(flags)
  {
    AmountMentionsPositive(flags, f);
  }

  lemma NoAmountMentionsAmount(name: string)
    ensures Contains(NoAmount(name).message, "amount")
  {
    var p := NoAmountText;
    assert NoAmount(name).message[3..9] == p[3..9];
    assert p[3] == 'a' && p[4] == 'm' && p[5] == 'o' && p[6] == 'u' && p[7] == 'n' && p[8] == 't';
    assert p[3..9] == "amount";
    ContainsAt(NoAmount(name).message, "amount", 3);
  }

  lemma {:induction false} AmountMentionsPositive(flags: seq<Flag>, f: Flag)
    requires f in flags && Contains(f.message, "amount") && Truthful(f.field)
    ensures AmountMentions(flags) > 0
  {
    if flags[|flags| - 1] != f {
      var k :| 0 <= k < |flags| && flags[k] == f;
      assert flags[..|flags| - 1][k] == f;
      AmountMentionsPositive(flags[..|flags| - 1], f);
    }
  }

  // ------------------------------------------- the references recommendation

  /** No flag message holds the letter j. */
  predicate MessagesLackJ(flags: seq<Flag>) {
    forall k :: 0 <= k < |flags| ==> 'j' !in flags[k].message
  }

  /** No component name of a tier holds the letter j. */
  predicate ComponentNamesLackJ(tier: Tier) {
    forall k :: 0 <= k < |tier| ==> 'j' !in tier[k].0
  }

  /** No tier name or component name holds the letter j. */
  predicate OwnFundsNamesLackJ(of: OwnFunds) {
    forall i :: 0 <= i < |of| ==> 'j' !in of[i].0 && ComponentNamesLackJ(of[i].1)
  }

  /** No name in the record and not its template reference holds the letter
      j. */
  predicate NamesLackJ(r: Record) {
    'j' !in Shown(r.template.Get()) && (r.ownFunds.Some? ==> OwnFundsNamesLackJ(r.ownFunds.value))
  }

  lemma LackJAppend(a: seq<Flag>, b: seq<Flag>)
    requires MessagesLackJ(a) && MessagesLackJ(b)
    ensures MessagesLackJ(a + b)
  {
    forall k | 0 <= k < |a + b|
      ensures 'j' !in (a + b)[k].message
    {
      if k >= |a| {
        assert (a + b)[k] == b[k - |a|];
      }
    }
  }

  lemma IntTextLacksJ(n: int)
    ensures 'j' !in IntText(n)
  {
    var digits := if n < 0 then NatText(-n) else NatText(n);
    assert AllDigits(digits);
  }

  // The fixed texts, a few at a time.

  lemma OwnFundsTextsLackJ()
    ensures 'j' !in MissingOwnFundsText && 'j' !in MissingCet1Text && 'j' !in MissingComponentText
  {
  }

  lemma IntangiblesTextLacksJ()
    ensures 'j' !in IntangiblesText
  {
  }

  lemma NoAmountTextLacksJ()
    ensures 'j' !in NoAmountText && 'j' !in MismatchText
  {
  }

  lemma OnlyCet1TextLacksJ()
    ensures 'j' !in OnlyCet1Text
  {
  }

  lemma HigherWithoutCet1TextLacksJ()
    ensures 'j' !in HigherWithoutCet1Text
  {
  }

  lemma RegulatoryTextsLackJ()
    ensures 'j' !in MissingCurrencyText && 'j' !in MissingDateText
  {
  }

  lemma TemplateAndRefsTextsLackJ()
    ensures 'j' !in UnexpectedTemplateText && 'j' !in MissingRefsText
  {
  }

  /** The messages that do not depend on the record, group by group. */
  lemma Cet1FixedMessagesLackJ()
    ensures 'j' !in MissingOwnFunds.message && 'j' !in MissingCet1.message && 'j' !in IntangiblesPositive.message
  {
    OwnFundsTextsLackJ();
    IntangiblesTextLacksJ();
  }

  lemma CrossFixedMessagesLackJ()
    ensures 'j' !in OnlyCet1.message && 'j' !in HigherWithoutCet1.message
  {
    OnlyCet1TextLacksJ();
    HigherWithoutCet1TextLacksJ();
  }

  lemma RegulatoryFixedMessagesLackJ()
    ensures 'j' !in MissingCurrency.message && 'j' !in MissingDate.message
  {
    RegulatoryTextsLackJ();
  }

  /** A list of one flag whose message lacks j, or none. */
  lemma OptionalLacksJ(c: bool, f: Flag)
    requires 'j' !in f.message
    ensures MessagesLackJ(if c then [f] else [])
  {
  }

  lemma NoAmountLacksJ(name: string)
    requires 'j' !in name
    ensures 'j' !in NoAmount(name).message
  {
    NoAmountTextLacksJ();
    assert NoAmount(name).message == NoAmountText + name;
  }

  lemma MissingComponentLacksJ(name: string)
    requires 'j' !in name
    ensures 'j' !in MissingComponent(name).message
  {
    OwnFundsTextsLackJ();
    assert MissingComponent(name).message == MissingComponentText + name;
  }

  lemma MissingRefsLacksJ(tierName: string, componentName: string)
    requires 'j' !in tierName && 'j' !in componentName
    ensures 'j' !in MissingRefs(tierName, componentName).message
  {
    TemplateAndRefsTextsLackJ();
    assert MissingRefs(tierName, componentName).message == MissingRefsText + tierName + "." + componentName;
  }

  lemma UnexpectedTemplateLacksJ(t: Option<string>)
    requires 'j' !in Shown(t)
    ensures 'j' !in UnexpectedTemplate(t).message
  {
    TemplateAndRefsTextsLackJ();
    assert UnexpectedTemplate(t).message == UnexpectedTemplateText + Shown(t);
  }

  lemma MismatchLacksJ(k: TotalKey, expected: int, actual: Amount)
    ensures 'j' !in Mismatch(k, expected, actual).message
  {
    var name, e, a := k.Name(), IntText(expected), AmountText(AmountOrNone(actual));
    assert 'j' !in name by {
      match k
      case TotalCet1 =>
      case TotalAt1 =>
      case TotalTier2 =>
      case TotalOwnFunds =>
    }
    IntTextLacksJ(expected);
    NoAmountTextLacksJ();
    assert 'j' !in a by {
      if actual.Num? {
        IntTextLacksJ(actual.n);
      }
    }
    assert Mismatch(k, expected, actual).message == "Summary " + name + MismatchText + e + ", got " + a;
  }

  lemma {:induction false} MissingRequiredLacksJ(cet1: Tier, names: seq<string>)
    requires forall k :: 0 <= k < |names| ==> 'j' !in names[k]
    ensures MessagesLackJ(MissingRequired(cet1, names))
  {
    if names != [] {
      var init, name := names[..|names| - 1], names[|names| - 1];
      MissingRequiredLacksJ(cet1, init);
      MissingComponentLacksJ(name);
      OptionalLacksJ(Lookup(cet1, name).None?, MissingComponent(name));
      LackJAppend(MissingRequired(cet1, init), if Lookup(cet1, name).None? then [MissingComponent(name)] else []);
    }
  }

  lemma {:induction false} NullAmountInfosLackJ(cet1: Tier)
    requires ComponentNamesLackJ(cet1)
    ensures MessagesLackJ(NullAmountInfos(cet1))
  {
    if cet1 != [] {
      var init, last := cet1[..|cet1| - 1], cet1[|cet1| - 1];
      assert ComponentNamesLackJ(init) by {
        forall k | 0 <= k < |init| ensures 'j' !in init[k].0 {
          assert init[k] == cet1[k];
        }
      }
      NullAmountInfosLackJ(init);
      NoAmountLacksJ(last.0);
      OptionalLacksJ(last.1.amount.Null?, NoAmount(last.0));
      LackJAppend(NullAmountInfos(init), if last.1.amount.Null? then [NoAmount(last.0)] else []);
    }
  }

  lemma Cet1LacksJ(of: OwnFunds)
    requires OwnFundsNamesLackJ(of)
    ensures MessagesLackJ(Cet1Flags(of))
  {
    Cet1FixedMessagesLackJ();
    if Lookup(of, "CET1").Some? {
      var cet1: Tier := Lookup(of, "CET1").value;
      LookupSpec(of, "CET1");
      var m :| 0 <= m < |of| && of[m] == ("CET1", cet1) && (forall j :: 0 <= j < m ==> of[j].0 != "CET1");
      assert ComponentNamesLackJ(of[m].1);
      var a, b, c := MissingRequired(cet1, RequiredCet1), IntangiblesFlags(cet1), NullAmountInfos(cet1);
      MissingRequiredLacksJ(cet1, RequiredCet1);
      NullAmountInfosLackJ(cet1);
      LackJAppend(a, b);
      LackJAppend(a + b, c);
    }
  }

  lemma LabelLacksJ(t: HigherTier)
    ensures 'j' !in t.Label()
  {
    match t
    case At1 =>
    case Tier2 =>
  }

  lemma NoTierLacksJ(t: HigherTier)
    requires 'j' !in t.Label()
    ensures 'j' !in NoTier(t).message
  {
  }

  lemma InstrumentsZeroLacksJ(t: HigherTier)
    requires 'j' !in t.Label()
    ensures 'j' !in InstrumentsZero(t).message
  {
  }

  lemma InstrumentsNullLacksJ(t: HigherTier)
    requires 'j' !in t.Label()
    ensures 'j' !in InstrumentsNull(t).message
  {
  }

  lemma MissingInstrumentsLacksJ(t: HigherTier)
    requires 'j' !in t.Label()
    ensures 'j' !in MissingInstruments(t).message
  {
  }

  lemma HigherTierLacksJ(of: OwnFunds, t: HigherTier)
    ensures MessagesLackJ(HigherTierFlags(of, t))
  {
    LabelLacksJ(t);
    NoTierLacksJ(t);
    InstrumentsZeroLacksJ(t);
    InstrumentsNullLacksJ(t);
    MissingInstrumentsLacksJ(t);
    var flags := HigherTierFlags(of, t);
    assert flags == [] || flags == [NoTier(t)] || flags == [MissingInstruments(t)]
      || flags == [InstrumentsZero(t)] || flags == [InstrumentsNull(t)];
  }

  lemma CrossLacksJ(of: OwnFunds)
    ensures MessagesLackJ(CrossFlags(of))
  {
    CrossFixedMessagesLackJ();
  }

  lemma {:induction false} MismatchFlagsLackJ(s: Summary, expected: Totals, keys: seq<TotalKey>)
    ensures MessagesLackJ(MismatchFlags(s, expected, keys))
  {
    if keys != [] {
      var init, k := keys[..|keys| - 1], keys[|keys| - 1];
      MismatchFlagsLackJ(s, expected, init);
      MismatchLacksJ(k, expected.Get(k), s.Get(k));
      var c := !s.Get(k).Missing? && Differs(s.Get(k), expected.Get(k));
      OptionalLacksJ(c, Mismatch(k, expected.Get(k), s.Get(k)));
      LackJAppend(MismatchFlags(s, expected, init), if c then [Mismatch(k, expected.Get(k), s.Get(k))] else []);
    }
  }

  lemma {:induction false} TierRefsWarningsLackJ(tierName: string, tier: Tier)
    requires 'j' !in tierName && ComponentNamesLackJ(tier)
    ensures MessagesLackJ(TierRefsWarnings(tierName, tier))
  {
    if tier != [] {
      var init, last := tier[..|tier| - 1], tier[|tier| - 1];
      assert ComponentNamesLackJ(init) by {
        forall k | 0 <= k < |init| ensures 'j' !in init[k].0 {
          assert init[k] == tier[k];
        }
      }
      TierRefsWarningsLackJ(tierName, init);
      MissingRefsLacksJ(tierName, last.0);
      OptionalLacksJ(LacksRefs(last.1), MissingRefs(tierName, last.0));
      LackJAppend(TierRefsWarnings(tierName, init), if LacksRefs(last.1) then [MissingRefs(tierName, last.0)] else []);
    }
  }

  lemma {:induction false} RefsWarningsLackJ(of: OwnFunds)
    requires OwnFundsNamesLackJ(of)
    ensures MessagesLackJ(RefsWarnings(of))
  {
    if of != [] {
      var init, last := of[..|of| - 1], of[|of| - 1];
      assert OwnFundsNamesLackJ(init) by {
        forall k | 0 <= k < |init| ensures 'j' !in init[k].0 && ComponentNamesLackJ(init[k].1) {
          assert init[k] == of[k];
        }
      }
      RefsWarningsLackJ(init);
      TierRefsWarningsLackJ(last.0, last.1);
      LackJAppend(RefsWarnings(init), TierRefsWarnings(last.0, last.1));
    }
  }

  /** The three top-level checks of the regulatory group. */
  lemma TopLevelLacksJ(r: Record)
    requires 'j' !in Shown(r.template.Get())
    ensures MessagesLackJ(TopLevelFlags(r))
  {
    var a := if !r.currency.Present() then [MissingCurrency] else [];
    var b := if !r.reportingDate.Present() then [MissingDate] else [];
    var c := if r.template.Get() != Some(TemplateId) then [UnexpectedTemplate(r.template.Get())] else [];
    RegulatoryFixedMessagesLackJ();
    UnexpectedTemplateLacksJ(r.template.Get());
    OptionalLacksJ(!r.currency.Present(), MissingCurrency);
    OptionalLacksJ(!r.reportingDate.Present(), MissingDate);
    OptionalLacksJ(r.template.Get() != Some(TemplateId), UnexpectedTemplate(r.template.Get()));
    LackJAppend(a, b);
    LackJAppend(a + b, c);
  }

  lemma RegulatoryLacksJ(r: Record)
    requires NamesLackJ(r)
    ensures MessagesLackJ(RegulatoryFlags(r))
  {
    var of := if r.ownFunds.Some? then r.ownFunds.value else [];
    TopLevelLacksJ(r);
    RefsWarningsLackJ(of);
    LackJAppend(TopLevelFlags(r), RefsWarnings(of));
  }

  /** Every message of a record that has `own_funds`. */
  lemma OwnFundsMessagesLackJ(r: Record)
    requires r.ownFunds.Some? && NamesLackJ(r)
    ensures MessagesLackJ(Validate(r))
  {
    var of := r.ownFunds.value;
    var c, a, t, x := Cet1Flags(of), HigherTierFlags(of, At1), HigherTierFlags(of, Tier2), CrossFlags(of);
    Cet1LacksJ(of);
    HigherTierLacksJ(of, At1);
    HigherTierLacksJ(of, Tier2);
    CrossLacksJ(of);
    SummaryLacksJ(r);
    RegulatoryLacksJ(r);
    LackJAppend(c, a);
    LackJAppend(c + a, t);
    LackJAppend(c + a + t, x);
    LackJAppend(c + a + t + x, SummaryFlags(r));
    LackJAppend(c + a + t + x + SummaryFlags(r), RegulatoryFlags(r));
  }

  /** The references recommendation looks for `justification_refs` in the
      messages, but that key appears only in the flags' field, never in a
      message: as long as no name in the record contains a j, it is never
      given. */
  lemma RefsRecommendationNeverGiven(r: Record)
    requires NamesLackJ(r)
    ensures AddReferences !in Recommendations(Validate(r))
  {
    if r.ownFunds.Some? {
      OwnFundsMessagesLackJ(r);
    } else {
      Cet1FixedMessagesLackJ();
      OptionalLacksJ(true, MissingOwnFunds);
    }
    NoRefsMentions(Validate(r));
    RecommendationsGiven(Validate(r));
  }

  lemma SummaryLacksJ(r: Record)
    ensures MessagesLackJ(SummaryFlags(r))
  {
    if r.summary.Some? {
      MismatchFlagsLackJ(r.summary.value, SummaryOf(r), TotalKeys);
    }
  }

  lemma {:induction false} NoRefsMentions(flags: seq<Flag>)
    requires MessagesLackJ(flags)
    ensures RefsMentions(flags) == 0
  {
    if flags != [] {
      NoRefsMentions(flags[..|flags| - 1]);
      ContainedCharOccurs(flags[|flags| - 1].message, "justification_refs", 'j');
    }
  }

  // ------------------------------------------------------------------ report

  datatype Status = Pass | Fail

  /** `validation_summary` with the grouped flags and the recommendations. */
  datatype Report = Report(
    totalFlags: nat, errors: nat, warnings: nat, info: nat, status: Status,
    validationFlags: Grouped, recommendations: seq<Recommendation>)

  /** The length of a group the report reads; the three it reads always
      exist. */
  function GroupSize(g: Grouped, key: string): nat {
    match Lookup(g, key)
    case Some(items) => |items|
    case None => 0
  }

  /** `generate_validation_report` over already computed flags, under a
      keying. */
  function ReportOf(flags: seq<Flag>, k: Keying): Report {
    var grouped := GroupFlags(flags, k);
    var errors := GroupSize(grouped, "errors");
    Report(|flags|, errors, GroupSize(grouped, "warnings"), GroupSize(grouped, "info"),
      if errors == 0 then Pass else Fail, grouped, Recommendations(flags))
  }

  /** The number a report gives for a group is the number of flags filed
      under that key. */
  lemma GroupSizeSelected(flags: seq<Flag>, k: Keying, key: string)
    requires key in ["errors", "warnings", "info"]
    ensures GroupSize(GroupFlags(flags, k), key) == |Selected(flags, k, key)|
  {
    GroupFlagsSpec(flags, k, key);
  }

  /** As written, the report's info count is zero whatever the flags. */
  lemma InfoCountAlwaysZero(flags: seq<Flag>)
    ensures ReportOf(flags, AsWritten).info == 0
  {
    GroupSizeSelected(flags, AsWritten, "info");
    NothingFiledUnderInfo(flags);
  }

  /** A record with an empty own_funds section gets an info flag (no AT1
      capital), yet the report as written counts no info flags. */
  lemma InfoFlagLost()
    ensures var r := Record(Absent, Absent, Absent, None, Some([]), [], None);
      Count(Validate(r), Info) > 0 && ReportOf(Validate(r), AsWritten).info == 0
  {
    var r := Record(Absent, Absent, Absent, None, Some([]), [], None);
    var flags := Validate(r);
    assert Cet1Flags([]) == [MissingCet1];
    assert HigherTierFlags([], At1) == [NoTier(At1)];
    assert flags[1] == NoTier(At1);
    InfoCountAlwaysZero(flags);
  }

  /** Filed as intended, the report counts every kind of flag, and its status
      is PASS exactly when there is no error. */
  lemma IntendedReportCounts(flags: seq<Flag>)
    ensures var report := ReportOf(flags, Intended);
      && report.errors == Count(flags, Error)
      && report.warnings == Count(flags, Warning)
      && report.info == Count(flags, Info)
      && report.errors + report.warnings + report.info == report.totalFlags
      && (report.status == Pass <==> Count(flags, Error) == 0)
  {
    GroupSizeSelected(flags, Intended, "errors");
    GroupSizeSelected(flags, Intended, "warnings");
    GroupSizeSelected(flags, Intended, "info");
    SelectedCount(flags, Intended, Error);
    SelectedCount(flags, Intended, Warning);
    SelectedCount(flags, Intended, Info);
    CountsAddUp(flags);
  }

  lemma {:induction false} CountsAddUp(flags: seq<Flag>)
    ensures Count(flags, Error) + Count(flags, Warning) + Count(flags, Info) == |flags|
  {
    if flags != [] {
      CountsAddUp(flags[..|flags| - 1]);
    }
  }

  /** As written, the report counts errors and warnings correctly, reports
      no info flags, and is PASS exactly when there is no error. */
  lemma AsWrittenReportCounts(flags: seq<Flag>)
    ensures var report := ReportOf(flags, AsWritten);
      && report.totalFlags == |flags|
      && report.errors == Count(flags, Error) && report.warnings == Count(flags, Warning)
      && report.info == 0
      && (report.status == Pass <==> Count(flags, Error) == 0)
  {
    GroupSizeSelected(flags, AsWritten, "errors");
    GroupSizeSelected(flags, AsWritten, "warnings");
    SelectedCount(flags, AsWritten, Error);
    SelectedCount(flags, AsWritten, Warning);
    InfoCountAlwaysZero(flags);
  }

  /** `generate_validation_report`. */
  method GenerateValidationReport(r: Record) returns (report: Report)
    ensures report == ReportOf(Validate(r), AsWritten)
    ensures report.totalFlags == |Validate(r)|
    ensures report.errors == Count(Validate(r), Error) && report.warnings == Count(Validate(r), Warning)
    ensures report.info == 0
    ensures report.status == Pass <==> Count(Validate(r), Error) == 0
  {
    var flags := ValidateCorep(r);
    var grouped := FormatValidationFlags(flags);
    var errors := GroupSize(grouped, "errors");
    report := Report(|flags|, errors, GroupSize(grouped, "warnings"), GroupSize(grouped, "info"),
      if errors == 0 then Pass else Fail, grouped, Recommendations(flags));
    AsWrittenReportCounts(flags);
  }
}
