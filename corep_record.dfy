/** The structured "Own Funds" record (COREP template C 01.00) that the
    extractor produces and the template mapper and the validator read: a
    nested dictionary with `template`, `currency`, `reporting_date`, an
    optional `error`, `own_funds` (tiers CET1, AT1 and Tier2, each a
    dictionary of components), `data_gaps` and `summary`. */
module CorepRecord {
  import opened Common

  /** What a component's `amount` key (or a summary total) holds: the key may
      be missing, hold None, or hold a number. */
  datatype Amount = Missing | Null | Num(n: int)

  /** One leaf line item of a tier. Every key but `amount` is optional. */
  datatype Component = Component(
    amount: Amount,
    corepRow: Option<string>,
    justificationRefs: Option<seq<string>>,
    explanation: Option<string>)

  /** A tier: component name to component, in insertion order. */
  type Tier = Dict<Component>

  /** `own_funds`: tier name to tier, in insertion order. */
  type OwnFunds = Dict<Tier>

  datatype DataGap = DataGap(field: string, issue: string, suggestion: string)

  /** The `summary` section. */
  datatype Summary = Summary(totalCet1: Amount, totalAt1: Amount, totalTier2: Amount, totalOwnFunds: Amount)
  {
    function Get(k: TotalKey): Amount {
      match k
      case TotalCet1 => totalCet1
      case TotalAt1 => totalAt1
      case TotalTier2 => totalTier2
      case TotalOwnFunds => totalOwnFunds
    }
  }

  /** A top-level text key of the record: absent, present but holding None,
      or holding a string. The validator tests `key in data` and the mapper
      reads `data.get(key, default)`, so the first two differ. */
  datatype TextKey = Absent | NoneValue | Str(s: string)
  {
    /** `key in data`. */
    predicate Present() {
      !Absent?
    }

    /** `data.get(key)`: an absent key and None both read as None. */
    function Get(): (v: Option<string>)
      ensures v.Some? <==> Str?
    {
      if Str? then Some(s) else None
    }

    /** `data.get(key, default)`: only an absent key gives the default. */
    function GetOr(default: string): (v: Option<string>)
      ensures Absent? ==> v == Some(default)
      ensures !Absent? ==> v == Get()
    {
      match this
      case Absent => Some(default)
      case NoneValue => None
      case Str(t) => Some(t)
    }
  }

  /** How an f-string prints a value that is a string or None. */
  function Shown(v: Option<string>): string {
    match v
    case Some(t) => t
    case None => "None"
  }

  /** The record. A missing `own_funds` or `summary` reads as None. */
  datatype Record = Record(
    template: TextKey,
    currency: TextKey,
    reportingDate: TextKey,
    error: Option<string>,
    ownFunds: Option<OwnFunds>,
    dataGaps: seq<DataGap>,
    summary: Option<Summary>)

  const TemplateId: string := "C 01.00"

  /** The five components the template knows, each under a fixed tier key and
      component key. */
  datatype Slot = OrdinaryShareCapital | RetainedEarnings | IntangiblesDeduction | At1Instruments | Tier2Instruments
  {
    function TierKey(): string {
      match this
      case At1Instruments => "AT1"
      case Tier2Instruments => "Tier2"
      case _ => "CET1"
    }

    function ComponentKey(): string {
      match this
      case OrdinaryShareCapital => "ordinary_share_capital"
      case RetainedEarnings => "retained_earnings"
      case IntangiblesDeduction => "intangibles_deduction"
      case _ => "instruments"
    }
  }

  /** `of[tier][component]` for a slot, when both keys are present. */
  function SlotComponent(of: OwnFunds, s: Slot): Option<Component> {
    match Lookup(of, s.TierKey())
    case None => None
    case Some(tier) => Lookup(tier, s.ComponentKey())
  }

  /** `component.get("amount")`: a missing key reads as None. */
  function AmountOrNone(a: Amount): Option<int> {
    match a
    case Num(n) => Some(n)
    case _ => None
  }

  /** Python truthiness of an amount, which is also `amount not in [None, 0]`. */
  predicate Truthy(a: Amount) {
    a.Num? && a.n != 0
  }

  /** The four keys of a summary, in the order the source lists them. */
  datatype TotalKey = TotalCet1 | TotalAt1 | TotalTier2 | TotalOwnFunds
  {
    function Name(): string {
      match this
      case TotalCet1 => "total_cet1"
      case TotalAt1 => "total_at1"
      case TotalTier2 => "total_tier2"
      case TotalOwnFunds => "total_own_funds"
    }
  }

  const TotalKeys: seq<TotalKey> := [TotalCet1, TotalAt1, TotalTier2, TotalOwnFunds]

  /** Four computed totals. */
  datatype Totals = Totals(cet1: int, at1: int, tier2: int, ownFunds: int)
  {
    function Get(k: TotalKey): int {
      match k
      case TotalCet1 => cet1
      case TotalAt1 => at1
      case TotalTier2 => tier2
      case TotalOwnFunds => ownFunds
    }
  }
}
