/** The string-valued enumerations of the lead-qualification questionnaire
    and the lead lifecycle, and the shape of the intake form.  Each enum is a
    datatype; its string value is given by a `...Label` function, and the
    `All...` constant lists the members in declaration order, which is the
    order `Object.values` renders them in. */
module Types {
  import opened Wrappers

  datatype PriceRange = ThreeToTen | TenToThirty | ThirtyToFifty

  function PriceRangeLabel(p: PriceRange): string
  {
    match p
    case ThreeToTen => "3k - 10k"
    case TenToThirty => "10k - 30k"
    case ThirtyToFifty => "30k - 50k"
  }

  const AllPriceRanges: seq<PriceRange> := [ThreeToTen, TenToThirty, ThirtyToFifty]

  datatype SalesClosingMethod = BookedCalls | DmsChat | InboundOnly | OtherClosing

  function ClosingLabel(m: SalesClosingMethod): string
  {
    match m
    case BookedCalls => "Booked sales calls"
    case DmsChat => "DMs / Chat"
    case InboundOnly => "Inbound only"
    case OtherClosing => "Other"
  }

  const AllClosingMethods: seq<SalesClosingMethod> := [BookedCalls, DmsChat, InboundOnly, OtherClosing]

  datatype SettingBreakdown = SlowFollowup | Unqualified | NoShows | Turnover | NoSystem

  function BreakdownLabel(b: SettingBreakdown): string
  {
    match b
    case SlowFollowup => "Missed or slow lead follow-up"
    case Unqualified => "Unqualified prospects booking calls"
    case NoShows => "No-shows"
    case Turnover => "Setter turnover or inconsistency"
    case NoSystem => "No clear system or tracking"
  }

  const AllBreakdowns: seq<SettingBreakdown> := [SlowFollowup, Unqualified, NoShows, Turnover, NoSystem]

  datatype LeadFlowStatus = Yes50Plus | Inconsistent | NoFlow

  function FlowLabel(f: LeadFlowStatus): string
  {
    match f
    case Yes50Plus => "Yes (50+ leads/month)"
    case Inconsistent => "Some leads, inconsistent"
    case NoFlow => "No consistent lead flow"
  }

  const AllFlowStatuses: seq<LeadFlowStatus> := [Yes50Plus, Inconsistent, NoFlow]

  datatype LeadGenMethod = PaidAds | Organic | Referrals | EmailSms | Outbound | Multiple | NoSource

  function GenLabel(g: LeadGenMethod): string
  {
    match g
    case PaidAds => "Paid ads (Meta, Google, YouTube, etc.)"
    case Organic => "Organic content (YouTube, Instagram, TikTok, SEO)"
    case Referrals => "Referrals / partnerships"
    case EmailSms => "Email or SMS list"
    case Outbound => "Outbound / cold outreach"
    case Multiple => "Multiple channels"
    case NoSource => "No consistent lead source yet"
  }

  const AllGenMethods: seq<LeadGenMethod> := [PaidAds, Organic, Referrals, EmailSms, Outbound, Multiple, NoSource]

  datatype LeadStatus = AuditSubmitted | Qualified | CallBooked | Completed | NoShow | Disqualified

  function StatusLabel(s: LeadStatus): string
  {
    match s
    case AuditSubmitted => "Audit Submitted"
    case Qualified => "Qualified"
    case CallBooked => "Call Booked"
    case Completed => "Completed"
    case NoShow => "No Show"
    case Disqualified => "Disqualified"
  }

  const AllStatuses: seq<LeadStatus> := [AuditSubmitted, Qualified, CallBooked, Completed, NoShow, Disqualified]

  /** The status whose value a string is, if any. It states only that a
      status can be recovered from its string: `value as LeadStatus` on the
      status select is a type cast with no check at run time, and the
      select offers only the six values, so the `None` case has no
      counterpart in the site. */
  function StatusFromLabel(x: string): (r: Option<LeadStatus>)
    ensures r.Some? ==> StatusLabel(r.value) == x
    ensures r.None? ==> forall s :: StatusLabel(s) != x
  {
    if x == "Audit Submitted" then Some(AuditSubmitted)
    else if x == "Qualified" then Some(Qualified)
    else if x == "Call Booked" then Some(CallBooked)
    else if x == "Completed" then Some(Completed)
    else if x == "No Show" then Some(NoShow)
    else if x == "Disqualified" then Some(Disqualified)
    else None
  }

  /** `LeadStatus` has six members and a status is recovered from its string. */
  lemma StatusLabelRoundTrip(s: LeadStatus)
    ensures |AllStatuses| == 6 && s in AllStatuses
    ensures StatusFromLabel(StatusLabel(s)) == Some(s)
  {
  }

  /** Distinct statuses have distinct string values. */
  lemma StatusLabelInjective(a: LeadStatus, b: LeadStatus)
    ensures StatusLabel(a) == StatusLabel(b) ==> a == b
  {
  }

  lemma PriceRangeLabelInjective(a: PriceRange, b: PriceRange)
    ensures |AllPriceRanges| == 3 && a in AllPriceRanges
    ensures PriceRangeLabel(a) == PriceRangeLabel(b) ==> a == b
  {
  }

  lemma ClosingLabelInjective(a: SalesClosingMethod, b: SalesClosingMethod)
    ensures |AllClosingMethods| == 4 && a in AllClosingMethods
    ensures ClosingLabel(a) == ClosingLabel(b) ==> a == b
  {
  }

  lemma BreakdownLabelInjective(a: SettingBreakdown, b: SettingBreakdown)
    ensures |AllBreakdowns| == 5 && a in AllBreakdowns
    ensures BreakdownLabel(a) == BreakdownLabel(b) ==> a == b
  {
  }

  lemma FlowLabelInjective(a: LeadFlowStatus, b: LeadFlowStatus)
    ensures |AllFlowStatuses| == 3 && a in AllFlowStatuses
    ensures FlowLabel(a) == FlowLabel(b) ==> a == b
  {
  }

  lemma GenLabelInjective(a: LeadGenMethod, b: LeadGenMethod)
    ensures |AllGenMethods| == 7 && a in AllGenMethods
    ensures GenLabel(a) == GenLabel(b) ==> a == b
  {
  }

  /** The intake form: contact fields, one price band and one lead-capacity
      answer, three multi-select answers held as sequences, and the
      investment answer, which is free text ("", "Yes" or "No" in practice),
      not a boolean. */
  datatype LeadForm = LeadForm(
    fullName: string,
    email: string,
    phone: string,
    priceRange: PriceRange,
    closingMethods: seq<SalesClosingMethod>,
    breakdowns: seq<SettingBreakdown>,
    leadCapacity: LeadFlowStatus,
    genMethods: seq<LeadGenMethod>,
    canInvest: string)
}
