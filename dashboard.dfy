/** The internal dashboard: statistics derived from the stored leads, the
    load from storage, bulk clear, and the status edits made from the detail
    drawer, each written through to storage. */
module Dashboard {
  import opened Wrappers
  import opened Strings
  import opened Types
  import opened LeadStore
  import Booking

  /** `leads.filter(p).length`. */
  function Count(leads: seq<LeadRecord>, p: LeadRecord -> bool): (n: nat)
    ensures n <= |leads|
  {
    if leads == [] then 0 else (if p(leads[0]) then 1 else 0) + Count(leads[1..], p)
  }

  /** Counted as qualified: Qualified or Call Booked. */
  predicate IsQualified(l: LeadRecord)
  {
    l.status == Qualified || l.status == CallBooked
  }

  predicate IsBooked(l: LeadRecord)
  {
    l.status == CallBooked
  }

  predicate IsNoShow(l: LeadRecord)
  {
    l.status == NoShow
  }

  /** Records audited on the day `today` ("YYYY-MM-DD", the date part of
      the current ISO time): their `auditAt` starts with it. */
  function NewTodayCount(leads: seq<LeadRecord>, today: string): (n: nat)
    ensures n <= |leads|
  {
    Count(leads, (l: LeadRecord) => StartsWith(l.auditAt, today))
  }

  /** Booked calls are among the qualified leads, and no lead is both
      qualified and a no-show. */
  lemma {:induction false} StatusCountsBounded(leads: seq<LeadRecord>)
    ensures Count(leads, IsBooked) <= Count(leads, IsQualified)
    ensures Count(leads, IsQualified) + Count(leads, IsNoShow) <= |leads|
  {
    if leads != [] {
      StatusCountsBounded(leads[1..]);
    }
  }

  /** Euclidean division: the quotient times the divisor is at most the
      dividend, and one more divisor is past it. */
  lemma QuotientBounds(n: nat, d: nat)
    requires d > 0
    ensures (n / d) * d <= n < (n / d + 1) * d
  {
    assert n == (n / d) * d + n % d;
  }

  lemma QuotientBelow(n: nat, d: nat, k: nat)
    requires d > 0 && n < k * d
    ensures n / d < k
  {
    QuotientBounds(n, d);
  }

  /** `Math.round(q / t * 100)` in exact arithmetic (`Math.round` rounds
      halves up), and 0 when there are no leads: the result r is the one
      with r ≤ 100q/t + 1/2 < r + 1. */
  function QualifiedPercent(q: nat, t: nat): (r: nat)
    requires q <= t
    ensures r <= 100
    ensures t == 0 ==> r == 0
    ensures t > 0 ==> r * (2 * t) <= 200 * q + t < (r + 1) * (2 * t)
  {
    if t == 0 then 0
    else
      var n := 200 * q + t;
      QuotientBounds(n, 2 * t);
      QuotientBelow(n, 2 * t, 101);
      n / (2 * t)
  }

  /** q × 12.5 has tenths digit 0 for an even q and 5 for an odd one. */
  lemma TenthsDigit(q: nat)
    ensures (125 * q) % 10 == if q % 2 == 0 then 0 else 5
  {
    var k := q / 2;
    if q % 2 == 0 {
      assert 125 * q == 10 * (25 * k);
    } else {
      assert 125 * q == 10 * (25 * k + 12) + 5;
    }
  }

  /** `` `$${(q * 12.5).toFixed(1)}k` ``: q × 12.5 is exactly q × 125 tenths,
      written as its integer part, a point and one decimal. */
  function RevenueString(q: nat): (r: string)
    ensures |r| >= 5 && r[0] == '$' && r[|r| - 3] == '.' && r[|r| - 1] == 'k'
    ensures AllDigits(r[1..|r| - 3]) && IsDigit(r[|r| - 2])
    ensures r[|r| - 2] == if q % 2 == 0 then '0' else '5'
    ensures r[1] != '0' || r[2] == '.'
  {
    var tenths := 125 * q;
    TenthsDigit(q);
    var digits := NatToString(tenths / 10);
    var r := "$" + digits + "." + [DigitChar(tenths % 10)] + "k";
    assert r[1..|r| - 3] == digits;
    r
  }

  /** Reads "$<digits>.<digit>k" back as a number of tenths. */
  function ParseRevenue(s: string): Option<nat>
  {
    if |s| >= 5 && s[0] == '$' && s[|s| - 1] == 'k' && s[|s| - 3] == '.'
       && AllDigits(s[1..|s| - 3]) && IsDigit(s[|s| - 2])
    then Some(10 * DecimalValue(s[1..|s| - 3]) + DigitValue(s[|s| - 2]))
    else None
  }

  /** The revenue string states exactly q × 125 tenths. */
  lemma RevenueRoundTrip(q: nat)
    ensures ParseRevenue(RevenueString(q)) == Some(125 * q)
  {
    var tenths := 125 * q;
    var digits := NatToString(tenths / 10);
    var s := RevenueString(q);
    assert s == "$" + digits + "." + [DigitChar(tenths % 10)] + "k";
    assert s[1..|s| - 3] == digits;
    assert s[|s| - 2] == DigitChar(tenths % 10);
    DecimalValueOfNatToString(tenths / 10);
  }

  /** The figures of the statistics row. */
  datatype Stats = Stats(
    newAudits: nat,
    callsBooked: nat,
    atRisk: nat,
    qualifiedPercent: nat,
    revenuePotential: string)

  /** The `stats` memo over the current leads. */
  function ComputeStats(leads: seq<LeadRecord>, today: string): (r: Stats)
    ensures r.newAudits <= |leads|
    ensures r.callsBooked <= Count(leads, IsQualified)
    ensures r.callsBooked + r.atRisk <= |leads|
    ensures r.qualifiedPercent <= 100 && (|leads| == 0 ==> r.qualifiedPercent == 0)
    ensures ParseRevenue(r.revenuePotential) == Some(125 * Count(leads, IsQualified))
    ensures r == Stats(NewTodayCount(leads, today), Count(leads, IsBooked), Count(leads, IsNoShow),
      QualifiedPercent(Count(leads, IsQualified), |leads|), RevenueString(Count(leads, IsQualified)))
  {
    var total := |leads|;
    var qualified := Count(leads, IsQualified);
    StatusCountsBounded(leads);
    RevenueRoundTrip(qualified);
    Stats(
      newAudits := NewTodayCount(leads, today),
      callsBooked := Count(leads, IsBooked),
      atRisk := Count(leads, IsNoShow),
      qualifiedPercent := QualifiedPercent(qualified, total),
      revenuePotential := RevenueString(qualified))
  }

  /** `leads.map(l => l.id === id ? {...l, status} : l)`: every record with
      the id takes the new status; every other record, every other field,
      the length and the order stay as they were. */
  function WithStatus(leads: seq<LeadRecord>, id: string, status: LeadStatus): (r: seq<LeadRecord>)
    ensures |r| == |leads|
    ensures forall i :: 0 <= i < |leads| && leads[i].id == id ==> r[i] == leads[i].(status := status)
    ensures forall i :: 0 <= i < |leads| && leads[i].id != id ==> r[i] == leads[i]
  {
    if leads == [] then []
    else
      var head := if leads[0].id == id then leads[0].(status := status) else leads[0];
      [head] + WithStatus(leads[1..], id, status)
  }

  /** Setting the same status twice is the same as setting it once. */
  lemma WithStatusIdempotent(leads: seq<LeadRecord>, id: string, status: LeadStatus)
    ensures WithStatus(WithStatus(leads, id, status), id, status) == WithStatus(leads, id, status)
  {
  }

  /** With unique ids, marking a lead that is not already a no-show raises
      the at-risk count by exactly one. */
  lemma {:induction false} MarkNoShowAddsOneAtRisk(leads: seq<LeadRecord>, i: nat)
    requires i < |leads| && leads[i].status != NoShow
    requires forall j :: 0 <= j < |leads| && j != i ==> leads[j].id != leads[i].id
    ensures Count(WithStatus(leads, leads[i].id, NoShow), IsNoShow) == Count(leads, IsNoShow) + 1
  {
    var id := leads[i].id;
    var after := WithStatus(leads, id, NoShow);
    assert after[1..] == WithStatus(leads[1..], id, NoShow);
    if i == 0 {
      assert WithStatus(leads[1..], id, NoShow) == leads[1..];
    } else {
      MarkNoShowAddsOneAtRisk(leads[1..], i - 1);
    }
  }

  /** A freshly submitted record changes neither the booked, at-risk nor
      qualified counts, and adds one to today's audits when it is dated
      today. */
  lemma NewLeadStats(rec: LeadRecord, leads: seq<LeadRecord>, today: string)
    requires rec.status == AuditSubmitted
    ensures Count([rec] + leads, IsBooked) == Count(leads, IsBooked)
    ensures Count([rec] + leads, IsNoShow) == Count(leads, IsNoShow)
    ensures Count([rec] + leads, IsQualified) == Count(leads, IsQualified)
    ensures NewTodayCount([rec] + leads, today) == NewTodayCount(leads, today) + if StartsWith(rec.auditAt, today) then 1 else 0
  {
    assert ([rec] + leads)[1..] == leads;
  }

  /** The list the load effect leaves in memory: empty for a missing item,
      the stored records when they parse, the current list when they do
      not. */
  function Loaded(slot: Slot, current: seq<LeadRecord>): (r: seq<LeadRecord>)
    ensures slot.Missing? ==> r == []
    ensures slot.Present? ==> r == slot.records
    ensures slot.Corrupt? ==> r == current
  {
    match slot
    case Missing => []
    case Corrupt => current
    case Present(records) => records
  }

  /** A submit that saves shows up on the dashboard's next load as the first
      record, followed by what was stored before, in the same order. */
  lemma LoadAfterSave(slot: Slot, rec: LeadRecord, current: seq<LeadRecord>)
    requires !slot.Corrupt?
    ensures Loaded(Booking.SaveLead(slot, rec, false), current) == [rec] + Loaded(slot, current)
  {
  }

  /** The dashboard component's state. */
  class LeadDashboard {
    const store: LocalStore
    var leads: seq<LeadRecord>
    var selected: Option<LeadRecord>

    constructor (store: LocalStore)
      ensures this.store == store && leads == [] && selected == None
    {
      this.store := store;
      leads := [];
      selected := None;
    }

    /** `fetchLeads`, run on mount and on every cross-tab `storage` event. */
    method Load()
      modifies this`leads
      ensures leads == Loaded(store.slot, old(leads))
    {
      match store.slot
      case Missing =>
        leads := [];
      case Corrupt =>
      case Present(records) =>
        leads := records;
    }

    /** Clicking a row opens the detail drawer on that record. */
    method Open(lead: LeadRecord)
      modifies this`selected
      ensures selected == Some(lead)
    {
      selected := Some(lead);
    }

    /** The backdrop or the close button shuts the drawer. */
    method Close()
      modifies this`selected
      ensures selected == None
    {
      selected := None;
    }

    /** `clearAllData`: only a confirmed request removes the stored item and
        empties the list and the selection. */
    method ClearAll(confirmed: bool)
      modifies this`leads, this`selected, store
      ensures confirmed ==> store.slot == Missing && leads == [] && selected == None
      ensures !confirmed ==> store.slot == old(store.slot) && leads == old(leads) && selected == old(selected)
    {
      if confirmed {
        store.slot := Missing;
        leads := [];
        selected := None;
      }
    }

    /** The drawer's status select: the new status goes to every record with
        the selected id, the whole list is written back, and the drawer shows
        the new status. */
    method ChangeStatus(status: LeadStatus)
      requires selected.Some?
      modifies this`leads, this`selected, store
      ensures leads == WithStatus(old(leads), old(selected).value.id, status)
      ensures store.slot == Present(leads)
      ensures selected == Some(old(selected).value.(status := status))
    {
      var updated := WithStatus(leads, selected.value.id, status);
      leads := updated;
      store.slot := Present(updated);
      selected := Some(selected.value.(status := status));
    }

    /** "Mark No-Show": the same update with the No Show status, from any
        prior status. */
    method MarkNoShow()
      requires selected.Some?
      modifies this`leads, this`selected, store
      ensures leads == WithStatus(old(leads), old(selected).value.id, NoShow)
      ensures store.slot == Present(leads)
      ensures selected == Some(old(selected).value.(status := NoShow))
    {
      ChangeStatus(NoShow);
    }
  }
}
