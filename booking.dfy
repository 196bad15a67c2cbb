/** The lead-intake form: multi-select toggling, validation that reports
    every missing answer, construction of the lead record, the
    read-modify-write that prepends it to stored leads, and the switch from
    the form to the scheduling step. */
module Booking {
  import opened Wrappers
  import opened Strings
  import opened Types
  import opened Browser
  import opened LeadStore

  /** `s.filter(i => i !== x)`: every copy of `x` removed, every other element
      kept as often as before. */
  function Without<T(==,!new)>(s: seq<T>, x: T): (r: seq<T>)
    ensures x !in r
    ensures forall y :: y != x ==> multiset(r)[y] == multiset(s)[y]
    ensures forall y :: y != x ==> (y in r <==> y in s)
    ensures |r| <= |s|
  {
    if s == [] then []
    else
      assert s == [s[0]] + s[1..];
      if s[0] == x then Without(s[1..], x) else [s[0]] + Without(s[1..], x)
  }

  /** Filtering distributes over concatenation, so the kept elements stay in
      the order they had. */
  lemma {:induction false} WithoutConcat<T(!new)>(a: seq<T>, b: seq<T>, x: T)
    ensures Without(a + b, x) == Without(a, x) + Without(b, x)
  {
    if a == [] {
      assert a + b == b;
    } else {
      assert (a + b)[1..] == a[1..] + b;
      WithoutConcat(a[1..], b, x);
    }
  }

  /** Filtering out an element that is not there changes nothing. */
  lemma {:induction false} WithoutAbsent<T(!new)>(s: seq<T>, x: T)
    requires x !in s
    ensures Without(s, x) == s
  {
    if s != [] {
      WithoutAbsent(s[1..], x);
    }
  }

  /** `toggleArrayItem`: an item already selected is removed (every copy of
      it); otherwise it is appended at the end. */
  function Toggle<T(==,!new)>(s: seq<T>, x: T): (r: seq<T>)
    ensures x in r <==> x !in s
    ensures forall y :: y != x ==> (y in r <==> y in s)
    ensures x !in s ==> r == s + [x]
    ensures x in s ==> r == Without(s, x)
  {
    if x in s then Without(s, x) else s + [x]
  }

  /** Toggling an unselected item twice gives back the selection exactly. */
  lemma ToggleTwiceAbsent<T(!new)>(s: seq<T>, x: T)
    requires x !in s
    ensures Toggle(Toggle(s, x), x) == s
  {
    WithoutConcat(s, [x], x);
    WithoutAbsent(s, x);
    assert Without([x], x) == [];
  }

  /** Toggling a selected item twice restores the set of selected items, but
      the item now comes last and appears once. */
  lemma ToggleTwicePresent<T(!new)>(s: seq<T>, x: T)
    requires x in s
    ensures Toggle(Toggle(s, x), x) == Without(s, x) + [x]
    ensures forall y :: y in Toggle(Toggle(s, x), x) <==> y in s
  {
  }

  /** The checks `validate` runs, in the order it runs them. */
  datatype Problem = MissingContact | NoClosingMethod | NoBreakdown | NoGenMethod | NoInvestAnswer

  /** The message shown for each failed check. */
  function Message(p: Problem): string
  {
    match p
    case MissingContact => "Basic contact details are required."
    case NoClosingMethod => "Please select at least one sales closing method."
    case NoBreakdown => "Please select your biggest appointment setting breakdown."
    case NoGenMethod => "Please select your lead generation sources."
    case NoInvestAnswer => "Please indicate your ability to invest."
  }

  /** Different checks show different messages, so the list of failed checks
      determines the messages on display and the reverse. */
  lemma MessageInjective(p: Problem, q: Problem)
    ensures Message(p) == Message(q) <==> p == q
  {
  }

  function Rank(p: Problem): nat
  {
    match p
    case MissingContact => 0
    case NoClosingMethod => 1
    case NoBreakdown => 2
    case NoGenMethod => 3
    case NoInvestAnswer => 4
  }

  /** Whether check `p` fails on form `f`; a string is falsy when empty. */
  predicate Fails(f: LeadForm, p: Problem)
  {
    match p
    case MissingContact => f.fullName == "" || f.email == "" || f.phone == ""
    case NoClosingMethod => |f.closingMethods| == 0
    case NoBreakdown => |f.breakdowns| == 0
    case NoGenMethod => |f.genMethods| == 0
    case NoInvestAnswer => f.canInvest == ""
  }

  /** Every answer the form requires is given. */
  predicate Complete(f: LeadForm)
  {
    && f.fullName != "" && f.email != "" && f.phone != ""
    && |f.closingMethods| > 0
    && |f.breakdowns| > 0
    && |f.genMethods| > 0
    && f.canInvest != ""
  }

  predicate RankOrdered(ps: seq<Problem>)
  {
    forall i, j :: 0 <= i < j < |ps| ==> Rank(ps[i]) < Rank(ps[j])
  }

  /** What one check adds to the list: itself when it fails. */
  function Report(f: LeadForm, p: Problem): (r: seq<Problem>)
    ensures forall q :: q in r <==> q == p && Fails(f, p)
    ensures |r| <= 1
  {
    if Fails(f, p) then [p] else []
  }

  /** Appending the report of a check ranked after everything already in an
      ordered list keeps it ordered. */
  lemma ExtendOrdered(xs: seq<Problem>, f: LeadForm, p: Problem)
    requires RankOrdered(xs)
    requires forall q :: q in xs ==> Rank(q) < Rank(p)
    ensures RankOrdered(xs + Report(f, p))
  {
    var ys := xs + Report(f, p);
    forall i, j | 0 <= i < j < |ys|
      ensures Rank(ys[i]) < Rank(ys[j])
    {
      if j >= |xs| {
        assert ys[j] == p && ys[i] == xs[i] && xs[i] in xs;
      }
    }
  }

  /** A form is complete exactly when no check fails. */
  lemma CompleteIffNoFailure(f: LeadForm)
    ensures Complete(f) <==> forall p :: !Fails(f, p)
  {
    if Complete(f) {
      forall p
        ensures !Fails(f, p)
      {
        match p
        case MissingContact =>
        case NoClosingMethod =>
        case NoBreakdown =>
        case NoGenMethod =>
        case NoInvestAnswer =>
      }
    } else {
      assert Fails(f, MissingContact) || Fails(f, NoClosingMethod) || Fails(f, NoBreakdown)
        || Fails(f, NoGenMethod) || Fails(f, NoInvestAnswer);
    }
  }

  /** The five checks' reports, in the order `validate` runs the checks. */
  function Reports(f: LeadForm): seq<Problem>
  {
    Report(f, MissingContact) + Report(f, NoClosingMethod) + Report(f, NoBreakdown)
      + Report(f, NoGenMethod) + Report(f, NoInvestAnswer)
  }

  /** Each check appears among the reports exactly when it fails. */
  lemma ReportedIffFails(f: LeadForm, p: Problem)
    ensures p in Reports(f) <==> Fails(f, p)
  {
    match p
    case MissingContact =>
    case NoClosingMethod =>
    case NoBreakdown =>
    case NoGenMethod =>
    case NoInvestAnswer =>
  }

  /** The reports come in the order the checks run. */
  lemma ReportsOrdered(f: LeadForm)
    ensures RankOrdered(Reports(f))
  {
    var r1 := Report(f, MissingContact);
    var r2 := r1 + Report(f, NoClosingMethod);
    var r3 := r2 + Report(f, NoBreakdown);
    var r4 := r3 + Report(f, NoGenMethod);
    ExtendOrdered(r1, f, NoClosingMethod);
    ExtendOrdered(r2, f, NoBreakdown);
    ExtendOrdered(r3, f, NoGenMethod);
    ExtendOrdered(r4, f, NoInvestAnswer);
  }

  /** No check reports exactly when the form is complete. */
  lemma ReportsEmptyIffComplete(f: LeadForm)
    ensures Reports(f) == [] <==> Complete(f)
  {
    if Reports(f) != [] {
      ReportedIffFails(f, Reports(f)[0]);
    } else {
      forall p
        ensures !Fails(f, p)
      {
        ReportedIffFails(f, p);
      }
    }
    CompleteIffNoFailure(f);
  }

  /** The list `validate` builds: the five checks run in order, each
      pushing its message when it fails. It holds every failed check and
      nothing else, in the order the checks run, and is empty exactly when
      the form is complete. */
  function ValidationErrors(f: LeadForm): (r: seq<Problem>)
    ensures forall p :: p in r <==> Fails(f, p)
    ensures RankOrdered(r)
    ensures r == [] <==> Complete(f)
  {
    forall p
      ensures p in Reports(f) <==> Fails(f, p)
    {
      ReportedIffFails(f, p);
    }
    ReportsOrdered(f);
    ReportsEmptyIffComplete(f);
    Reports(f)
  }

  /** The record id: "SC-" followed by `Math.floor(Math.random() * 900) + 100`,
      with `roll` standing for the floored product. It is "SC-" and three
      digits that read back as the number 100..999 drawn; nothing checks it
      against the ids already stored. */
  function LeadId(roll: nat): (id: string)
    requires roll < 900
    ensures |id| == 6 && id[..3] == "SC-" && AllDigits(id[3..])
    ensures DecimalValue(id[3..]) == roll + 100
  {
    var digits := NatToString(roll + 100);
    ThreeDigits(roll + 100);
    DecimalValueOfNatToString(roll + 100);
    var id := "SC-" + digits;
    assert id[3..] == digits;
    id
  }

  /** The record `handleSubmit` builds from a validated form, created at
      `now` (the ISO-8601 text of the current time). */
  function NewLead(f: LeadForm, roll: nat, now: string): (r: LeadRecord)
    requires |f.breakdowns| > 0 && |f.closingMethods| > 0 && roll < 900
    ensures r.id == LeadId(roll) && r.auditAt == now
    ensures r.name == f.fullName && r.email == f.email && r.phone == f.phone
    ensures r.price == f.priceRange && r.flow == f.leadCapacity
    ensures r.notes == "Submitted via website audit form."
    ensures r.status == AuditSubmitted && r.owner == "Unassigned" && r.timezone == "Auto-detected"
    ensures r.bookedAt == None
    ensures r.breakdown == f.breakdowns[0] && r.closing == f.closingMethods[0] && r.genMethods == f.genMethods
    ensures r.canInvest <==> f.canInvest == "Yes"
  {
    LeadRecord(
      id := LeadId(roll),
      name := f.fullName,
      email := f.email,
      phone := f.phone,
      timezone := "Auto-detected",
      price := f.priceRange,
      breakdown := f.breakdowns[0],
      flow := f.leadCapacity,
      closing := f.closingMethods[0],
      status := AuditSubmitted,
      bookedAt := None,
      auditAt := now,
      canInvest := f.canInvest == "Yes",
      notes := "Submitted via website audit form.",
      owner := "Unassigned",
      genMethods := f.genMethods)
  }

  /** The storage slot after saving `rec`: a missing item counts as an empty
      list; unparseable contents or a failing write leave the slot as it was. */
  function SaveLead(slot: Slot, rec: LeadRecord, writeFails: bool): (r: Slot)
    ensures writeFails || slot.Corrupt? ==> r == slot
    ensures !writeFails && !slot.Corrupt? ==> r.Present? && |r.records| >= 1 && r.records[0] == rec
    ensures !writeFails && !slot.Corrupt? ==> r.records[1..] == if slot.Present? then slot.records else []
  {
    match slot
    case Corrupt => slot
    case Missing => if writeFails then slot else Present([rec])
    case Present(existing) => if writeFails then slot else Present([rec] + existing)
  }

  /** The browser's own constraint check, run before the submit event: the
      three contact inputs are `required`, and the e-mail input has type
      `email`; `emailWellFormed` is the browser's verdict on the e-mail's
      syntax. */
  predicate NativeValid(f: LeadForm, emailWellFormed: bool)
  {
    f.fullName != "" && f.email != "" && f.phone != "" && emailWellFormed
  }

  datatype Step = FormStep | CalendlyStep

  const InitialForm: LeadForm := LeadForm("", "", "", ThreeToTen, [], [], Yes50Plus, [], "")

  /** The booking component's state. */
  class BookingForm {
    const store: LocalStore
    var step: Step
    var form: LeadForm
    var submitting: bool
    /** The failed checks on display; each is shown as its `Message`. */
    var errors: seq<Problem>
    /** Reveal timers started by valid submits that have not fired yet. */
    var pendingReveals: nat

    constructor (store: LocalStore)
      ensures this.store == store && step == FormStep && form == InitialForm
      ensures !submitting && errors == [] && pendingReveals == 0
    {
      this.store := store;
      step := FormStep;
      form := InitialForm;
      submitting := false;
      errors := [];
      pendingReveals := 0;
    }

    method ToggleClosingMethod(v: SalesClosingMethod)
      modifies this`form
      ensures form == old(form).(closingMethods := Toggle(old(form).closingMethods, v))
    {
      form := form.(closingMethods := Toggle(form.closingMethods, v));
    }

    method ToggleBreakdown(v: SettingBreakdown)
      modifies this`form
      ensures form == old(form).(breakdowns := Toggle(old(form).breakdowns, v))
    {
      form := form.(breakdowns := Toggle(form.breakdowns, v));
    }

    method ToggleGenMethod(v: LeadGenMethod)
      modifies this`form
      ensures form == old(form).(genMethods := Toggle(old(form).genMethods, v))
    {
      form := form.(genMethods := Toggle(form.genMethods, v));
    }

    /** `validate`: collects the messages, shows them, and reports success. */
    method Validate() returns (ok: bool)
      modifies this`errors
      ensures errors == ValidationErrors(form)
      ensures ok <==> Complete(form)
    {
      var f := form;
      var errs: seq<Problem> := [];
      if f.fullName == "" || f.email == "" || f.phone == "" {
        errs := errs + [MissingContact];
      }
      assert errs == Report(f, MissingContact);
      var r := errs;
      if |f.closingMethods| == 0 {
        errs := errs + [NoClosingMethod];
      }
      assert errs == r + Report(f, NoClosingMethod);
      r := errs;
      if |f.breakdowns| == 0 {
        errs := errs + [NoBreakdown];
      }
      assert errs == r + Report(f, NoBreakdown);
      r := errs;
      if |f.genMethods| == 0 {
        errs := errs + [NoGenMethod];
      }
      assert errs == r + Report(f, NoGenMethod);
      r := errs;
      if f.canInvest == "" {
        errs := errs + [NoInvestAnswer];
      }
      assert errs == r + Report(f, NoInvestAnswer);
      assert errs == Reports(f);
      errors := errs;
      ok := |errs| == 0;
    }

    /** `handleSubmit`: on a valid form, builds the record, saves it (a
        failure is swallowed) and starts the reveal timer; on an invalid one,
        only the messages change. */
    method Submit(roll: nat, now: string, writeFails: bool) returns (created: Option<LeadRecord>)
      requires roll < 900
      modifies this`errors, this`submitting, this`pendingReveals, store
      ensures errors == ValidationErrors(form)
      ensures created.Some? <==> Complete(form)
      ensures created.None? ==> store.slot == old(store.slot)
      ensures created.None? ==> submitting == old(submitting) && pendingReveals == old(pendingReveals)
      ensures created.Some? ==> created.value == NewLead(form, roll, now)
      ensures created.Some? ==> store.slot == SaveLead(old(store.slot), created.value, writeFails)
      ensures created.Some? ==> submitting && pendingReveals == old(pendingReveals) + 1
    {
      var ok := Validate();
      if !ok {
        return None;
      }
      submitting := true;
      var lead := NewLead(form, roll, now);
      store.slot := SaveLead(store.slot, lead, writeFails);
      pendingReveals := pendingReveals + 1;
      created := Some(lead);
    }

    /** The "Proceed to Booking" submit button: a form the browser's own
        check refuses never reaches `handleSubmit`, so nothing changes; one
        it accepts is submitted, and the contact message can then never be
        among the errors shown. */
    method Press(emailWellFormed: bool, roll: nat, now: string, writeFails: bool) returns (created: Option<LeadRecord>)
      requires roll < 900
      modifies this`errors, this`submitting, this`pendingReveals, store
      ensures !NativeValid(form, emailWellFormed) ==>
        created.None? && errors == old(errors) && store.slot == old(store.slot)
        && submitting == old(submitting) && pendingReveals == old(pendingReveals)
      ensures NativeValid(form, emailWellFormed) ==> errors == ValidationErrors(form) && MissingContact !in errors
      ensures NativeValid(form, emailWellFormed) ==> (created.Some? <==> Complete(form))
      ensures NativeValid(form, emailWellFormed) && created.None? ==>
        store.slot == old(store.slot) && submitting == old(submitting) && pendingReveals == old(pendingReveals)
      ensures created.Some? ==>
        created.value == NewLead(form, roll, now)
        && store.slot == SaveLead(old(store.slot), created.value, writeFails)
        && submitting && pendingReveals == old(pendingReveals) + 1
    {
      if !NativeValid(form, emailWellFormed) {
        return None;
      }
      created := Submit(roll, now, writeFails);
    }

    /** The 1500 ms timer a valid submit started: shows the scheduling step,
        whatever became of the save, and scrolls to the top. */
    method RevealTimerFires() returns (scroll: ScrollAction)
      requires pendingReveals > 0
      modifies this`step, this`submitting, this`pendingReveals
      ensures step == CalendlyStep && !submitting
      ensures pendingReveals == old(pendingReveals) - 1
      ensures scroll == ScrollTop
    {
      step := CalendlyStep;
      submitting := false;
      pendingReveals := pendingReveals - 1;
      scroll := ScrollTop;
    }

    /** "Reset Audit": back to the form, whose answers are kept. */
    method Reset()
      modifies this`step
      ensures step == FormStep
    {
      step := FormStep;
    }
  }
}
