/**
 * The reservation page: a draft reservation request edited one field at a
 * time, and a three-valued status that a submit moves from idle to
 * submitting and a delayed callback moves on to success. Time is modelled
 * as whole milliseconds since the page mounted; a scheduled callback is
 * kept as the time it falls due.
 */
module Reservation {

  datatype Option<T> = None | Some(value: T)

  datatype Status = Idle | Submitting | Success

  /** The form's draft request; every field holds the text its control wrote. */
  datatype Draft = Draft(
    name: string,
    email: string,
    phone: string,
    date: string,
    time: string,
    guests: string,
    requests: string)

  /** The draft's field names. */
  datatype Field = Name | Email | Phone | Date | Time | Guests | Requests

  /** What the success view reads back from the draft. */
  datatype SuccessMessage = SuccessMessage(name: string, date: string, email: string)

  /** Delay of the simulated submission, in milliseconds. */
  const SUBMIT_DELAY: nat := 2000

  /** The values of the time radio buttons. */
  const TIME_SLOTS: seq<string> := ["18:00", "19:30", "20:00", "20:30", "21:00", "21:30"]

  /** The values of the guests select's options. */
  const GUEST_OPTIONS: seq<string> := ["1", "2", "3", "4", "5", "6", "7", "8", "large"]

  function Get(d: Draft, f: Field): string
  {
    match f
    case Name => d.name
    case Email => d.email
    case Phone => d.phone
    case Date => d.date
    case Time => d.time
    case Guests => d.guests
    case Requests => d.requests
  }

  /** The change handler's merge: the named field takes the new value. */
  function WithField(d: Draft, f: Field, v: string): (r: Draft)
    ensures Get(r, f) == v
    ensures forall g :: g != f ==> Get(r, g) == Get(d, g)
  {
    match f
    case Name => d.(name := v)
    case Email => d.(email := v)
    case Phone => d.(phone := v)
    case Date => d.(date := v)
    case Time => d.(time := v)
    case Guests => d.(guests := v)
    case Requests => d.(requests := v)
  }

  /** Writing a field's current value back changes nothing. */
  lemma WithFieldUnchanged(d: Draft, f: Field)
    ensures WithField(d, f, Get(d, f)) == d
  {
  }

  /** A later edit of the same field overwrites an earlier one. */
  lemma WithFieldOverwrites(d: Draft, f: Field, v: string, w: string)
    ensures WithField(WithField(d, f, v), f, w) == WithField(d, f, w)
  {
  }

  /** Edits of two different fields commute. */
  lemma WithFieldCommutes(d: Draft, f: Field, g: Field, v: string, w: string)
    requires f != g
    ensures WithField(WithField(d, f, v), g, w) == WithField(WithField(d, g, w), f, v)
  {
  }

  /** The draft on mount: guests is "2", every other field is empty. */
  function InitialDraft(): (d: Draft)
    ensures forall f :: Get(d, f) == if f == Guests then "2" else ""
  {
    Draft("", "", "", "", "", "2", "")
  }

  /** The values the page's controls can write into a field: a time slot,
      a guests option, any text for the four text-like inputs, and nothing
      at all for `requests`, which has no control. */
  predicate ControlWrites(f: Field, v: string)
  {
    match f
    case Time => v in TIME_SLOTS
    case Guests => v in GUEST_OPTIONS
    case Requests => false
    case _ => true
  }

  /** A draft built only by the page's controls from the initial draft. */
  predicate ControlBuilt(d: Draft)
  {
    && d.requests == ""
    && (d.time == "" || d.time in TIME_SLOTS)
    && d.guests in GUEST_OPTIONS
  }

  /** The initial draft is one the controls could have built. */
  lemma InitialDraftControlBuilt()
    ensures ControlBuilt(InitialDraft())
  {
  }

  /** Control edits keep a draft control-built. */
  lemma ControlEditsKeepDraftBuilt(d: Draft, f: Field, v: string)
    requires ControlBuilt(d) && ControlWrites(f, v)
    ensures ControlBuilt(WithField(d, f, v))
  {
  }

  /** The inputs carrying `required`: date, time, name, phone and email. */
  predicate RequiredFilled(d: Draft)
  {
    d.date != "" && d.time != "" && d.name != "" && d.phone != "" && d.email != ""
  }

  /** The due times in `due` whose callbacks have not fired by time `t`. */
  function StillPending(due: seq<nat>, t: nat): (r: seq<nat>)
    ensures forall x :: x in r <==> x in due && x > t
    ensures |r| <= |due|
    ensures (forall x :: x in due ==> x > t) ==> r == due
    ensures forall x :: multiset(r)[x] == if x > t then multiset(due)[x] else 0
  {
    if due == [] then []
    else
      assert due == [due[0]] + due[1..];
      assert due[0] in due && forall x :: x in due[1..] ==> x in due;
      if due[0] > t then [due[0]] + StillPending(due[1..], t)
      else StillPending(due[1..], t)
  }

  /** Whether some callback in `due` has fired by time `t`. */
  predicate AnyFired(due: seq<nat>, t: nat)
  {
    exists x :: x in due && x <= t
  }

  /** How far along the lifecycle a status is. */
  function Rank(s: Status): nat
  {
    match s
    case Idle => 0
    case Submitting => 1
    case Success => 2
  }

  /** The status changes the page allows: none, a submit from idle, or the
      delayed callback from submitting. */
  predicate UiStep(a: Status, b: Status)
  {
    a == b || (a == Idle && b == Submitting) || (a == Submitting && b == Success)
  }

  /** Any run of allowed status changes from idle never goes back, and reaches
      success only through submitting. */
  lemma {:induction false} LifecycleOrder(trace: seq<Status>)
    requires |trace| > 0 && trace[0] == Idle
    requires forall i :: 0 < i < |trace| ==> UiStep(trace[i - 1], trace[i])
    ensures forall i, j :: 0 <= i <= j < |trace| ==> Rank(trace[i]) <= Rank(trace[j])
    ensures forall j :: 0 <= j < |trace| && trace[j] == Success ==>
              exists i :: 0 < i < j && trace[i] == Submitting
  {
    if |trace| > 1 {
      var prefix := trace[..|trace| - 1];
      LifecycleOrder(prefix);
      var last := |trace| - 1;
      assert forall i :: 0 <= i < last ==> Rank(trace[i]) <= Rank(trace[last - 1]);
      if trace[last] == Success {
        if trace[last - 1] == Submitting {
          assert 0 < last - 1;
        } else {
          assert trace[last - 1] == Success;
        }
      }
    }
  }

  /** The reservation page's state. */
  class ReservationForm {
    var status: Status
    var draft: Draft
    /** Milliseconds since the page mounted. */
    var now: nat
    /** Due times of the scheduled submit callbacks that have not yet fired. */
    var timeouts: seq<nat>
    /** When the last submit happened. */
    ghost var submittedAt: nat

    /** The state the page's own controls keep: a draft they could have
        built, no callback outstanding unless submitting, and while
        submitting exactly one, falling due `SUBMIT_DELAY` after the submit. */
    ghost predicate UiConsistent()
      reads this
    {
      && ControlBuilt(draft)
      && (status != Submitting ==> timeouts == [])
      && (status == Submitting ==>
            && timeouts == [submittedAt + SUBMIT_DELAY]
            && submittedAt <= now < submittedAt + SUBMIT_DELAY)
    }

    /** Mounting: idle, with the initial draft and nothing scheduled. */
    constructor ()
      ensures status == Idle && draft == InitialDraft()
      ensures timeouts == [] && now == 0
      ensures UiConsistent()
    {
      status := Idle;
      draft := InitialDraft();
      now := 0;
      timeouts := [];
      submittedAt := 0;
      InitialDraftControlBuilt();
    }

    /** Whether the form is on screen (it is replaced by the success view). */
    predicate FormShown()
      reads this
    {
      status != Success
    }

    /** Whether the submit button is disabled. */
    predicate SubmitDisabled()
      reads this
    {
      status == Submitting
    }

    /** Whether the page lets a submit through: the form is shown, its button
        is enabled, and the browser's `required` check passes. */
    predicate SubmitEnabled()
      reads this
      ensures SubmitEnabled() ==> status == Idle
      ensures status == Idle ==> (SubmitEnabled() <==> RequiredFilled(draft))
    {
      FormShown() && !SubmitDisabled() && RequiredFilled(draft)
    }

    /** What the success view shows, if it is on screen. */
    function ShownMessage(): (m: Option<SuccessMessage>)
      reads this
      ensures m.Some? <==> status == Success
      ensures m.Some? ==>
                m.value.name == Get(draft, Name) && m.value.date == Get(draft, Date) && m.value.email == Get(draft, Email)
    {
      if status == Success then Some(SuccessMessage(draft.name, draft.date, draft.email)) else None
    }

    /** The change handler: merges one field into the draft, in any status. */
    method HandleChange(f: Field, v: string)
      modifies this`draft
      ensures draft == WithField(old(draft), f, v)
      ensures old(UiConsistent()) && ControlWrites(f, v) ==> UiConsistent()
    {
      if UiConsistent() && ControlWrites(f, v) {
        ControlEditsKeepDraftBuilt(draft, f, v);
      }
      draft := WithField(draft, f, v);
    }

    /** The submit handler: no validation and no guard of its own; it sets
        submitting and schedules the success callback. */
    method HandleSubmit()
      modifies this`status, this`timeouts, this`submittedAt
      ensures status == Submitting
      ensures timeouts == old(timeouts) + [now + SUBMIT_DELAY]
      ensures submittedAt == now
      ensures old(SubmitEnabled()) && old(UiConsistent()) ==> UiConsistent() && UiStep(old(status), status)
    {
      status := Submitting;
      timeouts := timeouts + [now + SUBMIT_DELAY];
      submittedAt := now;
    }

    /** `ms` milliseconds pass: every scheduled callback that falls due sets
        success; nothing else changes. */
    method Elapse(ms: nat)
      modifies this`status, this`timeouts, this`now
      ensures now == old(now) + ms
      ensures timeouts == StillPending(old(timeouts), now)
      ensures status == if AnyFired(old(timeouts), now) then Success else old(status)
      ensures old(UiConsistent()) ==> UiConsistent() && UiStep(old(status), status)
    {
      now := now + ms;
      if AnyFired(timeouts, now) {
        status := Success;
      }
      timeouts := StillPending(timeouts, now);
    }
  }

  /** Mount the page and fill in the required fields through their controls. */
  method FillRequired(name: string, email: string, phone: string, date: string, time: string)
    returns (form: ReservationForm)
    requires time in TIME_SLOTS
    ensures fresh(form)
    ensures form.status == Idle && form.timeouts == [] && form.now == 0
    ensures form.draft == Draft(name, email, phone, date, time, "2", "")
    ensures form.UiConsistent()
  {
    form := new ReservationForm();
    form.HandleChange(Date, date);
    form.HandleChange(Time, time);
    form.HandleChange(Name, name);
    form.HandleChange(Phone, phone);
    form.HandleChange(Email, email);
  }

  /** Fill in the required fields, submit through the page, and let `t` ms
      pass: the status is submitting until exactly `SUBMIT_DELAY` has passed
      and success from then on, and the success view shows the name, date and
      email entered. */
  method ReserveAndWait(name: string, email: string, phone: string, date: string, time: string, t: nat)
    returns (gateBefore: bool, gateAfter: bool, status: Status, shown: Option<SuccessMessage>)
    requires name != "" && email != "" && phone != "" && date != ""
    requires time in TIME_SLOTS
    ensures gateBefore && !gateAfter
    ensures status == if t >= SUBMIT_DELAY then Success else Submitting
    ensures shown == if t >= SUBMIT_DELAY then Some(SuccessMessage(name, date, email)) else None
  {
    var form := FillRequired(name, email, phone, date, time);
    gateBefore := form.SubmitEnabled();
    form.HandleSubmit();
    gateAfter := form.SubmitEnabled();
    assert form.timeouts == [SUBMIT_DELAY];
    assert AnyFired(form.timeouts, t) <==> t >= SUBMIT_DELAY by {
      if t >= SUBMIT_DELAY {
        assert SUBMIT_DELAY in form.timeouts;
      }
    }
    form.Elapse(t);
    status, shown := form.status, form.ShownMessage();
  }

  /** The fields stay editable while submitting, so the success view shows
      the draft as it is when success arrives, not as it was submitted. */
  method EditWhileSubmitting(first: string, second: string) returns (gate: bool, shown: Option<SuccessMessage>)
    requires first != ""
    ensures gate
    ensures shown == Some(SuccessMessage(second, "2025-12-01", "jane@x.com"))
  {
    var form := new ReservationForm();
    form.HandleChange(Name, first);
    form.HandleChange(Email, "jane@x.com");
    form.HandleChange(Phone, "555-0100");
    form.HandleChange(Date, "2025-12-01");
    form.HandleChange(Time, "19:30");
    gate := form.SubmitEnabled();
    form.HandleSubmit();
    form.Elapse(1000);
    form.HandleChange(Name, second);
    form.Elapse(1000);
    shown := form.ShownMessage();
  }

  /** The handler alone does not stop a second submit: two calls schedule two
      callbacks. The page's gate refuses the second one. */
  method SubmitTwiceUngated() returns (gateAfterFirst: bool, scheduled: nat, status: Status, left: nat)
    ensures !gateAfterFirst
    ensures scheduled == 2
    ensures status == Success && left == 0
  {
    var form := new ReservationForm();
    form.HandleSubmit();
    gateAfterFirst := form.SubmitEnabled();
    form.Elapse(10);
    form.HandleSubmit();
    scheduled := |form.timeouts|;
    form.Elapse(SUBMIT_DELAY);
    status, left := form.status, |form.timeouts|;
  }
}
