/**
 * The demo-request form of the landing page (`Contact` in src/App.tsx): an
 * email field and a four-state status that drives what the section shows.
 * A submit is split at its one suspension point: Submit runs the guard and
 * issues the request, Complete is given what the request did.
 */
module DemoRequestForm {
  import opened MarketingChat

  datatype Status = Idle | Submitting | Success | Error

  /** What `await fetch(...)` did: a response with its `ok` flag, or a
      transport failure (a throw). */
  datatype DemoResponse = Responded(ok: bool) | TransportFailed

  /** The analytics event the form reports (`marketing_demo_request`). */
  datatype ContactEvent = MarketingDemoRequest

  /** The status a settled request leaves: a non-ok response is thrown on
      purpose, so it lands in the same `catch` as a transport failure. */
  function Settled(outcome: DemoResponse): (s: Status)
    ensures s == Success <==> outcome == Responded(true)
    ensures s == Error <==> outcome != Responded(true)
  {
    match outcome
    case Responded(ok) => if ok then Success else Error
    case TransportFailed => Error
  }

  class ContactForm {
    var email: string
    var status: Status
    /** Every `track` call, in order. */
    ghost var events: seq<ContactEvent>

    /** The form tracks one `marketing_demo_request` per success: a success
        was tracked when the status shows one. */
    ghost predicate Valid()
      reads this
    {
      status == Success ==> |events| > 0
    }

    constructor ()
      ensures Valid()
      ensures email == [] && status == Idle && events == []
    {
      email := [];
      status := Idle;
      events := [];
    }

    /** The input's `onChange`. */
    method Change(v: string)
      requires Valid()
      modifies this`email
      ensures Valid()
      ensures email == v
    {
      email := v;
    }

    /** `handleSubmit` up to the request: ignored while a request is in
        flight; otherwise the status becomes `submitting` and the request
        carries the current email. */
    method Submit() returns (request: Option<string>)
      requires Valid()
      modifies this`status
      ensures Valid()
      ensures old(status) == Submitting ==> request == None && status == Submitting
      ensures old(status) != Submitting ==> request == Some(email) && status == Submitting
    {
      if status == Submitting {
        return None;
      }
      status := Submitting;
      request := Some(email);
    }

    /** The rest of `handleSubmit`: an ok response tracks the request and
        shows the success panel; anything else shows the error notice and
        tracks nothing. */
    method Complete(outcome: DemoResponse)
      requires Valid() && status == Submitting
      modifies this`status, this`events
      ensures Valid()
      ensures status == Settled(outcome)
      ensures status == Success ==> events == old(events) + [MarketingDemoRequest]
      ensures status == Error ==> events == old(events)
    {
      match outcome {
      case Responded(ok) =>
        if ok {
          events := events + [MarketingDemoRequest];
          status := Success;
        } else {
          status := Error;
        }
      case TransportFailed =>
        status := Error;
      }
    }
  }

  /** Two submits before the first request settles issue one request: the
      second is swallowed by the guard. */
  method DoubleSubmit(f: ContactForm) returns (first: Option<string>, second: Option<string>)
    requires f.Valid() && f.status != Submitting
    modifies f
    ensures first == Some(f.email) && second == None && f.status == Submitting
  {
    first := f.Submit();
    second := f.Submit();
  }

  /** A failed request can be retried: from `error` a submit issues a new
      request. */
  method RetryAfterError(f: ContactForm, outcome: DemoResponse) returns (retry: Option<string>)
    requires f.Valid() && f.status == Submitting && outcome != Responded(true)
    modifies f
    ensures retry == Some(f.email) && f.status == Submitting
  {
    f.Complete(outcome);
    retry := f.Submit();
  }

  // ----- what the section renders for a status

  /** The form's controls: their `disabled` flags, the button's caption and
      whether the arrow icon follows it. */
  datatype FormView = FormView(inputDisabled: bool, buttonDisabled: bool, caption: string, arrow: bool)

  /** The section below the heading: the success panel or the form, and the
      error notice below the form. */
  datatype ContactView = ContactView(successPanel: bool, form: Option<FormView>, errorNotice: bool)

  const SendingLabel := "Sending…"
  const RequestLabel := "Request a Demo"

  function RenderContact(status: Status): (v: ContactView)
    ensures v.successPanel <==> status == Success
    ensures v.form.None? <==> status == Success
    ensures v.errorNotice <==> status == Error
    ensures v.form.Some? ==> (v.form.value.inputDisabled <==> status == Submitting)
    ensures v.form.Some? ==> (v.form.value.buttonDisabled <==> status == Submitting)
    ensures v.form.Some? ==> (v.form.value.arrow <==> status != Submitting)
    ensures v.form.Some? ==> v.form.value.caption == (if status == Submitting then SendingLabel else RequestLabel)
  {
    if status == Success then ContactView(true, None, false)
    else
      var submitting := status == Submitting;
      ContactView(
        false,
        Some(FormView(submitting, submitting, if submitting then SendingLabel else RequestLabel, !submitting)),
        status == Error)
  }

  /** The error notice is only ever shown under the form, never beside the
      success panel. */
  lemma ErrorNoticeBelowForm(status: Status)
    ensures RenderContact(status).errorNotice ==> RenderContact(status).form.Some?
    ensures !(RenderContact(status).successPanel && RenderContact(status).errorNotice)
  {
  }

  /** While a request is in flight the form can take neither input nor a
      second submit; in every other status with a form it takes both. */
  lemma ControlsLockedWhileSubmitting(status: Status)
    requires status != Success
    ensures var f := RenderContact(status).form.value;
            (f.inputDisabled && f.buttonDisabled) <==> status == Submitting
  {
  }
}
