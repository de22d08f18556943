/**
 * The contact form: a schema with one length rule per text field (the phone may be
 * left out altogether, but an empty phone is not left out), an opaque e-mail format
 * check, and the "message sent" flag that a submit raises one second later and the
 * "send another message" button clears.
 */
module Contact {
  import opened Wrappers
  import opened Timers

  datatype Field = Name | Email | Phone | Company | Message

  /** One validation failure: the field and the message shown under it. */
  datatype Issue = Issue(field: Field, message: string)

  datatype FormValues = FormValues(name: string, email: string, phone: Option<string>,
                                   company: Option<string>, message: string)

  const NameMin: int := 2
  const PhoneMin: int := 8
  const MessageMin: int := 10
  const SubmitDelayMs: real := 1000.0

  /** The form's initial values: every field empty, the phone and company included. */
  const DefaultValues: FormValues := FormValues("", "", Some(""), Some(""), "")

  /** The message of each rule. */
  function MessageOf(f: Field): string
  {
    match f
    case Name => "Name must be at least 2 characters."
    case Email => "Please enter a valid email address."
    case Phone => "Please enter a valid phone number."
    case Company => ""
    case Message => "Message must be at least 10 characters."
  }

  /** Whether field `f` of `v` satisfies its rule; `isEmail` is the e-mail format check. */
  predicate FieldOk(v: FormValues, f: Field, isEmail: string -> bool)
  {
    match f
    case Name => |v.name| >= NameMin
    case Email => isEmail(v.email)
    case Phone => v.phone.None? || |v.phone.value| >= PhoneMin
    case Company => true
    case Message => |v.message| >= MessageMin
  }

  /** The fields of the schema, in declaration order. */
  const Schema: seq<Field> := [Name, Email, Phone, Company, Message]

  /** The issues of the given fields, in order: one per field that breaks its rule. */
  function IssuesOf(fields: seq<Field>, v: FormValues, isEmail: string -> bool): (r: seq<Issue>)
    ensures |r| <= |fields|
    ensures forall i :: 0 <= i < |r| ==>
      r[i].message == MessageOf(r[i].field) && r[i].field in fields && !FieldOk(v, r[i].field, isEmail)
  {
    if |fields| == 0 then []
    else
      (if FieldOk(v, fields[0], isEmail) then [] else [Issue(fields[0], MessageOf(fields[0]))])
      + IssuesOf(fields[1..], v, isEmail)
  }

  /** Every field that breaks its rule is reported. */
  lemma {:induction false} IssuesComplete(fields: seq<Field>, v: FormValues, isEmail: string -> bool, f: Field)
    requires f in fields && !FieldOk(v, f, isEmail)
    ensures Issue(f, MessageOf(f)) in IssuesOf(fields, v, isEmail)
  {
    if fields[0] != f {
      IssuesComplete(fields[1..], v, isEmail, f);
    }
  }

  /** `formSchema.safeParse`: the issues of the whole schema; the values are accepted when there are none. */
  function Validate(v: FormValues, isEmail: string -> bool): (issues: seq<Issue>)
    ensures forall i :: 0 <= i < |issues| ==>
      issues[i].message == MessageOf(issues[i].field) && !FieldOk(v, issues[i].field, isEmail)
  {
    IssuesOf(Schema, v, isEmail)
  }

  /** A field is reported exactly when it breaks its rule, with that rule's message. */
  lemma ValidateExact(v: FormValues, isEmail: string -> bool, f: Field)
    ensures Issue(f, MessageOf(f)) in Validate(v, isEmail) <==> !FieldOk(v, f, isEmail)
  {
    if !FieldOk(v, f, isEmail) {
      IssuesComplete(Schema, v, isEmail, f);
    }
  }

  /** The form is accepted exactly when each rule holds; the company never matters. */
  lemma AcceptedIff(v: FormValues, isEmail: string -> bool)
    ensures Validate(v, isEmail) == [] <==>
      |v.name| >= 2 && isEmail(v.email) && (v.phone.None? || |v.phone.value| >= 8) && |v.message| >= 10
  {
    ValidateExact(v, isEmail, Name);
    ValidateExact(v, isEmail, Email);
    ValidateExact(v, isEmail, Phone);
    ValidateExact(v, isEmail, Message);
    if Validate(v, isEmail) != [] {
      var i := Validate(v, isEmail)[0];
      assert !FieldOk(v, i.field, isEmail);
    }
  }

  /** The untouched form is rejected on the name, the message, and the empty phone, which is present and too short. */
  lemma DefaultsRejected(isEmail: string -> bool)
    ensures Issue(Name, MessageOf(Name)) in Validate(DefaultValues, isEmail)
    ensures Issue(Phone, MessageOf(Phone)) in Validate(DefaultValues, isEmail)
    ensures Issue(Message, MessageOf(Message)) in Validate(DefaultValues, isEmail)
  {
    ValidateExact(DefaultValues, isEmail, Name);
    ValidateExact(DefaultValues, isEmail, Phone);
    ValidateExact(DefaultValues, isEmail, Message);
  }

  /** Leaving the phone out satisfies its rule; a phone of fewer than eight characters, the empty one included, does not. */
  lemma PhoneRule(v: FormValues, isEmail: string -> bool)
    ensures v.phone.None? ==> Issue(Phone, MessageOf(Phone)) !in Validate(v, isEmail)
    ensures v.phone.Some? && |v.phone.value| < 8 ==> Issue(Phone, MessageOf(Phone)) in Validate(v, isEmail)
  {
    ValidateExact(v, isEmail, Phone);
  }

  class ContactForm {
    var values: FormValues
    var isSubmitted: bool
    /** Deadlines of the pending `setIsSubmitted(true)` timers. */
    var submitTimers: seq<real>

    constructor ()
      ensures values == DefaultValues && !isSubmitted && submitTimers == []
    {
      values := DefaultValues;
      isSubmitted := false;
      submitTimers := [];
    }

    /** The user edits the fields. */
    method Edit(v: FormValues)
      modifies this
      ensures values == v && isSubmitted == old(isSubmitted) && submitTimers == old(submitTimers)
    {
      values := v;
    }

    /** Submitting: only values the schema accepts reach `onSubmit`, which sets the flag one second later. */
    method Submit(now: real, isEmail: string -> bool)
      modifies this
      ensures values == old(values) && isSubmitted == old(isSubmitted)
      ensures submitTimers == old(submitTimers) + (if Validate(values, isEmail) == [] then [now + SubmitDelayMs] else [])
    {
      if Validate(values, isEmail) == [] {
        submitTimers := submitTimers + [now + SubmitDelayMs];
      }
    }

    /** Time reaches `now` and pending submit timer `i`, the earliest and due, runs: the "message sent" panel shows. */
    method FireSubmitTimer(now: real, i: int)
      requires NextDue(submitTimers, i, now)
      modifies this
      ensures isSubmitted && values == old(values) && submitTimers == RemoveAt(old(submitTimers), i)
    {
      submitTimers := submitTimers[..i] + submitTimers[i + 1..];
      isSubmitted := true;
    }

    /** "Send another message": the panel hides and the fields return to their defaults. */
    method Reset()
      modifies this
      ensures !isSubmitted && values == DefaultValues && submitTimers == old(submitTimers)
    {
      isSubmitted := false;
      values := DefaultValues;
    }
  }
}
