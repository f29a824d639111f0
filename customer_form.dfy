/**
 * The customer form: field validation, and a submission that creates or
 * updates the customer only when the form is valid and reports the outcome
 * as a notification. The Stripe call is a parameter returning the thrown
 * message, if any.
 */
module CustomerForm {
  import opened Wrappers
  import opened Js
  import Utils
  import N = Notifications

  const EmailRequired: string := "Email is required"
  const EmailInvalid: string := "Please enter a valid email"
  const NameRequired: string := "Name is required"
  const Updated: string := "Customer updated successfully"
  const Created: string := "Customer created successfully"
  const SaveFailed: string := "Failed to save customer"

  /** Where a saved customer sends the browser. */
  const CustomersPath: string := "/dashboard/customers"

  /** The `errors` object: one optional message per field. */
  datatype FormErrors = FormErrors(email: Option<string>, name: Option<string>)

  /** `Object.keys(newErrors).length === 0`. */
  predicate NoErrors(errors: FormErrors) {
    errors.email.None? && errors.name.None?
  }

  /** The errors `validateForm` records for the submitted `email` and `name` fields. */
  function ValidateForm(email: Option<string>, name: Option<string>): (errors: FormErrors)
    ensures !Truthy(email) ==> errors.email == Some(EmailRequired)
    ensures Truthy(email) && !Utils.IsValidEmail(email.value) ==> errors.email == Some(EmailInvalid)
    ensures Truthy(email) && Utils.IsValidEmail(email.value) ==> errors.email.None?
    ensures !Truthy(name) ==> errors.name == Some(NameRequired)
    ensures Truthy(name) ==> errors.name.None?
  {
    FormErrors(
      if !Truthy(email) then Some(EmailRequired)
      else if !Utils.IsValidEmail(email.value) then Some(EmailInvalid)
      else None,
      if !Truthy(name) then Some(NameRequired) else None)
  }

  /** The form is valid exactly when a name is given and the email has the address shape. */
  lemma ValidExactlyWhenFilled(email: Option<string>, name: Option<string>)
    ensures NoErrors(ValidateForm(email, name)) <==>
      email.Some? && Utils.MatchesEmailPattern(email.value) && Truthy(name)
  {
    if email.Some? && email.value == "" {
      assert !Utils.IsValidEmail(email.value);
    }
  }

  /** The Stripe call a valid submission makes. */
  datatype SaveCall = CreateCustomer | UpdateCustomer(customerId: string)

  /** `customer ? updateCustomer(customer.id, …) : createCustomer(…)`. */
  function SaveFor(customerId: Option<string>): (call: SaveCall)
    ensures call.UpdateCustomer? <==> customerId.Some?
    ensures call.UpdateCustomer? ==> call.customerId == customerId.value
  {
    if customerId.Some? then UpdateCustomer(customerId.value) else CreateCustomer
  }

  /** The notification a submission ends with: success per call, or the error's message. */
  function Outcome(call: SaveCall, failure: Option<string>): (input: N.NotificationInput)
    ensures failure.None? ==> input.kind == Some(N.Success)
    ensures failure.None? && call.CreateCustomer? ==> input.message == Created
    ensures failure.None? && call.UpdateCustomer? ==> input.message == Updated
    ensures failure.Some? ==> input.kind == Some(N.Error)
    ensures failure.Some? && failure.value != "" ==> input.message == failure.value
    ensures failure.Some? && failure.value == "" ==> input.message == SaveFailed
    ensures input.duration.None?
  {
    match failure
    case None => N.NotificationInput(Some(N.Success), if call.UpdateCustomer? then Updated else Created, None)
    case Some(m) => N.NotificationInput(Some(N.Error), if m != "" then m else SaveFailed, None)
  }

  /** `CustomerForm({ customer })`'s state. */
  class CustomerFormState {
    var errors: FormErrors
    var loading: bool
    var redirectedTo: Option<string>

    constructor ()
      ensures errors == FormErrors(None, None) && !loading && redirectedTo.None?
    {
      errors := FormErrors(None, None);
      loading := false;
      redirectedTo := None;
    }

    /** `validateForm(formData)`: records the errors and reports whether there are none. */
    method Validate(email: Option<string>, name: Option<string>) returns (valid: bool)
      modifies this
      ensures errors == ValidateForm(email, name)
      ensures valid <==> NoErrors(errors)
      ensures loading == old(loading) && redirectedTo == old(redirectedTo)
    {
      var newErrors := FormErrors(None, None);
      if !Truthy(email) {
        newErrors := newErrors.(email := Some(EmailRequired));
      } else if !Utils.IsValidEmail(email.value) {
        newErrors := newErrors.(email := Some(EmailInvalid));
      }
      if !Truthy(name) {
        newErrors := newErrors.(name := Some(NameRequired));
      }
      errors := newErrors;
      valid := newErrors.email.None? && newErrors.name.None?;
    }

    /**
     * `handleSubmit(e)`: an invalid form returns before any Stripe call;
     * a valid one makes the create or update call, then notifies the
     * outcome and, on success, goes to the customer list. Returns the
     * call made, if any; `failure(call)` is the message the call throws.
     */
    method HandleSubmit(email: Option<string>, name: Option<string>, customerId: Option<string>,
                        failure: SaveCall -> Option<string>, center: N.NotificationCenter, notificationId: string)
      returns (call: Option<SaveCall>)
      modifies this, center
      ensures errors == ValidateForm(email, name)
      ensures call.Some? <==> NoErrors(errors)
      ensures call.None? ==>
        loading == old(loading) && redirectedTo == old(redirectedTo) &&
        center.notifications == old(center.notifications) && center.timers == old(center.timers)
      ensures call.Some? ==> call.value == SaveFor(customerId) && !loading
      ensures call.Some? ==> center.timers == old(center.timers) + [N.Timer(notificationId, N.DefaultDuration)]
      ensures call.Some? ==>
        center.notifications == old(center.notifications) + [N.MakeNotification(Outcome(call.value, failure(call.value)), notificationId)]
      ensures call.Some? && failure(call.value).None? ==> redirectedTo == Some(CustomersPath)
      ensures call.Some? && failure(call.value).Some? ==> redirectedTo == old(redirectedTo)
    {
      var valid := Validate(email, name);
      if !valid {
        return None;
      }
      loading := true;
      var c := SaveFor(customerId);
      var thrown := failure(c);
      var _ := center.AddNotification(Outcome(c, thrown), notificationId);
      if thrown.None? {
        redirectedTo := Some(CustomersPath);
      }
      loading := false;
      call := Some(c);
    }
  }
}
