/**
 * The contact form: three inputs, and the loading, success and error fields set around the call
 * that stores the message. The call's outcome and the browser's own form validation are inputs.
 */
module ContactForm {
  import opened Common

  const FailedError := "Failed to send message"

  /** The form's data, which is also exactly what the message service receives. */
  datatype ContactData = ContactData(name: string, email: string, message: string)

  const Empty := ContactData("", "", "")

  datatype Field = Name | Email | Message

  /** One input's change handler: that field takes the new value, the others stay. */
  function WithField(d: ContactData, f: Field, value: string): (r: ContactData)
    ensures f == Name ==> r == ContactData(value, d.email, d.message)
    ensures f == Email ==> r == ContactData(d.name, value, d.message)
    ensures f == Message ==> r == ContactData(d.name, d.email, value)
  {
    match f
    case Name => d.(name := value)
    case Email => d.(email := value)
    case Message => d.(message := value)
  }

  class Form {
    var data: ContactData
    var loading: bool
    var success: bool
    var error: string

    constructor ()
      ensures data == Empty && !loading && !success && error == ""
    {
      data, loading, success, error := Empty, false, false, "";
    }

    /** Typing into a field; the inputs are disabled while a message is being sent. */
    method Edit(f: Field, value: string)
      modifies this
      ensures !old(loading) ==> data == WithField(old(data), f, value)
      ensures old(loading) ==> data == old(data)
      ensures loading == old(loading) && success == old(success) && error == old(error)
    {
      if !loading {
        data := WithField(data, f, value);
      }
    }

    /**
     * handleSubmit up to the service call. `formValid` is the browser's verdict on the required
     * inputs; the button is disabled while loading. An accepted submit clears the error, starts
     * loading and sends exactly the current data.
     */
    method Submit(formValid: bool) returns (sent: Option<ContactData>)
      modifies this
      ensures sent.Some? <==> formValid && !old(loading)
      ensures sent.None? ==> loading == old(loading) && error == old(error)
      ensures sent.Some? ==> sent.value == old(data) && loading && error == ""
      ensures data == old(data) && success == old(success)
    {
      if !formValid || loading {
        return None;
      }
      error := "";
      loading := true;
      sent := Some(data);
    }

    /**
     * handleSubmit after the service call: `failure` is what it threw, if anything. Success shows
     * the confirmation and empties all three fields; failure shows the message and keeps what the
     * user typed; loading ends either way.
     */
    method Finish(failure: Option<Thrown>)
      modifies this
      ensures failure.None? ==> data == Empty && success && error == old(error)
      ensures failure.Some? ==>
        data == old(data) && success == old(success) && error == ErrorMessage(failure.value, FailedError)
      ensures !loading
    {
      if failure.None? {
        success := true;
        data := Empty;
      } else {
        error := ErrorMessage(failure.value, FailedError);
      }
      loading := false;
    }

    /** The confirmation's five-second timer firing. */
    method SuccessTimeout()
      modifies this
      ensures !success
      ensures data == old(data) && loading == old(loading) && error == old(error)
    {
      success := false;
    }

    /**
     * A whole accepted submission: the service gets the data as typed; afterwards the fields are
     * empty on success and unchanged on failure, and the form is no longer loading.
     */
    method SubmitAndFinish(failure: Option<Thrown>) returns (sent: Option<ContactData>)
      requires !loading
      modifies this
      ensures sent == Some(old(data))
      ensures failure.None? ==> data == Empty && success && error == ""
      ensures failure.Some? ==> data == old(data) && error == ErrorMessage(failure.value, FailedError)
      ensures !loading
    {
      sent := Submit(true);
      Finish(failure);
    }
  }
}
