/** What every form screen of the client shares: an input that may be left
    empty (the `''` of a form field), and the submit sequence of
    `handleSubmit` — clear the error, run the validator and stop on its
    message, otherwise raise the busy flag, build the request, call the
    service, go to the list page on success or show `getErrorMessage(err)`
    on failure, and finally lower the busy flag. */
module FormScreen {
  import opened Wrappers
  import opened Helpers

  /** A form input: `''` (Blank) or a chosen value. */
  datatype Field<T> = Blank | Filled(value: T)

  /** `value || null` on the way to the server: an empty input becomes null. */
  function OrNull<T>(f: Field<T>): (r: Option<T>)
    ensures r.None? <==> f.Blank?
    ensures f.Filled? ==> r == Some(f.value)
  {
    match f
    case Blank => None
    case Filled(v) => Some(v)
  }

  /** `value || ''` on the way into a form: null becomes an empty input. */
  function OrBlank<T>(o: Option<T>): (r: Field<T>)
    ensures r.Blank? <==> o.None?
    ensures o.Some? ==> r == Filled(o.value)
  {
    match o
    case None => Blank
    case Some(v) => Filled(v)
  }

  /** Loading a value into a form and submitting it gives it back. */
  lemma OrNullOrBlank<T>(o: Option<T>, f: Field<T>)
    ensures OrNull(OrBlank(o)) == o
    ensures OrBlank(OrNull(f)) == f
  {
  }

  /** The error banner, the busy flag of the submit button and the page the
      screen navigated to. */
  class SubmitState {
    var error: string
    var submitLoading: bool
    var navigatedTo: Option<string>

    constructor ()
      ensures error == "" && !submitLoading && navigatedTo.None?
    {
      error := "";
      submitLoading := false;
      navigatedTo := None;
    }

    /** `setError(message)` from a load or an action handler. */
    method ShowError(message: string)
      modifies this
      ensures error == message && submitLoading == old(submitLoading) && navigatedTo == old(navigatedTo)
    {
      error := message;
    }

    /** `handleSubmit`: `validation` is the validator's message (None when the
        form passes), `request` the body the handler builds (a failure when
        building it throws), `outcome` what the service call produced, and
        `target` the list page. The result is the request sent, if any. */
    method Submit<Req>(validation: Option<string>, request: Result<Req, RequestError>,
                       outcome: Result<(), RequestError>, target: string) returns (sent: Option<Req>)
      modifies this
      ensures validation.Some? ==>
        sent.None? && error == validation.value && submitLoading == old(submitLoading) && navigatedTo == old(navigatedTo)
      ensures validation.None? ==> !submitLoading
      ensures validation.None? && request.Failure? ==>
        sent.None? && error == GetErrorMessage(request.error) && navigatedTo == old(navigatedTo)
      ensures validation.None? && request.Ok? ==> sent == Some(request.value)
      ensures validation.None? && request.Ok? && outcome.Ok? ==> error == "" && navigatedTo == Some(target)
      ensures validation.None? && request.Ok? && outcome.Failure? ==>
        error == GetErrorMessage(outcome.error) && navigatedTo == old(navigatedTo)
    {
      error := "";
      if validation.Some? {
        error := validation.value;
        return None;
      }
      submitLoading := true;
      match request {
        case Failure(e) =>
          error := GetErrorMessage(e);
          sent := None;
        case Ok(body) =>
          sent := Some(body);
          match outcome {
            case Ok(_) => navigatedTo := Some(target);
            case Failure(e) => error := GetErrorMessage(e);
          }
      }
      submitLoading := false;
    }
  }
}
