/**
 * The application-agent page: the job URL the user types, whether an
 * automation request is running, its last result and the last error.
 *
 * Starting an automation and receiving its reply are two steps: the handler
 * issues the request and returns at the `await`; `AutomationSettled` is the
 * rest of the handler, run when the reply arrives. `pending` counts the
 * requests issued whose reply has not yet arrived.
 */
module ApplicationAgentPage {
  import opened Wrappers
  import opened Text
  import opened Model
  import opened Api

  const MissingUrlMessage := "Please enter a job application URL"
  const SignInMessage := "Please sign in to use the application agent"
  const FailureFallback := "Failed to automate application"

  /** The part of the automation response the page shows. */
  datatype AutomationReport = AutomationReport(status: Option<string>, filledFields: seq<string>, errors: seq<string>)
  datatype AutomationResponse = AutomationResponse(result: Option<AutomationReport>)

  /** The start button's `disabled`: while a request is running, or while the URL is blank once trimmed. */
  predicate StartDisabled(isProcessing: bool, jobUrl: string) {
    isProcessing || Trim(jobUrl) == ""
  }

  /** The button is disabled exactly while a request runs or while the URL holds nothing but white space. */
  lemma StartDisabledIffBlank(isProcessing: bool, jobUrl: string)
    ensures StartDisabled(isProcessing, jobUrl) <==> isProcessing || AllWhiteSpace(jobUrl)
  {
    TrimEmptyIffBlank(jobUrl);
  }

  /** `err.message || 'Failed to automate application'`. */
  function FailureText(message: string): (text: string)
    ensures text != ""
    ensures message != "" ==> text == message
    ensures message == "" ==> text == FailureFallback
  {
    OrElse(Some(message), FailureFallback)
  }

  /**
   * A response that is not ok is shown with the service's own message: that
   * message is never empty, so the page's fallback text never replaces it.
   */
  lemma HttpErrorShownVerbatim(reply: Reply<AutomationResponse>)
    requires reply.Response? && !IsOk(reply.status)
    ensures Outcome(reply).Failure?
    ensures FailureText(Outcome(reply).message) == ErrorMessage(reply.status, reply.body)
  {
  }

  class ApplicationAgent {
    const api: ApiService
    var jobUrl: string
    var isProcessing: bool
    var result: Option<AutomationResponse>
    var error: Option<string>
    var pending: nat

    constructor(api: ApiService)
      ensures this.api == api && jobUrl == "" && !isProcessing && result == None && error == None && pending == 0
    {
      this.api := api;
      jobUrl := "";
      isProcessing := false;
      result := None;
      error := None;
      pending := 0;
    }

    /** The start button's `disabled` for the current state. */
    predicate StartButtonDisabled()
      reads this
    {
      StartDisabled(isProcessing, jobUrl)
    }

    /** The URL input's change handler. */
    method SetJobUrl(value: string)
      modifies this
      ensures jobUrl == value
      ensures isProcessing == old(isProcessing) && result == old(result) && error == old(error) && pending == old(pending)
      ensures StartButtonDisabled() <==> isProcessing || AllWhiteSpace(value)
    {
      jobUrl := value;
      StartDisabledIffBlank(isProcessing, value);
    }

    /**
     * `handleAutomateApplication` up to its `await`. A blank URL is reported
     * first, then a missing sign-in; either way nothing is sent and nothing
     * else changes. Otherwise the page enters the processing state with the
     * error and the previous result cleared, and the URL goes out as typed,
     * untrimmed, with the identity's id.
     */
    method HandleAutomateApplication(clerkUser: Option<ClerkUser>)
      modifies this, api
      ensures jobUrl == old(jobUrl)
      ensures Trim(old(jobUrl)) == "" ==>
        error == Some(MissingUrlMessage)
        && isProcessing == old(isProcessing) && result == old(result) && pending == old(pending) && api.sent == old(api.sent)
      ensures Trim(old(jobUrl)) != "" && clerkUser.None? ==>
        error == Some(SignInMessage)
        && isProcessing == old(isProcessing) && result == old(result) && pending == old(pending) && api.sent == old(api.sent)
      ensures Trim(old(jobUrl)) != "" && clerkUser.Some? ==>
        isProcessing && error == None && result == None && pending == old(pending) + 1
        && api.sent == old(api.sent) + [RequestFor(api.baseUrl, AutomateApplication(clerkUser.value.id, old(jobUrl)))]
      ensures Trim(old(jobUrl)) == "" ==> StartButtonDisabled()
      ensures Trim(old(jobUrl)) != "" && clerkUser.Some? ==> StartButtonDisabled()
    {
      if Trim(jobUrl) == "" {
        error := Some(MissingUrlMessage);
        return;
      }
      if clerkUser.None? {
        error := Some(SignInMessage);
        return;
      }
      isProcessing := true;
      error := None;
      result := None;
      var op := AutomateApplication(clerkUser.value.id, jobUrl);
      api.Dispatch(Endpoint(op), Options(op));
      pending := pending + 1;
    }

    /**
     * The rest of the handler, once the reply to an issued request arrives:
     * the response becomes the result as it is, or the error message (or the
     * fallback text) becomes the error; processing ends either way.
     */
    method AutomationSettled(reply: Reply<AutomationResponse>)
      requires pending > 0
      modifies this
      ensures !isProcessing && pending == old(pending) - 1 && jobUrl == old(jobUrl)
      ensures Outcome(reply).Success? ==> result == Some(Outcome(reply).value) && error == old(error)
      ensures Outcome(reply).Failure? ==> error == Some(FailureText(Outcome(reply).message)) && result == old(result)
      ensures StartButtonDisabled() <==> AllWhiteSpace(jobUrl)
    {
      StartDisabledIffBlank(false, jobUrl);
      var outcome := Outcome(reply);
      match outcome {
        case Success(response) => result := Some(response);
        case Failure(message) => error := Some(FailureText(message));
      }
      isProcessing := false;
      pending := pending - 1;
    }
  }
}
