/** What one press of a sign-up form's submit button does, as a value: either the
    validator refuses the form and nothing is sent, or the multipart body is posted to
    the form's endpoints, one after another until one succeeds. */
module Registration {
  import opened Wrappers
  import opened Record
  import opened Http
  import opened Validation
  import opened Multipart
  import opened Fallback

  /** Delay before the redirect to the sign-in page after a successful registration. */
  const RedirectDelayMs := 2000

  datatype Submission =
    | Refused(message: string)
    | Posted(requests: seq<Request>, result: Outcome)

  /** The requests a submission sends. */
  function RequestsOf(s: Submission): seq<Request> {
    match s
    case Refused(_) => []
    case Posted(requests, _) => requests
  }

  /** The form must hold every field the validator reads. */
  predicate Checkable(form: Entries, required: seq<string>) {
    HasAll(form, required) && "email" in Keys(form) && "password" in Keys(form)
  }

  /** A submission of `form` with the chosen `image`: the validator first, then the
      body posted to `paths` in turn (one path when the form has no fallback), where
      `outcomes[i]` is what the request to `paths[i]` would end with. */
  function Submit(form: Entries, required: seq<string>, image: Option<File>, normalised: set<string>,
                  placeholder: string, paths: seq<string>, outcomes: seq<Outcome>): Submission
    requires Checkable(form, required)
    requires |paths| >= 1 && |outcomes| == |paths|
  {
    match RegistrationError(form, required)
    case Some(m) => Refused(m)
    case None =>
      var body := FormBody(Payload(form, normalised, FileUpload(image, placeholder)));
      var run := Resolution(outcomes);
      Posted(Attempts(Post, paths, body)[..run.tries], run.result)
  }

  /** The submission of a form the validator refuses. */
  lemma SubmitRefused(form: Entries, required: seq<string>, image: Option<File>, normalised: set<string>,
                      placeholder: string, paths: seq<string>, outcomes: seq<Outcome>)
    requires Checkable(form, required) && |paths| >= 1 && |outcomes| == |paths|
    requires RegistrationError(form, required).Some?
    ensures Submit(form, required, image, normalised, placeholder, paths, outcomes)
      == Refused(RegistrationError(form, required).value)
  {
  }

  /** The submission of an accepted form whose body and resolver run are known. */
  lemma SubmitPosted(form: Entries, required: seq<string>, image: Option<File>, normalised: set<string>,
                     placeholder: string, paths: seq<string>, outcomes: seq<Outcome>,
                     parts: seq<Part>, result: Outcome, sent: seq<Request>)
    requires Checkable(form, required) && |paths| >= 1 && |outcomes| == |paths|
    requires RegistrationError(form, required).None?
    requires parts == Payload(form, normalised, FileUpload(image, placeholder))
    requires Run(result, |sent|) == Resolution(outcomes)
    requires sent == Attempts(Post, paths, FormBody(parts))[..|sent|]
    ensures Submit(form, required, image, normalised, placeholder, paths, outcomes) == Posted(sent, result)
  {
  }

  /** A request leaves exactly when the validator accepts the form; a refusal shows the
      validator's message. */
  lemma NoRequestUnlessValid(form: Entries, required: seq<string>, image: Option<File>, normalised: set<string>,
                             placeholder: string, paths: seq<string>, outcomes: seq<Outcome>)
    requires Checkable(form, required)
    requires |paths| >= 1 && |outcomes| == |paths|
    ensures |RequestsOf(Submit(form, required, image, normalised, placeholder, paths, outcomes))| > 0
      <==> RegistrationError(form, required).None?
    ensures Submit(form, required, image, normalised, placeholder, paths, outcomes).Refused? ==>
      Submit(form, required, image, normalised, placeholder, paths, outcomes).message == RegistrationError(form, required).value
  {
    PrimaryTriedFirst(outcomes);
  }

  /** Every request of an accepted form is a POST of the same multipart body, the k-th to
      `paths[k]`; the first goes to the primary endpoint. */
  lemma PostedRequests(form: Entries, required: seq<string>, image: Option<File>, normalised: set<string>,
                       placeholder: string, paths: seq<string>, outcomes: seq<Outcome>)
    requires Checkable(form, required)
    requires |paths| >= 1 && |outcomes| == |paths|
    requires RegistrationError(form, required).None?
    ensures var rs := RequestsOf(Submit(form, required, image, normalised, placeholder, paths, outcomes));
      && 1 <= |rs| <= |paths| && rs[0].url == paths[0]
      && forall k :: 0 <= k < |rs| ==>
           rs[k] == Request(Post, paths[k], FormBody(Payload(form, normalised, FileUpload(image, placeholder))))
  {
    PrimaryTriedFirst(outcomes);
  }

  /** An accepted form is registered exactly when some attempt succeeds; when all fail,
      the error reported is the primary request's. */
  lemma PostedResult(form: Entries, required: seq<string>, image: Option<File>, normalised: set<string>,
                     placeholder: string, paths: seq<string>, outcomes: seq<Outcome>)
    requires Checkable(form, required)
    requires |paths| >= 1 && |outcomes| == |paths|
    requires RegistrationError(form, required).None?
    ensures var s := Submit(form, required, image, normalised, placeholder, paths, outcomes);
      && s.Posted?
      && (s.result.Resolved? <==> exists k :: 0 <= k < |outcomes| && outcomes[k].Resolved?)
      && (s.result.Rejected? ==> s.result == outcomes[0] && |s.requests| == |paths|)
  {
    SucceedsIffSomeAttemptDoes(outcomes);
    if forall k :: 0 <= k < |outcomes| ==> outcomes[k].Rejected? {
      TotalFailureRethrowsPrimary(outcomes);
    }
  }

  /** With a single endpoint (the forms without a fallback), an accepted form is posted
      exactly once, and the outcome of that one request is the result. */
  lemma SingleAttempt(form: Entries, required: seq<string>, image: Option<File>, normalised: set<string>,
                      placeholder: string, paths: seq<string>, outcomes: seq<Outcome>)
    requires Checkable(form, required)
    requires |paths| == 1 && |outcomes| == 1
    requires RegistrationError(form, required).None?
    ensures Submit(form, required, image, normalised, placeholder, paths, outcomes)
      == Posted([Request(Post, paths[0], FormBody(Payload(form, normalised, FileUpload(image, placeholder))))], outcomes[0])
  {
    if outcomes[0].Resolved? {
      PrimarySuccessShortCircuits(outcomes);
    } else {
      TotalFailureRethrowsPrimary(outcomes);
    }
    var body := FormBody(Payload(form, normalised, FileUpload(image, placeholder)));
    assert Attempts(Post, paths, body)[..1] == [Request(Post, paths[0], body)];
  }
}
