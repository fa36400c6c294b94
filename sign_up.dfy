/** The state and handlers shared by the sign-up components. They differ only in
    their field list, the fields the validator demands, the register endpoints, the
    placeholder file name, their messages and the chain that turns a failed request
    into a message; `Config` holds these. */
module SignUp {
  import opened Wrappers
  import opened JsValue
  import opened Record
  import opened Http
  import opened Browser
  import opened Validation
  import opened Multipart
  import opened Fallback
  import opened Registration

  /** One sign-up component's constants. `departmentPaths` is empty for a form
      without a department picker. */
  datatype Config = Config(
    fields: seq<string>,
    required: seq<string>,
    registerPaths: seq<string>,
    normalised: set<string>,
    placeholder: string,
    successMessage: string,
    signInPath: string,
    failure: HttpError -> Json,
    departmentPaths: seq<string>,
    departmentsError: string)

  /** The validator only reads declared fields, and there is a register endpoint. */
  predicate Coherent(c: Config) {
    && (forall n :: n in c.required ==> n in c.fields)
    && "email" in c.fields && "password" in c.fields
    && |c.registerPaths| >= 1
  }

  /** A blank form of a coherent configuration holds every field the validator reads. */
  lemma BlankIsCheckable(c: Config)
    requires Coherent(c)
    ensures HasAll(Blank(c.fields), c.fields) && Checkable(Blank(c.fields), c.required)
  {
    assert Keys(Blank(c.fields)) == c.fields;
  }

  /** A sign-up component's state. */
  class Form {
    const config: Config
    const router: Router
    var formData: Entries
    var imageFile: Option<File>
    var previewUrl: string
    var departments: Json
    var loading: bool
    var error: Json
    var success: string

    /** Every declared field is present, so the validator can read each one. */
    ghost predicate Valid()
      reads this
    {
      Coherent(config) && HasAll(formData, config.fields) && Checkable(formData, config.required)
    }

    /** The first render: every field blank, no image, no messages. */
    constructor(config: Config, router: Router)
      requires Coherent(config)
      ensures Valid() && this.config == config && this.router == router
      ensures formData == Blank(config.fields) && imageFile == None && previewUrl == ""
      ensures departments == JArr([]) && !loading && error == JStr("") && success == ""
    {
      this.config := config;
      this.router := router;
      formData := Blank(config.fields);
      imageFile := None;
      previewUrl := "";
      departments := JArr([]);
      loading := false;
      error := JStr("");
      success := "";
      BlankIsCheckable(config);
    }

    /** `fetchDepartments`: the list endpoint, then its alternatives; the list is the
        body of the first success, and when every request fails only a message is set. */
    method FetchDepartments(outcomes: seq<Outcome>) returns (sent: seq<Request>)
      requires |config.departmentPaths| >= 1 && |outcomes| == |config.departmentPaths|
      modifies this
      ensures sent == Attempts(Get, config.departmentPaths, NoBody)[..Resolution(outcomes).tries]
      ensures match Resolution(outcomes).result
        case Resolved(r) => departments == r.data && error == old(error)
        case Rejected(_) => departments == old(departments) && error == JStr(config.departmentsError)
      ensures formData == old(formData) && imageFile == old(imageFile) && previewUrl == old(previewUrl)
      ensures loading == old(loading) && success == old(success)
    {
      var result;
      result, sent := Resolve(Get, config.departmentPaths, NoBody, outcomes);
      match result {
        case Resolved(r) =>
          departments := r.data;
        case Rejected(_) =>
          error := JStr(config.departmentsError);
      }
    }

    /** `handleInputChange`: only the named field takes the new value; a name the form
        does not hold is added at the end. */
    method HandleInputChange(name: string, value: string)
      requires Valid()
      modifies this
      ensures Valid() && formData == Set(old(formData), name, value)
      ensures imageFile == old(imageFile) && previewUrl == old(previewUrl) && departments == old(departments)
      ensures loading == old(loading) && error == old(error) && success == old(success)
    {
      SetKeys(formData, name, value);
      formData := Set(formData, name, value);
    }

    /** `handleSelectChange`: the department picker of the student forms sets `major`. */
    method HandleSelectChange(value: string)
      requires Valid()
      modifies this
      ensures Valid() && formData == Set(old(formData), "major", value)
      ensures imageFile == old(imageFile) && previewUrl == old(previewUrl) && departments == old(departments)
      ensures loading == old(loading) && error == old(error) && success == old(success)
    {
      HandleInputChange("major", value);
    }

    /** `handleImageChange`: a refused file sets the message and leaves the chosen image
        as it was; no file at all changes nothing. */
    method HandleImageChange(chosen: Option<File>)
      modifies this
      ensures chosen.None? ==> imageFile == old(imageFile) && error == old(error)
      ensures chosen.Some? ==> match ImageRejection(chosen.value)
        case Some(m) => imageFile == old(imageFile) && error == JStr(m)
        case None => imageFile == chosen && error == old(error)
      ensures formData == old(formData) && previewUrl == old(previewUrl) && departments == old(departments)
      ensures loading == old(loading) && success == old(success)
    {
      if chosen.Some? {
        var rejection := ImageRejection(chosen.value);
        if rejection.Some? {
          error := JStr(rejection.value);
          return;
        }
        imageFile := chosen;
      }
    }

    /** `validateForm`: sets the first failing check's message and reports the verdict. */
    method ValidateForm() returns (ok: bool)
      requires Valid()
      modifies this
      ensures formData == old(formData) && Valid()
      ensures ok <==> RegistrationError(formData, config.required).None?
      ensures !ok ==> error == JStr(RegistrationError(formData, config.required).value)
      ensures ok ==> error == old(error)
      ensures imageFile == old(imageFile) && previewUrl == old(previewUrl)
      ensures departments == old(departments) && loading == old(loading) && success == old(success)
    {
      var message;
      ok, message := ValidateRegistration(formData, config.required);
      if !ok {
        error := JStr(message);
      }
    }

    /** The multipart body built from the current state. */
    method SubmitData() returns (parts: seq<Part>)
      ensures parts == Payload(formData, config.normalised, FileUpload(imageFile, config.placeholder))
    {
      var submitData := new FormData();
      submitData.AppendEntries(formData, config.normalised);
      if imageFile.Some? {
        submitData.AppendFile("file", Chosen(imageFile.value));
      } else {
        submitData.AppendFile("file", Placeholder(config.placeholder));
      }
      parts := submitData.parts;
    }

    /** What `handleSubmit` does once the request has settled: on success the message,
        a blank form, no image and the delayed redirect; on failure the chain's message. */
    method Settle(result: Outcome)
      requires Valid()
      modifies this, router
      ensures Valid() && departments == old(departments) && !loading && router.visited == old(router.visited)
      ensures match result
        case Resolved(_) =>
          && error == old(error) && success == config.successMessage
          && formData == Blank(config.fields) && imageFile == None && previewUrl == ""
          && router.scheduled == old(router.scheduled) + [Scheduled(config.signInPath, RedirectDelayMs)]
        case Rejected(e) =>
          && error == config.failure(e) && success == old(success)
          && formData == old(formData) && imageFile == old(imageFile) && previewUrl == old(previewUrl)
          && router.scheduled == old(router.scheduled)
    {
      match result {
        case Resolved(_) =>
          success := config.successMessage;
          formData := Blank(config.fields);
          BlankIsCheckable(config);
          imageFile := None;
          previewUrl := "";
          router.NavigateAfter(config.signInPath, RedirectDelayMs);
        case Rejected(e) =>
          error := config.failure(e);
      }
      loading := false;
    }

    /** `handleSubmit`, given the outcome each register request would have: it does what
        the submission `Submit` of the form as it stood describes. */
    method HandleSubmit(outcomes: seq<Outcome>) returns (sent: seq<Request>)
      requires Valid() && |outcomes| == |config.registerPaths|
      modifies this, router
      ensures Valid() && departments == old(departments) && router.visited == old(router.visited)
      ensures var s := Submit(old(formData), config.required, old(imageFile), config.normalised,
                              config.placeholder, config.registerPaths, outcomes);
        && sent == RequestsOf(s)
        && match s
           case Refused(m) =>
             && error == JStr(m) && success == "" && loading == old(loading)
             && formData == old(formData) && imageFile == old(imageFile) && previewUrl == old(previewUrl)
             && router.scheduled == old(router.scheduled)
           case Posted(_, Resolved(_)) =>
             && error == JStr("") && success == config.successMessage && !loading
             && formData == Blank(config.fields) && imageFile == None && previewUrl == ""
             && router.scheduled == old(router.scheduled) + [Scheduled(config.signInPath, RedirectDelayMs)]
           case Posted(_, Rejected(e)) =>
             && error == config.failure(e) && success == "" && !loading
             && formData == old(formData) && imageFile == old(imageFile) && previewUrl == old(previewUrl)
             && router.scheduled == old(router.scheduled)
    {
      ghost var form0, image0 := formData, imageFile;
      error := JStr("");
      success := "";
      var ok := ValidateForm();
      if !ok {
        SubmitRefused(form0, config.required, image0, config.normalised, config.placeholder, config.registerPaths, outcomes);
        return [];
      }
      loading := true;
      var parts := SubmitData();
      var result;
      result, sent := Resolve(Post, config.registerPaths, FormBody(parts), outcomes);
      SubmitPosted(form0, config.required, image0, config.normalised, config.placeholder,
                   config.registerPaths, outcomes, parts, result, sent);
      Settle(result);
    }
  }
}
