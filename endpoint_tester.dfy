/** The endpoint probe: every candidate URL of a group is requested once, in order, and
    sorted into `working` and `failed` by how the request ended. */
module EndpointTester {
  import opened Wrappers
  import opened JsValue
  import opened Http
  import Text

  const StudentGroup := ["/api/students/add-student", "/api/student/register", "/api/students/register",
                         "/api/student/add", "/api/auth/student/register", "/api/students/login",
                         "/api/student/login", "/api/students/authenticate", "/api/auth/student/login",
                         "/api/student/signin"]
  const ProfessorGroup := ["/api/professors/add-prof", "/api/professor/register", "/api/professors/register",
                           "/api/professor/add", "/api/auth/professor/register", "/api/professors/login",
                           "/api/professor/login", "/api/professors/authenticate", "/api/auth/professor/login",
                           "/api/professor/signin"]
  const HodGroup := ["/api/hods/add-hod", "/api/hod/register", "/api/hods/register", "/api/hod/add",
                     "/api/auth/hod/register", "/api/hods/login", "/api/hod/login", "/api/hods/authenticate",
                     "/api/auth/hod/login", "/api/hod/signin"]
  const DepartmentGroup := ["/api/departments/get-dept", "/api/department/all", "/api/departments/all",
                            "/api/department/list", "/api/departments"]

  /** One group's entry of the results object. */
  datatype GroupResult = GroupResult(endpoints: seq<string>, working: seq<string>, failed: seq<string>)

  /** The whole results object, one entry per group. */
  datatype Results = Results(student: GroupResult, professor: GroupResult, hod: GroupResult, department: GroupResult)

  /** Where a probed endpoint is listed. */
  datatype Verdict = Working | Failed | Unlisted

  /** URLs that look like login, registration or creation endpoints are probed with a
      POST of an empty object; every other one with a GET. */
  predicate IsWriteEndpoint(endpoint: string) {
    Text.Includes(endpoint, "login") || Text.Includes(endpoint, "register") || Text.Includes(endpoint, "add")
  }

  /** The probe request for one endpoint. */
  function Probe(endpoint: string): (r: Request)
    ensures r.url == endpoint
    ensures r.verb == Post <==> IsWriteEndpoint(endpoint)
    ensures r.verb == Post ==> r.body == JsonBody(JObj(map[]))
  {
    if IsWriteEndpoint(endpoint) then Request(Post, endpoint, JsonBody(JObj(map[])))
    else Request(Get, endpoint, NoBody)
  }

  /** A 400 or a 422 shows that the endpoint exists but wants other data. */
  predicate ExistsButRefuses(e: HttpError) {
    HasStatus(e, 400) || HasStatus(e, 422)
  }

  /** Where an endpoint goes once its probe ended with `outcome`. A POST that succeeds
      is listed nowhere. */
  function Classify(endpoint: string, outcome: Outcome): (v: Verdict)
    ensures v == Unlisted <==> IsWriteEndpoint(endpoint) && outcome.Resolved?
    ensures v == Working <==> (outcome.Rejected? && ExistsButRefuses(outcome.error)) || (outcome.Resolved? && !IsWriteEndpoint(endpoint))
  {
    match outcome
    case Rejected(e) => if ExistsButRefuses(e) then Working else Failed
    case Resolved(_) => if IsWriteEndpoint(endpoint) then Unlisted else Working
  }

  /** The endpoints, in order, whose probe gives the verdict `v`. */
  function Listed(endpoints: seq<string>, outcomes: seq<Outcome>, v: Verdict): seq<string>
    requires |outcomes| == |endpoints|
  {
    if |endpoints| == 0 then []
    else
      var n := |endpoints| - 1;
      Listed(endpoints[..n], outcomes[..n], v) + (if Classify(endpoints[n], outcomes[n]) == v then [endpoints[n]] else [])
  }

  /** The probe requests of a group, in order. */
  function Probes(endpoints: seq<string>): (r: seq<Request>)
    ensures |r| == |endpoints| && forall k :: 0 <= k < |endpoints| ==> r[k] == Probe(endpoints[k])
  {
    seq(|endpoints|, k requires 0 <= k < |endpoints| => Probe(endpoints[k]))
  }

  /** `testEndpointGroup`, where `outcomes[k]` is how the probe of `endpoints[k]` ends. */
  method TestEndpointGroup(endpoints: seq<string>, outcomes: seq<Outcome>) returns (result: GroupResult, sent: seq<Request>)
    requires |outcomes| == |endpoints|
    ensures result == GroupResult(endpoints, Listed(endpoints, outcomes, Working), Listed(endpoints, outcomes, Failed))
    ensures sent == Probes(endpoints)
  {
    var working: seq<string> := [];
    var failed: seq<string> := [];
    sent := [];
    for i := 0 to |endpoints|
      invariant working == Listed(endpoints[..i], outcomes[..i], Working)
      invariant failed == Listed(endpoints[..i], outcomes[..i], Failed)
      invariant sent == Probes(endpoints[..i])
    {
      var endpoint := endpoints[i];
      ListedStep(endpoints, outcomes, i);
      sent := sent + [Probe(endpoint)];
      match Classify(endpoint, outcomes[i]) {
        case Working => working := working + [endpoint];
        case Failed => failed := failed + [endpoint];
        case Unlisted =>
      }
    }
    assert endpoints[..|endpoints|] == endpoints;
    assert outcomes[..|outcomes|] == outcomes;
    result := GroupResult(endpoints, working, failed);
  }

  /** One more probe adds its endpoint to the end of the list of its verdict, and its
      request to the end of the requests sent. */
  lemma ListedStep(endpoints: seq<string>, outcomes: seq<Outcome>, i: nat)
    requires |outcomes| == |endpoints| && i < |endpoints|
    ensures forall v ::
      (Listed(endpoints[..i + 1], outcomes[..i + 1], v)
         == Listed(endpoints[..i], outcomes[..i], v) + (if Classify(endpoints[i], outcomes[i]) == v then [endpoints[i]] else []))
    ensures Probes(endpoints[..i + 1]) == Probes(endpoints[..i]) + [Probe(endpoints[i])]
  {
    assert endpoints[..i + 1][..i] == endpoints[..i];
    assert outcomes[..i + 1][..i] == outcomes[..i];
  }

  /** `testEndpoints`: the four groups in order, each probed in full. */
  method TestEndpoints(students: seq<Outcome>, professors: seq<Outcome>, hods: seq<Outcome>, departments: seq<Outcome>)
    returns (results: Results, sent: seq<Request>)
    requires |students| == |StudentGroup| && |professors| == |ProfessorGroup|
    requires |hods| == |HodGroup| && |departments| == |DepartmentGroup|
    ensures results.student == GroupResult(StudentGroup, Listed(StudentGroup, students, Working), Listed(StudentGroup, students, Failed))
    ensures results.professor == GroupResult(ProfessorGroup, Listed(ProfessorGroup, professors, Working), Listed(ProfessorGroup, professors, Failed))
    ensures results.hod == GroupResult(HodGroup, Listed(HodGroup, hods, Working), Listed(HodGroup, hods, Failed))
    ensures results.department == GroupResult(DepartmentGroup, Listed(DepartmentGroup, departments, Working), Listed(DepartmentGroup, departments, Failed))
    ensures sent == Probes(StudentGroup) + Probes(ProfessorGroup) + Probes(HodGroup) + Probes(DepartmentGroup)
  {
    var s, sentS := TestEndpointGroup(StudentGroup, students);
    var p, sentP := TestEndpointGroup(ProfessorGroup, professors);
    var h, sentH := TestEndpointGroup(HodGroup, hods);
    var d, sentD := TestEndpointGroup(DepartmentGroup, departments);
    results := Results(s, p, h, d);
    sent := sentS + sentP + sentH + sentD;
  }

  /** An endpoint is listed under `v` exactly when the probe at one of its positions gives `v`. */
  lemma {:induction false} ListedIff(endpoints: seq<string>, outcomes: seq<Outcome>, v: Verdict, x: string)
    requires |outcomes| == |endpoints|
    ensures x in Listed(endpoints, outcomes, v) <==>
      exists k :: 0 <= k < |endpoints| && endpoints[k] == x && Classify(endpoints[k], outcomes[k]) == v
  {
    if |endpoints| > 0 {
      var n := |endpoints| - 1;
      ListedIff(endpoints[..n], outcomes[..n], v, x);
      if exists k :: 0 <= k < n && endpoints[..n][k] == x && Classify(endpoints[..n][k], outcomes[..n][k]) == v {
        var k :| 0 <= k < n && endpoints[..n][k] == x && Classify(endpoints[..n][k], outcomes[..n][k]) == v;
        assert endpoints[k] == x && Classify(endpoints[k], outcomes[k]) == v;
      }
      if exists k :: 0 <= k < |endpoints| && endpoints[k] == x && Classify(endpoints[k], outcomes[k]) == v {
        var k :| 0 <= k < |endpoints| && endpoints[k] == x && Classify(endpoints[k], outcomes[k]) == v;
        if k < n {
          assert endpoints[..n][k] == x && Classify(endpoints[..n][k], outcomes[..n][k]) == v;
        }
      }
    }
  }

  /** The lists keep the group's order and never exceed it: together with the unlisted
      endpoints they account for every probe exactly once. */
  lemma {:induction false} ListedCount(endpoints: seq<string>, outcomes: seq<Outcome>)
    requires |outcomes| == |endpoints|
    ensures |Listed(endpoints, outcomes, Working)| + |Listed(endpoints, outcomes, Failed)|
            + |Listed(endpoints, outcomes, Unlisted)| == |endpoints|
  {
    if |endpoints| > 0 {
      var n := |endpoints| - 1;
      ListedCount(endpoints[..n], outcomes[..n]);
    }
  }

  /** In a group without repeated URLs, `working` and `failed` share no endpoint, and an
      endpoint whose POST probe succeeded appears in neither. */
  lemma WorkingFailedDisjoint(endpoints: seq<string>, outcomes: seq<Outcome>)
    requires |outcomes| == |endpoints|
    requires forall i, j :: 0 <= i < j < |endpoints| ==> endpoints[i] != endpoints[j]
    ensures forall x :: x in Listed(endpoints, outcomes, Working) ==> x !in Listed(endpoints, outcomes, Failed)
    ensures forall k :: 0 <= k < |endpoints| && IsWriteEndpoint(endpoints[k]) && outcomes[k].Resolved? ==>
      endpoints[k] !in Listed(endpoints, outcomes, Working) && endpoints[k] !in Listed(endpoints, outcomes, Failed)
  {
    forall x | x in Listed(endpoints, outcomes, Working)
      ensures x !in Listed(endpoints, outcomes, Failed)
    {
      ListedIff(endpoints, outcomes, Working, x);
      ListedIff(endpoints, outcomes, Failed, x);
    }
    forall k | 0 <= k < |endpoints| && IsWriteEndpoint(endpoints[k]) && outcomes[k].Resolved?
      ensures endpoints[k] !in Listed(endpoints, outcomes, Working) && endpoints[k] !in Listed(endpoints, outcomes, Failed)
    {
      ListedIff(endpoints, outcomes, Working, endpoints[k]);
      ListedIff(endpoints, outcomes, Failed, endpoints[k]);
    }
  }

  /** What `testSingleEndpoint` reports. */
  datatype SingleResult =
    | Reached(code: int, data: Json)
    | Unreached(status: Option<int>, error: Json)

  /** The request `testSingleEndpoint` sends (`verb` defaults to a GET at the call site):
      a GET has no body; a POST carries `data` when it is truthy and an empty object otherwise. */
  function SingleRequest(endpoint: string, verb: Verb, data: Json): (r: Request)
    ensures r.url == endpoint && r.verb == verb
    ensures verb == Get ==> r.body == NoBody
    ensures verb == Post ==> r.body.JsonBody? && Truthy(r.body.json)
    ensures verb == Post ==> (r.body == JsonBody(data) <==> Truthy(data))
  {
    match verb
    case Get => Request(Get, endpoint, NoBody)
    case Post => Request(Post, endpoint, JsonBody(Or(data, JObj(map[]))))
  }

  /** `testSingleEndpoint`: any response is a success; a failure reports the status, if
      any, and the response body, or the error's message when the body is falsy. */
  function Single(outcome: Outcome): (r: SingleResult)
    ensures r.Reached? <==> outcome.Resolved?
    ensures outcome.Resolved? ==> r == Reached(outcome.response.status, outcome.response.data)
    ensures outcome.Rejected? ==> r.status == StatusOf(outcome.error) && (Truthy(DataOf(outcome.error)) ==> r.error == DataOf(outcome.error))
    ensures outcome.Rejected? && !Truthy(DataOf(outcome.error)) ==> r.error == JStr(outcome.error.message)
  {
    match outcome
    case Resolved(resp) => Reached(resp.status, resp.data)
    case Rejected(e) => Unreached(StatusOf(e), Or(DataOf(e), JStr(e.message)))
  }

  /** A group probe is the request `testSingleEndpoint` would send for the same URL with
      the verb the probe picks and no data. */
  lemma ProbeIsSingleRequest(endpoint: string)
    ensures Probe(endpoint) == SingleRequest(endpoint, if IsWriteEndpoint(endpoint) then Post else Get, JUndefined)
  {
  }

  /** The student group's login URL is probed with a POST of an empty object. */
  lemma LoginProbedWithPost()
    ensures Probe(StudentGroup[6]) == Request(Post, "/api/student/login", JsonBody(JObj(map[])))
  {
    assert Text.Includes("/api/student/login", "login");
  }
}
