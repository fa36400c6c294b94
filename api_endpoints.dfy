/** The centralised endpoint tables: fixed URLs under one base address, and builders
    that append their one argument, unencoded, after a fixed prefix. */
module ApiEndpoints {
  import opened Wrappers

  const ApiBaseUrl := "http://localhost:8080"

  /** `${API_BASE_URL}/api/<path>`: the base URL, then "/api/", then the path verbatim. */
  function Api(path: string): (url: string)
    ensures ApiBaseUrl + "/api/" <= url
    ensures url[|ApiBaseUrl + "/api/"|..] == path
  {
    ApiBaseUrl + "/api/" + path
  }

  /** The fixed endpoints of one role's table. */
  datatype RoleTable = RoleTable(register: string, login: string, getAll: string)

  const StudentEndpoints := RoleTable(Api("students/add-student"), Api("students/login"), Api("students/get-students"))
  const ProfessorEndpoints := RoleTable(Api("professors/add-prof"), Api("professors/login"), Api("professors/get-professors"))
  const HodEndpoints := RoleTable(Api("hods/add-hod"), Api("hods/login"), Api("hods/get-hods"))

  const DepartmentGetAll := Api("departments/get-dept")
  const DepartmentAdd := Api("departments/add-dept")

  const AttendanceMark := Api("attendance/mark")

  const UploadFile := Api("files/upload")
  const ForgotPassword := Api("auth/forgot-password")
  const ResetPassword := Api("auth/reset-password")
  const VerifyOtp := Api("auth/verify-otp")

  /** The alternative naming scheme of a role's table. */
  datatype AlternativeTable = AlternativeTable(register: string, login: string, profile: string)

  const AlternativeStudent := AlternativeTable(Api("student/register"), Api("student/login"), Api("student/profile"))
  const AlternativeProfessor := AlternativeTable(Api("professor/register"), Api("professor/login"), Api("professor/profile"))
  const AlternativeHod := AlternativeTable(Api("hod/register"), Api("hod/login"), Api("hod/profile"))

  /** The entities whose tables have per-record builders. */
  datatype Entity = Student | Professor | Hod | Department

  /** The plural collection segment of an entity. */
  function Collection(e: Entity): string {
    match e
    case Student => "students"
    case Professor => "professors"
    case Hod => "hods"
    case Department => "departments"
  }

  /** The name used in an entity's update and delete segments. */
  function RecordName(e: Entity): string {
    match e
    case Student => "student"
    case Professor => "professor"
    case Hod => "hod"
    case Department => "dept"
  }

  /** `GET_BY_ID(id)`. */
  function GetById(e: Entity, id: string): string {
    Api(Collection(e) + "/" + id)
  }

  /** `UPDATE(id)`. */
  function Update(e: Entity, id: string): string {
    Api(Collection(e) + "/update-" + RecordName(e) + "/" + id)
  }

  /** `DELETE(id)`. */
  function Delete(e: Entity, id: string): string {
    Api(Collection(e) + "/delete-" + RecordName(e) + "/" + id)
  }

  /** The attendance lookups. */
  datatype AttendanceKey = ByStudent | ByProfessor | ByDate

  /** `GET_BY_STUDENT`, `GET_BY_PROFESSOR` and `GET_BY_DATE`. */
  function Attendance(k: AttendanceKey, arg: string): string {
    match k
    case ByStudent => Api("attendance/student/" + arg)
    case ByProfessor => Api("attendance/professor/" + arg)
    case ByDate => Api("attendance/date/" + arg)
  }

  /** `DOWNLOAD_FILE(filename)`. */
  function DownloadFile(filename: string): string {
    Api("files/download/" + filename)
  }

  /** The part of `url` after `prefix`, if `url` starts with it. */
  function StripPrefix(prefix: string, url: string): Option<string> {
    if prefix <= url then Some(url[|prefix|..]) else None
  }

  /** Recovers the id from a `GET_BY_ID` URL. */
  function ParseGetById(e: Entity, url: string): Option<string> {
    StripPrefix(Api(Collection(e) + "/"), url)
  }

  lemma ApiAppend(path: string, arg: string)
    ensures Api(path + arg) == Api(path) + arg
  {
    assert ApiBaseUrl + "/api/" + (path + arg) == ApiBaseUrl + "/api/" + path + arg;
  }

  /** Every builder is its fixed prefix followed by the argument verbatim. */
  lemma BuildersAppendVerbatim(e: Entity, k: AttendanceKey, id: string)
    ensures GetById(e, id) == Api(Collection(e) + "/") + id
    ensures Update(e, id) == Api(Collection(e) + "/update-" + RecordName(e) + "/") + id
    ensures Delete(e, id) == Api(Collection(e) + "/delete-" + RecordName(e) + "/") + id
    ensures Attendance(k, id) == Attendance(k, "") + id
    ensures DownloadFile(id) == DownloadFile("") + id
  {
    ApiAppend(Collection(e) + "/", id);
    ApiAppend(Collection(e) + "/update-" + RecordName(e) + "/", id);
    ApiAppend(Collection(e) + "/delete-" + RecordName(e) + "/", id);
    ApiAppend("files/download/", id);
    assert "files/download/" + "" == "files/download/";
    match k
    case ByStudent =>
      ApiAppend("attendance/student/", id);
      assert "attendance/student/" + "" == "attendance/student/";
    case ByProfessor =>
      ApiAppend("attendance/professor/", id);
      assert "attendance/professor/" + "" == "attendance/professor/";
    case ByDate =>
      ApiAppend("attendance/date/", id);
      assert "attendance/date/" + "" == "attendance/date/";
  }

  /** Stripping the fixed prefix of a `GET_BY_ID` URL gives the id back. */
  lemma GetByIdRoundTrip(e: Entity, id: string)
    ensures ParseGetById(e, GetById(e, id)) == Some(id)
  {
    BuildersAppendVerbatim(e, ByStudent, id);
    var p := Api(Collection(e) + "/");
    assert (p + id)[..|p|] == p;
    assert (p + id)[|p|..] == id;
  }

  /** A URL the parser accepts is rebuilt exactly by the builder. */
  lemma ParseGetByIdSound(e: Entity, url: string)
    requires ParseGetById(e, url).Some?
    ensures GetById(e, ParseGetById(e, url).value) == url
  {
    var p := Api(Collection(e) + "/");
    BuildersAppendVerbatim(e, ByStudent, url[|p|..]);
    assert url == url[..|p|] + url[|p|..];
  }

  /** Different ids, or different entities, never share a `GET_BY_ID` URL. */
  lemma GetByIdInjective(e1: Entity, a: string, e2: Entity, b: string)
    requires GetById(e1, a) == GetById(e2, b)
    ensures e1 == e2 && a == b
  {
    var path1 := Collection(e1) + "/" + a;
    var path2 := Collection(e2) + "/" + b;
    assert path1 == GetById(e1, a)[|ApiBaseUrl + "/api/"|..];
    assert path1 == path2;
    assert path1[0] == Collection(e1)[0] && path2[0] == Collection(e2)[0];
    assert e1 == e2;
    GetByIdRoundTrip(e1, a);
    GetByIdRoundTrip(e2, b);
  }

  lemma SegmentAfterCollection(c: string, verb: string, n: string, a: string)
    ensures (c + verb + n + "/" + a)[|c|..|c| + |verb|] == verb
  {
    assert c + verb + n + "/" + a == c + verb + (n + "/" + a);
  }

  /** Update and delete URLs are injective in the id and never coincide with each other. */
  lemma UpdateDeleteDistinct(e: Entity, a: string, b: string)
    ensures Update(e, a) == Update(e, b) ==> a == b
    ensures Delete(e, a) == Delete(e, b) ==> a == b
    ensures Update(e, a) != Delete(e, b)
  {
    BuildersAppendVerbatim(e, ByStudent, a);
    BuildersAppendVerbatim(e, ByStudent, b);
    var pu := Api(Collection(e) + "/update-" + RecordName(e) + "/");
    var pd := Api(Collection(e) + "/delete-" + RecordName(e) + "/");
    if Update(e, a) == Update(e, b) {
      assert a == (pu + a)[|pu|..] && b == (pu + b)[|pu|..];
    }
    if Delete(e, a) == Delete(e, b) {
      assert a == (pd + a)[|pd|..] && b == (pd + b)[|pd|..];
    }
    var c := Collection(e);
    SegmentAfterCollection(c, "/update-", RecordName(e), a);
    SegmentAfterCollection(c, "/delete-", RecordName(e), b);
    var base := |ApiBaseUrl + "/api/"|;
    var u := Update(e, a)[base..];
    var d := Delete(e, b)[base..];
    assert u[|c| + 1] == "/update-"[1] == 'u';
    assert d[|c| + 1] == "/delete-"[1] == 'd';
  }

  /** No update URL of any entity is a delete URL of any entity: within one entity the
      verbs differ, and across entities the collection segments already differ. */
  lemma UpdateNeverDelete(e1: Entity, e2: Entity, a: string, b: string)
    ensures Update(e1, a) != Delete(e2, b)
  {
    if e1 == e2 {
      UpdateDeleteDistinct(e1, a, b);
    } else {
      var base := |ApiBaseUrl + "/api/"|;
      assert Update(e1, a)[base..] == Collection(e1) + "/update-" + RecordName(e1) + "/" + a;
      assert Delete(e2, b)[base..] == Collection(e2) + "/delete-" + RecordName(e2) + "/" + b;
      assert Update(e1, a)[base] == Collection(e1)[0];
      assert Delete(e2, b)[base] == Collection(e2)[0];
    }
  }

  /** The builders do not encode their argument, so a `GET_BY_ID` URL whose id holds a
      slash can coincide with an update URL of the same entity. */
  lemma GetByIdOverlapsUpdate()
    ensures GetById(Student, "update-student/5") == Update(Student, "5")
  {
  }

  /** Every fixed endpoint. */
  function FixedEndpoints(): seq<string> {
    [ StudentEndpoints.register, StudentEndpoints.login, StudentEndpoints.getAll,
      ProfessorEndpoints.register, ProfessorEndpoints.login, ProfessorEndpoints.getAll,
      HodEndpoints.register, HodEndpoints.login, HodEndpoints.getAll,
      DepartmentGetAll, DepartmentAdd, AttendanceMark,
      UploadFile, ForgotPassword, ResetPassword, VerifyOtp,
      AlternativeStudent.register, AlternativeStudent.login, AlternativeStudent.profile,
      AlternativeProfessor.register, AlternativeProfessor.login, AlternativeProfessor.profile,
      AlternativeHod.register, AlternativeHod.login, AlternativeHod.profile ]
  }

  /** Every fixed endpoint begins with the base URL followed by "/api/"; the builders
      do so by the contract of `Api`. */
  lemma FixedEndpointsUnderBase()
    ensures forall u :: u in FixedEndpoints() ==> ApiBaseUrl + "/api/" <= u
  {
  }

  /** The roles that have both a primary and an alternative table. */
  datatype Role = StudentRole | ProfessorRole | HodRole

  function Primary(r: Role): RoleTable {
    match r
    case StudentRole => StudentEndpoints
    case ProfessorRole => ProfessorEndpoints
    case HodRole => HodEndpoints
  }

  function AlternativeOf(r: Role): AlternativeTable {
    match r
    case StudentRole => AlternativeStudent
    case ProfessorRole => AlternativeProfessor
    case HodRole => AlternativeHod
  }

  /** The singular path segment of a role. */
  function Singular(r: Role): string {
    match r
    case StudentRole => "student"
    case ProfessorRole => "professor"
    case HodRole => "hod"
  }

  /** The primary tables use the plural segment, the alternatives the singular one. */
  lemma PrimaryPluralAlternativeSingular(r: Role)
    ensures Primary(r).login == Api(Singular(r) + "s/login")
    ensures AlternativeOf(r).login == Api(Singular(r) + "/login")
    ensures AlternativeOf(r).register == Api(Singular(r) + "/register")
    ensures AlternativeOf(r).profile == Api(Singular(r) + "/profile")
  {
    match r
    case StudentRole =>
      assert "student" + "s/login" == "students/login";
      assert "student" + "/login" == "student/login";
      assert "student" + "/register" == "student/register";
      assert "student" + "/profile" == "student/profile";
    case ProfessorRole =>
      assert "professor" + "s/login" == "professors/login";
      assert "professor" + "/login" == "professor/login";
      assert "professor" + "/register" == "professor/register";
      assert "professor" + "/profile" == "professor/profile";
    case HodRole =>
      assert "hod" + "s/login" == "hods/login";
      assert "hod" + "/login" == "hod/login";
      assert "hod" + "/register" == "hod/register";
      assert "hod" + "/profile" == "hod/profile";
  }
}
