/**
 * components/Login.tsx: handleLogin's classification of the trimmed credentials and the calls
 * it makes to onRecordLog and onLogin, in order.
 */
module Login {
  import opened Types
  import opened Text

  /** AUTHORIZED_USERS */
  const AuthorizedUsers: seq<string> := [
    "ชัชตะวัน", "ภราดร", "ภาคภูมิ", "ทิวาวรรณ", "วัชรี",
    "บุญญาภรณ์", "อัญชนีย์", "วลัยรัตน์", "บุญจันทร์", "ยุทธไกร",
    "กันต์ฤทัย", "เสาวภา", "อภิชาติ", "สุภาภรณ์", "วิษณุ",
    "จักรพงษ์", "บุญเสริม", "อุดมวิทย์", "พงษ์เพชร", "ชลฎา",
    "ปภัสพ์มณ", "ตรีนัทธ์ธนา", "วชิรวิทย์", "ศิรินภา"]

  const AdminUsername: string := "admin"
  const AdminPassword: string := "admin4444"
  const UserPassword: string := "PJ123"
  const AdminDisplayName: string := "ผู้ดูแลระบบ (Admin)"
  const UserTitle: string := "คุณ"
  const LoginError: string := "ชื่อผู้ใช้หรือรหัสผ่านไม่ถูกต้อง"

  /** `AUTHORIZED_USERS.includes(name)` */
  predicate Listed(name: string) {
    name in AuthorizedUsers
  }

  /** The three ways handleLogin can end. */
  datatype Outcome = AdminOk | UserOk(name: string) | Rejected

  /** The checks on trimmed credentials: the admin pair first, then a listed user with the shared password. */
  function ClassifyTrimmed(u: string, p: string): (o: Outcome)
    ensures o == AdminOk <==> u == AdminUsername && p == AdminPassword
    ensures o.UserOk? <==> !(u == AdminUsername && p == AdminPassword) && Listed(u) && p == UserPassword
    ensures o.UserOk? ==> o.name == u
  {
    if u == AdminUsername && p == AdminPassword then AdminOk
    else if Listed(u) && p == UserPassword then UserOk(u)
    else Rejected
  }

  /** handleLogin's decision: both inputs are trimmed before any comparison. */
  function Classify(username: string, password: string): (o: Outcome)
    ensures o == AdminOk <==> Trim(username) == AdminUsername && Trim(password) == AdminPassword
    ensures o.UserOk? <==>
      && !(Trim(username) == AdminUsername && Trim(password) == AdminPassword)
      && Listed(Trim(username)) && Trim(password) == UserPassword
    ensures o.UserOk? ==> o.name == Trim(username)
  {
    ClassifyTrimmed(Trim(username), Trim(password))
  }

  /** Surrounding white space never changes the outcome. */
  lemma ClassifyIgnoresPadding(username: string, password: string)
    ensures Classify(Trim(username), Trim(password)) == Classify(username, password)
  {
    TrimIdempotent(username);
    TrimIdempotent(password);
  }

  /** A call handleLogin makes: onRecordLog or onLogin. */
  datatype Call = RecordLog(username: string, logRole: LogRole, status: LogStatus) | SignIn(role: Role, name: string)

  /** The calls handleLogin makes, in order, for the trimmed user name `u` and the outcome `o` of the checks. */
  function LoginCalls(u: string, o: Outcome): (calls: seq<Call>)
    ensures 1 <= |calls| <= 2
    ensures calls[0].RecordLog? && calls[0].username == u
    ensures forall i :: 1 <= i < |calls| ==> calls[i].SignIn?
    ensures |calls| == 2 <==> !o.Rejected?
    ensures calls[0].status == Success <==> !o.Rejected?
    ensures o == AdminOk ==> calls[0].logRole == LogAdmin && calls[1] == SignIn(Admin, AdminDisplayName)
    ensures o.UserOk? ==> calls[0].logRole == LogUser && calls[1] == SignIn(User, UserTitle + o.name)
    ensures o.Rejected? ==> calls[0].logRole == Unknown
  {
    match o
    case AdminOk => [RecordLog(u, LogAdmin, Success), SignIn(Admin, AdminDisplayName)]
    case UserOk(name) => [RecordLog(u, LogUser, Success), SignIn(User, UserTitle + name)]
    case Rejected => [RecordLog(u, Unknown, Failed)]
  }

  /** The admin name is not a listed user, so it can only ever sign in as admin. */
  lemma AdminNeverSignsInAsUser(password: string)
    ensures !Classify(AdminUsername, password).UserOk?
  {
    TrimFixesUnpadded(AdminUsername);
    AdminNotListed();
  }

  /** No listed name starts with the admin name's first letter. */
  lemma AdminNotListed()
    ensures !Listed(AdminUsername)
  {
    forall i | 0 <= i < |AuthorizedUsers|
      ensures AuthorizedUsers[i] != AdminUsername
    {
      assert AuthorizedUsers[i][0] != AdminUsername[0];
    }
  }

  /** The form's component state. */
  class LoginForm {
    var username: string
    var password: string
    var error: string

    constructor ()
      ensures username == "" && password == "" && error == ""
    {
      username, password, error := "", "", "";
    }

    /** handleLogin: clears the error, makes its calls, and sets the error when the credentials are rejected. */
    method Submit() returns (calls: seq<Call>)
      modifies this`error
      ensures calls == LoginCalls(Trim(username), Classify(username, password))
      ensures error == if Classify(username, password).Rejected? then LoginError else ""
    {
      error := "";
      calls := LoginCalls(Trim(username), Classify(username, password));
      if Classify(username, password).Rejected? {
        error := LoginError;
      }
    }
  }
}
