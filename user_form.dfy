/** The user dialog (app/admin/users/user-form-dialog.tsx): its validation
    schema, the values it loads, the user record it builds on submit, and
    the form state its effect and submit handler overwrite. The email
    grammar of the validation library is a parameter. */
module UserForm {
  import opened JsPrelude
  import opened FormRules

  /** A user as the users table lists it (app/admin/users/columns.tsx). */
  datatype User = User(
    id: string,
    username: string,
    name: string,
    department: string,
    role: string,
    status: string,
    email: string,
    phone: string,
    createTime: string)

  datatype Mode = Add | Edit

  datatype UserValues = UserValues(
    username: string,
    name: string,
    email: string,
    phone: string,
    department: string,
    role: string,
    status: string)

  const EmailMessage: string := "请输入有效的邮箱地址"

  /** The schema's errors, in schema order; `isEmail` is the library's
      email check. */
  function Errors(v: UserValues, isEmail: string -> bool): seq<FieldError>
  {
    Required("username", v.username, "用户名不能为空") +
    Required("name", v.name, "姓名不能为空") +
    (if isEmail(v.email) then [] else [FieldError("email", EmailMessage)]) +
    Required("phone", v.phone, "手机号不能为空") +
    Required("department", v.department, "请选择部门") +
    Required("role", v.role, "请选择角色") +
    Required("status", v.status, "请选择状态")
  }

  predicate IsValid(v: UserValues, isEmail: string -> bool)
  {
    Errors(v, isEmail) == []
  }

  /** The values are valid iff the six required fields are non-empty and the
      email passes the email check; a rejected email is reported under
      "email" with its message. */
  lemma ValidityRule(v: UserValues, isEmail: string -> bool)
    ensures IsValid(v, isEmail) <==>
      |v.username| >= 1 && |v.name| >= 1 && isEmail(v.email) && |v.phone| >= 1 &&
      |v.department| >= 1 && |v.role| >= 1 && |v.status| >= 1
    ensures FailingFields(Errors(v, isEmail)) <= {"username", "name", "email", "phone", "department", "role", "status"}
    ensures !isEmail(v.email) ==> FieldError("email", EmailMessage) in Errors(v, isEmail)
  {
    var e1 := Required("username", v.username, "用户名不能为空");
    var e2 := Required("name", v.name, "姓名不能为空");
    var e3: seq<FieldError> := if isEmail(v.email) then [] else [FieldError("email", EmailMessage)];
    var e4 := Required("phone", v.phone, "手机号不能为空");
    var e5 := Required("department", v.department, "请选择部门");
    var e6 := Required("role", v.role, "请选择角色");
    var e7 := Required("status", v.status, "请选择状态");
    assert Errors(v, isEmail) == e1 + e2 + e3 + e4 + e5 + e6 + e7;
    assert |Errors(v, isEmail)| == |e1| + |e2| + |e3| + |e4| + |e5| + |e6| + |e7|;
    ErrorFields(e1, e2, e3, e4, e5, e6, e7);
    if !isEmail(v.email) {
      assert Errors(v, isEmail)[|e1| + |e2|] == FieldError("email", EmailMessage);
    }
  }

  lemma ErrorFields(e1: seq<FieldError>, e2: seq<FieldError>, e3: seq<FieldError>, e4: seq<FieldError>,
                    e5: seq<FieldError>, e6: seq<FieldError>, e7: seq<FieldError>)
    ensures FailingFields(e1 + e2 + e3 + e4 + e5 + e6 + e7) ==
      FailingFields(e1) + FailingFields(e2) + FailingFields(e3) + FailingFields(e4) +
      FailingFields(e5) + FailingFields(e6) + FailingFields(e7)
  {
    FailingFieldsAppend(e1, e2);
    FailingFieldsAppend(e1 + e2, e3);
    FailingFieldsAppend(e1 + e2 + e3, e4);
    FailingFieldsAppend(e1 + e2 + e3 + e4, e5);
    FailingFieldsAppend(e1 + e2 + e3 + e4 + e5, e6);
    FailingFieldsAppend(e1 + e2 + e3 + e4 + e5 + e6, e7);
  }

  // ------------------------------------------------------------ loading

  const BlankValues: UserValues := UserValues("", "", "", "", "", "", "正常")

  /** The seven fields of a user the dialog edits. */
  function ValuesOf(u: User): (v: UserValues)
    ensures v.username == u.username && v.name == u.name && v.email == u.email && v.phone == u.phone
    ensures v.department == u.department && v.role == u.role && v.status == u.status
  {
    UserValues(u.username, u.name, u.email, u.phone, u.department, u.role, u.status)
  }

  /** The effect's reset values: the edited user, or the blank form. */
  function LoadValues(user: Option<User>, mode: Mode): UserValues
  {
    if mode == Edit && user.Some? then ValuesOf(user.value) else BlankValues
  }

  // ------------------------------------------------------------ saving

  /** `iso.split('T')[0]`: the text before the first 'T', or all of it. */
  function DatePart(iso: string): (r: string)
    ensures |r| <= |iso| && r == iso[..|r|]
  {
    if |iso| == 0 || iso[0] == 'T' then ""
    else [iso[0]] + DatePart(iso[1..])
  }

  /** The date part is the longest prefix without a 'T': it holds none, and
      it stops at a 'T' unless it is the whole text. */
  lemma {:induction false} DatePartSpec(iso: string)
    ensures 'T' !in DatePart(iso)
    ensures |DatePart(iso)| < |iso| ==> iso[|DatePart(iso)|] == 'T'
    ensures 'T' !in iso ==> DatePart(iso) == iso
  {
    if |iso| == 0 || iso[0] == 'T' {
    } else {
      DatePartSpec(iso[1..]);
      assert iso == [iso[0]] + iso[1..];
    }
  }

  /** The date of an ISO timestamp: "2024-01-15T08:30:00.000Z" gives
      "2024-01-15". */
  lemma DatePartOfTimestamp(date: string, time: string)
    requires 'T' !in date
    ensures DatePart(date + "T" + time) == date
  {
    var iso := date + "T" + time;
    DatePartSpec(iso);
    var r := DatePart(iso);
    assert iso[|date|] == 'T';
    assert r == iso[..|date|];
    assert iso[..|date|] == date;
  }

  /** The record onSubmit builds: the values plus an id and a creation
      date, both kept from the user when editing one and fresh otherwise. */
  function UserRecord(v: UserValues, mode: Mode, user: Option<User>, freshId: string, nowIso: string): User
  {
    var keep := mode == Edit && user.Some?;
    User(if keep then user.value.id else freshId,
         v.username, v.name, v.department, v.role, v.status, v.email, v.phone,
         if keep then user.value.createTime else DatePart(nowIso))
  }

  /** The stored user carries exactly the form values; an edited user keeps
      its id and creation date, any other save gets the fresh id and the
      date part of the timestamp. */
  lemma UserRecordSpec(v: UserValues, mode: Mode, user: Option<User>, freshId: string, nowIso: string)
    ensures ValuesOf(UserRecord(v, mode, user, freshId, nowIso)) == v
    ensures mode == Edit && user.Some? ==>
      UserRecord(v, mode, user, freshId, nowIso).id == user.value.id &&
      UserRecord(v, mode, user, freshId, nowIso).createTime == user.value.createTime
    ensures !(mode == Edit && user.Some?) ==>
      UserRecord(v, mode, user, freshId, nowIso).id == freshId &&
      'T' !in UserRecord(v, mode, user, freshId, nowIso).createTime
  {
    DatePartSpec(nowIso);
  }

  /** Edit mode without a user loads, and saves, as add mode does. */
  lemma EditWithoutUserIsAdd(v: UserValues, freshId: string, nowIso: string)
    ensures LoadValues(None, Edit) == LoadValues(None, Add) == BlankValues
    ensures UserRecord(v, Edit, None, freshId, nowIso) == UserRecord(v, Add, None, freshId, nowIso)
  {
  }

  /** Editing a user and saving without changes stores the same user. */
  lemma UnchangedEditKeepsUser(u: User, freshId: string, nowIso: string)
    ensures UserRecord(LoadValues(Some(u), Edit), Edit, Some(u), freshId, nowIso) == u
  {
  }

  // ------------------------------------------------------------ captions

  function Title(mode: Mode): string
  {
    if mode == Edit then "编辑用户" else "添加用户"
  }

  /** The username input is locked in edit mode. */
  predicate UsernameEditable(mode: Mode)
  {
    mode == Add
  }

  /** The dialog says "edit" exactly in edit mode, and exactly then the
      username cannot be changed. */
  lemma CaptionsByMode(mode: Mode)
    ensures Title(mode) == "编辑用户" <==> mode == Edit
    ensures Title(mode) == "添加用户" <==> mode == Add
    ensures UsernameEditable(mode) <==> mode == Add
  {
    assert "编辑用户"[0] != "添加用户"[0];
  }

  // ------------------------------------------------------------ the dialog

  class UserDialog {
    var values: UserValues
    var defaults: UserValues
    var loading: bool

    constructor ()
      ensures values == BlankValues && defaults == BlankValues && !loading
    {
      values, defaults, loading := BlankValues, BlankValues, false;
    }

    /** The effect run when `user` or the mode changes. */
    method ResetEffect(user: Option<User>, mode: Mode)
      modifies this`values, this`defaults
      ensures values == LoadValues(user, mode) && defaults == values
    {
      values := LoadValues(user, mode);
      defaults := values;
    }

    /** Typing into the form; the username is ignored in edit mode, where
        its input is disabled. */
    method Input(v: UserValues, mode: Mode)
      modifies this`values
      ensures values == if UsernameEditable(mode) then v else v.(username := old(values).username)
    {
      if UsernameEditable(mode) {
        values := v;
      } else {
        values := v.(username := values.username);
      }
    }

    /** The submit: invalid values are held back; valid ones start the save
        and the dialog is loading. The submit button is disabled while a
        save runs, so a submit only happens when none is running. */
    method StartSubmit(isEmail: string -> bool) returns (pending: Option<UserValues>)
      requires !loading
      modifies this`loading
      ensures IsValid(values, isEmail) ==> pending == Some(values) && loading
      ensures !IsValid(values, isEmail) ==> pending == None && !loading
    {
      if IsValid(values, isEmail) {
        pending := Some(values);
        loading := true;
      } else {
        pending := None;
      }
    }

    /** The save finishing: the record goes to onSuccess and the dialog
        asks to close; the form is reset only in add mode. */
    method CompleteSubmit(pending: UserValues, mode: Mode, user: Option<User>, freshId: string, nowIso: string)
      returns (saved: User, closeRequested: bool)
      modifies this`values, this`loading
      ensures saved == UserRecord(pending, mode, user, freshId, nowIso)
      ensures closeRequested
      ensures values == if mode == Add then defaults else old(values)
      ensures !loading
    {
      saved := UserRecord(pending, mode, user, freshId, nowIso);
      closeRequested := true;
      if mode == Add {
        values := defaults;
      }
      loading := false;
    }
  }

  /** In edit mode the username survives any input, so an edited user is
      saved under its own username. */
  lemma EditKeepsUsername(u: User, typed: UserValues, freshId: string, nowIso: string)
    ensures var v := typed.(username := LoadValues(Some(u), Edit).username);
      UserRecord(v, Edit, Some(u), freshId, nowIso).username == u.username &&
      UserRecord(v, Edit, Some(u), freshId, nowIso).id == u.id
  {
  }
}
