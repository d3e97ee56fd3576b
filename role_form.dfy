/** The role dialog (app/admin/roles/role-form-dialog.tsx): its validation
    schema, the permission checkboxes, the values it loads, the role record
    it builds on submit, and its asynchronous save during which closing is
    ignored. */
module RoleForm {
  import opened JsPrelude
  import opened FormRules
  import opened RoleColumns

  datatype Mode = Add | Edit

  /** The dialog's values; description is optional. */
  datatype RoleValues = RoleValues(
    name: string,
    code: string,
    status: string,
    description: string,
    permissions: seq<string>)

  // ------------------------------------------------------------ validation

  /** A character of `/^[a-zA-Z0-9_]+$/`. */
  predicate IsCodeChar(c: char)
  {
    'a' <= c <= 'z' || 'A' <= c <= 'Z' || '0' <= c <= '9' || c == '_'
  }

  /** The code pattern: one or more ASCII letters, digits or underscores. */
  predicate MatchesCodePattern(code: string)
  {
    |code| >= 1 && forall i :: 0 <= i < |code| ==> IsCodeChar(code[i])
  }

  const CodePatternMessage: string := "角色编码只能包含字母、数字和下划线"

  /** The schema's errors, in schema order; every check of a field runs,
      so an empty code fails both its checks. */
  function Errors(v: RoleValues): seq<FieldError>
  {
    Required("name", v.name, "角色名称不能为空") +
    Required("code", v.code, "角色编码不能为空") +
    (if MatchesCodePattern(v.code) then [] else [FieldError("code", CodePatternMessage)]) +
    Required("status", v.status, "请选择状态") +
    (if |v.permissions| >= 1 then [] else [FieldError("permissions", "请至少选择一个权限")])
  }

  predicate IsValid(v: RoleValues)
  {
    Errors(v) == []
  }

  /** The values are valid iff name and status are non-empty, the code
      matches the pattern and at least one permission is chosen; the
      description never fails. A non-empty code with another character
      fails only the pattern check, and an empty code fails both. */
  lemma ValidityRule(v: RoleValues)
    ensures IsValid(v) <==>
      |v.name| >= 1 && MatchesCodePattern(v.code) && |v.status| >= 1 && |v.permissions| >= 1
    ensures FailingFields(Errors(v)) <= {"name", "code", "status", "permissions"}
    ensures v.code == "" ==>
      FieldError("code", "角色编码不能为空") in Errors(v) && FieldError("code", CodePatternMessage) in Errors(v)
    ensures v.code != "" && !MatchesCodePattern(v.code) ==>
      FieldError("code", CodePatternMessage) in Errors(v) && FieldError("code", "角色编码不能为空") !in Errors(v)
  {
    var e1 := Required("name", v.name, "角色名称不能为空");
    var e2 := Required("code", v.code, "角色编码不能为空");
    var e3: seq<FieldError> := if MatchesCodePattern(v.code) then [] else [FieldError("code", CodePatternMessage)];
    var e4 := Required("status", v.status, "请选择状态");
    var e5: seq<FieldError> := if |v.permissions| >= 1 then [] else [FieldError("permissions", "请至少选择一个权限")];
    assert Errors(v) == e1 + e2 + e3 + e4 + e5;
    if v.code == "" {
      assert Errors(v)[|e1|] == FieldError("code", "角色编码不能为空");
      assert Errors(v)[|e1| + 1] == FieldError("code", CodePatternMessage);
    } else if !MatchesCodePattern(v.code) {
      assert Errors(v)[|e1|] == FieldError("code", CodePatternMessage);
    }
  }

  /** Letters, digits and underscores pass; a hyphen or a Chinese
      character fails. */
  lemma CodePatternExamples()
    ensures MatchesCodePattern("admin_01")
    ensures !MatchesCodePattern("admin-01")
    ensures !MatchesCodePattern("管理员")
    ensures !MatchesCodePattern("")
  {
    assert !IsCodeChar("admin-01"[5]);
    assert !IsCodeChar("管理员"[0]);
  }

  // ------------------------------------------------------------ permissions

  /** The permissions offered, as (id, caption) pairs. */
  const AvailablePermissions: seq<(string, string)> := [
    ("user_management", "用户管理"), ("role_management", "角色管理"),
    ("department_management", "部门管理"), ("system_settings", "系统设置"),
    ("data_view", "数据查看"), ("data_operation", "数据操作"),
    ("report_view", "报表查看"), ("report_export", "报表导出")]

  /** A checkbox is checked iff its caption is in the list. */
  predicate Checked(permissions: seq<string>, caption: string)
  {
    caption in permissions
  }

  function IsNot(caption: string): string -> bool
  {
    (x: string) => x != caption
  }

  /** onCheckedChange: checking appends the caption, unchecking removes every
      occurrence of it. */
  function Toggle(permissions: seq<string>, caption: string, checked: bool): seq<string>
  {
    if checked then permissions + [caption] else Filter(permissions, IsNot(caption))
  }

  /** Checking appends the caption after the others and makes its box
      checked; unchecking removes the caption wherever it occurs and keeps
      the others in order. */
  lemma ToggleSpec(permissions: seq<string>, caption: string, x: string)
    ensures Toggle(permissions, caption, true) == permissions + [caption]
    ensures Checked(Toggle(permissions, caption, true), caption)
    ensures x in Toggle(permissions, caption, false) <==> x in permissions && x != caption
    ensures !Checked(Toggle(permissions, caption, false), caption)
    ensures IsSubsequence(Toggle(permissions, caption, false), permissions)
  {
    FilterMembership(permissions, IsNot(caption), x);
    FilterMembership(permissions, IsNot(caption), caption);
    FilterIsSubsequence(permissions, IsNot(caption));
  }

  /** Checking an unchecked box and unchecking it again restores the list. */
  lemma CheckThenUncheckRestores(permissions: seq<string>, caption: string)
    requires caption !in permissions
    ensures Toggle(Toggle(permissions, caption, true), caption, false) == permissions
  {
    var l := permissions + [caption];
    assert l[..|l| - 1] == permissions;
    assert Filter(l, IsNot(caption)) == Filter(permissions, IsNot(caption));
    FilterAllPass(permissions, IsNot(caption));
  }

  /** The boxes test labels, not ids: a list holding only permission ids
      leaves every box unchecked. */
  lemma IdsLeaveBoxesUnchecked(permissions: seq<string>)
    requires forall p :: p in permissions ==> exists j :: 0 <= j < |AvailablePermissions| && p == AvailablePermissions[j].0
    ensures forall i :: 0 <= i < |AvailablePermissions| ==> !Checked(permissions, AvailablePermissions[i].1)
  {
    assert forall i, j :: 0 <= i < |AvailablePermissions| && 0 <= j < |AvailablePermissions| ==>
      AvailablePermissions[i].1 != AvailablePermissions[j].0;
  }

  // ------------------------------------------------------------ loading and saving

  /** The blank form: empty fields, status 正常, no permissions. */
  const BlankValues: RoleValues := RoleValues("", "", "正常", "", [])

  /** The effect's reset values: the role's fields in edit mode with a role
      (missing permissions as none), the blank form otherwise. */
  function LoadValues(role: Option<Role>, mode: Mode): (v: RoleValues)
    ensures role.Some? && mode == Edit ==>
      v.name == role.value.name && v.code == role.value.code && v.status == role.value.status &&
      v.description == role.value.description &&
      v.permissions == (if role.value.permissions.Some? then role.value.permissions.value else [])
    ensures !(role.Some? && mode == Edit) ==> v == BlankValues
  {
    if role.Some? && mode == Edit then
      var r := role.value;
      RoleValues(r.name, r.code, r.status, r.description,
                 if r.permissions.Some? then r.permissions.value else [])
    else BlankValues
  }

  /** The record onSubmit builds: edit mode keeps the role's id, userCount
      and createTime; add mode takes a fresh id and time and no users. In
      edit mode without a role the build fails (`role!`), the error is
      caught and nothing is saved. */
  function RoleRecord(v: RoleValues, mode: Mode, role: Option<Role>, freshId: string, now: string): Option<Role>
  {
    if mode == Edit then
      if role.None? then None
      else Some(Role(role.value.id, v.name, v.code, v.status, v.description,
                     role.value.userCount, role.value.createTime, Some(v.permissions)))
    else Some(Role(freshId, v.name, v.code, v.status, v.description, 0, now, Some(v.permissions)))
  }

  /** What a save stores: the values' fields always; the role's identity
      in edit mode, a fresh one with no users in add mode; nothing in edit
      mode without a role. */
  lemma RoleRecordSpec(v: RoleValues, mode: Mode, role: Option<Role>, freshId: string, now: string)
    ensures RoleRecord(v, mode, role, freshId, now).None? <==> mode == Edit && role.None?
    ensures var r := RoleRecord(v, mode, role, freshId, now);
      r.Some? ==> LoadValues(r, Edit) == v
    ensures var r := RoleRecord(v, mode, role, freshId, now);
      mode == Edit && role.Some? ==>
        r.value.id == role.value.id && r.value.userCount == role.value.userCount &&
        r.value.createTime == role.value.createTime
    ensures var r := RoleRecord(v, mode, role, freshId, now);
      mode == Add ==> r.value.id == freshId && r.value.userCount == 0 && r.value.createTime == now
  {
  }

  /** Opening a role for editing and saving without changes stores the
      same role, once its permissions are present. */
  lemma UnchangedEditKeepsRole(r: Role, freshId: string, now: string)
    requires r.permissions.Some?
    ensures RoleRecord(LoadValues(Some(r), Edit), Edit, Some(r), freshId, now) == Some(r)
  {
  }

  // ------------------------------------------------------------ captions

  function Title(mode: Mode): string
  {
    if mode == Edit then "编辑角色" else "添加角色"
  }

  function SubmitCaption(loading: bool, mode: Mode): string
  {
    if loading then "保存中..." else if mode == Edit then "更新" else "创建"
  }

  /** The code input is editable only when adding. */
  predicate CodeEditable(mode: Mode)
  {
    mode != Edit
  }

  /** The captions tell the modes apart, and the code cannot be changed
      while editing. */
  lemma CaptionsByMode(mode: Mode)
    ensures Title(mode) == "编辑角色" <==> mode == Edit
    ensures SubmitCaption(true, mode) == "保存中..."
    ensures SubmitCaption(false, mode) == (if mode == Edit then "更新" else "创建")
    ensures CodeEditable(mode) <==> mode == Add
  {
  }

  // ------------------------------------------------------------ the dialog

  class RoleDialog {
    var values: RoleValues
    var defaults: RoleValues
    var loading: bool

    constructor ()
      ensures values == BlankValues && defaults == BlankValues && !loading
    {
      values, defaults, loading := BlankValues, BlankValues, false;
    }

    /** The effect run when `role` or `mode` changes. */
    method ResetEffect(role: Option<Role>, mode: Mode)
      modifies this`values, this`defaults
      ensures values == LoadValues(role, mode) && defaults == values
    {
      values := LoadValues(role, mode);
      defaults := values;
    }

    /** Typing into the form; the code is ignored in edit mode, where its
        input is disabled. */
    method Input(v: RoleValues, mode: Mode)
      modifies this`values
      ensures values == if CodeEditable(mode) then v else v.(code := old(values).code)
    {
      if CodeEditable(mode) {
        values := v;
      } else {
        values := v.(code := values.code);
      }
    }

    /** A checkbox click. */
    method ClickPermission(caption: string, checked: bool)
      modifies this`values
      ensures values == old(values).(permissions := Toggle(old(values).permissions, caption, checked))
    {
      values := values.(permissions := Toggle(values.permissions, caption, checked));
    }

    /** The submit: invalid values are held back; valid ones start the save
        and the dialog is loading. The submit button is disabled while a
        save runs, so a submit only happens when none is running. */
    method StartSubmit() returns (pending: Option<RoleValues>)
      requires !loading
      modifies this`loading
      ensures IsValid(values) ==> pending == Some(values) && loading
      ensures !IsValid(values) ==> pending == None && !loading
    {
      if IsValid(values) {
        pending := Some(values);
        loading := true;
      } else {
        pending := None;
      }
    }

    /** The save finishing: on success the record goes to onSuccess, the
        dialog asks to close, and in add mode the form is reset; on failure
        nothing is saved and the dialog stays. Loading ends either way. */
    method CompleteSubmit(pending: RoleValues, mode: Mode, role: Option<Role>, freshId: string, now: string)
      returns (saved: Option<Role>, closeRequested: bool)
      modifies this`values, this`loading
      ensures saved == RoleRecord(pending, mode, role, freshId, now)
      ensures closeRequested <==> saved.Some?
      ensures values == if saved.Some? && mode == Add then defaults else old(values)
      ensures !loading
    {
      saved := RoleRecord(pending, mode, role, freshId, now);
      closeRequested := saved.Some?;
      if saved.Some? && mode == Add {
        values := defaults;
      }
      loading := false;
    }

    /** handleOpenChange: a close request is ignored while saving;
        otherwise it is passed on and the form is reset. */
    method HandleOpenChange(newOpen: bool) returns (closeRequested: bool)
      modifies this`values
      ensures closeRequested <==> !newOpen && !loading
      ensures values == if closeRequested then defaults else old(values)
    {
      closeRequested := !newOpen && !loading;
      if closeRequested {
        values := defaults;
      }
    }
  }

  /** In edit mode the code survives any input, so an edited role is saved
      under its own code and id. */
  lemma EditKeepsCode(r: Role, typed: RoleValues, freshId: string, now: string)
    ensures var v := typed.(code := LoadValues(Some(r), Edit).code);
      RoleRecord(v, Edit, Some(r), freshId, now).Some? &&
      RoleRecord(v, Edit, Some(r), freshId, now).value.code == r.code &&
      RoleRecord(v, Edit, Some(r), freshId, now).value.id == r.id
  {
  }
}
