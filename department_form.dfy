/** The department dialog (app/admin/departments/department-form-dialog.tsx):
    its validation schema, the values it loads (an edited department, a
    parent for a new sub-department, or nothing), the department record it
    builds on submit with "-" standing for an empty parent or description,
    and its captions. */
module DepartmentForm {
  import opened JsPrelude
  import opened FormRules
  import opened DepartmentColumns

  datatype Mode = Add | Edit

  /** The dialog's values; parent and description are optional. */
  datatype DepartmentValues = DepartmentValues(
    name: string,
    code: string,
    parent: string,
    leader: string,
    status: string,
    description: string)

  /** The schema's errors, in schema order. */
  function Errors(v: DepartmentValues): seq<FieldError>
  {
    Required("name", v.name, "部门名称不能为空") +
    Required("code", v.code, "部门编码不能为空") +
    Required("leader", v.leader, "负责人不能为空") +
    Required("status", v.status, "请选择状态")
  }

  predicate IsValid(v: DepartmentValues)
  {
    Errors(v) == []
  }

  /** The values are valid iff name, code, leader and status are non-empty;
      parent and description never fail. */
  lemma ValidityRule(v: DepartmentValues)
    ensures IsValid(v) <==> |v.name| >= 1 && |v.code| >= 1 && |v.leader| >= 1 && |v.status| >= 1
    ensures FailingFields(Errors(v)) <= {"name", "code", "leader", "status"}
    ensures |v.leader| == 0 ==> FieldError("leader", "负责人不能为空") in Errors(v)
  {
    if |v.leader| == 0 {
      var before := Required("name", v.name, "部门名称不能为空") + Required("code", v.code, "部门编码不能为空");
      assert Errors(v)[|before|] == FieldError("leader", "负责人不能为空");
    }
  }

  // ------------------------------------------------------------ loading

  /** The blank form: every field empty and status 正常. */
  const BlankValues: DepartmentValues := DepartmentValues("", "", "", "", "正常", "")

  /** The six fields of a department the dialog edits. */
  function ValuesOf(d: Department): (v: DepartmentValues)
    ensures v.name == d.name && v.code == d.code && v.parent == d.parent && v.leader == d.leader
    ensures v.status == d.status && v.description == d.description
  {
    DepartmentValues(d.name, d.code, d.parent, d.leader, d.status, d.description)
  }

  /** The effect's reset values: an edited department comes first, then a
      parent for a new sub-department, then the blank form. */
  function LoadValues(department: Option<Department>, mode: Mode, parentDepartment: Option<Department>): DepartmentValues
  {
    if mode == Edit && department.Some? then ValuesOf(department.value)
    else if parentDepartment.Some? then BlankValues.(parent := parentDepartment.value.name)
    else BlankValues
  }

  /** The precedence of the three cases: editing wins over a parent, which
      only fills in the parent field of the blank form. */
  lemma LoadValuesPrecedence(department: Option<Department>, mode: Mode, parentDepartment: Option<Department>)
    ensures mode == Edit && department.Some? ==> LoadValues(department, mode, parentDepartment) == ValuesOf(department.value)
    ensures !(mode == Edit && department.Some?) && parentDepartment.Some? ==>
      LoadValues(department, mode, parentDepartment).parent == parentDepartment.value.name &&
      LoadValues(department, mode, parentDepartment).(parent := "") == BlankValues
    ensures !(mode == Edit && department.Some?) && parentDepartment.None? ==>
      LoadValues(department, mode, parentDepartment) == BlankValues
  {
  }

  // ------------------------------------------------------------ saving

  /** `value || "-"` */
  function OrDash(s: string): (r: string)
    ensures r != ""
    ensures s != "" ==> r == s
  {
    if s != "" then s else "-"
  }

  /** The record onSubmit builds: edit mode keeps the department's id,
      userCount and createTime; add mode takes a fresh id and time and no
      users; an empty parent or description is stored as "-". In edit mode
      without a department the build fails (`department!`), the error is
      caught and nothing is saved. */
  function DepartmentRecord(v: DepartmentValues, mode: Mode, department: Option<Department>,
                            freshId: string, now: string): Option<Department>
  {
    if mode == Edit then
      if department.None? then None
      else Some(Department(department.value.id, v.name, v.code, OrDash(v.parent), v.leader,
                           department.value.userCount, v.status, OrDash(v.description),
                           department.value.createTime))
    else Some(Department(freshId, v.name, v.code, OrDash(v.parent), v.leader, 0, v.status,
                         OrDash(v.description), now))
  }

  /** What a save stores: the values, with "-" for an empty parent or
      description, so stored parent and description are never empty; the
      department's identity in edit mode, a fresh one with no users in add
      mode; nothing in edit mode without a department. */
  lemma DepartmentRecordSpec(v: DepartmentValues, mode: Mode, department: Option<Department>, freshId: string, now: string)
    ensures DepartmentRecord(v, mode, department, freshId, now).None? <==> mode == Edit && department.None?
    ensures var r := DepartmentRecord(v, mode, department, freshId, now);
      r.Some? ==>
        && ValuesOf(r.value) == v.(parent := OrDash(v.parent), description := OrDash(v.description))
        && r.value.parent != "" && r.value.description != ""
        && (v.parent == "" ==> r.value.parent == "-")
        && (v.description == "" ==> r.value.description == "-")
    ensures var r := DepartmentRecord(v, mode, department, freshId, now);
      mode == Edit && department.Some? ==>
        r.value.id == department.value.id && r.value.userCount == department.value.userCount &&
        r.value.createTime == department.value.createTime
    ensures var r := DepartmentRecord(v, mode, department, freshId, now);
      mode == Add ==> r.value.id == freshId && r.value.userCount == 0 && r.value.createTime == now
  {
  }

  /** Editing a department with a parent and a description and saving
      without changes stores the same department. */
  lemma UnchangedEditKeepsDepartment(d: Department, parentDepartment: Option<Department>, freshId: string, now: string)
    requires d.parent != "" && d.description != ""
    ensures DepartmentRecord(LoadValues(Some(d), Edit, parentDepartment), Edit, Some(d), freshId, now) == Some(d)
  {
  }

  // ------------------------------------------------------------ captions

  function Title(mode: Mode, parentDepartment: Option<Department>): string
  {
    if mode == Edit then "编辑部门"
    else if parentDepartment.Some? then "添加下级部门 - " + parentDepartment.value.name
    else "添加部门"
  }

  /** The parent select is locked when adding under a given parent. */
  predicate ParentSelectDisabled(parentDepartment: Option<Department>)
  {
    parentDepartment.Some?
  }

  /** The title names the parent exactly when adding a sub-department, and
      then the parent cannot be changed. */
  lemma TitleSpec(mode: Mode, parentDepartment: Option<Department>)
    ensures Title(mode, parentDepartment) == "编辑部门" <==> mode == Edit
    ensures mode == Add && parentDepartment.Some? ==>
      Title(mode, parentDepartment) == "添加下级部门 - " + parentDepartment.value.name &&
      ParentSelectDisabled(parentDepartment)
    ensures mode == Add && parentDepartment.None? ==>
      Title(mode, parentDepartment) == "添加部门" && !ParentSelectDisabled(parentDepartment)
  {
    if mode == Add && parentDepartment.Some? {
      assert Title(mode, parentDepartment)[0] == '添' != "编辑部门"[0];
    }
  }

  // ------------------------------------------------------------ the dialog

  class DepartmentDialog {
    var values: DepartmentValues
    var defaults: DepartmentValues
    var loading: bool

    constructor ()
      ensures values == BlankValues && defaults == BlankValues && !loading
    {
      values, defaults, loading := BlankValues, BlankValues, false;
    }

    /** The effect run when `department`, `mode` or `parentDepartment`
        changes. */
    method ResetEffect(department: Option<Department>, mode: Mode, parentDepartment: Option<Department>)
      modifies this`values, this`defaults
      ensures values == LoadValues(department, mode, parentDepartment) && defaults == values
    {
      values := LoadValues(department, mode, parentDepartment);
      defaults := values;
    }

    /** Typing into the form; the parent is ignored when a parent
        department is given, where its select is disabled. */
    method Input(v: DepartmentValues, parentDepartment: Option<Department>)
      modifies this`values
      ensures values == if ParentSelectDisabled(parentDepartment) then v.(parent := old(values).parent) else v
    {
      if ParentSelectDisabled(parentDepartment) {
        values := v.(parent := values.parent);
      } else {
        values := v;
      }
    }

    /** The submit: invalid values are held back; valid ones start the
        save. The submit button is disabled while a save runs, so a submit
        only happens when none is running. */
    method StartSubmit() returns (pending: Option<DepartmentValues>)
      requires !loading
      modifies this`loading
      ensures IsValid(values) ==> pending == Some(values) && loading
      ensures !IsValid(values) ==> pending == None && !loading
    {
      if IsValid(values) {
        pending := Some(values);
        loading := true;
      } else {
        pending := None;
      }
    }

    /** The save finishing: on success the record goes to onSuccess, the
        dialog asks to close and the form is reset in either mode; on
        failure nothing changes but loading. */
    method CompleteSubmit(pending: DepartmentValues, mode: Mode, department: Option<Department>,
                          freshId: string, now: string)
      returns (saved: Option<Department>, closeRequested: bool)
      modifies this`values, this`loading
      ensures saved == DepartmentRecord(pending, mode, department, freshId, now)
      ensures closeRequested <==> saved.Some?
      ensures values == if saved.Some? then defaults else old(values)
      ensures !loading
    {
      saved := DepartmentRecord(pending, mode, department, freshId, now);
      closeRequested := saved.Some?;
      if saved.Some? {
        values := defaults;
      }
      loading := false;
    }

    /** The cancel button: ask to close and reset the form. The button is
        disabled while a save runs. */
    method Cancel() returns (closeRequested: bool)
      requires !loading
      modifies this`values
      ensures closeRequested && values == defaults
    {
      closeRequested := true;
      values := defaults;
    }
  }

  /** A sub-department added under a parent keeps that parent whatever is
      typed, since the parent select is locked: it is saved under the
      parent's name ("-" for a nameless parent). */
  lemma SubDepartmentKeepsParent(p: Department, typed: DepartmentValues, freshId: string, now: string)
    ensures var v := typed.(parent := LoadValues(None, Add, Some(p)).parent);
      DepartmentRecord(v, Add, None, freshId, now).Some? &&
      DepartmentRecord(v, Add, None, freshId, now).value.parent == OrDash(p.name) &&
      (p.name != "" ==> DepartmentRecord(v, Add, None, freshId, now).value.parent == p.name)
  {
  }
}
