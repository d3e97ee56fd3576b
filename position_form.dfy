/** The position dialog (app/admin/positions/position-form-dialog.tsx): its
    validation schema, the values it loads when it opens, its title and
    choices, and the forwarding of validated values to the page. */
module PositionForm {
  import opened JsPrelude
  import opened FormRules
  import opened PositionColumns

  /** The dialog's values; description and requirements are optional. */
  datatype PositionValues = PositionValues(
    name: string,
    code: string,
    department: string,
    level: string,
    description: string,
    requirements: string,
    status: string)

  /** The schema's errors, in schema order. */
  function Errors(v: PositionValues): seq<FieldError>
  {
    Required("name", v.name, "岗位名称不能为空") +
    Required("code", v.code, "岗位编码不能为空") +
    Required("department", v.department, "请选择所属部门") +
    Required("level", v.level, "请选择岗位级别") +
    Required("status", v.status, "请选择状态")
  }

  predicate IsValid(v: PositionValues)
  {
    Errors(v) == []
  }

  /** The values are valid iff name, code, department, level and status are
      non-empty; description and requirements never fail; each failing
      field is reported with its message. */
  lemma ValidityRule(v: PositionValues)
    ensures IsValid(v) <==> |v.name| >= 1 && |v.code| >= 1 && |v.department| >= 1 && |v.level| >= 1 && |v.status| >= 1
    ensures FailingFields(Errors(v)) <= {"name", "code", "department", "level", "status"}
    ensures |v.name| == 0 ==> FieldError("name", "岗位名称不能为空") in Errors(v)
    ensures |v.code| == 0 ==> FieldError("code", "岗位编码不能为空") in Errors(v)
    ensures |v.department| == 0 ==> FieldError("department", "请选择所属部门") in Errors(v)
    ensures |v.level| == 0 ==> FieldError("level", "请选择岗位级别") in Errors(v)
    ensures |v.status| == 0 ==> FieldError("status", "请选择状态") in Errors(v)
  {
    var e1 := Required("name", v.name, "岗位名称不能为空");
    var e2 := Required("code", v.code, "岗位编码不能为空");
    var e3 := Required("department", v.department, "请选择所属部门");
    var e4 := Required("level", v.level, "请选择岗位级别");
    assert Errors(v) == e1 + e2 + e3 + e4 + Required("status", v.status, "请选择状态");
    if |v.code| == 0 {
      assert Errors(v)[|e1|] == FieldError("code", "岗位编码不能为空");
    }
    if |v.department| == 0 {
      assert Errors(v)[|e1 + e2|] == FieldError("department", "请选择所属部门");
    }
    if |v.level| == 0 {
      assert Errors(v)[|e1 + e2 + e3|] == FieldError("level", "请选择岗位级别");
    }
    if |v.status| == 0 {
      assert Errors(v)[|e1 + e2 + e3 + e4|] == FieldError("status", "请选择状态");
    }
  }

  /** The blank form: every field empty and status 正常. */
  const BlankValues: PositionValues := PositionValues("", "", "", "", "", "", "正常")

  /** The seven fields of a position the dialog edits. */
  function ValuesOf(p: Position): (v: PositionValues)
    ensures v.name == p.name && v.code == p.code && v.department == p.department && v.level == p.level
    ensures v.description == p.description && v.requirements == p.requirements && v.status == p.status
  {
    PositionValues(p.name, p.code, p.department, p.level, p.description, p.requirements, p.status)
  }

  /** isEdit: a position was given. */
  predicate IsEdit(position: Option<Position>)
  {
    position.Some?
  }

  function Title(position: Option<Position>): (t: string)
    ensures t == "编辑岗位" <==> IsEdit(position)
    ensures t == "新增岗位" <==> !IsEdit(position)
  {
    if IsEdit(position) then "编辑岗位" else "新增岗位"
  }

  /** The dialog's choices: eight departments, seven levels and two
      statuses, as (value, label) pairs. */
  const Departments: seq<(string, string)> := [
    ("技术部", "技术部"), ("产品部", "产品部"), ("设计部", "设计部"), ("市场部", "市场部"),
    ("销售部", "销售部"), ("运营部", "运营部"), ("人事部", "人事部"), ("财务部", "财务部")]
  const Levels: seq<(string, string)> := [
    ("P1", "P1-初级"), ("P2", "P2-中级"), ("P3", "P3-高级"), ("P4", "P4-专家"),
    ("M1", "M1-主管"), ("M2", "M2-经理"), ("M3", "M3-总监")]
  const StatusOptions: seq<(string, string)> := [("正常", "正常"), ("禁用", "禁用")]

  /** Every level choice is a level the table renders as a badge, with the
      same label. */
  lemma LevelChoicesHaveBadges()
    ensures |Departments| == 8 && |Levels| == 7 && |StatusOptions| == 2
    ensures forall i :: 0 <= i < |Levels| ==> Levels[i].0 in LevelConfig && LevelConfig[Levels[i].0].0 == Levels[i].1
  {
  }

  /** A dialog's form: current values and the defaults reset() restores. */
  class PositionDialog {
    var values: PositionValues
    var defaults: PositionValues

    constructor ()
      ensures values == BlankValues && defaults == BlankValues
    {
      values, defaults := BlankValues, BlankValues;
    }

    /** The effect run when `open` or `position` changes: on open, load the
        position's fields, or the blank form without one; on close, leave
        the form as it is. */
    method OpenEffect(open: bool, position: Option<Position>)
      modifies this
      ensures open && position.Some? ==> values == ValuesOf(position.value) && defaults == values
      ensures open && position.None? ==> values == BlankValues && defaults == BlankValues
      ensures !open ==> values == old(values) && defaults == old(defaults)
    {
      if open {
        var v := if position.Some? then ValuesOf(position.value) else BlankValues;
        values, defaults := v, v;
      }
    }

    /** The user edits the form. */
    method Input(v: PositionValues)
      modifies this`values
      ensures values == v
    {
      values := v;
    }

    /** The submit button: valid values go to onSubmit unchanged; invalid
        ones are held back. */
    method Submit() returns (submitted: Option<PositionValues>)
      ensures IsValid(values) ==> submitted == Some(values)
      ensures !IsValid(values) ==> submitted == None
    {
      submitted := if IsValid(values) then Some(values) else None;
    }
  }

  /** Opening the dialog on a well-formed position and submitting without
      changes submits that position's own fields. */
  lemma LoadedPositionSubmits(p: Position)
    requires |p.name| >= 1 && |p.code| >= 1 && |p.department| >= 1 && |p.level| >= 1 && |p.status| >= 1
    ensures IsValid(ValuesOf(p))
  {
    ValidityRule(ValuesOf(p));
  }

  /** The blank form is not submittable: name, code, department and level
      are reported, status is not. */
  lemma BlankFormErrors()
    ensures FailingFields(Errors(BlankValues)) == {"name", "code", "department", "level"}
  {
    var e := Errors(BlankValues);
    assert e == [FieldError("name", "岗位名称不能为空"), FieldError("code", "岗位编码不能为空"),
                 FieldError("department", "请选择所属部门"), FieldError("level", "请选择岗位级别")];
    assert e[0] in e && e[1] in e && e[2] in e && e[3] in e;
  }
}
