/** The column definitions of the departments table
    (app/admin/departments/columns.tsx): the department record, the status
    cell, the row actions, and the column set the search form derives its
    fields from. */
module DepartmentColumns {
  import opened JsPrelude
  import SearchForm
  import opened DataTable

  /** A department record. */
  datatype Department = Department(
    id: string,
    name: string,
    code: string,
    parent: string,
    leader: string,
    userCount: int,
    status: string,
    description: string,
    createTime: string)

  /** The status badge: variant and text. */
  datatype DepartmentStatusBadge = DepartmentStatusBadge(variant: BadgeVariant, text: string)

  /** The status cell, rendered from the record's status. */
  function RenderStatus(d: Department): (b: DepartmentStatusBadge)
    ensures d.status == "正常" ==> b == DepartmentStatusBadge(Secondary, "正常")
    ensures d.status != "正常" ==> b == DepartmentStatusBadge(Destructive, "禁用")
  {
    if d.status == "正常" then DepartmentStatusBadge(Secondary, "正常")
    else DepartmentStatusBadge(Destructive, "禁用")
  }

  /** The row actions: three buttons, then "添加下级部门", "查看人员" and
      either "禁用部门" or "启用部门" by status. */
  function Actions(d: Department): (actions: seq<RowAction>)
    ensures |actions| == 6
  {
    [RowAction("查看详情", "onView"), RowAction("编辑", "onEdit"), RowAction("删除", "onDelete"),
     RowAction("添加下级部门", "onAddSubDepartment"), RowAction("查看人员", "onViewUsers"),
     if d.status == "正常" then RowAction("禁用部门", "onDisable") else RowAction("启用部门", "onEnable")]
  }

  function ActionHandlersOf(actions: seq<RowAction>): set<string>
  {
    set a | a in actions :: a.handler
  }

  /** The menu offers disabling exactly for a 正常 department and enabling
      otherwise, never both; every action calls its handler with the row's
      department when supplied and does nothing otherwise. */
  lemma ActionsSpec(d: Department, handlers: Handlers)
    ensures "onDisable" in ActionHandlersOf(Actions(d)) <==> d.status == "正常"
    ensures "onEnable" in ActionHandlersOf(Actions(d)) <==> d.status != "正常"
    ensures ActionHandlersOf(Actions(d)) - {"onDisable", "onEnable"}
         == {"onView", "onEdit", "onDelete", "onAddSubDepartment", "onViewUsers"}
    ensures forall a :: a in Actions(d) ==>
      (Click(handlers, a, d) == if a.handler in handlers then Some(Call(a.handler, d)) else None)
  {
    var acts := Actions(d);
    assert acts[0] in acts && acts[1] in acts && acts[2] in acts;
    assert acts[3] in acts && acts[4] in acts && acts[5] in acts;
  }

  // ------------------------------------------------------------ columns

  /** The status column's enum keys are normal and disabled. */
  const StatusEnum: seq<SearchForm.EnumEntry> :=
    [SearchForm.EnumEntry("normal", "正常"), SearchForm.EnumEntry("disabled", "禁用")]

  const NameColumn: SearchForm.Column := SearchForm.BoundColumn("name", "部门名称", "text")
  const CodeColumn: SearchForm.Column := SearchForm.BoundColumn("code", "部门编码", "text")
  const ParentColumn: SearchForm.Column := SearchForm.BoundColumn("parent", "上级部门", "select")
  const LeaderColumn: SearchForm.Column := SearchForm.BoundColumn("leader", "负责人", "text")
  const UserCountColumn: SearchForm.Column :=
    SearchForm.BoundColumn("userCount", "人员数量", "text").(hideInSearch := true)
  const StatusColumn: SearchForm.Column :=
    SearchForm.BoundColumn("status", "状态", "select").(valueEnum := Some(StatusEnum))
  const DescriptionColumn: SearchForm.Column :=
    SearchForm.BoundColumn("description", "描述", "text").(hideInSearch := true)
  const CreateTimeColumn: SearchForm.Column :=
    SearchForm.BoundColumn("createTime", "创建时间", "dateTime").(hideInSearch := true)
  const ActionsColumn: SearchForm.Column :=
    SearchForm.BoundColumn("", "操作", "option").(id := "actions", hideInSearch := true)

  /** The nine columns in display order. */
  const Columns: seq<TableColumn> := [
    TableColumn(NameColumn, false, OwnCell),
    TableColumn(CodeColumn, true, OwnCell),
    TableColumn(ParentColumn, false, OwnCell),
    TableColumn(LeaderColumn, false, OwnCell),
    TableColumn(UserCountColumn, true, OwnCell),
    TableColumn(StatusColumn, true, OwnCell),
    TableColumn(DescriptionColumn, true, OwnCell),
    TableColumn(CreateTimeColumn, false, OwnCell),
    TableColumn(ActionsColumn, true, OwnCell)]

  lemma {:induction false} LeadingCandidates(lead: seq<SearchForm.Column>)
    requires lead == [NameColumn, CodeColumn, ParentColumn, LeaderColumn]
    ensures SearchForm.Candidates(lead) ==
      [SearchForm.ToField(NameColumn), SearchForm.ToField(CodeColumn),
       SearchForm.ToField(ParentColumn), SearchForm.ToField(LeaderColumn)]
  {
    assert SearchForm.Searchable(NameColumn) && SearchForm.Searchable(CodeColumn);
    assert SearchForm.Searchable(ParentColumn) && SearchForm.Searchable(LeaderColumn);
    SearchForm.CandidatesCons(LeaderColumn, []);
    SearchForm.CandidatesCons(ParentColumn, [LeaderColumn]);
    SearchForm.CandidatesCons(CodeColumn, [ParentColumn, LeaderColumn]);
    SearchForm.CandidatesCons(NameColumn, [CodeColumn, ParentColumn, LeaderColumn]);
    assert [LeaderColumn] + [] == [LeaderColumn];
    assert [ParentColumn] + [LeaderColumn] == [ParentColumn, LeaderColumn];
    assert [CodeColumn] + [ParentColumn, LeaderColumn] == [CodeColumn, ParentColumn, LeaderColumn];
    assert [NameColumn] + [CodeColumn, ParentColumn, LeaderColumn]
        == [NameColumn, CodeColumn, ParentColumn, LeaderColumn];
  }

  lemma {:induction false} TrailingCandidates(trail: seq<SearchForm.Column>)
    requires trail == [UserCountColumn, StatusColumn, DescriptionColumn, CreateTimeColumn, ActionsColumn]
    ensures SearchForm.Candidates(trail)
         == [SearchForm.ToField(StatusColumn)]
  {
    assert !SearchForm.Searchable(ActionsColumn) && !SearchForm.Searchable(CreateTimeColumn);
    assert !SearchForm.Searchable(DescriptionColumn) && SearchForm.Searchable(StatusColumn);
    assert !SearchForm.Searchable(UserCountColumn);
    SearchForm.CandidatesCons(ActionsColumn, []);
    SearchForm.CandidatesCons(CreateTimeColumn, [ActionsColumn]);
    SearchForm.CandidatesCons(DescriptionColumn, [CreateTimeColumn, ActionsColumn]);
    SearchForm.CandidatesCons(StatusColumn, [DescriptionColumn, CreateTimeColumn, ActionsColumn]);
    SearchForm.CandidatesCons(UserCountColumn, [StatusColumn, DescriptionColumn, CreateTimeColumn, ActionsColumn]);
    assert [ActionsColumn] + [] == [ActionsColumn];
    assert [CreateTimeColumn] + [ActionsColumn] == [CreateTimeColumn, ActionsColumn];
    assert [DescriptionColumn] + [CreateTimeColumn, ActionsColumn] == [DescriptionColumn, CreateTimeColumn, ActionsColumn];
    assert [StatusColumn] + [DescriptionColumn, CreateTimeColumn, ActionsColumn]
        == [StatusColumn, DescriptionColumn, CreateTimeColumn, ActionsColumn];
    assert [UserCountColumn] + [StatusColumn, DescriptionColumn, CreateTimeColumn, ActionsColumn]
        == [UserCountColumn, StatusColumn, DescriptionColumn, CreateTimeColumn, ActionsColumn];
  }

  lemma {:induction false} CandidatesOfColumns(cs: seq<SearchForm.Column>)
    requires cs == [NameColumn, CodeColumn, ParentColumn, LeaderColumn] +
                   [UserCountColumn, StatusColumn, DescriptionColumn, CreateTimeColumn, ActionsColumn]
    ensures forall i :: 0 <= i < |cs| ==> cs[i].order == 0
    ensures SearchForm.Candidates(cs) ==
      [SearchForm.ToField(NameColumn), SearchForm.ToField(CodeColumn), SearchForm.ToField(ParentColumn),
       SearchForm.ToField(LeaderColumn), SearchForm.ToField(StatusColumn)]
  {
    SearchForm.CandidatesAppend([NameColumn, CodeColumn, ParentColumn, LeaderColumn],
                                [UserCountColumn, StatusColumn, DescriptionColumn, CreateTimeColumn, ActionsColumn]);
    LeadingCandidates([NameColumn, CodeColumn, ParentColumn, LeaderColumn]);
    TrailingCandidates([UserCountColumn, StatusColumn, DescriptionColumn, CreateTimeColumn, ActionsColumn]);
  }

  /** The columns the search form keeps, in column order. */
  lemma SearchableColumns()
    ensures SearchForm.DeriveFields(Descriptors(Columns)) ==
      [SearchForm.ToField(NameColumn), SearchForm.ToField(CodeColumn), SearchForm.ToField(ParentColumn),
       SearchForm.ToField(LeaderColumn), SearchForm.ToField(StatusColumn)]
  {
    var cs := Descriptors(Columns);
    assert cs == [NameColumn, CodeColumn, ParentColumn, LeaderColumn] +
                 [UserCountColumn, StatusColumn, DescriptionColumn, CreateTimeColumn, ActionsColumn];
    CandidatesOfColumns(cs);
    SearchForm.UnorderedColumnsKeepOrder(cs);
  }

  /** The search form built from these columns: name, code, parent, leader
      and status in that order; parent is a select with no options, having
      no valueEnum; status offers 正常 with value normal and 禁用 with value
      disabled, so neither option value is a status a record stores. */
  lemma DerivedSearchFields()
    ensures var fs := SearchForm.DeriveFields(Descriptors(Columns));
      && SearchForm.FieldKeys(fs) == ["name", "code", "parent", "leader", "status"]
      && fs[2].kind == SearchForm.Select && fs[2].options.None?
      && fs[4].kind == SearchForm.Select
      && fs[4].options == Some([SearchForm.SelectOption("正常", "normal"), SearchForm.SelectOption("禁用", "disabled")])
      && forall o :: o in fs[4].options.value ==> o.value != "正常" && o.value != "禁用"
  {
    SearchableColumns();
    DerivedFieldFacts(SearchForm.DeriveFields(Descriptors(Columns)));
  }

  lemma {:induction false} DerivedFieldFacts(fs: seq<SearchForm.SearchField>)
    requires fs == [SearchForm.ToField(NameColumn), SearchForm.ToField(CodeColumn), SearchForm.ToField(ParentColumn),
                    SearchForm.ToField(LeaderColumn), SearchForm.ToField(StatusColumn)]
    ensures SearchForm.FieldKeys(fs) == ["name", "code", "parent", "leader", "status"]
    ensures fs[2].kind == SearchForm.Select && fs[2].options.None?
    ensures fs[4].kind == SearchForm.Select
    ensures fs[4].options == Some([SearchForm.SelectOption("正常", "normal"), SearchForm.SelectOption("禁用", "disabled")])
    ensures forall o :: o in fs[4].options.value ==> o.value != "正常" && o.value != "禁用"
  {
    var o := SearchForm.OptionsOf(StatusColumn).value;
    assert |o| == 2;
    assert o[0] == SearchForm.SelectOption("正常", "normal");
    assert o[1] == SearchForm.SelectOption("禁用", "disabled");
    assert o == [SearchForm.SelectOption("正常", "normal"), SearchForm.SelectOption("禁用", "disabled")];
  }
}
