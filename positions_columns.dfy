/** The column definitions of the positions table
    (app/admin/positions/columns.tsx): the position record, the level and
    status cells, the row actions, and the column set, which is also the
    input the search form derives its fields from. */
module PositionColumns {
  import opened JsPrelude
  import SearchForm
  import opened DataTable

  /** A position record. */
  datatype Position = Position(
    id: string,
    name: string,
    code: string,
    department: string,
    level: string,
    description: string,
    requirements: string,
    userCount: int,
    status: string,
    createTime: string)

  // ------------------------------------------------------------ cells

  /** The level cell: a badge for a configured level, else the raw level. */
  datatype LevelCell = LevelBadge(text: string, variant: BadgeVariant) | PlainLevel(text: string)

  /** The level render's configuration: label and badge variant per level. */
  const LevelConfig: map<string, (string, BadgeVariant)> := map[
    "P1" := ("P1-初级", Secondary),
    "P2" := ("P2-中级", Outline),
    "P3" := ("P3-高级", DefaultVariant),
    "P4" := ("P4-专家", Destructive),
    "M1" := ("M1-主管", DefaultVariant),
    "M2" := ("M2-经理", DefaultVariant),
    "M3" := ("M3-总监", DefaultVariant)]

  function RenderLevel(p: Position): (cell: LevelCell)
    ensures p.level in LevelConfig <==> cell.LevelBadge?
    ensures cell.PlainLevel? ==> cell.text == p.level
  {
    if p.level in LevelConfig then LevelBadge(LevelConfig[p.level].0, LevelConfig[p.level].1)
    else PlainLevel(p.level)
  }

  /** The level cells of the seven configured levels, and the raw text for
      anything else. */
  lemma LevelCells(p: Position)
    ensures p.level == "P1" ==> RenderLevel(p) == LevelBadge("P1-初级", Secondary)
    ensures p.level == "P2" ==> RenderLevel(p) == LevelBadge("P2-中级", Outline)
    ensures p.level == "P3" ==> RenderLevel(p) == LevelBadge("P3-高级", DefaultVariant)
    ensures p.level == "P4" ==> RenderLevel(p) == LevelBadge("P4-专家", Destructive)
    ensures p.level == "M1" ==> RenderLevel(p) == LevelBadge("M1-主管", DefaultVariant)
    ensures p.level == "M2" ==> RenderLevel(p) == LevelBadge("M2-经理", DefaultVariant)
    ensures p.level == "M3" ==> RenderLevel(p) == LevelBadge("M3-总监", DefaultVariant)
    ensures p.level !in {"P1", "P2", "P3", "P4", "M1", "M2", "M3"} ==> RenderLevel(p) == PlainLevel(p.level)
  {
  }

  /** The status badge: its variant and text. */
  datatype StatusBadge = StatusBadge(variant: BadgeVariant, text: string)

  function RenderStatus(p: Position): (b: StatusBadge)
    ensures b.variant == DefaultVariant <==> p.status == "正常"
    ensures b.variant != DefaultVariant ==> b.variant == Secondary
    ensures b.text == p.status
  {
    StatusBadge(if p.status == "正常" then DefaultVariant else Secondary, p.status)
  }

  // ------------------------------------------------------------ actions

  /** The row actions: three buttons, then the more-menu with "查看人员"
      and either "禁用岗位" or "启用岗位" by status. */
  function Actions(p: Position): (actions: seq<RowAction>)
    ensures |actions| == 5
  {
    [RowAction("查看详情", "onView"), RowAction("编辑", "onEdit"), RowAction("删除", "onDelete"),
     RowAction("查看人员", "onViewUsers"),
     if p.status == "正常" then RowAction("禁用岗位", "onDisable") else RowAction("启用岗位", "onEnable")]
  }

  function ActionHandlersOf(actions: seq<RowAction>): set<string>
  {
    set a | a in actions :: a.handler
  }

  /** The menu offers disabling exactly for a 正常 position and enabling
      otherwise, never both; every action calls its handler with the row's
      record when the handler is supplied and does nothing otherwise. */
  lemma ActionsSpec(p: Position, handlers: Handlers)
    ensures "onDisable" in ActionHandlersOf(Actions(p)) <==> p.status == "正常"
    ensures "onEnable" in ActionHandlersOf(Actions(p)) <==> p.status != "正常"
    ensures ActionHandlersOf(Actions(p)) - {"onDisable", "onEnable"} == {"onView", "onEdit", "onDelete", "onViewUsers"}
    ensures forall a :: a in Actions(p) ==>
      (Click(handlers, a, p) == if a.handler in handlers then Some(Call(a.handler, p)) else None)
  {
    var acts := Actions(p);
    assert acts[0] in acts && acts[1] in acts && acts[2] in acts && acts[3] in acts && acts[4] in acts;
  }

  // ------------------------------------------------------------ columns

  function EnumOf(pairs: seq<(string, string)>): seq<SearchForm.EnumEntry>
  {
    seq(|pairs|, i requires 0 <= i < |pairs| => SearchForm.EnumEntry(pairs[i].0, pairs[i].1))
  }

  const DepartmentEnum: seq<SearchForm.EnumEntry> := EnumOf([
    ("技术部", "技术部"), ("产品部", "产品部"), ("市场部", "市场部"),
    ("销售部", "销售部"), ("人事部", "人事部"), ("财务部", "财务部")])

  const LevelEnum: seq<SearchForm.EnumEntry> := EnumOf([
    ("P1", "P1-初级"), ("P2", "P2-中级"), ("P3", "P3-高级"), ("P4", "P4-专家"),
    ("M1", "M1-主管"), ("M2", "M2-经理"), ("M3", "M3-总监")])

  const StatusEnum: seq<SearchForm.EnumEntry> := EnumOf([("正常", "正常"), ("禁用", "禁用")])

  const NameColumn: SearchForm.Column := SearchForm.BoundColumn("name", "岗位名称", "text")
  const CodeColumn: SearchForm.Column := SearchForm.BoundColumn("code", "岗位编码", "text")
  const DepartmentColumn: SearchForm.Column :=
    SearchForm.BoundColumn("department", "所属部门", "select").(valueEnum := Some(DepartmentEnum))
  const LevelColumn: SearchForm.Column :=
    SearchForm.BoundColumn("level", "岗位级别", "select").(valueEnum := Some(LevelEnum))
  const UserCountColumn: SearchForm.Column :=
    SearchForm.BoundColumn("userCount", "在职人数", "text").(hideInSearch := true)
  const StatusColumn: SearchForm.Column :=
    SearchForm.BoundColumn("status", "状态", "select").(valueEnum := Some(StatusEnum))
  const DescriptionColumn: SearchForm.Column := SearchForm.BoundColumn("description", "岗位描述", "text")
  const CreateTimeColumn: SearchForm.Column :=
    SearchForm.BoundColumn("createTime", "创建时间", "dateTime").(hideInSearch := true)
  const ActionsColumn: SearchForm.Column :=
    SearchForm.BoundColumn("", "操作", "option").(id := "actions", hideInSearch := true)

  /** The nine columns, in display order; level, userCount, status and the
      actions have a render function. */
  const Columns: seq<TableColumn> := [
    TableColumn(NameColumn, false, OwnCell),
    TableColumn(CodeColumn, false, OwnCell),
    TableColumn(DepartmentColumn, false, OwnCell),
    TableColumn(LevelColumn, true, OwnCell),
    TableColumn(UserCountColumn, true, OwnCell),
    TableColumn(StatusColumn, true, OwnCell),
    TableColumn(DescriptionColumn, false, OwnCell),
    TableColumn(CreateTimeColumn, false, OwnCell),
    TableColumn(ActionsColumn, true, OwnCell)]

  lemma {:induction false} LeadingCandidates(lead: seq<SearchForm.Column>)
    requires lead == [NameColumn, CodeColumn, DepartmentColumn, LevelColumn]
    ensures SearchForm.Candidates(lead) ==
      [SearchForm.ToField(NameColumn), SearchForm.ToField(CodeColumn),
       SearchForm.ToField(DepartmentColumn), SearchForm.ToField(LevelColumn)]
  {
    assert SearchForm.Searchable(NameColumn) && SearchForm.Searchable(CodeColumn);
    assert SearchForm.Searchable(DepartmentColumn) && SearchForm.Searchable(LevelColumn);
    SearchForm.CandidatesCons(LevelColumn, []);
    SearchForm.CandidatesCons(DepartmentColumn, [LevelColumn]);
    SearchForm.CandidatesCons(CodeColumn, [DepartmentColumn, LevelColumn]);
    SearchForm.CandidatesCons(NameColumn, [CodeColumn, DepartmentColumn, LevelColumn]);
    assert [LevelColumn] + [] == [LevelColumn];
    assert [DepartmentColumn] + [LevelColumn] == [DepartmentColumn, LevelColumn];
    assert [CodeColumn] + [DepartmentColumn, LevelColumn] == [CodeColumn, DepartmentColumn, LevelColumn];
    assert [NameColumn] + [CodeColumn, DepartmentColumn, LevelColumn]
        == [NameColumn, CodeColumn, DepartmentColumn, LevelColumn];
  }

  lemma {:induction false} TrailingCandidates(trail: seq<SearchForm.Column>)
    requires trail == [UserCountColumn, StatusColumn, DescriptionColumn, CreateTimeColumn, ActionsColumn]
    ensures SearchForm.Candidates(trail)
         == [SearchForm.ToField(StatusColumn), SearchForm.ToField(DescriptionColumn)]
  {
    assert !SearchForm.Searchable(ActionsColumn) && !SearchForm.Searchable(CreateTimeColumn);
    assert SearchForm.Searchable(DescriptionColumn) && SearchForm.Searchable(StatusColumn);
    assert !SearchForm.Searchable(UserCountColumn);
    SearchForm.CandidatesCons(ActionsColumn, []);
    SearchForm.CandidatesCons(CreateTimeColumn, [ActionsColumn]);
    SearchForm.CandidatesCons(DescriptionColumn, [CreateTimeColumn, ActionsColumn]);
    SearchForm.CandidatesCons(StatusColumn, [DescriptionColumn, CreateTimeColumn, ActionsColumn]);
    SearchForm.CandidatesCons(UserCountColumn, [StatusColumn, DescriptionColumn, CreateTimeColumn, ActionsColumn]);
    assert [ActionsColumn] + [] == [ActionsColumn];
    assert [CreateTimeColumn] + [ActionsColumn] == [CreateTimeColumn, ActionsColumn];
    assert [DescriptionColumn] + [CreateTimeColumn, ActionsColumn] == [DescriptionColumn, CreateTimeColumn, ActionsColumn];
    assert [StatusColumn] + [DescriptionColumn, CreateTimeColumn, ActionsColumn]
        == [StatusColumn, DescriptionColumn, CreateTimeColumn, ActionsColumn];
    assert [UserCountColumn] + [StatusColumn, DescriptionColumn, CreateTimeColumn, ActionsColumn]
        == [UserCountColumn, StatusColumn, DescriptionColumn, CreateTimeColumn, ActionsColumn];
  }

  lemma {:induction false} CandidatesOfColumns(cs: seq<SearchForm.Column>)
    requires cs == [NameColumn, CodeColumn, DepartmentColumn, LevelColumn] +
                   [UserCountColumn, StatusColumn, DescriptionColumn, CreateTimeColumn, ActionsColumn]
    ensures forall i :: 0 <= i < |cs| ==> cs[i].order == 0
    ensures SearchForm.Candidates(cs) ==
      [SearchForm.ToField(NameColumn), SearchForm.ToField(CodeColumn), SearchForm.ToField(DepartmentColumn),
       SearchForm.ToField(LevelColumn), SearchForm.ToField(StatusColumn), SearchForm.ToField(DescriptionColumn)]
  {
    SearchForm.CandidatesAppend([NameColumn, CodeColumn, DepartmentColumn, LevelColumn],
                                [UserCountColumn, StatusColumn, DescriptionColumn, CreateTimeColumn, ActionsColumn]);
    LeadingCandidates([NameColumn, CodeColumn, DepartmentColumn, LevelColumn]);
    TrailingCandidates([UserCountColumn, StatusColumn, DescriptionColumn, CreateTimeColumn, ActionsColumn]);
  }

  /** The columns the search form keeps, in column order. */
  lemma SearchableColumns()
    ensures SearchForm.DeriveFields(Descriptors(Columns)) ==
      [SearchForm.ToField(NameColumn), SearchForm.ToField(CodeColumn), SearchForm.ToField(DepartmentColumn),
       SearchForm.ToField(LevelColumn), SearchForm.ToField(StatusColumn), SearchForm.ToField(DescriptionColumn)]
  {
    var cs := Descriptors(Columns);
    assert cs == [NameColumn, CodeColumn, DepartmentColumn, LevelColumn] +
                 [UserCountColumn, StatusColumn, DescriptionColumn, CreateTimeColumn, ActionsColumn];
    CandidatesOfColumns(cs);
    SearchForm.UnorderedColumnsKeepOrder(cs);
  }

  /** The field each kept column becomes. */
  lemma {:induction false} KeptColumnFields()
    ensures SearchForm.ToField(NameColumn).key == "name" && SearchForm.ToField(NameColumn).kind == SearchForm.Input
    ensures SearchForm.ToField(CodeColumn).key == "code" && SearchForm.ToField(CodeColumn).kind == SearchForm.Input
    ensures SearchForm.ToField(DepartmentColumn).key == "department"
    ensures SearchForm.ToField(DepartmentColumn).kind == SearchForm.Select
    ensures SearchForm.ToField(DepartmentColumn).options.Some? && |SearchForm.ToField(DepartmentColumn).options.value| == 6
    ensures SearchForm.ToField(LevelColumn).key == "level" && SearchForm.ToField(LevelColumn).kind == SearchForm.Select
    ensures SearchForm.ToField(LevelColumn).options.Some? && |SearchForm.ToField(LevelColumn).options.value| == 7
    ensures SearchForm.ToField(StatusColumn).key == "status" && SearchForm.ToField(StatusColumn).kind == SearchForm.Select
    ensures SearchForm.ToField(StatusColumn).options.Some? && |SearchForm.ToField(StatusColumn).options.value| == 2
    ensures SearchForm.ToField(DescriptionColumn).key == "description"
    ensures SearchForm.ToField(DescriptionColumn).kind == SearchForm.Input
  {
  }

  /** The search form built from these columns: name, code, department,
      level, status and description, in column order; userCount, createTime
      and the actions are hidden; department, level and status are selects
      with 6, 7 and 2 options. */
  lemma DerivedSearchFields()
    ensures var fs := SearchForm.DeriveFields(Descriptors(Columns));
      && SearchForm.FieldKeys(fs) == ["name", "code", "department", "level", "status", "description"]
      && fs[0].kind == SearchForm.Input && fs[1].kind == SearchForm.Input && fs[5].kind == SearchForm.Input
      && fs[2].kind == SearchForm.Select && fs[2].options.Some? && |fs[2].options.value| == 6
      && fs[3].kind == SearchForm.Select && fs[3].options.Some? && |fs[3].options.value| == 7
      && fs[4].kind == SearchForm.Select && fs[4].options.Some? && |fs[4].options.value| == 2
  {
    SearchableColumns();
    DerivedFieldFacts(SearchForm.DeriveFields(Descriptors(Columns)));
  }

  lemma {:induction false} DerivedFieldFacts(fs: seq<SearchForm.SearchField>)
    requires fs == [SearchForm.ToField(NameColumn), SearchForm.ToField(CodeColumn), SearchForm.ToField(DepartmentColumn),
                    SearchForm.ToField(LevelColumn), SearchForm.ToField(StatusColumn), SearchForm.ToField(DescriptionColumn)]
    ensures SearchForm.FieldKeys(fs) == ["name", "code", "department", "level", "status", "description"]
    ensures fs[0].kind == SearchForm.Input && fs[1].kind == SearchForm.Input && fs[5].kind == SearchForm.Input
    ensures fs[2].kind == SearchForm.Select && fs[2].options.Some? && |fs[2].options.value| == 6
    ensures fs[3].kind == SearchForm.Select && fs[3].options.Some? && |fs[3].options.value| == 7
    ensures fs[4].kind == SearchForm.Select && fs[4].options.Some? && |fs[4].options.value| == 2
  {
    KeptColumnFields();
  }
}
