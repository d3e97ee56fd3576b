/** The column definitions of the roles table (app/admin/roles/columns.tsx):
    the role record, the status and permissions cells, the row actions, and
    the column set the search form derives its fields from. */
module RoleColumns {
  import opened JsPrelude
  import SearchForm
  import opened DataTable

  /** A role record; `permissions` may be missing. */
  datatype Role = Role(
    id: string,
    name: string,
    code: string,
    status: string,
    description: string,
    userCount: int,
    createTime: string,
    permissions: Option<seq<string>>)

  /** A status badge: variant, colour and text. */
  datatype RoleStatusBadge = RoleStatusBadge(variant: BadgeVariant, green: bool, text: string)

  /** The status cell, rendered from the cell's own value. */
  function RenderStatus(text: string): (b: RoleStatusBadge)
    ensures text == "正常" ==> b == RoleStatusBadge(Secondary, true, "正常")
    ensures text != "正常" ==> b == RoleStatusBadge(Destructive, false, "禁用")
  {
    if text == "正常" then RoleStatusBadge(Secondary, true, "正常")
    else RoleStatusBadge(Destructive, false, "禁用")
  }

  /** The permissions cell: the permissions shown as badges, then an
      overflow badge "+n" when some are not shown. */
  datatype PermissionBadges = PermissionBadges(shown: seq<string>, overflow: Option<int>)

  function RenderPermissions(r: Role): PermissionBadges
  {
    var permissions := if r.permissions.Some? then r.permissions.value else [];
    PermissionBadges(SliceTo(permissions, 3),
                     if |permissions| > 3 then Some(|permissions| - 3) else None)
  }

  /** The first min(3, n) permissions are shown in order; an overflow badge
      counting the rest appears iff there are more than three, so shown and
      counted add up to n; a missing list shows nothing. */
  lemma PermissionBadgesSpec(r: Role)
    ensures var n := if r.permissions.Some? then |r.permissions.value| else 0;
      var b := RenderPermissions(r);
      && |b.shown| == Min(3, n)
      && (r.permissions.Some? ==> b.shown == r.permissions.value[..|b.shown|])
      && (b.overflow.Some? <==> n > 3)
      && (b.overflow.Some? ==> |b.shown| + b.overflow.value == n && b.overflow.value >= 1)
      && (r.permissions.None? ==> b == PermissionBadges([], None))
  {
  }

  /** The row actions: three buttons, then "权限设置" and "用户分配". */
  const Actions: seq<RowAction> := [
    RowAction("查看详情", "onView"), RowAction("编辑", "onEdit"), RowAction("删除", "onDelete"),
    RowAction("权限设置", "onPermissions"), RowAction("用户分配", "onAssignUsers")]

  /** Each action calls its own handler with the row's role when that
      handler is supplied, and does nothing otherwise. */
  lemma ActionsSpec(r: Role, handlers: Handlers)
    ensures (set a | a in Actions :: a.handler) == {"onView", "onEdit", "onDelete", "onPermissions", "onAssignUsers"}
    ensures forall a :: a in Actions ==>
      (Click(handlers, a, r) == if a.handler in handlers then Some(Call(a.handler, r)) else None)
  {
    assert Actions[0] in Actions && Actions[1] in Actions && Actions[2] in Actions;
    assert Actions[3] in Actions && Actions[4] in Actions;
  }

  // ------------------------------------------------------------ columns

  const StatusEnum: seq<SearchForm.EnumEntry> :=
    [SearchForm.EnumEntry("正常", "正常"), SearchForm.EnumEntry("禁用", "禁用")]

  const NameColumn: SearchForm.Column := SearchForm.BoundColumn("name", "角色名称", "text")
  const CodeColumn: SearchForm.Column := SearchForm.BoundColumn("code", "角色编码", "text")
  const StatusColumn: SearchForm.Column :=
    SearchForm.BoundColumn("status", "状态", "select").(valueEnum := Some(StatusEnum))
  const UserCountColumn: SearchForm.Column :=
    SearchForm.BoundColumn("userCount", "用户数量", "text").(hideInSearch := true)
  const PermissionsColumn: SearchForm.Column :=
    SearchForm.BoundColumn("permissions", "权限", "text").(hideInSearch := true)
  const DescriptionColumn: SearchForm.Column :=
    SearchForm.BoundColumn("description", "描述", "text").(hideInSearch := true)
  const CreateTimeColumn: SearchForm.Column :=
    SearchForm.BoundColumn("createTime", "创建时间", "dateTime").(hideInSearch := true)
  const ActionsColumn: SearchForm.Column :=
    SearchForm.BoundColumn("", "操作", "option").(id := "actions", hideInSearch := true)

  /** The eight columns in display order; all but name and createTime have a
      render function. */
  const Columns: seq<TableColumn> := [
    TableColumn(NameColumn, false, OwnCell),
    TableColumn(CodeColumn, true, OwnCell),
    TableColumn(StatusColumn, true, OwnCell),
    TableColumn(UserCountColumn, true, OwnCell),
    TableColumn(PermissionsColumn, true, OwnCell),
    TableColumn(DescriptionColumn, true, OwnCell),
    TableColumn(CreateTimeColumn, false, OwnCell),
    TableColumn(ActionsColumn, true, OwnCell)]

  lemma {:induction false} LeadingCandidates(lead: seq<SearchForm.Column>)
    requires lead == [NameColumn, CodeColumn, StatusColumn]
    ensures SearchForm.Candidates(lead) ==
      [SearchForm.ToField(NameColumn), SearchForm.ToField(CodeColumn), SearchForm.ToField(StatusColumn)]
  {
    assert SearchForm.Searchable(NameColumn) && SearchForm.Searchable(CodeColumn);
    assert SearchForm.Searchable(StatusColumn);
    SearchForm.CandidatesCons(StatusColumn, []);
    SearchForm.CandidatesCons(CodeColumn, [StatusColumn]);
    SearchForm.CandidatesCons(NameColumn, [CodeColumn, StatusColumn]);
    assert [StatusColumn] + [] == [StatusColumn];
    assert [CodeColumn] + [StatusColumn] == [CodeColumn, StatusColumn];
    assert [NameColumn] + [CodeColumn, StatusColumn] == [NameColumn, CodeColumn, StatusColumn];
  }

  lemma {:induction false} TrailingCandidates(trail: seq<SearchForm.Column>)
    requires trail == [UserCountColumn, PermissionsColumn, DescriptionColumn, CreateTimeColumn, ActionsColumn]
    ensures SearchForm.Candidates(trail) == []
  {
    assert !SearchForm.Searchable(ActionsColumn) && !SearchForm.Searchable(CreateTimeColumn);
    assert !SearchForm.Searchable(DescriptionColumn) && !SearchForm.Searchable(PermissionsColumn);
    assert !SearchForm.Searchable(UserCountColumn);
    SearchForm.CandidatesCons(ActionsColumn, []);
    SearchForm.CandidatesCons(CreateTimeColumn, [ActionsColumn]);
    SearchForm.CandidatesCons(DescriptionColumn, [CreateTimeColumn, ActionsColumn]);
    SearchForm.CandidatesCons(PermissionsColumn, [DescriptionColumn, CreateTimeColumn, ActionsColumn]);
    SearchForm.CandidatesCons(UserCountColumn, [PermissionsColumn, DescriptionColumn, CreateTimeColumn, ActionsColumn]);
    assert [ActionsColumn] + [] == [ActionsColumn];
    assert [CreateTimeColumn] + [ActionsColumn] == [CreateTimeColumn, ActionsColumn];
    assert [DescriptionColumn] + [CreateTimeColumn, ActionsColumn] == [DescriptionColumn, CreateTimeColumn, ActionsColumn];
    assert [PermissionsColumn] + [DescriptionColumn, CreateTimeColumn, ActionsColumn]
        == [PermissionsColumn, DescriptionColumn, CreateTimeColumn, ActionsColumn];
    assert [UserCountColumn] + [PermissionsColumn, DescriptionColumn, CreateTimeColumn, ActionsColumn]
        == [UserCountColumn, PermissionsColumn, DescriptionColumn, CreateTimeColumn, ActionsColumn];
  }

  lemma {:induction false} CandidatesOfColumns(cs: seq<SearchForm.Column>)
    requires cs == [NameColumn, CodeColumn, StatusColumn] +
                   [UserCountColumn, PermissionsColumn, DescriptionColumn, CreateTimeColumn, ActionsColumn]
    ensures forall i :: 0 <= i < |cs| ==> cs[i].order == 0
    ensures SearchForm.Candidates(cs) ==
      [SearchForm.ToField(NameColumn), SearchForm.ToField(CodeColumn), SearchForm.ToField(StatusColumn)]
  {
    SearchForm.CandidatesAppend([NameColumn, CodeColumn, StatusColumn],
                                [UserCountColumn, PermissionsColumn, DescriptionColumn, CreateTimeColumn, ActionsColumn]);
    LeadingCandidates([NameColumn, CodeColumn, StatusColumn]);
    TrailingCandidates([UserCountColumn, PermissionsColumn, DescriptionColumn, CreateTimeColumn, ActionsColumn]);
  }

  /** The columns the search form keeps, in column order. */
  lemma SearchableColumns()
    ensures SearchForm.DeriveFields(Descriptors(Columns)) ==
      [SearchForm.ToField(NameColumn), SearchForm.ToField(CodeColumn), SearchForm.ToField(StatusColumn)]
  {
    var cs := Descriptors(Columns);
    assert cs == [NameColumn, CodeColumn, StatusColumn] +
                 [UserCountColumn, PermissionsColumn, DescriptionColumn, CreateTimeColumn, ActionsColumn];
    CandidatesOfColumns(cs);
    SearchForm.UnorderedColumnsKeepOrder(cs);
  }

  /** The search form built from these columns: name, code and status;
      status is a select offering 正常 and 禁用. */
  lemma DerivedSearchFields()
    ensures var fs := SearchForm.DeriveFields(Descriptors(Columns));
      && SearchForm.FieldKeys(fs) == ["name", "code", "status"]
      && fs[0].kind == SearchForm.Input && fs[1].kind == SearchForm.Input
      && fs[2].kind == SearchForm.Select
      && fs[2].options == Some([SearchForm.SelectOption("正常", "正常"), SearchForm.SelectOption("禁用", "禁用")])
  {
    SearchableColumns();
    DerivedFieldFacts(SearchForm.DeriveFields(Descriptors(Columns)));
  }

  lemma {:induction false} DerivedFieldFacts(fs: seq<SearchForm.SearchField>)
    requires fs == [SearchForm.ToField(NameColumn), SearchForm.ToField(CodeColumn), SearchForm.ToField(StatusColumn)]
    ensures SearchForm.FieldKeys(fs) == ["name", "code", "status"]
    ensures fs[0].kind == SearchForm.Input && fs[1].kind == SearchForm.Input && fs[2].kind == SearchForm.Select
    ensures fs[2].options == Some([SearchForm.SelectOption("正常", "正常"), SearchForm.SelectOption("禁用", "禁用")])
  {
    var o := SearchForm.OptionsOf(StatusColumn).value;
    assert |o| == 2;
    assert o[0] == SearchForm.SelectOption("正常", "正常");
    assert o[1] == SearchForm.SelectOption("禁用", "禁用");
    assert o == [SearchForm.SelectOption("正常", "正常"), SearchForm.SelectOption("禁用", "禁用")];
  }
}
