/** The column configuration of the users table
    (app/admin/users/columns.tsx), as input to the search form's field
    derivation: six searchable columns with explicit orders, which the
    derivation sorts by non-increasing order. */
module UserColumns {
  import opened JsPrelude
  import SearchForm

  /** A column whose title and header are the same caption, bound to `key`
      through both dataIndex and accessorKey. */
  function KeyedColumn(key: string, caption: string, valueType: string, order: int): (c: SearchForm.Column)
    ensures SearchForm.KeyOf(c) == key && SearchForm.LabelOf(c) == caption && c.order == order
  {
    SearchForm.BoundColumn(key, caption, valueType).(title := Some(caption), dataIndex := key, order := order)
  }

  const RoleEnum: seq<SearchForm.EnumEntry> := [
    SearchForm.EnumEntry("admin", "管理员"),
    SearchForm.EnumEntry("user", "普通用户"),
    SearchForm.EnumEntry("editor", "编辑")]

  const StatusEnum: seq<SearchForm.EnumEntry> := [
    SearchForm.EnumEntry("active", "启用"),
    SearchForm.EnumEntry("inactive", "禁用")]

  const UsernameColumn: SearchForm.Column := KeyedColumn("username", "用户名", "text", 4)
  const NameColumn: SearchForm.Column := KeyedColumn("name", "姓名", "text", 3)
  const DepartmentColumn: SearchForm.Column := KeyedColumn("department", "部门", "select", 2)
  const RoleColumn: SearchForm.Column :=
    KeyedColumn("role", "角色", "select", 1).(valueEnum := Some(RoleEnum))
  const StatusColumn: SearchForm.Column :=
    KeyedColumn("status", "状态", "select", 5).(valueEnum := Some(StatusEnum))
  const EmailColumn: SearchForm.Column := KeyedColumn("email", "邮箱", "text", 6)
  const PhoneColumn: SearchForm.Column :=
    KeyedColumn("phone", "电话", "text", 0).(hideInSearch := true)
  const CreateTimeColumn: SearchForm.Column :=
    KeyedColumn("createTime", "创建时间", "dateTime", 0).(hideInSearch := true)
  const ActionsColumn: SearchForm.Column :=
    SearchForm.Column("actions", Some("操作"), None, "", "", "", true, None, "option", None, 0, 0)

  /** The nine columns in display order. */
  const Columns: seq<SearchForm.Column> := [
    UsernameColumn, NameColumn, DepartmentColumn, RoleColumn, StatusColumn,
    EmailColumn, PhoneColumn, CreateTimeColumn, ActionsColumn]

  lemma {:induction false} LeadingCandidates(lead: seq<SearchForm.Column>)
    requires lead == [UsernameColumn, NameColumn, DepartmentColumn, RoleColumn, StatusColumn]
    ensures SearchForm.Candidates(lead) ==
      [SearchForm.ToField(UsernameColumn), SearchForm.ToField(NameColumn), SearchForm.ToField(DepartmentColumn),
       SearchForm.ToField(RoleColumn), SearchForm.ToField(StatusColumn)]
  {
    assert SearchForm.Searchable(UsernameColumn) && SearchForm.Searchable(NameColumn);
    assert SearchForm.Searchable(DepartmentColumn) && SearchForm.Searchable(RoleColumn);
    assert SearchForm.Searchable(StatusColumn);
    SearchForm.CandidatesCons(StatusColumn, []);
    SearchForm.CandidatesCons(RoleColumn, [StatusColumn]);
    SearchForm.CandidatesCons(DepartmentColumn, [RoleColumn, StatusColumn]);
    SearchForm.CandidatesCons(NameColumn, [DepartmentColumn, RoleColumn, StatusColumn]);
    SearchForm.CandidatesCons(UsernameColumn, [NameColumn, DepartmentColumn, RoleColumn, StatusColumn]);
    assert [StatusColumn] + [] == [StatusColumn];
    assert [RoleColumn] + [StatusColumn] == [RoleColumn, StatusColumn];
    assert [DepartmentColumn] + [RoleColumn, StatusColumn] == [DepartmentColumn, RoleColumn, StatusColumn];
    assert [NameColumn] + [DepartmentColumn, RoleColumn, StatusColumn]
        == [NameColumn, DepartmentColumn, RoleColumn, StatusColumn];
    assert [UsernameColumn] + [NameColumn, DepartmentColumn, RoleColumn, StatusColumn] == lead;
  }

  lemma {:induction false} TrailingCandidates(trail: seq<SearchForm.Column>)
    requires trail == [EmailColumn, PhoneColumn, CreateTimeColumn, ActionsColumn]
    ensures SearchForm.Candidates(trail) == [SearchForm.ToField(EmailColumn)]
  {
    assert SearchForm.Searchable(EmailColumn);
    assert !SearchForm.Searchable(PhoneColumn) && !SearchForm.Searchable(CreateTimeColumn);
    assert !SearchForm.Searchable(ActionsColumn);
    SearchForm.CandidatesCons(ActionsColumn, []);
    SearchForm.CandidatesCons(CreateTimeColumn, [ActionsColumn]);
    SearchForm.CandidatesCons(PhoneColumn, [CreateTimeColumn, ActionsColumn]);
    SearchForm.CandidatesCons(EmailColumn, [PhoneColumn, CreateTimeColumn, ActionsColumn]);
    assert [ActionsColumn] + [] == [ActionsColumn];
    assert [CreateTimeColumn] + [ActionsColumn] == [CreateTimeColumn, ActionsColumn];
    assert [PhoneColumn] + [CreateTimeColumn, ActionsColumn] == [PhoneColumn, CreateTimeColumn, ActionsColumn];
    assert [EmailColumn] + [PhoneColumn, CreateTimeColumn, ActionsColumn] == trail;
  }

  /** Fields with orders [4, 3, 2, 1, 5, 6] sort to positions
      [5, 4, 0, 1, 2, 3]. */
  lemma SortUserFields(fu: SearchForm.SearchField, fn: SearchForm.SearchField, fd: SearchForm.SearchField,
                       fr: SearchForm.SearchField, fs: SearchForm.SearchField, fe: SearchForm.SearchField)
    requires fu.order == 4 && fn.order == 3 && fd.order == 2 && fr.order == 1 && fs.order == 5 && fe.order == 6
    ensures SearchForm.SortByOrder([fu, fn, fd, fr, fs, fe]) == [fe, fs, fu, fn, fd, fr]
  {
    var s4 := [fu, fn, fd, fr];
    LeadingFieldsSorted(fu, fn, fd, fr);
    SixAsFourAndTwo(fu, fn, fd, fr, fs, fe);
    SortTwoHigher(s4, fs, fe);
  }

  lemma SixAsFourAndTwo(a: SearchForm.SearchField, b: SearchForm.SearchField, c: SearchForm.SearchField,
                        d: SearchForm.SearchField, x: SearchForm.SearchField, y: SearchForm.SearchField)
    ensures [a, b, c, d] + [x] + [y] == [a, b, c, d, x, y]
    ensures [y, x] + [a, b, c, d] == [y, x, a, b, c, d]
  {
  }

  /** Two fields appended after a sorted list, each ordered above all
      before it, end up first, the later one leading. */
  lemma SortTwoHigher(s: seq<SearchForm.SearchField>, x: SearchForm.SearchField, y: SearchForm.SearchField)
    requires SearchForm.SortByOrder(s) == s
    requires forall i :: 0 <= i < |s| ==> s[i].order < x.order
    requires x.order < y.order
    ensures SearchForm.SortByOrder(s + [x] + [y]) == [y, x] + s
  {
    SearchForm.SortSnoc(s, x);
    SearchForm.SortSnoc(s + [x], y);
    InsertAtFront(s, x);
    PrependBelow(s, x, y);
    InsertAtFront([x] + s, y);
    PrependTwice(s, x, y);
  }

  lemma PrependBelow(s: seq<SearchForm.SearchField>, x: SearchForm.SearchField, y: SearchForm.SearchField)
    requires forall i :: 0 <= i < |s| ==> s[i].order < x.order
    requires x.order < y.order
    ensures forall i :: 0 <= i < |[x] + s| ==> ([x] + s)[i].order < y.order
  {
  }

  lemma PrependTwice(s: seq<SearchForm.SearchField>, x: SearchForm.SearchField, y: SearchForm.SearchField)
    ensures [y] + ([x] + s) == [y, x] + s
  {
  }

  lemma LeadingFieldsSorted(fu: SearchForm.SearchField, fn: SearchForm.SearchField,
                            fd: SearchForm.SearchField, fr: SearchForm.SearchField)
    requires fu.order >= fn.order >= fd.order >= fr.order
    ensures SearchForm.SortByOrder([fu, fn, fd, fr]) == [fu, fn, fd, fr]
  {
    var s := [fu, fn, fd, fr];
    assert |s| == 4 && s[0].order >= s[1].order >= s[2].order >= s[3].order;
    assert SearchForm.NonIncreasingOrder(s);
    SearchForm.OrderedIsFixed(s);
  }

  /** A field whose order exceeds every order in a sorted list goes first. */
  lemma {:induction false} InsertAtFront(t: seq<SearchForm.SearchField>, x: SearchForm.SearchField)
    requires forall i :: 0 <= i < |t| ==> t[i].order < x.order
    ensures SearchForm.InsertByOrder(t, x) == [x] + t
  {
    if t != [] {
      var init := t[..|t| - 1];
      InsertAtFront(init, x);
      assert [x] + init + [t[|t| - 1]] == [x] + t;
    }
  }

  /** The search form built from the users columns: email, status,
      username, name, department and role, by non-increasing order; the
      role and status selects offer the valueEnum texts, the department
      select none. */
  lemma DerivedSearchFields()
    ensures var fs := SearchForm.DeriveFields(Columns);
      && SearchForm.FieldKeys(fs) == ["email", "status", "username", "name", "department", "role"]
      && fs[0].kind == SearchForm.Input && fs[1].kind == SearchForm.Select
      && fs[4].kind == SearchForm.Select && fs[4].options == None
      && fs[1].options == Some([SearchForm.SelectOption("启用", "active"), SearchForm.SelectOption("禁用", "inactive")])
  {
    var lead := [UsernameColumn, NameColumn, DepartmentColumn, RoleColumn, StatusColumn];
    var trail := [EmailColumn, PhoneColumn, CreateTimeColumn, ActionsColumn];
    assert Columns == lead + trail;
    SearchForm.CandidatesAppend(lead, trail);
    LeadingCandidates(lead);
    TrailingCandidates(trail);
    var fu, fn, fd := SearchForm.ToField(UsernameColumn), SearchForm.ToField(NameColumn), SearchForm.ToField(DepartmentColumn);
    var fr, fs, fe := SearchForm.ToField(RoleColumn), SearchForm.ToField(StatusColumn), SearchForm.ToField(EmailColumn);
    assert SearchForm.Candidates(Columns) == [fu, fn, fd, fr, fs, fe];
    SortUserFields(fu, fn, fd, fr, fs, fe);
    SortedFieldFacts(SearchForm.DeriveFields(Columns));
  }

  lemma {:induction false} SortedFieldFacts(fs: seq<SearchForm.SearchField>)
    requires fs == [SearchForm.ToField(EmailColumn), SearchForm.ToField(StatusColumn), SearchForm.ToField(UsernameColumn),
                    SearchForm.ToField(NameColumn), SearchForm.ToField(DepartmentColumn), SearchForm.ToField(RoleColumn)]
    ensures SearchForm.FieldKeys(fs) == ["email", "status", "username", "name", "department", "role"]
    ensures fs[0].kind == SearchForm.Input && fs[1].kind == SearchForm.Select
    ensures fs[4].kind == SearchForm.Select && fs[4].options == None
    ensures fs[1].options == Some([SearchForm.SelectOption("启用", "active"), SearchForm.SelectOption("禁用", "inactive")])
  {
    var keys := SearchForm.FieldKeys(fs);
    assert keys[0] == "email" && keys[1] == "status" && keys[2] == "username";
    assert keys[3] == "name" && keys[4] == "department" && keys[5] == "role";
    StatusFieldOptions(fs[1]);
  }

  lemma StatusFieldOptions(f: SearchForm.SearchField)
    requires f == SearchForm.ToField(StatusColumn)
    ensures f.kind == SearchForm.Select
    ensures f.options == Some([SearchForm.SelectOption("启用", "active"), SearchForm.SelectOption("禁用", "inactive")])
  {
    var o := SearchForm.OptionsOf(StatusColumn).value;
    assert |o| == 2;
    assert o[0] == SearchForm.SelectOption("启用", "active");
    assert o[1] == SearchForm.SelectOption("禁用", "inactive");
    assert o == [SearchForm.SelectOption("启用", "active"), SearchForm.SelectOption("禁用", "inactive")];
  }
}
