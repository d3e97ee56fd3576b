/** The column-driven search form (components/ui/table-search-form.tsx):
    search fields derived from column descriptors, the validation schema and
    default values built from the fields, the 24-unit grid layout, the
    collapsed/expanded state, and what submit and reset hand to the page. */
module SearchForm {
  import opened JsPrelude

  // ------------------------------------------------------------ descriptors

  /** One entry of a column's valueEnum: the raw value and its display text,
      in the order Object.entries lists them. */
  datatype EnumEntry = EnumEntry(value: string, text: string)

  /** A column descriptor as the search form reads it. For accessorKey,
      dataIndex, key, id and valueType an absent property and "" behave the
      same in the source (both are falsy), so "" stands for both; likewise 0
      stands for an absent order or colSize. title and header count only
      when they are strings (a header may be a render function). */
  datatype Column = Column(
    id: string,
    title: Option<string>,
    header: Option<string>,
    accessorKey: string,
    dataIndex: string,
    key: string,
    hideInSearch: bool,
    search: Option<bool>,
    valueType: string,
    valueEnum: Option<seq<EnumEntry>>,
    order: int,
    colSize: int)

  /** A column bound to a record property, with a string header and a value
      type, and every other property absent. */
  function BoundColumn(accessorKey: string, header: string, valueType: string): Column
  {
    Column("", None, Some(header), accessorKey, "", "", false, None, valueType, None, 0, 0)
  }

  /** The input control a search field renders. */
  datatype FieldKind =
    | Input | Select | Textarea | Number | Password | Email | Tel | Url | SearchBox
    | Date | DatetimeLocal | Time | Month | Week | Color | Range | Checkbox | Radio | File

  datatype SelectOption = SelectOption(caption: string, value: string)

  /** A search field. `validation` names a caller-supplied validator. */
  datatype SearchField = SearchField(
    key: string,
    caption: string,
    kind: FieldKind,
    options: Option<seq<SelectOption>>,
    colSize: int,
    order: int,
    required: bool,
    validation: Option<string>)

  // ------------------------------------------------------------ derivation

  /** The filter of generateSearchFieldsFromColumns. */
  predicate Searchable(c: Column)
  {
    && !c.hideInSearch
    && c.search != Some(false)
    && c.id != "select" && c.id != "actions"
    && c.valueType != "option"
    && (c.accessorKey != "" || c.dataIndex != "")
  }

  function KeyOf(c: Column): string
  {
    if c.accessorKey != "" then c.accessorKey
    else if c.dataIndex != "" then c.dataIndex
    else c.key
  }

  function LabelOf(c: Column): string
  {
    match c.title
    case Some(t) => t
    case None => (match c.header case Some(h) => h case None => KeyOf(c))
  }

  /** The valueType switch; absent means "text", unknown types fall back to
      a text input. */
  function KindOfValueType(valueType: string): FieldKind
  {
    if valueType == "text" then Input
    else if valueType == "select" then Select
    else if valueType == "date" then Date
    else if valueType == "dateRange" then Date
    else if valueType == "textarea" then Textarea
    else if valueType == "number" then Number
    else if valueType == "password" then Password
    else if valueType == "email" then Email
    else if valueType == "tel" then Tel
    else if valueType == "url" then Url
    else if valueType == "search" then SearchBox
    else if valueType == "datetime-local" then DatetimeLocal
    else if valueType == "time" then Time
    else if valueType == "month" then Month
    else if valueType == "week" then Week
    else if valueType == "color" then Color
    else if valueType == "range" then Range
    else if valueType == "checkbox" then Checkbox
    else if valueType == "radio" then Radio
    else if valueType == "file" then File
    else Input
  }

  /** The value types the switch names. */
  const KnownValueTypes: set<string> := {
    "text", "select", "date", "dateRange", "textarea", "number", "password", "email", "tel",
    "url", "search", "datetime-local", "time", "month", "week", "color", "range", "checkbox",
    "radio", "file"}

  function KindOf(c: Column): FieldKind
  {
    if c.valueEnum.Some? then Select
    else KindOfValueType(if c.valueType == "dateTime" then "date"
                         else if c.valueType == "" then "text" else c.valueType)
  }

  function OptionsOf(c: Column): Option<seq<SelectOption>>
  {
    match c.valueEnum
    case None => None
    case Some(entries) =>
      Some(seq(|entries|, i requires 0 <= i < |entries| => SelectOption(entries[i].text, entries[i].value)))
  }

  /** The map step: the search field a retained column becomes. */
  function ToField(c: Column): SearchField
  {
    SearchField(KeyOf(c), LabelOf(c), KindOf(c), OptionsOf(c),
                if c.colSize == 0 then 1 else c.colSize, c.order, false, None)
  }

  /** Filter and map, in column order. */
  function Candidates(cols: seq<Column>): (r: seq<SearchField>)
    ensures |r| <= |cols|
  {
    if cols == [] then []
    else Candidates(cols[..|cols| - 1]) +
         (if Searchable(cols[|cols| - 1]) then [ToField(cols[|cols| - 1])] else [])
  }

  /** Stable insertion of x after every element whose order is at least
      x's, the step of a stable sort by non-increasing order. */
  function InsertByOrder(t: seq<SearchField>, x: SearchField): (r: seq<SearchField>)
    ensures multiset(r) == multiset(t) + multiset{x}
  {
    if t == [] || t[|t| - 1].order >= x.order then t + [x]
    else
      assert t == t[..|t| - 1] + [t[|t| - 1]];
      InsertByOrder(t[..|t| - 1], x) + [t[|t| - 1]]
  }

  /** `.sort((a, b) => b.order - a.order)`; Array.prototype.sort is stable
      since ECMAScript 2019. */
  function SortByOrder(s: seq<SearchField>): (r: seq<SearchField>)
    ensures multiset(r) == multiset(s)
  {
    if s == [] then []
    else
      assert s == s[..|s| - 1] + [s[|s| - 1]];
      InsertByOrder(SortByOrder(s[..|s| - 1]), s[|s| - 1])
  }

  /** generateSearchFieldsFromColumns */
  function DeriveFields(cols: seq<Column>): seq<SearchField>
  {
    SortByOrder(Candidates(cols))
  }

  predicate NonIncreasingOrder(s: seq<SearchField>)
  {
    forall i, j :: 0 <= i < j < |s| ==> s[i].order >= s[j].order
  }

  /** The fields of s whose order is k, in the order s has them. */
  function WithOrder(s: seq<SearchField>, k: int): seq<SearchField>
  {
    if s == [] then []
    else WithOrder(s[..|s| - 1], k) + (if s[|s| - 1].order == k then [s[|s| - 1]] else [])
  }

  lemma {:induction false} InsertKeepsOrder(t: seq<SearchField>, x: SearchField)
    requires NonIncreasingOrder(t)
    ensures NonIncreasingOrder(InsertByOrder(t, x))
  {
    if t != [] && t[|t| - 1].order < x.order {
      var init, y := t[..|t| - 1], t[|t| - 1];
      InsertKeepsOrder(init, x);
      var u := InsertByOrder(init, x);
      forall i | 0 <= i < |u|
        ensures u[i].order >= y.order
      {
        assert u[i] in multiset(u);
        assert u[i] in multiset(init) || u[i] == x;
        if u[i] != x {
          var j :| 0 <= j < |init| && init[j] == u[i];
        }
      }
    }
  }

  lemma {:induction false} InsertIsStable(t: seq<SearchField>, x: SearchField, k: int)
    ensures WithOrder(InsertByOrder(t, x), k) == WithOrder(t, k) + (if x.order == k then [x] else [])
  {
    if t == [] || t[|t| - 1].order >= x.order {
      assert InsertByOrder(t, x) == t + [x];
      WithOrderSnoc(t, x, k);
    } else {
      var init, y := t[..|t| - 1], t[|t| - 1];
      InsertIsStable(init, x, k);
      assert t == init + [y];
      InsertPastStable(init, y, x, k);
    }
  }

  /** The step of InsertIsStable: x passes a last element y ordered below
      it. */
  lemma InsertPastStable(init: seq<SearchField>, y: SearchField, x: SearchField, k: int)
    requires y.order < x.order
    requires WithOrder(InsertByOrder(init, x), k) == WithOrder(init, k) + (if x.order == k then [x] else [])
    ensures WithOrder(InsertByOrder(init + [y], x), k) == WithOrder(init + [y], k) + (if x.order == k then [x] else [])
  {
    var u := InsertByOrder(init, x);
    InsertPast(init, y, x);
    WithOrderSnoc(u, y, k);
    WithOrderSnoc(init, y, k);
    var a := WithOrder(init, k);
    if x.order == k {
      assert y.order != k;
      assert WithOrder(u + [y], k) == WithOrder(u, k) == a + [x];
      assert WithOrder(init + [y], k) == a;
    } else {
      assert WithOrder(u, k) == a + [] == a;
      assert WithOrder(init + [y], k) == WithOrder(u + [y], k);
    }
  }

  lemma InsertPast(init: seq<SearchField>, y: SearchField, x: SearchField)
    requires y.order < x.order
    ensures InsertByOrder(init + [y], x) == InsertByOrder(init, x) + [y]
  {
    assert (init + [y])[..|init|] == init;
  }

  lemma WithOrderSnoc(s: seq<SearchField>, y: SearchField, k: int)
    ensures WithOrder(s + [y], k) == WithOrder(s, k) + (if y.order == k then [y] else [])
  {
    assert (s + [y])[..|s|] == s;
  }

  /** The derived order is non-increasing, and fields of equal order keep
      their relative column order (the sort is stable). */
  lemma {:induction false} SortIsStableAndOrdered(s: seq<SearchField>)
    ensures NonIncreasingOrder(SortByOrder(s))
    ensures forall k :: WithOrder(SortByOrder(s), k) == WithOrder(s, k)
  {
    if s != [] {
      var init, x := s[..|s| - 1], s[|s| - 1];
      SortIsStableAndOrdered(init);
      InsertKeepsOrder(SortByOrder(init), x);
      forall k
        ensures WithOrder(SortByOrder(s), k) == WithOrder(s, k)
      {
        InsertIsStable(SortByOrder(init), x, k);
      }
    }
  }

  lemma {:induction false} CandidateMembership(cols: seq<Column>, f: SearchField)
    ensures f in Candidates(cols) <==> exists c :: c in cols && Searchable(c) && ToField(c) == f
  {
    if cols != [] {
      var init, last := cols[..|cols| - 1], cols[|cols| - 1];
      CandidateMembership(init, f);
      assert cols == init + [last];
      if f in Candidates(cols) && f !in Candidates(init) {
        assert Searchable(last) && ToField(last) == f;
      }
    }
  }

  lemma {:induction false} CandidatesAreDerivedShape(cols: seq<Column>)
    ensures forall f :: f in Candidates(cols) ==> !f.required && f.validation == None && f.colSize != 0
  {
    if cols != [] {
      CandidatesAreDerivedShape(cols[..|cols| - 1]);
    }
  }

  /** What generateSearchFieldsFromColumns promises: a field comes from a
      column exactly when that column passes the filter; the result is a
      permutation of the filtered, mapped columns, ordered by non-increasing
      order, stable among equal orders; derived fields are never required
      and carry no validator. */
  lemma DeriveFieldsSpec(cols: seq<Column>)
    ensures var r := DeriveFields(cols);
      && (forall f :: f in r <==> exists c :: c in cols && Searchable(c) && ToField(c) == f)
      && multiset(r) == multiset(Candidates(cols))
      && NonIncreasingOrder(r)
      && (forall k :: WithOrder(r, k) == WithOrder(Candidates(cols), k))
      && (forall f :: f in r ==> !f.required && f.validation == None && f.colSize != 0)
  {
    var r := DeriveFields(cols);
    SortIsStableAndOrdered(Candidates(cols));
    CandidatesAreDerivedShape(cols);
    forall f
      ensures f in r <==> exists c :: c in cols && Searchable(c) && ToField(c) == f
    {
      CandidateMembership(cols, f);
      assert f in r <==> f in multiset(r);
      assert f in Candidates(cols) <==> f in multiset(Candidates(cols));
    }
    forall f | f in r
      ensures !f.required && f.validation == None && f.colSize != 0
    {
      assert f in multiset(r);
      assert f in Candidates(cols);
    }
  }

  /** Key, label, control and options of a derived field: the key is
      accessorKey, else dataIndex, else key; the label the string title,
      else the string header, else the key; a valueEnum forces a select with
      one option per entry in entry order; otherwise dateTime and dateRange
      become a date input and absent or unknown types a text input. */
  lemma ToFieldSpec(c: Column)
    ensures var f := ToField(c);
      && (c.accessorKey != "" ==> f.key == c.accessorKey)
      && (c.accessorKey == "" && c.dataIndex != "" ==> f.key == c.dataIndex)
      && (c.title.Some? ==> f.caption == c.title.value)
      && (c.title.None? && c.header.Some? ==> f.caption == c.header.value)
      && (c.title.None? && c.header.None? ==> f.caption == f.key)
      && (c.valueEnum.Some? ==> f.kind == Select && f.options.Some?)
      && (c.valueEnum.Some? ==> |f.options.value| == |c.valueEnum.value|)
      && (c.valueEnum.Some? ==> forall i :: 0 <= i < |f.options.value| ==>
            f.options.value[i] == SelectOption(c.valueEnum.value[i].text, c.valueEnum.value[i].value))
      && (c.valueEnum.None? ==> f.options.None?)
      && (c.valueEnum.None? && (c.valueType == "dateTime" || c.valueType == "dateRange") ==> f.kind == Date)
      && (c.valueEnum.None? && c.valueType !in KnownValueTypes && c.valueType != "dateTime" ==> f.kind == Input)
      && f.colSize == (if c.colSize == 0 then 1 else c.colSize)
      && f.order == c.order
  {
  }

  /** When every column passes the filter, each becomes a field in place. */
  lemma {:induction false} CandidatesOfSearchable(cols: seq<Column>)
    requires forall i :: 0 <= i < |cols| ==> Searchable(cols[i])
    ensures Candidates(cols) == seq(|cols|, i requires 0 <= i < |cols| => ToField(cols[i]))
  {
    if cols != [] {
      var init, c := cols[..|cols| - 1], cols[|cols| - 1];
      CandidatesOfSearchable(init);
      var fields := seq(|cols|, i requires 0 <= i < |cols| => ToField(cols[i]));
      assert Candidates(cols) == Candidates(init) + [ToField(c)];
      assert fields == fields[..|init|] + [ToField(c)];
      assert fields[..|init|] == seq(|init|, i requires 0 <= i < |init| => ToField(init[i]));
    }
  }

  /** Candidates of a concatenation are the concatenated candidates. */
  lemma {:induction false} CandidatesAppend(a: seq<Column>, b: seq<Column>)
    ensures Candidates(a + b) == Candidates(a) + Candidates(b)
  {
    if b == [] {
      assert a + b == a;
    } else {
      CandidatesAppend(a, b[..|b| - 1]);
      assert (a + b)[..|a + b| - 1] == a + b[..|b| - 1];
    }
  }

  /** Candidates of a list are the head's field, if searchable, then the
      candidates of the rest. */
  lemma CandidatesCons(c: Column, rest: seq<Column>)
    ensures Candidates([c] + rest) == (if Searchable(c) then [ToField(c)] else []) + Candidates(rest)
  {
    CandidatesAppend([c], rest);
    assert [c][..0] == [];
  }

  /** The keys of a list of fields, in order. */
  function FieldKeys(fields: seq<SearchField>): (keys: seq<string>)
    ensures |keys| == |fields|
    ensures forall i :: 0 <= i < |fields| ==> keys[i] == fields[i].key
  {
    if fields == [] then [] else FieldKeys(fields[..|fields| - 1]) + [fields[|fields| - 1].key]
  }

  /** Columns that all leave `order` unset keep their column order. */
  lemma UnorderedColumnsKeepOrder(cols: seq<Column>)
    requires forall i :: 0 <= i < |cols| ==> cols[i].order == 0
    ensures DeriveFields(cols) == Candidates(cols)
  {
    UnorderedCandidates(cols);
    OrderedIsFixed(Candidates(cols));
  }

  lemma {:induction false} UnorderedCandidates(cols: seq<Column>)
    requires forall i :: 0 <= i < |cols| ==> cols[i].order == 0
    ensures forall i :: 0 <= i < |Candidates(cols)| ==> Candidates(cols)[i].order == 0
  {
    if cols != [] {
      UnorderedCandidates(cols[..|cols| - 1]);
    }
  }

  /** Orders [5, 1, 1, 3] at column positions [0, 1, 2, 3] come out as
      positions [0, 3, 1, 2]. */
  lemma DeriveFieldsExample(cols: seq<Column>)
    requires |cols| == 4 && forall i :: 0 <= i < 4 ==> Searchable(cols[i])
    requires cols[0].order == 5 && cols[1].order == 1 && cols[2].order == 1 && cols[3].order == 3
    ensures DeriveFields(cols) == [ToField(cols[0]), ToField(cols[3]), ToField(cols[1]), ToField(cols[2])]
  {
    CandidatesOfSearchable(cols);
    var fs := [ToField(cols[0]), ToField(cols[1]), ToField(cols[2]), ToField(cols[3])];
    assert Candidates(cols) == fs;
    SortByOrderExample(fs[0], fs[1], fs[2], fs[3]);
  }

  lemma SortByOrderExample(fa: SearchField, fb: SearchField, fc: SearchField, fd: SearchField)
    requires fa.order == 5 && fb.order == 1 && fc.order == 1 && fd.order == 3
    ensures SortByOrder([fa, fb, fc, fd]) == [fa, fd, fb, fc]
  {
    FourAsPieces(fa, fb, fc, fd);
    SortSnoc([fa, fb, fc], fd);
    ThreeSorted(fa, fb, fc);
    InsertPast([fa, fb], fc, fd);
    InsertPast([fa], fb, fd);
    InsertStops([fa], fd);
  }

  lemma FourAsPieces(fa: SearchField, fb: SearchField, fc: SearchField, fd: SearchField)
    ensures [fa, fb, fc] + [fd] == [fa, fb, fc, fd]
    ensures [fa, fb] + [fc] == [fa, fb, fc] && [fa] + [fb] == [fa, fb]
    ensures [fa] + [fd] + [fb] + [fc] == [fa, fd, fb, fc]
  {
  }

  /** x stays last behind a last element of at least its order. */
  lemma InsertStops(t: seq<SearchField>, x: SearchField)
    requires t != [] && t[|t| - 1].order >= x.order
    ensures InsertByOrder(t, x) == t + [x]
  {
  }

  lemma ThreeSorted(fa: SearchField, fb: SearchField, fc: SearchField)
    requires fa.order >= fb.order >= fc.order
    ensures SortByOrder([fa, fb, fc]) == [fa, fb, fc]
  {
    var s := [fa, fb, fc];
    assert |s| == 3 && s[0].order >= s[1].order >= s[2].order;
    assert NonIncreasingOrder(s);
    OrderedIsFixed(s);
  }

  /** Sorting one more field inserts it into the sorted rest. */
  lemma SortSnoc(s: seq<SearchField>, x: SearchField)
    ensures SortByOrder(s + [x]) == InsertByOrder(SortByOrder(s), x)
  {
    assert (s + [x])[..|s|] == s;
  }

  /** A column hidden from search, one switched off with `search: false`,
      the selection and actions columns, an "option" column and one bound
      to no property never become fields. */
  lemma ExcludedColumns(c: Column)
    requires c.hideInSearch || c.search == Some(false) || c.id in {"select", "actions"} ||
             c.valueType == "option" || (c.accessorKey == "" && c.dataIndex == "")
    ensures DeriveFields([c]) == []
  {
    assert [c][..0] == [];
  }

  // ------------------------------------------------------------ schema and defaults

  /** A field value as the form holds it: unset, a string, or a checkbox's
      boolean. */
  datatype FieldValue = Undef | Text(s: string) | Flag(b: bool)

  /** A field's validation rule: a caller-supplied validator, a non-empty
      string with the message "<label>不能为空", or an optional string. */
  datatype Rule = Custom(validator: string) | RequiredText(message: string) | OptionalText

  function RuleFor(f: SearchField): Rule
  {
    if f.validation.Some? then Custom(f.validation.value)
    else if f.required then RequiredText(f.caption + "不能为空")
    else OptionalText
  }

  /** Whether a value passes a rule; caller-supplied validators are decided
      by `custom`. */
  predicate Accepts(rule: Rule, v: FieldValue, custom: (string, FieldValue) -> bool)
  {
    match rule
    case Custom(name) => custom(name, v)
    case RequiredText(_) => v.Text? && |v.s| >= 1
    case OptionalText => v.Undef? || v.Text?
  }

  function KeysOf(fields: seq<SearchField>): set<string>
  {
    set f | f in fields :: f.key
  }

  /** The schema object createFormSchema fills: one rule per key, a later
      field with the same key overwriting an earlier one. */
  function SchemaOf(fields: seq<SearchField>): map<string, Rule>
  {
    if fields == [] then map[]
    else SchemaOf(fields[..|fields| - 1])[fields[|fields| - 1].key := RuleFor(fields[|fields| - 1])]
  }

  /** createFormSchema: the forEach loop over the fields. */
  method CreateFormSchema(fields: seq<SearchField>) returns (schema: map<string, Rule>)
    ensures schema == SchemaOf(fields)
    ensures schema.Keys == KeysOf(fields)
  {
    schema := map[];
    var i := 0;
    while i < |fields|
      invariant 0 <= i <= |fields|
      invariant schema == SchemaOf(fields[..i])
    {
      assert fields[..i + 1][..i] == fields[..i];
      schema := schema[fields[i].key := RuleFor(fields[i])];
      i := i + 1;
    }
    assert fields[..|fields|] == fields;
    SchemaKeys(fields);
  }

  lemma {:induction false} SchemaKeys(fields: seq<SearchField>)
    ensures SchemaOf(fields).Keys == KeysOf(fields)
  {
    if fields != [] {
      var init := fields[..|fields| - 1];
      SchemaKeys(init);
      assert fields == init + [fields[|fields| - 1]];
      assert KeysOf(fields) == KeysOf(init) + {fields[|fields| - 1].key};
    }
  }

  /** The rule a key gets is that of the last field with that key. */
  lemma {:induction false} SchemaLastFieldWins(fields: seq<SearchField>, i: int)
    requires 0 <= i < |fields|
    requires forall j :: i < j < |fields| ==> fields[j].key != fields[i].key
    ensures fields[i].key in SchemaOf(fields) && SchemaOf(fields)[fields[i].key] == RuleFor(fields[i])
  {
    if i < |fields| - 1 {
      SchemaLastFieldWins(fields[..|fields| - 1], i);
    }
  }

  /** Fields derived from columns never set `required` or a validator, so
      every rule of their schema is the optional string. */
  lemma DerivedSchemaIsOptional(cols: seq<Column>)
    ensures forall k :: k in SchemaOf(DeriveFields(cols)) ==> SchemaOf(DeriveFields(cols))[k] == OptionalText
  {
    DeriveFieldsSpec(cols);
    SchemaOfShapedFields(DeriveFields(cols));
  }

  lemma {:induction false} SchemaOfShapedFields(fields: seq<SearchField>)
    requires forall f :: f in fields ==> !f.required && f.validation == None
    ensures forall k :: k in SchemaOf(fields) ==> SchemaOf(fields)[k] == OptionalText
  {
    if fields != [] {
      SchemaOfShapedFields(fields[..|fields| - 1]);
    }
  }

  /** getDefaultValues: every field's key set to "". */
  method GetDefaultValues(fields: seq<SearchField>) returns (defaults: map<string, FieldValue>)
    ensures defaults.Keys == KeysOf(fields)
    ensures forall k :: k in defaults ==> defaults[k] == Text("")
  {
    defaults := map[];
    var i := 0;
    while i < |fields|
      invariant 0 <= i <= |fields|
      invariant defaults.Keys == KeysOf(fields[..i])
      invariant forall k :: k in defaults ==> defaults[k] == Text("")
    {
      assert KeysOf(fields[..i + 1]) == KeysOf(fields[..i]) + {fields[i].key} by {
        assert fields[..i + 1] == fields[..i] + [fields[i]];
      }
      defaults := defaults[fields[i].key := Text("")];
      i := i + 1;
    }
    assert fields[..|fields|] == fields;
  }

  /** The default values as a value: the map getDefaultValues builds. */
  function DefaultsOf(fields: seq<SearchField>): (d: map<string, FieldValue>)
    ensures d.Keys == KeysOf(fields)
  {
    map k | k in KeysOf(fields) :: Text("")
  }

  // ------------------------------------------------------------ layout

  datatype LayoutMode = Horizontal | Vertical

  /** getColSpan: the grid units (of 24) one field takes. */
  function ColSpan(layout: LayoutMode, width: int): int
  {
    if layout == Vertical then 24
    else if width >= 1352 then 6
    else if width >= 1062 then 8
    else if width >= 702 && width < 1062 then 8
    else if width <= 701 then 24
    else 24
  }

  /** getFieldsPerRow: Math.floor(24 / colSpan). */
  function FieldsPerRow(layout: LayoutMode, width: int): int
  {
    24 / ColSpan(layout, width)
  }

  /** actualLayout: narrow containers switch to the vertical layout. */
  function ActualLayout(layout: LayoutMode, width: int): LayoutMode
  {
    if layout == Horizontal && width <= 701 then Vertical else layout
  }

  /** The breakpoints of the 24-unit grid. */
  lemma LayoutBreakpoints(layout: LayoutMode, width: int)
    ensures layout == Vertical ==> ColSpan(layout, width) == 24
    ensures layout == Horizontal && width >= 1352 ==> ColSpan(layout, width) == 6
    ensures layout == Horizontal && 702 <= width <= 1351 ==> ColSpan(layout, width) == 8
    ensures layout == Horizontal && width <= 701 ==> ColSpan(layout, width) == 24
    ensures FieldsPerRow(layout, width) in {1, 3, 4}
    ensures FieldsPerRow(layout, width) * ColSpan(layout, width) == 24
    ensures ActualLayout(layout, width) == Vertical <==> layout == Vertical || width <= 701
    ensures ActualLayout(layout, width) == Horizontal ==> ColSpan(layout, width) in {6, 8}
    ensures FieldsPerRow(Horizontal, 1200) == 3
  {
  }

  /** getActualDefaultColsNumber: a truthy defaultColsNumber minus one,
      otherwise one less than a row, but at least one. */
  function ActualDefaultColsNumber(defaultColsNumber: Option<int>, layout: LayoutMode, width: int): int
  {
    if defaultColsNumber.Some? && defaultColsNumber.value != 0 then defaultColsNumber.value - 1
    else Max(1, FieldsPerRow(layout, width) - 1)
  }

  /** visibleFieldsCount */
  function VisibleCount(collapsed: bool, actualDefault: int, n: int): int
  {
    if collapsed then Min(actualDefault, n) else n
  }

  /** hasMoreFields: the expand/collapse control is shown. */
  predicate HasMoreFields(n: int, actualDefault: int)
  {
    n > actualDefault
  }

  /** The grid span of the action buttons: the rest of the current row, or a
      full row when the row is full or the layout is vertical. */
  function ActionSpan(actualLayout: LayoutMode, visibleCount: int, fieldsPerRow: int, colSpan: int): int
    requires fieldsPerRow > 0
  {
    if actualLayout == Vertical then 24
    else
      var remainder := JsRem(visibleCount, fieldsPerRow);
      if remainder == 0 then 24 else (fieldsPerRow - remainder) * colSpan
  }

  /** The grid span of one rendered field. */
  function FieldSpan(f: SearchField, fieldsPerRow: int, colSpan: int): int
    requires fieldsPerRow > 0
  {
    if f.colSize != 0 then Min(f.colSize * (24 / fieldsPerRow), 24) else colSpan
  }

  /** The collapsed count is defaultColsNumber - 1 when that is truthy and
      otherwise max(1, fieldsPerRow - 1); the visible count is bounded by
      both it and the number of fields when collapsed; and the toggle is
      shown iff there are more fields than the collapsed count. */
  lemma CollapsedCountSpec(defaultColsNumber: Option<int>, layout: LayoutMode, width: int, collapsed: bool, n: nat)
    ensures var d := ActualDefaultColsNumber(defaultColsNumber, layout, width);
      && (defaultColsNumber.None? || defaultColsNumber == Some(0) ==> 1 <= d <= 3)
      && (collapsed ==> VisibleCount(collapsed, d, n) <= n && VisibleCount(collapsed, d, n) <= d)
      && (!collapsed ==> VisibleCount(collapsed, d, n) == n)
      && (HasMoreFields(n, d) <==> VisibleCount(true, d, n) < n)
  {
    LayoutBreakpoints(layout, width);
  }

  /** In the horizontal layout the action span counts fields, not grid
      units: the columns the fields of the last row would take at the
      default width, plus the action group, make 24 units; a full last row
      gives the action group a row of its own. This fills the row exactly
      when every visible field has colSize 1 (UnitFieldsEndRow); a wider
      field is still counted as one. */
  lemma ActionSpanFillsRow(layout: LayoutMode, width: int, visibleCount: nat)
    requires ActualLayout(layout, width) == Horizontal
    ensures var perRow := FieldsPerRow(layout, width);
      var span := ActionSpan(Horizontal, visibleCount, perRow, ColSpan(layout, width));
      var remainder := visibleCount % perRow;
      && (remainder == 0 ==> span == 24)
      && (remainder != 0 ==> remainder * ColSpan(layout, width) + span == 24 && 0 < span < 24)
  {
    LayoutBreakpoints(layout, width);
  }

  /** A field with the default colSize of 1 takes exactly one column. */
  lemma UnitFieldTakesOneColumn(f: SearchField, layout: LayoutMode, width: int)
    requires f.colSize == 1
    ensures FieldSpan(f, FieldsPerRow(layout, width), ColSpan(layout, width)) == ColSpan(layout, width)
  {
    LayoutBreakpoints(layout, width);
  }

  /** The grid units the rendered fields take together. */
  function SpanSum(fields: seq<SearchField>, fieldsPerRow: int, colSpan: int): int
    requires fieldsPerRow > 0
  {
    if fields == [] then 0
    else SpanSum(fields[..|fields| - 1], fieldsPerRow, colSpan) + FieldSpan(fields[|fields| - 1], fieldsPerRow, colSpan)
  }

  /** Unit fields take one column each. */
  lemma {:induction false} UnitFieldsSpanSum(fields: seq<SearchField>, layout: LayoutMode, width: int)
    requires forall i :: 0 <= i < |fields| ==> fields[i].colSize == 1
    ensures SpanSum(fields, FieldsPerRow(layout, width), ColSpan(layout, width)) == |fields| * ColSpan(layout, width)
  {
    if fields != [] {
      UnitFieldsSpanSum(fields[..|fields| - 1], layout, width);
      UnitFieldTakesOneColumn(fields[|fields| - 1], layout, width);
    }
  }

  /** When every visible field has colSize 1, the fields and the action
      group together end exactly at the end of a grid row: the rows they
      fill are the full rows of fields plus one. */
  lemma UnitFieldsEndRow(fields: seq<SearchField>, layout: LayoutMode, width: int)
    requires ActualLayout(layout, width) == Horizontal
    requires forall i :: 0 <= i < |fields| ==> fields[i].colSize == 1
    ensures var perRow := FieldsPerRow(layout, width);
      var colSpan := ColSpan(layout, width);
      SpanSum(fields, perRow, colSpan) + ActionSpan(Horizontal, |fields|, perRow, colSpan) ==
        24 * (|fields| / perRow + 1)
  {
    LayoutBreakpoints(layout, width);
    UnitFieldsSpanSum(fields, layout, width);
    var p, c, n := FieldsPerRow(layout, width), ColSpan(layout, width), |fields|;
    var q, r := n / p, n % p;
    assert n == q * p + r;
    assert n * c == q * (p * c) + r * c by {
      assert n * c == (q * p + r) * c;
    }
    if r != 0 {
      assert (p - r) * c == p * c - r * c;
    }
  }

  /** Five columns with orders [4, 3, 2, 1, 0], no defaultColsNumber and a
      1400-unit container: four fields a row, three shown while collapsed
      (the three of highest order), and the toggle shown since 5 > 3. */
  lemma CollapsedScenario(cols: seq<Column>)
    requires |cols| == 5 && forall i :: 0 <= i < 5 ==> Searchable(cols[i]) && cols[i].order == 4 - i
    ensures var d := ActualDefaultColsNumber(None, Horizontal, 1400);
      && FieldsPerRow(Horizontal, 1400) == 4
      && d == 3
      && SliceTo(DeriveFields(cols), VisibleCount(true, d, |DeriveFields(cols)|))
         == [ToField(cols[0]), ToField(cols[1]), ToField(cols[2])]
      && HasMoreFields(|DeriveFields(cols)|, d)
  {
    CandidatesOfSearchable(cols);
    OrderedIsFixed(Candidates(cols));
  }

  /** A list already in non-increasing order is left as it is by the sort. */
  lemma {:induction false} OrderedIsFixed(s: seq<SearchField>)
    requires NonIncreasingOrder(s)
    ensures SortByOrder(s) == s
  {
    if s != [] {
      OrderedIsFixed(s[..|s| - 1]);
      assert s[..|s| - 1] + [s[|s| - 1]] == s;
    }
  }

  // ------------------------------------------------------------ submit

  /** A submitted value is passed on when it is truthy and its string form
      is not blank after trim (`true` reads "true"). */
  predicate Kept(v: FieldValue)
  {
    match v
    case Undef => false
    case Text(s) => s != "" && !IsBlank(s)
    case Flag(b) => b
  }

  /** The criteria handleSubmit passes to onSearch. */
  function Cleaned(data: map<string, FieldValue>): (r: map<string, FieldValue>)
    ensures r.Keys <= data.Keys
    ensures forall k :: k in r <==> k in data && Kept(data[k])
    ensures forall k :: k in r ==> r[k] == data[k]
  {
    map k | k in data && Kept(data[k]) :: data[k]
  }

  /** handleSubmit: the reduce over Object.entries into an accumulator. */
  method CleanCriteria(data: map<string, FieldValue>) returns (acc: map<string, FieldValue>)
    ensures acc.Keys <= data.Keys
    ensures forall k :: k in acc <==> k in data && Kept(data[k])
    ensures forall k :: k in acc ==> acc[k] == data[k]
  {
    acc := map[];
    var rest := data.Keys;
    while rest != {}
      invariant rest <= data.Keys
      invariant forall k :: k in acc <==> k in data && k !in rest && Kept(data[k])
      invariant forall k :: k in acc ==> acc[k] == data[k]
      decreases |rest|
    {
      var k :| k in rest;
      if Kept(data[k]) {
        acc := acc[k := data[k]];
      }
      rest := rest - {k};
    }
  }

  /** Cleaning twice is cleaning once. */
  lemma CleanedIsIdempotent(data: map<string, FieldValue>)
    ensures Cleaned(Cleaned(data)) == Cleaned(data)
  {
  }

  /** Submitting an all-empty form searches with no criteria; submitting
      {name: "张"} with the other fields empty searches with exactly that. */
  lemma SubmitExamples()
    ensures Cleaned(map["name" := Text(""), "code" := Text(""), "status" := Undef]) == map[]
    ensures Cleaned(map["name" := Text("张"), "code" := Text(""), "status" := Text(" ")])
            == map["name" := Text("张")]
  {
    var d := map["name" := Text("张"), "code" := Text(""), "status" := Text(" ")];
    assert "张"[0] == '张' && !IsJsWhitespace('张');
    assert !IsBlank("张");
    assert IsBlank(" ");
    assert Cleaned(d).Keys == {"name"};
  }

  // ------------------------------------------------------------ the component

  /** The props the model reads. `fields` wins over `columns` when given;
      `collapsed` given means controlled mode. */
  datatype Props = Props(
    fields: Option<seq<SearchField>>,
    columns: Option<seq<Column>>,
    collapsed: Option<bool>,
    defaultCollapsed: bool,
    defaultColsNumber: Option<int>,
    layout: LayoutMode,
    hasOnReset: bool,
    hasOnCollapse: bool)

  /** searchFields */
  function SearchFields(props: Props): seq<SearchField>
  {
    if props.fields.Some? then props.fields.value
    else if props.columns.Some? then DeriveFields(props.columns.value)
    else []
  }

  /** The form's state: the uncontrolled collapse flag, the measured
      container width and the current field values. */
  class SearchFormState {
    var internalCollapsed: bool
    var containerWidth: int
    var values: map<string, FieldValue>

    /** The mount: collapse flag from defaultCollapsed, width 1200 until
        measured, and every field "". */
    constructor (props: Props)
      ensures internalCollapsed == props.defaultCollapsed
      ensures containerWidth == 1200
      ensures values == DefaultsOf(SearchFields(props))
    {
      internalCollapsed := props.defaultCollapsed;
      containerWidth := 1200;
      values := DefaultsOf(SearchFields(props));
    }

    /** collapsed: the controlled prop when given, else the internal flag. */
    function Collapsed(props: Props): bool
      reads this
    {
      if props.collapsed.Some? then props.collapsed.value else internalCollapsed
    }

    function ActualDefault(props: Props): int
      reads this
    {
      ActualDefaultColsNumber(props.defaultColsNumber, props.layout, containerWidth)
    }

    /** The fields rendered: searchFields.slice(0, visibleFieldsCount). */
    function RenderedFields(props: Props): seq<SearchField>
      reads this
    {
      var fields := SearchFields(props);
      SliceTo(fields, VisibleCount(Collapsed(props), ActualDefault(props), |fields|))
    }

    /** A resize: the container's measured width becomes the layout width. */
    method Resize(width: int)
      modifies this`containerWidth
      ensures containerWidth == width
    {
      containerWidth := width;
    }

    /** The user edits one field. */
    method SetValue(k: string, v: FieldValue)
      modifies this`values
      ensures values == old(values)[k := v]
    {
      values := values[k := v];
    }

    /** The expand/collapse control (shown only when there are more fields
        than the collapsed count): the new state is the negation of the
        displayed one; the internal flag follows only when uncontrolled; the
        new state is always reported to onCollapse when given. */
    method ToggleCollapse(props: Props) returns (reported: Option<bool>)
      requires HasMoreFields(|SearchFields(props)|, ActualDefault(props))
      modifies this`internalCollapsed
      ensures reported == if props.hasOnCollapse then Some(!old(Collapsed(props))) else None
      ensures props.collapsed.None? ==> internalCollapsed == !old(internalCollapsed)
      ensures props.collapsed.Some? ==> internalCollapsed == old(internalCollapsed)
      ensures props.collapsed.None? ==> Collapsed(props) == !old(Collapsed(props))
    {
      var newCollapsed := !Collapsed(props);
      if props.collapsed.None? {
        internalCollapsed := newCollapsed;
      }
      reported := if props.hasOnCollapse then Some(newCollapsed) else None;
    }

    /** The submit button: when every field passes its rule, onSearch gets
        the cleaned criteria; otherwise submission is blocked. */
    method Submit(props: Props, custom: (string, FieldValue) -> bool)
      returns (searched: Option<map<string, FieldValue>>)
      ensures var schema := SchemaOf(SearchFields(props));
        var valid := forall k :: k in schema ==>
          Accepts(schema[k], if k in values then values[k] else Undef, custom);
        && (valid ==> searched == Some(Cleaned(map k | k in values && k in schema :: values[k])))
        && (!valid ==> searched == None)
    {
      var schema := CreateFormSchema(SearchFields(props));
      var valid := forall k :: k in schema ==>
        Accepts(schema[k], if k in values then values[k] else Undef, custom);
      if valid {
        var parsed := map k | k in values && k in schema :: values[k];
        var criteria := CleanCriteria(parsed);
        assert criteria == Cleaned(parsed);
        searched := Some(criteria);
      } else {
        searched := None;
      }
    }

    /** The reset button: every field back to "" and onReset called when
        given. */
    method Reset(props: Props) returns (calledOnReset: bool)
      modifies this`values
      ensures values.Keys == KeysOf(SearchFields(props))
      ensures forall k :: k in values ==> values[k] == Text("")
      ensures calledOnReset == props.hasOnReset
    {
      var defaults := GetDefaultValues(SearchFields(props));
      values := defaults;
      calledOnReset := props.hasOnReset;
    }
  }

  /** Without validators every all-default form submits, and what it
      submits is empty: a reset followed by a submit searches with {}. */
  lemma DefaultsSubmitNothing(fields: seq<SearchField>)
    ensures Cleaned(DefaultsOf(fields)) == map[]
  {
    assert forall k :: k in DefaultsOf(fields) ==> !Kept(DefaultsOf(fields)[k]);
  }
}
