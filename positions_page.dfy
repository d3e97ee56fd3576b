/** The positions page (app/admin/positions/page.tsx): the list of
    positions, the search criteria and the position being edited, the
    handlers that change them, the filtered list and its statistics. */
module PositionsPage {
  import opened JsPrelude
  import opened SearchForm
  import opened PositionColumns
  import opened PositionForm

  // ------------------------------------------------------------ filtering

  /** JavaScript truthiness of a criterion value. */
  predicate Truthy(v: FieldValue)
  {
    match v
    case Undef => false
    case Text(s) => s != ""
    case Flag(b) => b
  }

  /** `String(value)` */
  function JsString(v: FieldValue): string
  {
    match v
    case Undef => "undefined"
    case Text(s) => s
    case Flag(b) => if b then "true" else "false"
  }

  /** `field.toLowerCase().includes(String(value).toLowerCase())` */
  predicate ContainsIgnoringCase(field: string, v: FieldValue)
  {
    Contains(ToLower(field), ToLower(JsString(v)))
  }

  /** One criterion of the filter: an empty value passes; name, code,
      department and description match case-insensitive substrings; level
      and status match exactly; any other key passes. */
  predicate PassesCriterion(p: Position, key: string, v: FieldValue)
  {
    if !Truthy(v) then true
    else if key == "name" then ContainsIgnoringCase(p.name, v)
    else if key == "code" then ContainsIgnoringCase(p.code, v)
    else if key == "department" then ContainsIgnoringCase(p.department, v)
    else if key == "level" then v == Text(p.level)
    else if key == "status" then v == Text(p.status)
    else if key == "description" then ContainsIgnoringCase(p.description, v)
    else true
  }

  /** A position is kept when every criterion passes. */
  predicate MatchesAll(params: map<string, FieldValue>, p: Position)
  {
    forall k :: k in params ==> PassesCriterion(p, k, params[k])
  }

  function Matcher(params: map<string, FieldValue>): Position -> bool
  {
    (p: Position) => MatchesAll(params, p)
  }

  /** filteredPositions */
  function FilterPositions(positions: seq<Position>, params: map<string, FieldValue>): seq<Position>
  {
    if |params| == 0 then positions else Filter(positions, Matcher(params))
  }

  /** The filtered list keeps exactly the positions every criterion
      accepts, in their order, and is a subsequence of the list; with no
      criteria, or only empty ones, it is the whole list. */
  lemma FilterSpec(positions: seq<Position>, params: map<string, FieldValue>, p: Position)
    ensures p in FilterPositions(positions, params) <==> p in positions && MatchesAll(params, p)
    ensures IsSubsequence(FilterPositions(positions, params), positions)
    ensures (forall k :: k in params ==> !Truthy(params[k])) ==> FilterPositions(positions, params) == positions
  {
    if |params| == 0 {
      SubsequenceOfItself(positions);
    } else {
      FilterMembership(positions, Matcher(params), p);
      FilterIsSubsequence(positions, Matcher(params));
      if forall k :: k in params ==> !Truthy(params[k]) {
        FilterAllPass(positions, Matcher(params));
      }
    }
  }

  lemma {:induction false} SubsequenceOfItself<T>(s: seq<T>)
    ensures IsSubsequence(s, s)
  {
    if s != [] {
      SubsequenceOfItself(s[..|s| - 1]);
    }
  }

  /** Searching by name is case-insensitive on ASCII letters: "fe" finds a
      position whose name contains "FE". */
  lemma NameSearchIgnoresCase(p: Position)
    requires p.name == "FE工程师"
    ensures PassesCriterion(p, "name", Text("fe"))
  {
    var hay := ToLower(p.name);
    assert hay[0] == 'f' && hay[1] == 'e';
    assert ToLower(JsString(Text("fe"))) == "fe";
    assert MatchAt(hay, "fe", 0) by {
      assert hay[0..2] == "fe";
    }
  }

  /** Level matches exactly: "P2" never finds a "P21" position. */
  lemma LevelMatchesExactly(p: Position, q: string)
    requires q != ""
    ensures PassesCriterion(p, "level", Text(q)) <==> p.level == q
  {
  }

  /** Typing part of a position's name, code, department or description
      finds it, whatever the case of the letters; level and status must
      be typed in full; criteria with any other key never hide a position. */
  lemma SearchFindsSubstrings(p: Position, key: string, q: string)
    requires q != ""
    ensures key == "name" && Contains(p.name, q) ==> PassesCriterion(p, key, Text(q))
    ensures key == "code" && Contains(p.code, q) ==> PassesCriterion(p, key, Text(q))
    ensures key == "department" && Contains(p.department, q) ==> PassesCriterion(p, key, Text(q))
    ensures key == "description" && Contains(p.description, q) ==> PassesCriterion(p, key, Text(q))
    ensures key == "status" ==> (PassesCriterion(p, key, Text(q)) <==> p.status == q)
    ensures key !in {"name", "code", "department", "level", "status", "description"} ==>
      PassesCriterion(p, key, Text(q))
  {
    if key == "name" && Contains(p.name, q) {
      ContainsIgnoresCase(p.name, q);
    } else if key == "code" && Contains(p.code, q) {
      ContainsIgnoresCase(p.code, q);
    } else if key == "department" && Contains(p.department, q) {
      ContainsIgnoresCase(p.department, q);
    } else if key == "description" && Contains(p.description, q) {
      ContainsIgnoresCase(p.description, q);
    }
  }

  /** For name, code, department and description the letter case of the
      query does not matter: two queries that agree once lower-cased find
      the same positions, and the query typed in lower case finds what it
      finds. */
  lemma QueryCaseDoesNotMatter(p: Position, key: string, q: string, q2: string)
    requires q != ""
    ensures key in {"name", "code", "department", "description"} && ToLower(q2) == ToLower(q) ==>
      (PassesCriterion(p, key, Text(q2)) <==> PassesCriterion(p, key, Text(q)))
    ensures key in {"name", "code", "department", "description"} ==>
      (PassesCriterion(p, key, Text(ToLower(q))) <==> PassesCriterion(p, key, Text(q)))
  {
    if ToLower(q2) == ToLower(q) {
      assert |q2| == |q|;
    }
    ToLowerIdempotent(q);
  }

  // ------------------------------------------------------------ list updates

  function IdIsNot(id: string): Position -> bool
  {
    (p: Position) => p.id != id
  }

  /** The list without the positions with that id. */
  function WithoutId(positions: seq<Position>, id: string): seq<Position>
  {
    Filter(positions, IdIsNot(id))
  }

  /** Removal keeps every other position, in order, and no position with
      the id. */
  lemma WithoutIdSpec(positions: seq<Position>, id: string, p: Position)
    ensures p in WithoutId(positions, id) <==> p in positions && p.id != id
    ensures IsSubsequence(WithoutId(positions, id), positions)
  {
    FilterMembership(positions, IdIsNot(id), p);
    FilterIsSubsequence(positions, IdIsNot(id));
  }

  /** The list with the status of the positions with that id replaced.
      AlertsPage.WithStatus is the same map-by-id update over alerts; the two
      pages each write it for their own record type. */
  function WithStatus(positions: seq<Position>, id: string, status: string): (r: seq<Position>)
    ensures |r| == |positions|
    ensures forall i :: 0 <= i < |r| ==>
      r[i] == if positions[i].id == id then positions[i].(status := status) else positions[i]
  {
    seq(|positions|, i requires 0 <= i < |positions| =>
      if positions[i].id == id then positions[i].(status := status) else positions[i])
  }

  /** Disabling a 正常 position and enabling it again restores the list. */
  lemma DisableThenEnableRestores(positions: seq<Position>, id: string)
    requires forall i :: 0 <= i < |positions| && positions[i].id == id ==> positions[i].status == "正常"
    ensures WithStatus(WithStatus(positions, id, "禁用"), id, "正常") == positions
  {
  }

  /** The merge of an edit: `{...p, ...data, userCount, createTime}`. */
  function Merge(p: Position, data: PositionValues): (r: Position)
    ensures r.id == p.id && r.userCount == p.userCount && r.createTime == p.createTime
    ensures ValuesOf(r) == data
  {
    Position(p.id, data.name, data.code, data.department, data.level, data.description,
             data.requirements, p.userCount, data.status, p.createTime)
  }

  /** The list with the edited position's form fields overwritten. */
  function WithEdit(positions: seq<Position>, id: string, data: PositionValues): (r: seq<Position>)
    ensures |r| == |positions|
    ensures forall i :: 0 <= i < |r| ==>
      r[i] == if positions[i].id == id then Merge(positions[i], data) else positions[i]
  {
    seq(|positions|, i requires 0 <= i < |positions| =>
      if positions[i].id == id then Merge(positions[i], data) else positions[i])
  }

  /** The record an add creates. */
  function NewPosition(id: string, data: PositionValues, createTime: string): (p: Position)
    ensures p.id == id && p.userCount == 0 && p.createTime == createTime
    ensures ValuesOf(p) == data
  {
    Position(id, data.name, data.code, data.department, data.level, data.description,
             data.requirements, 0, data.status, createTime)
  }

  /** Editing a position and submitting its own fields unchanged leaves the
      list as it was. */
  lemma UnchangedEditIsIdentity(positions: seq<Position>, p: Position)
    requires forall i :: 0 <= i < |positions| && positions[i].id == p.id ==> ValuesOf(positions[i]) == ValuesOf(p)
    ensures WithEdit(positions, p.id, ValuesOf(p)) == positions
  {
  }

  // ------------------------------------------------------------ statistics

  function SumUsers(positions: seq<Position>): int
  {
    if positions == [] then 0 else SumUsers(positions[..|positions| - 1]) + positions[|positions| - 1].userCount
  }

  predicate IsActivePosition(p: Position)
  {
    p.status == "正常"
  }

  /** The three counts the page shows: total, active and users. */
  datatype Statistics = Statistics(total: nat, active: nat, users: int)

  function StatisticsOf(list: seq<Position>): (s: Statistics)
    ensures s.active <= s.total == |list|
  {
    Statistics(|list|, Count(list, IsActivePosition), SumUsers(list))
  }

  /** With no negative userCount the user total is non-negative. */
  lemma {:induction false} UsersNonNegative(list: seq<Position>)
    requires forall i :: 0 <= i < |list| ==> list[i].userCount >= 0
    ensures SumUsers(list) >= 0
  {
    if list != [] {
      UsersNonNegative(list[..|list| - 1]);
    }
  }

  /** Removing positions that have no users does not change the user total,
      which is why deletion is guarded by userCount. */
  lemma {:induction false} RemovingEmptyPositionsKeepsUsers(positions: seq<Position>, id: string)
    requires forall i :: 0 <= i < |positions| && positions[i].id == id ==> positions[i].userCount == 0
    ensures SumUsers(WithoutId(positions, id)) == SumUsers(positions)
  {
    if positions != [] {
      var init := positions[..|positions| - 1];
      RemovingEmptyPositionsKeepsUsers(init, id);
      var r := WithoutId(init, id);
      var last := positions[|positions| - 1];
      if last.id != id {
        assert WithoutId(positions, id) == r + [last];
        assert (r + [last])[..|r|] == r;
      }
    }
  }

  // ------------------------------------------------------------ the page

  class PositionsPageState {
    var positions: seq<Position>
    var searchParams: map<string, FieldValue>
    var editing: Option<Position>
    var dialogOpen: bool

    constructor (initial: seq<Position>)
      ensures positions == initial && searchParams == map[] && editing == None && !dialogOpen
    {
      positions, searchParams, editing, dialogOpen := initial, map[], None, false;
    }

    function Filtered(): seq<Position>
      reads this
    {
      FilterPositions(positions, searchParams)
    }

    /** handleDeletePosition: refused while the position has users;
        otherwise every position with its id is removed. */
    method Delete(position: Position) returns (deleted: bool)
      modifies this`positions
      ensures deleted <==> position.userCount <= 0
      ensures !deleted ==> positions == old(positions)
      ensures deleted ==> positions == WithoutId(old(positions), position.id)
    {
      if position.userCount > 0 {
        deleted := false;
        return;
      }
      positions := WithoutId(positions, position.id);
      deleted := true;
    }

    /** handleDisablePosition: refused while the position has users;
        otherwise the position's status becomes 禁用. */
    method Disable(position: Position) returns (disabled: bool)
      modifies this`positions
      ensures disabled <==> position.userCount <= 0
      ensures !disabled ==> positions == old(positions)
      ensures disabled ==> positions == WithStatus(old(positions), position.id, "禁用")
    {
      if position.userCount > 0 {
        disabled := false;
        return;
      }
      positions := WithStatus(positions, position.id, "禁用");
      disabled := true;
    }

    /** handleEnablePosition: no guard; the status becomes 正常. */
    method Enable(position: Position)
      modifies this`positions
      ensures positions == WithStatus(old(positions), position.id, "正常")
    {
      positions := WithStatus(positions, position.id, "正常");
    }

    /** handleEditPosition: the position goes into the dialog. */
    method EditPosition(position: Position)
      modifies this`editing, this`dialogOpen
      ensures editing == Some(position) && dialogOpen
    {
      editing, dialogOpen := Some(position), true;
    }

    /** The dialog's onOpenChange: closing forgets the edited position. */
    method DialogOpenChange(open: bool)
      modifies this`editing, this`dialogOpen
      ensures dialogOpen == open
      ensures editing == if open then old(editing) else None
    {
      dialogOpen := open;
      if !open {
        editing := None;
      }
    }

    /** handleFormSubmit: an edit overwrites the edited position's fields,
        keeping its id, userCount and createTime; an add puts a new
        position with no users first. The dialog closes either way.
        `newId` and `now` stand for Date.now() and the locale time. */
    method FormSubmit(data: PositionValues, newId: string, now: string)
      modifies this`positions, this`editing, this`dialogOpen
      ensures old(editing).Some? ==> positions == WithEdit(old(positions), old(editing).value.id, data)
      ensures old(editing).None? ==> positions == [NewPosition(newId, data, now)] + old(positions)
      ensures editing == None && !dialogOpen
    {
      if editing.Some? {
        positions := WithEdit(positions, editing.value.id, data);
      } else {
        positions := [NewPosition(newId, data, now)] + positions;
      }
      dialogOpen := false;
      editing := None;
    }

    /** The search form's onSearch: the criteria replace the old ones. */
    method Search(criteria: map<string, FieldValue>)
      modifies this`searchParams
      ensures searchParams == criteria
    {
      searchParams := criteria;
    }

    /** The search form's onReset: no criteria, so every position shows. */
    method ResetSearch()
      modifies this`searchParams
      ensures searchParams == map[]
      ensures Filtered() == positions
    {
      searchParams := map[];
    }
  }

  /** After an add the new position is first and, with no criteria, shown
      first; the count grows by one. */
  lemma AddShowsFirst(positions: seq<Position>, data: PositionValues, newId: string, now: string)
    ensures var l := [NewPosition(newId, data, now)] + positions;
      FilterPositions(l, map[])[0] == NewPosition(newId, data, now) &&
      StatisticsOf(FilterPositions(l, map[])).total == |positions| + 1
  {
  }
}
