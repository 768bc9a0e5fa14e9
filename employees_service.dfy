/** `EmployeesService`: masters and directors listed together, each row tagged
    with its role, optionally filtered by role. */
module EmployeesService {
  import opened Common
  import opened Js
  import opened Queries

  /** The `where` both `findMany` calls use: the name/login OR for a truthy
      search, otherwise `{}`. */
  function SearchWhere(search: JsValue): (w: Where)
    ensures !Truthy(search) ==> w == map[]
    ensures Truthy(search) ==> w.Keys == {"OR"} && w["OR"] == AnyOf(SearchClauses(search, ["name", "login"]))
  {
    if Truthy(search) then map["OR" := AnyOf(SearchClauses(search, ["name", "login"]))] else map[]
  }

  /** `rows.map(r => ({ ...r, role }))` */
  function Tag(rows: seq<Dict>, role: string): (tagged: seq<Dict>)
    ensures |tagged| == |rows|
    ensures forall i :: 0 <= i < |rows| ==> tagged[i] == rows[i]["role" := Str(role)]
  {
    seq(|rows|, i requires 0 <= i < |rows| => rows[i]["role" := Str(role)])
  }

  /** `allEmployees`: the tagged masters, then the tagged directors. */
  function AllEmployees(masters: seq<Dict>, directors: seq<Dict>): (all: seq<Dict>)
    ensures |all| == |masters| + |directors|
    ensures forall i :: 0 <= i < |masters| ==> all[i] == masters[i]["role" := Str("master")]
    ensures forall j :: 0 <= j < |directors| ==> all[|masters| + j] == directors[j]["role" := Str("director")]
    ensures forall x :: x in all ==> Get(x, "role") == Str("master") || Get(x, "role") == Str("director")
  {
    Tag(masters, "master") + Tag(directors, "director")
  }

  /** `items.filter(emp => emp.role === role)`, keeping order. */
  function FilterByRole(items: seq<Dict>, role: JsValue): (out: seq<Dict>)
    ensures |out| <= |items|
    ensures forall x :: x in out ==> x in items && Get(x, "role") == role
    ensures forall x :: x in items && Get(x, "role") == role ==> x in out
  {
    if items == [] then []
    else
      var rest := FilterByRole(items[1..], role);
      if Get(items[0], "role") == role then [items[0]] + rest else rest
  }

  /** The filter walks the list front to back: the first item is kept exactly when
      it has the role, ahead of the filtered rest, so order and repeats are kept. */
  lemma FilterByRoleCons(x: Dict, s: seq<Dict>, role: JsValue)
    ensures FilterByRole([x] + s, role) == (if Get(x, "role") == role then [x] else []) + FilterByRole(s, role)
  {
    assert ([x] + s)[1..] == s;
  }

  /** `getEmployees(query)` over the rows the two `findMany` calls returned. */
  function GetEmployees(query: Dict, masters: seq<Dict>, directors: seq<Dict>): (r: Reply)
    ensures r.success && r.data.Rows?
  {
    var role := Get(query, "role");
    var all := AllEmployees(masters, directors);
    Success(Rows(if Truthy(role) then FilterByRole(all, role) else all))
  }

  /** Without a role every master and every director is listed, masters first,
      each tagged with its table's role. */
  lemma NoRoleListsEveryone(query: Dict, masters: seq<Dict>, directors: seq<Dict>)
    requires !Truthy(Get(query, "role"))
    ensures GetEmployees(query, masters, directors).data.rows == Tag(masters, "master") + Tag(directors, "director")
    ensures |GetEmployees(query, masters, directors).data.rows| == |masters| + |directors|
  {
  }

  /** Filtering on a tag that every item carries keeps every item. */
  lemma {:induction false} FilterAllTagged(rows: seq<Dict>, role: string)
    ensures FilterByRole(Tag(rows, role), Str(role)) == Tag(rows, role)
    decreases |rows|
  {
    if rows != [] {
      FilterAllTagged(rows[1..], role);
      assert Tag(rows, role)[1..] == Tag(rows[1..], role);
    }
  }

  /** Filtering on a tag that no item carries keeps nothing. */
  lemma {:induction false} FilterNoneTagged(rows: seq<Dict>, tag: string, role: JsValue)
    requires role != Str(tag)
    ensures FilterByRole(Tag(rows, tag), role) == []
    decreases |rows|
  {
    if rows != [] {
      FilterNoneTagged(rows[1..], tag, role);
      assert Tag(rows, tag)[1..] == Tag(rows[1..], tag);
    }
  }

  /** Filtering distributes over concatenation. */
  lemma {:induction false} FilterAppend(a: seq<Dict>, b: seq<Dict>, role: JsValue)
    ensures FilterByRole(a + b, role) == FilterByRole(a, role) + FilterByRole(b, role)
    decreases |a|
  {
    if a != [] {
      FilterAppend(a[1..], b, role);
      assert (a + b)[1..] == a[1..] + b;
    } else {
      assert a + b == b;
    }
  }

  /** With a role, every listed item has that role and none having it is dropped;
      `master` gives exactly the tagged masters, `director` exactly the tagged
      directors, and any other role (`callcentre_admin`, say) gives nothing. */
  lemma RoleFilter(query: Dict, masters: seq<Dict>, directors: seq<Dict>)
    requires Truthy(Get(query, "role"))
    ensures var out := GetEmployees(query, masters, directors).data.rows;
      forall x :: x in out <==> x in AllEmployees(masters, directors) && Get(x, "role") == Get(query, "role")
    ensures Get(query, "role") == Str("master") ==>
      GetEmployees(query, masters, directors).data.rows == Tag(masters, "master")
    ensures Get(query, "role") == Str("director") ==>
      GetEmployees(query, masters, directors).data.rows == Tag(directors, "director")
    ensures Get(query, "role") != Str("master") && Get(query, "role") != Str("director") ==>
      GetEmployees(query, masters, directors).data.rows == []
  {
    var role := Get(query, "role");
    FilterAppend(Tag(masters, "master"), Tag(directors, "director"), role);
    if role == Str("master") {
      FilterAllTagged(masters, "master");
      FilterNoneTagged(directors, "director", role);
    } else if role == Str("director") {
      FilterNoneTagged(masters, "master", role);
      FilterAllTagged(directors, "director");
    } else {
      FilterNoneTagged(masters, "master", role);
      FilterNoneTagged(directors, "director", role);
    }
  }
}
