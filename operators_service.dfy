/** `OperatorsService`: one service over two tables, call-centre admins and
    call-centre operators, chosen by a `type` string on every operation. */
module OperatorsService {
  import opened Common
  import opened Js
  import opened Queries

  datatype Kind = AdminKind | OperatorKind

  const TypeMessage: string := "Type must be \"admin\" or \"operator\""

  /** `type === 'admin'` / `type === 'operator'`: exact, case-sensitive; anything
      else, including an absent type, names no table. */
  function ParseType(t: JsValue): (k: Option<Kind>)
    ensures k == Some(AdminKind) <==> t == Str("admin")
    ensures k == Some(OperatorKind) <==> t == Str("operator")
  {
    if t == Str("admin") then Some(AdminKind)
    else if t == Str("operator") then Some(OperatorKind)
    else None
  }

  /** The table a type acts on: `admin` the admin table, `operator` the operator table. */
  function TableOf(k: Kind): (t: Table)
    ensures t == CallcentreAdminTable <==> k == AdminKind
    ensures t == CallcentreOperatorTable <==> k == OperatorKind
  {
    match k
    case AdminKind => CallcentreAdminTable
    case OperatorKind => CallcentreOperatorTable
  }

  /** `Admin` or `Operator`, the word the replies and errors start with. */
  function Noun(k: Kind): (n: string)
    ensures n == "Admin" <==> k == AdminKind
    ensures n == "Operator" <==> k == OperatorKind
  {
    match k
    case AdminKind => "Admin"
    case OperatorKind => "Operator"
  }

  /** `getOperators(type)`: one table's rows for a known type, otherwise both,
      as `{ admins, operators }`. The rows are what `findMany` returned. */
  function GetOperators(t: JsValue, admins: seq<Dict>, operators: seq<Dict>): (r: Reply)
    ensures r.success && r.message.None?
    ensures t == Str("admin") ==> r.data == Rows(admins)
    ensures t == Str("operator") ==> r.data == Rows(operators)
    ensures ParseType(t).None? ==> r.data == AdminsAndOperators(admins, operators)
  {
    match ParseType(t)
    case Some(AdminKind) => Success(Rows(admins))
    case Some(OperatorKind) => Success(Rows(operators))
    case None => Success(AdminsAndOperators(admins, operators))
  }

  /** `getOperator(id, type)`: the row from the table the type names, NotFound
      `Admin not found` / `Operator not found`, or BadRequest for any other type. */
  function GetOperator(id: int, t: JsValue, findAdmin: int -> Option<Dict>, findOperator: int -> Option<Dict>): (r: Result<Reply>)
    ensures ParseType(t).None? ==> r == Err(BadRequest(TypeMessage))
    ensures t == Str("admin") ==>
      (if findAdmin(id).Some? then r == Ok(Success(Row(findAdmin(id).value))) else r == Err(NotFound("Admin not found")))
    ensures t == Str("operator") ==>
      (if findOperator(id).Some? then r == Ok(Success(Row(findOperator(id).value))) else r == Err(NotFound("Operator not found")))
  {
    match ParseType(t)
    case Some(AdminKind) => FindOr(id, findAdmin, "Admin not found")
    case Some(OperatorKind) => FindOr(id, findOperator, "Operator not found")
    case None => Err(BadRequest(TypeMessage))
  }

  /** `createOperator(dto)`: `dto.type` picks the table; `statusWork` defaults to `active`. */
  function CreateOperator(dto: Dict): (r: Result<Mutation>)
    ensures r.Err? <==> ParseType(Get(dto, "type")).None?
    ensures r.Err? ==> r.error == BadRequest(TypeMessage)
    ensures r.Ok? ==> (r.value.Create? && r.value.table == TableOf(ParseType(Get(dto, "type")).value) &&
                       r.value.message == Noun(ParseType(Get(dto, "type")).value) + " created successfully")
    ensures r.Ok? ==> (r.value.data.Keys == {"name", "login", "password", "statusWork", "note"} &&
                       r.value.data["statusWork"] == Or(Get(dto, "statusWork"), Str("active")) &&
                       forall k :: k in {"name", "login", "password", "note"} ==> r.value.data[k] == Get(dto, k))
  {
    match ParseType(Get(dto, "type"))
    case None => Err(BadRequest(TypeMessage))
    case Some(k) =>
      Ok(Create(TableOf(k),
                map["name" := Get(dto, "name"), "login" := Get(dto, "login"), "password" := Get(dto, "password"),
                    "statusWork" := Or(Get(dto, "statusWork"), Str("active")), "note" := Get(dto, "note")],
                Noun(k) + " created successfully"))
  }

  const UpdateFields: seq<string> := ["name", "login", "password", "statusWork"]

  /** `updateData`, built before the type is inspected and shared by both tables. */
  function UpdateData(dto: Dict): (d: Dict)
    ensures forall k :: k in d <==> (k in UpdateFields && Truthy(Get(dto, k))) || (k == "note" && Get(dto, "note") != Undefined)
    ensures forall k :: k in d ==> k in dto && d[k] == dto[k]
    ensures "type" !in d
  {
    PatchData(dto, UpdateFields)
  }

  /** `updateOperator(id, type, dto)` */
  function UpdateOperator(id: int, t: JsValue, dto: Dict): (r: Result<Mutation>)
    ensures r.Err? <==> ParseType(t).None?
    ensures r.Err? ==> r.error == BadRequest(TypeMessage)
    ensures r.Ok? ==> r.value == Update(TableOf(ParseType(t).value), id, UpdateData(dto),
                                        Noun(ParseType(t).value) + " updated successfully")
  {
    match ParseType(t)
    case None => Err(BadRequest(TypeMessage))
    case Some(k) => Ok(Update(TableOf(k), id, UpdateData(dto), Noun(k) + " updated successfully"))
  }

  /** `deleteOperator(id, type)` */
  function DeleteOperator(id: int, t: JsValue): (r: Result<Mutation>)
    ensures r.Err? <==> ParseType(t).None?
    ensures r.Err? ==> r.error == BadRequest(TypeMessage)
    ensures r.Ok? ==> r.value == Delete(TableOf(ParseType(t).value), id, Noun(ParseType(t).value) + " deleted successfully")
  {
    match ParseType(t)
    case None => Err(BadRequest(TypeMessage))
    case Some(k) => Ok(Delete(TableOf(k), id, Noun(k) + " deleted successfully"))
  }

  /** The dispatch is the same on every operation: `admin` acts on the admin table,
      `operator` on the operator table, and any other type (a capitalised one, an
      absent one) is refused with status 400 before any table is touched. */
  lemma TypeDispatch(id: int, t: JsValue, dto: Dict)
    ensures t == Str("admin") ==> UpdateOperator(id, t, dto).value.table == CallcentreAdminTable &&
                                  DeleteOperator(id, t).value.table == CallcentreAdminTable
    ensures t == Str("operator") ==> UpdateOperator(id, t, dto).value.table == CallcentreOperatorTable &&
                                     DeleteOperator(id, t).value.table == CallcentreOperatorTable
    ensures ParseType(t).None? ==> UpdateOperator(id, t, dto).error.status == 400 && DeleteOperator(id, t).error.status == 400
    ensures ParseType(Str("Admin")).None? && ParseType(Undefined).None?
    ensures Get(dto, "type") == t ==> (CreateOperator(dto).Ok? <==> UpdateOperator(id, t, dto).Ok?)
  {
  }

  /** Both tables receive the same update data: the type only picks the table. */
  lemma UpdateDataIndependentOfType(id: int, dto: Dict)
    ensures UpdateOperator(id, Str("admin"), dto).value.data == UpdateOperator(id, Str("operator"), dto).value.data
    ensures UpdateOperator(id, Str("admin"), dto).value.table != UpdateOperator(id, Str("operator"), dto).value.table
  {
  }
}
