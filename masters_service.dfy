/** `MastersService`: the list filter, the lookup by id, and the data written by
    create, update, delete and the document update. */
module MastersService {
  import opened Common
  import opened Js
  import opened Queries

  /** `getMasters(query)`: the `where` object built up one field at a time from the
      query's `city`, `statusWork` and `search`; falsy values add nothing. */
  method GetMastersWhere(query: Dict) returns (where: Where)
    ensures "cities" in where <==> Truthy(Get(query, "city"))
    ensures "cities" in where ==> where["cities"] == Has(Get(query, "city"))
    ensures "statusWork" in where <==> Truthy(Get(query, "statusWork"))
    ensures "statusWork" in where ==> where["statusWork"] == Equals(Get(query, "statusWork"))
    ensures "OR" in where <==> Truthy(Get(query, "search"))
    ensures "OR" in where ==> where["OR"] == AnyOf(SearchClauses(Get(query, "search"), ["name", "login", "phone"]))
    ensures forall k :: k in where ==> k == "cities" || k == "statusWork" || k == "OR"
    ensures !Truthy(Get(query, "city")) && !Truthy(Get(query, "statusWork")) && !Truthy(Get(query, "search")) ==>
      where == map[]
  {
    var city := Get(query, "city");
    var statusWork := Get(query, "statusWork");
    var search := Get(query, "search");

    where := map[];

    if Truthy(city) {
      where := where["cities" := Has(city)];
    }

    if Truthy(statusWork) {
      where := where["statusWork" := Equals(statusWork)];
    }

    if Truthy(search) {
      where := where["OR" := AnyOf(SearchClauses(search, ["name", "login", "phone"]))];
    }
  }

  /** `getMaster(id)`: the row, or NotFound `Master not found`. */
  function GetMaster(id: int, findUnique: int -> Option<Dict>): (r: Result<Reply>)
    ensures r.Ok? <==> findUnique(id).Some?
    ensures r.Ok? ==> r.value == Success(Row(findUnique(id).value))
    ensures r.Err? ==> r.error == NotFound("Master not found")
  {
    FindOr(id, findUnique, "Master not found")
  }

  /** `createMaster(dto)`: the seven columns, with `cities` defaulting to `[]` and
      `statusWork` to `active` when falsy; the documents are never written here. */
  function CreateMaster(dto: Dict): (m: Mutation)
    ensures m.Create? && m.table == MasterTable && m.message == "Master created successfully"
    ensures m.data.Keys == {"name", "login", "password", "phone", "cities", "statusWork", "note"}
    ensures forall k :: k in {"name", "login", "password", "phone", "note"} ==> m.data[k] == Get(dto, k)
    ensures m.data["cities"] == if Truthy(Get(dto, "cities")) then Get(dto, "cities") else Arr([])
    ensures m.data["statusWork"] == if Truthy(Get(dto, "statusWork")) then Get(dto, "statusWork") else Str("active")
    ensures Truthy(m.data["cities"]) && Truthy(m.data["statusWork"])
  {
    Create(MasterTable,
           map["name" := Get(dto, "name"), "login" := Get(dto, "login"), "password" := Get(dto, "password"),
               "phone" := Get(dto, "phone"), "cities" := Or(Get(dto, "cities"), Arr([])),
               "statusWork" := Or(Get(dto, "statusWork"), Str("active")), "note" := Get(dto, "note")],
           "Master created successfully")
  }

  /** The fields `updateMaster` may write when truthy; `note` is handled apart. */
  const UpdateFields: seq<string> := ["name", "login", "password", "phone", "cities", "statusWork"]

  /** `updateMaster(id, dto)`: a partial update of the master `id`. */
  function UpdateMaster(id: int, dto: Dict): (m: Mutation)
    ensures m.Update? && m.table == MasterTable && m.id == id && m.message == "Master updated successfully"
  {
    Update(MasterTable, id, PatchData(dto, UpdateFields), "Master updated successfully")
  }

  /** A field is written exactly when it is truthy, `note` whenever it is not
      `undefined`, each with the DTO's value; no document and no other column is
      ever written by the update, however the DTO is filled. */
  lemma UpdateMasterWrites(id: int, dto: Dict)
    ensures forall k :: k in UpdateMaster(id, dto).data <==>
      (k in UpdateFields && Truthy(Get(dto, k))) || (k == "note" && Get(dto, "note") != Undefined)
    ensures forall k :: k in UpdateMaster(id, dto).data ==> UpdateMaster(id, dto).data[k] == dto[k]
    ensures "contractDoc" !in UpdateMaster(id, dto).data && "passportDoc" !in UpdateMaster(id, dto).data
    ensures "id" !in UpdateMaster(id, dto).data
    ensures Get(dto, "note") == Null ==> UpdateMaster(id, dto).data["note"] == Null
  {
  }

  /** `deleteMaster(id)` */
  function DeleteMaster(id: int): (m: Mutation)
    ensures m.Delete? && m.table == MasterTable && m.id == id
  {
    Delete(MasterTable, id, "Master deleted successfully")
  }

  /** Update, document update and delete act on the master named by the path's id
      alone, and each reply names its own operation. */
  lemma MutationsTargetOneMaster(id: int, dto: Dict, body: Dict)
    ensures DeleteMaster(id).Delete? && DeleteMaster(id).table == MasterTable && DeleteMaster(id).id == id
    ensures UpdateMaster(id, dto).id == DeleteMaster(id).id == UpdateDocuments(id, body).id
    ensures UpdateMaster(id, dto).message != UpdateDocuments(id, body).message
    ensures DeleteMaster(id).message != UpdateMaster(id, dto).message
  {
  }

  const DocumentFields: seq<string> := ["contractDoc", "passportDoc"]

  /** `updateDocuments(id, body)`: writes only the truthy document links. */
  function UpdateDocuments(id: int, body: Dict): (m: Mutation)
    ensures m.Update? && m.table == MasterTable && m.id == id && m.message == "Documents updated successfully"
  {
    Update(MasterTable, id, PickTruthy(body, DocumentFields), "Documents updated successfully")
  }

  /** Only `contractDoc` and `passportDoc` can be written, each only when truthy;
      with neither, the data map is empty. */
  lemma UpdateDocumentsWrites(id: int, body: Dict)
    ensures forall k :: k in UpdateDocuments(id, body).data <==> k in DocumentFields && Truthy(Get(body, k))
    ensures forall k :: k in UpdateDocuments(id, body).data ==> UpdateDocuments(id, body).data[k] == body[k]
    ensures !Truthy(Get(body, "contractDoc")) && !Truthy(Get(body, "passportDoc")) ==>
      UpdateDocuments(id, body).data == map[]
  {
    var d := UpdateDocuments(id, body).data;
    if !Truthy(Get(body, "contractDoc")) && !Truthy(Get(body, "passportDoc")) {
      assert forall k :: k !in d;
    }
  }
}
