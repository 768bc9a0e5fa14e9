/** `DirectorsService`: the lookup by id and the data written by create, update
    and delete. */
module DirectorsService {
  import opened Common
  import opened Js
  import opened Queries

  /** `getDirector(id)`: the row, or NotFound `Director not found`. */
  function GetDirector(id: int, findUnique: int -> Option<Dict>): (r: Result<Reply>)
    ensures r.Ok? <==> findUnique(id).Some?
    ensures r.Ok? ==> r.value == Success(Row(findUnique(id).value))
    ensures r.Err? ==> r.error == NotFound("Director not found")
  {
    FindOr(id, findUnique, "Director not found")
  }

  /** `createDirector(dto)`: eight columns, `cities` defaulting to `[]`; a
      director has no `statusWork` and none is written. */
  function CreateDirector(dto: Dict): (m: Mutation)
    ensures m.Create? && m.table == DirectorTable && m.message == "Director created successfully"
    ensures m.data.Keys == {"name", "login", "password", "cities", "tgId", "passportDoc", "contractDoc", "note"}
    ensures forall k :: k in m.data && k != "cities" ==> m.data[k] == Get(dto, k)
    ensures m.data["cities"] == if Truthy(Get(dto, "cities")) then Get(dto, "cities") else Arr([])
    ensures "statusWork" !in m.data
  {
    Create(DirectorTable,
           map["name" := Get(dto, "name"), "login" := Get(dto, "login"), "password" := Get(dto, "password"),
               "cities" := Or(Get(dto, "cities"), Arr([])), "tgId" := Get(dto, "tgId"),
               "passportDoc" := Get(dto, "passportDoc"), "contractDoc" := Get(dto, "contractDoc"),
               "note" := Get(dto, "note")],
           "Director created successfully")
  }

  const UpdateFields: seq<string> := ["name", "login", "password", "cities"]

  /** `updateDirector(id, dto)`: a partial update of the director `id`. */
  function UpdateDirector(id: int, dto: Dict): (m: Mutation)
    ensures m.Update? && m.table == DirectorTable && m.id == id && m.message == "Director updated successfully"
  {
    Update(DirectorTable, id, PatchData(dto, UpdateFields), "Director updated successfully")
  }

  /** Name, login, password and cities are written only when truthy and `note`
      whenever it is not `undefined`; the Telegram id and the documents set at
      creation can never be changed through the update. */
  lemma UpdateDirectorWrites(id: int, dto: Dict)
    ensures forall k :: k in UpdateDirector(id, dto).data <==>
      (k in UpdateFields && Truthy(Get(dto, k))) || (k == "note" && Get(dto, "note") != Undefined)
    ensures forall k :: k in UpdateDirector(id, dto).data ==> UpdateDirector(id, dto).data[k] == dto[k]
    ensures forall k :: k in {"tgId", "passportDoc", "contractDoc", "statusWork"} ==> k !in UpdateDirector(id, dto).data
  {
  }

  /** `deleteDirector(id)`: deletes director `id`. */
  function DeleteDirector(id: int): (m: Mutation)
    ensures m.Delete? && m.table == DirectorTable && m.id == id
  {
    Delete(DirectorTable, id, "Director deleted successfully")
  }

  /** Update and delete act on the director named by the path's id. */
  lemma MutationsTargetOneDirector(id: int, dto: Dict)
    ensures DeleteDirector(id).Delete? && DeleteDirector(id).table == DirectorTable && DeleteDirector(id).id == id
    ensures UpdateDirector(id, dto).id == DeleteDirector(id).id
    ensures DeleteDirector(id).message != UpdateDirector(id, dto).message
  {
  }
}
