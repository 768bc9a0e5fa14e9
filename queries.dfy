/** The shapes the services hand to Prisma and back to the controllers: `where`
    filters, the write each mutation performs, and the `{ success, message, data }`
    reply envelope. */
module Queries {
  import opened Common
  import opened Js

  /** One case-insensitive `contains` condition on a column. */
  datatype Clause = ContainsInsensitive(field: string, value: JsValue)

  /** The value of one `where` key: `{ has: v }` on an array column, plain
      equality, or the `OR` of several conditions. */
  datatype Filter = Has(value: JsValue) | Equals(value: JsValue) | AnyOf(clauses: seq<Clause>)

  type Where = map<string, Filter>

  /** The OR of `contains: search` over the given columns, in order. */
  function SearchClauses(search: JsValue, fields: seq<string>): (cs: seq<Clause>)
    ensures |cs| == |fields|
    ensures forall i :: 0 <= i < |fields| ==> cs[i] == ContainsInsensitive(fields[i], search)
  {
    seq(|fields|, i requires 0 <= i < |fields| => ContainsInsensitive(fields[i], search))
  }

  /** The write a mutation asks Prisma for, with the message of its success reply. */
  datatype Mutation =
    | Create(table: Table, data: Dict, message: string)
    | Update(table: Table, id: int, data: Dict, message: string)
    | Delete(table: Table, id: int, message: string)

  /** What a read reply carries. */
  datatype Data = NoData | Row(row: Dict) | Rows(rows: seq<Dict>) | AdminsAndOperators(admins: seq<Dict>, operators: seq<Dict>)

  datatype Reply = Reply(success: bool, message: Option<string>, data: Data)

  /** `{ success: true, data }` */
  function Success(data: Data): (r: Reply)
    ensures r.success && r.message.None? && r.data == data
  {
    Reply(true, None, data)
  }

  /** `findUnique` on a key followed by `if (!row) throw new NotFoundException(message)`. */
  function FindOr<K>(key: K, findUnique: K -> Option<Dict>, message: string): (r: Result<Reply>)
    ensures r.Ok? <==> findUnique(key).Some?
    ensures r.Ok? ==> r.value == Success(Row(findUnique(key).value))
    ensures r.Err? ==> r.error == NotFound(message) && r.error.status == 404
  {
    match findUnique(key)
    case Some(row) => Ok(Success(Row(row)))
    case None => Err(NotFound(message))
  }
}
