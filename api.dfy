/**
 * The backend calls the shipment page makes, as values. A call is either issued
 * (appended to the page's request log) or not; what the server answers is
 * supplied from outside as one of the outcome datatypes below.
 */
module Api {
  import opened Common

  /** A row of the shipment history as the list endpoint returns it (the fields the page reads). */
  datatype Record = Record(chulhaCd: string, chulhaDt: Date, amt: Number, bigo: Option<string>)

  /** Body of `POST /api/chulha/insert`. */
  datatype InsertPayload = InsertPayload(chulhaDt: Date, jepumCd: string, venderCd: string, amt: Option<Number>, bigo: string)

  /** Body of `PUT /api/chulha/update`. */
  datatype UpdatePayload = UpdatePayload(chulhaCd: string, amt: Option<Number>, bigo: string)

  /** The endpoint a request goes to, with its query or body. */
  datatype Call =
    | LoadProducts(tabGbnCd: string)              // GET /api/common/jepum
    | LoadVenders(tabGbnCd: string)               // GET /api/common/vender
    | ListChulha(fromDt: Date, toDt: Date)        // GET /api/chulha/list
    | InsertChulha(insert: InsertPayload)         // POST /api/chulha/insert
    | UpdateChulha(update: UpdatePayload)         // PUT /api/chulha/update
    | DeleteChulha(chulhaCd: string)              // DELETE /api/chulha/delete

  /** One issued request: every call carries the page's `v_db` partition. */
  datatype Request = Request(db: string, call: Call)

  /** Category code sent as `tab_gbn_cd` with both catalog loads; for vendors it selects the sales vendors. */
  const CatalogCategory: string := "01"

  /**
   * Outcome of a GET whose body is parsed and used without looking at the
   * status: either a parsed list, or a failure (network or parse) caught by
   * `.catch`. A parsed body that is not a list is not represented.
   */
  datatype Fetched<T> = Received(data: T) | FetchFailed

  /** Outcome of the insert: `response.ok` with the new `chulha_cd`, not ok with the server's `error`, or an exception. */
  datatype InsertReply = Created(chulhaCd: string) | Rejected(error: string) | InsertThrown

  /** Outcome of an update or a delete: `res.ok`, not ok, or an exception. */
  datatype Reply = Ok | NotOk | Thrown
}
