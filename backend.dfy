/** The shape of an answer from the hosted tables, shared by the views that read them. */
module Backend {

  /** A select query either reports an error or returns `data`, which may be null. */
  datatype QueryResult<T> = QueryFailed | QueryRows(data: QueryData<T>)

  datatype QueryData<T> = Null | Rows(rows: seq<T>)

  /** `data || []`. */
  function RowsOrEmpty<T>(data: QueryData<T>): (r: seq<T>)
    ensures data.Null? ==> r == []
    ensures data.Rows? ==> r == data.rows
  {
    match data
    case Null => []
    case Rows(rows) => rows
  }
}
