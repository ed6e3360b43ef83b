/**
 * The two-state outcome `Result` of nomad.rb: a status string and a data
 * payload. The factories only ever build the status "ok" or "error".
 */
module Results {

  /** `RESULT_TYPE[:ok]` and `RESULT_TYPE[:error]`. */
  const RESULT_OK := "ok"
  const RESULT_ERROR := "error"

  datatype Result<+D> = Result(status: string, data: D) {

    /** `ok?` */
    predicate IsOk() {
      status == RESULT_OK
    }

    /** `error?` */
    predicate IsError() {
      status == RESULT_ERROR
    }
  }

  /** `Result.ok(data)` */
  function Ok<D>(data: D): (r: Result<D>)
    ensures r.IsOk() && !r.IsError()
    ensures r.data == data
  {
    Result(RESULT_OK, data)
  }

  /** `Result.error(data)` */
  function Error<D>(data: D): (r: Result<D>)
    ensures r.IsError() && !r.IsOk()
    ensures r.data == data
  {
    Result(RESULT_ERROR, data)
  }

  /** No status, however a result was built, answers both `ok?` and `error?`. */
  lemma NeverBoth<D>(r: Result<D>)
    ensures !(r.IsOk() && r.IsError())
  {
  }

}
