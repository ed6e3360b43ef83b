/**
 * `TunneledClient#req_until` (and `get_until`, which only fixes the verb):
 * fetch, return ok if the wait clause holds, else error if the error clause
 * holds, else sleep and fetch again. The fetches are given as the finite
 * sequence of responses the control plane would answer with; when every one
 * of them leaves the loop waiting, the outcome is `StillWaiting`, since the
 * source has no attempt limit of its own.
 */
module Poll {
  import opened Results

  /** The `{data: response}` hash a poll wraps the response it stopped on in. */
  datatype Polled<T> = Polled(data: T)

  /** How a poll over the supplied responses ends, and after how many fetches. */
  datatype Outcome<T> = Settled(result: Result<Polled<T>>, fetches: nat) | StillWaiting

  /** The error clause `get_until` and `post_until` default to: a block returning nil, never truthy. */
  function DefaultErrorClause<T>(): T -> bool {
    _ => false
  }

  /** A response on which neither clause holds, so the loop sleeps and fetches again. */
  ghost predicate Quiet<T>(r: T, waitClause: T -> bool, errorClause: T -> bool) {
    !waitClause(r) && !errorClause(r)
  }

  /** Response `n` is the first on which either clause holds. */
  ghost predicate StopsAt<T>(rs: seq<T>, waitClause: T -> bool, errorClause: T -> bool, n: nat) {
    && n < |rs|
    && !Quiet(rs[n], waitClause, errorClause)
    && forall j :: 0 <= j < n ==> Quiet(rs[j], waitClause, errorClause)
  }

  function ReqUntil<T>(responses: seq<T>, waitClause: T -> bool, errorClause: T -> bool): (p: Outcome<T>)
    ensures p.StillWaiting? <==> forall j :: 0 <= j < |responses| ==> Quiet(responses[j], waitClause, errorClause)
    ensures p.Settled? ==> p.fetches >= 1 && StopsAt(responses, waitClause, errorClause, p.fetches - 1)
    ensures p.Settled? ==> p.result.data == Polled(responses[p.fetches - 1])
    ensures p.Settled? ==> (p.result.IsOk() <==> waitClause(responses[p.fetches - 1]))
    ensures p.Settled? ==> (p.result.IsError() <==> !waitClause(responses[p.fetches - 1]))
    decreases |responses|
  {
    if |responses| == 0 then StillWaiting
    else if waitClause(responses[0]) then Settled(Ok(Polled(responses[0])), 1)
    else if errorClause(responses[0]) then Settled(Error(Polled(responses[0])), 1)
    else
      match ReqUntil(responses[1..], waitClause, errorClause)
      case StillWaiting => StillWaiting
      case Settled(result, n) => Settled(result, n + 1)
  }

  /** At most one response is the first to stop the loop. */
  lemma StopIndexUnique<T>(rs: seq<T>, waitClause: T -> bool, errorClause: T -> bool, n: nat, m: nat)
    requires StopsAt(rs, waitClause, errorClause, n) && StopsAt(rs, waitClause, errorClause, m)
    ensures n == m
  {
  }

  /**
   * The first response on which the wait clause holds, with every earlier one
   * quiet, ends the poll as ok, whether or not the error clause also holds on it.
   */
  lemma FirstWaitMatchIsOk<T>(rs: seq<T>, waitClause: T -> bool, errorClause: T -> bool, n: nat)
    requires n < |rs| && waitClause(rs[n])
    requires forall j :: 0 <= j < n ==> Quiet(rs[j], waitClause, errorClause)
    ensures ReqUntil(rs, waitClause, errorClause) == Settled(Ok(Polled(rs[n])), n + 1)
  {
    var p := ReqUntil(rs, waitClause, errorClause);
    assert !Quiet(rs[n], waitClause, errorClause);
    StopIndexUnique(rs, waitClause, errorClause, n, p.fetches - 1);
  }

  /**
   * The first response on which the error clause holds and the wait clause
   * does not, with every earlier one quiet, ends the poll as an error.
   */
  lemma FirstErrorMatchIsError<T>(rs: seq<T>, waitClause: T -> bool, errorClause: T -> bool, n: nat)
    requires n < |rs| && errorClause(rs[n]) && !waitClause(rs[n])
    requires forall j :: 0 <= j < n ==> Quiet(rs[j], waitClause, errorClause)
    ensures ReqUntil(rs, waitClause, errorClause) == Settled(Error(Polled(rs[n])), n + 1)
  {
    var p := ReqUntil(rs, waitClause, errorClause);
    assert !Quiet(rs[n], waitClause, errorClause);
    StopIndexUnique(rs, waitClause, errorClause, n, p.fetches - 1);
  }

  /** With the default error clause a poll never ends in an error. */
  lemma DefaultErrorClauseNeverFires<T>(rs: seq<T>, waitClause: T -> bool)
    ensures var p := ReqUntil(rs, waitClause, DefaultErrorClause());
            p.StillWaiting? || p.result.IsOk()
  {
  }

}
