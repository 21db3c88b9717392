/** Which failures are retried, said of status codes and errors themselves
    (internal/provider/openai/chat.go). */
module RetryLaws {
  import opened Wrappers
  import opened Ledger
  import opened Text
  import opened GovernanceStore
  import opened Attempts

  /** A pass that was admitted and settled, and that no ended context disturbs. */
  predicate Undisturbed(tenants: set<nat>, t: Table, input: Input, script: Script, i: nat) {
    && Admitted(tenants, Through(tenants, t, input, script, i), input, script(i))
    && !script(i).settleFails && !script(i).contextDone && !script(i).waitCut
  }

  /** As long as the upstream answers 408, 429 or a status of 500 and more, misses the deadline or cannot be
      reached, there is another pass, up to maxRetries of them. */
  lemma PassesGoOn(tenants: set<nat>, t: Table, input: Input, script: Script, retries: Retries, j: nat)
    requires j <= retries.maxRetries
    requires forall i :: 0 <= i < j ==>
               && Undisturbed(tenants, t, input, script, i) && script(i).answer.Failed?
               && var e := script(i).answer.error;
                  || (e.HttpStatus? && (e.code == 408 || e.code == 429 || e.code >= 500))
                  || e.DeadlineExceeded? || e.NetworkFailed?
    ensures LastPass(tenants, t, input, script, retries, 0) >= j
  {
    hide Admitted, Through;
    forall i | 0 <= i < j ensures GoesOn(tenants, t, input, script, retries, i) {
    }
  }

  /** If those passes are followed by one that is answered, the call hands that one back. */
  lemma RetriesReachTheAnswer(tenants: set<nat>, rows: seq<Row>, input: Input, script: Script, retries: Retries, j: nat)
    requires j <= retries.maxRetries && Admitted(tenants, Through(tenants, Table(rows, []), input, script, j), input, script(j))
    requires script(j).answer.Responded?
    requires forall i :: 0 <= i < j ==>
               && Undisturbed(tenants, Table(rows, []), input, script, i) && script(i).answer.Failed?
               && var e := script(i).answer.error;
                  || (e.HttpStatus? && (e.code == 408 || e.code == 429 || e.code >= 500))
                  || e.DeadlineExceeded? || e.NetworkFailed?
    ensures LastPass(tenants, Table(rows, []), input, script, retries, 0) == j && HandsBack(tenants, rows, input, script, j)
  {
    hide Admitted, Through;
    PassesGoOn(tenants, Table(rows, []), input, script, retries, j);
    assert !GoesOn(tenants, Table(rows, []), input, script, retries, j);
  }

  /** If they are followed by any other failure, by one after the context is done, or by the end of the
      retries, that pass is the last and its error is the call's. */
  lemma OtherFailuresAreFinal(tenants: set<nat>, rows: seq<Row>, input: Input, script: Script, retries: Retries, j: nat)
    requires j <= retries.maxRetries && Admitted(tenants, Through(tenants, Table(rows, []), input, script, j), input, script(j))
    requires script(j).answer.Failed? && !script(j).settleFails
    requires var e := script(j).answer.error;
      || (e.HttpStatus? && e.code != 408 && e.code != 429 && e.code < 500)
      || e.Canceled? || e.OtherError? || script(j).contextDone || j == retries.maxRetries
    requires forall i :: 0 <= i < j ==>
               && Undisturbed(tenants, Table(rows, []), input, script, i) && script(i).answer.Failed?
               && var e := script(i).answer.error;
                  || (e.HttpStatus? && (e.code == 408 || e.code == 429 || e.code >= 500))
                  || e.DeadlineExceeded? || e.NetworkFailed?
    ensures LastPass(tenants, Table(rows, []), input, script, retries, 0) == j && !HandsBack(tenants, rows, input, script, j)
    ensures PassError(tenants, Through(tenants, Table(rows, []), input, script, j), input, script(j)) == Upstream(script(j).answer.error)
  {
    hide Through, Refusal;
    PassesGoOn(tenants, Table(rows, []), input, script, retries, j);
    assert !GoesOn(tenants, Table(rows, []), input, script, retries, j);
  }

  /** The rows of a finished call, number by number: a failed one is charged its prompt, the winner what the
      upstream reports or else what was reserved. */
  lemma RowsOfACall(input: Input, body: Body)
    ensures FailedRow(input).status == "failed" && FailedRow(input).model == input.model
    ensures FailedRow(input).promptTokens == FailedRow(input).totalTokens == input.promptTokens && FailedRow(input).completionTokens == 0
    ensures body.Decoded? ==>
              var row, usage := WinnerRow(input, body), body.usage;
              && row.status == "succeeded" && row.model == (if Trim(body.model) != "" then Trim(body.model) else input.model)
              && row.completionTokens == usage.completionTokens
              && row.promptTokens == (if usage.promptTokens != 0 then usage.promptTokens else input.promptTokens)
              && row.totalTokens == (if usage.totalTokens != 0 then usage.totalTokens else row.promptTokens + usage.completionTokens)
  {
  }

  /** Without a sensible configuration there are no retries, and waits are multiples of 200 milliseconds. */
  lemma ConfiguredMeans(maxRetries: int, backoff: int)
    ensures
      var r := Configured(maxRetries, backoff);
      && (maxRetries >= 0 ==> r.maxRetries == maxRetries) && (maxRetries < 0 ==> r.maxRetries == 0)
      && (backoff > 0 ==> r.backoff == backoff) && (backoff <= 0 ==> r.backoff == 200)
  {
  }
}
