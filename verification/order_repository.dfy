/** The order repository's `save`: one hard-coded item id makes it throw
    `IllegalStateException`; every other item id takes a fixed delay that
    stands for the time spent saving. An interruption of the delay is
    caught and only logged. The order service's `orderItem` does nothing
    but call `save`. */
module OrderRepository {
  import opened Optional

  /** The item id for which saving always fails. */
  const SENTINEL_ITEM_ID: string := "ex"

  /** The delay `save` takes on success, in milliseconds. */
  const SAVE_DELAY_MS: nat := 1000

  /** The message of the exception thrown for the sentinel id. */
  const SENTINEL_MESSAGE: string := "예외 발생!"

  /** The exceptions that can escape `save`. Calling `equals` on a null
      item id throws `NullPointerException`. */
  datatype Failure = IllegalState(message: string) | NullPointer

  datatype Outcome = Completed | Thrown(failure: Failure)

  /** What the private `sleep` did. Whether the thread is interrupted while
      sleeping is an input, since thread scheduling is not modelled. */
  datatype SleepEffect =
    | Slept(millis: nat)
    | InterruptedAndLogged(requestedMillis: nat)

  /** What one `save` call did: how it ended, and whether it reached the
      delay. */
  datatype SaveRun = SaveRun(outcome: Outcome, delay: Option<SleepEffect>)

  /** The private `sleep`: it returns normally whether or not it is
      interrupted, because `InterruptedException` is caught and only its
      stack trace is printed. */
  function Sleep(millis: nat, interrupted: bool): (e: SleepEffect)
    ensures e.InterruptedAndLogged? <==> interrupted
    ensures e.Slept? ==> e.millis == millis
    ensures e.InterruptedAndLogged? ==> e.requestedMillis == millis
  {
    if interrupted then InterruptedAndLogged(millis) else Slept(millis)
  }

  /** `save(itemId)`, with `None` for a null item id. */
  function Save(itemId: Option<string>, interrupted: bool): (r: SaveRun)
    // it completes exactly for a non-null id other than the sentinel,
    // whether or not the delay is interrupted
    ensures r.outcome.Completed? <==> (itemId.Some? && itemId.value != SENTINEL_ITEM_ID)
    ensures itemId == Some(SENTINEL_ITEM_ID) ==> r.outcome == Thrown(IllegalState(SENTINEL_MESSAGE))
    ensures itemId.None? ==> r.outcome == Thrown(NullPointer)
    // the check comes first: a failing call never reaches the delay,
    // a completing one always takes the full fixed delay
    ensures r.outcome.Thrown? <==> r.delay.None?
    ensures r.delay.Some? ==> r.delay.value == Sleep(SAVE_DELAY_MS, interrupted)
  {
    match itemId
    case None => SaveRun(Thrown(NullPointer), None)
    case Some(id) =>
      if id == SENTINEL_ITEM_ID then
        SaveRun(Thrown(IllegalState(SENTINEL_MESSAGE)), None)
      else
        SaveRun(Completed, Some(Sleep(SAVE_DELAY_MS, interrupted)))
  }

  /** An interruption of the delay never changes how `save` ends. */
  lemma InterruptionIsSwallowed(itemId: Option<string>)
    ensures Save(itemId, true).outcome == Save(itemId, false).outcome
  {
  }

  /** The order service's `orderItem(itemId)`: it ends exactly as `save`
      does. */
  function OrderItem(itemId: Option<string>, interrupted: bool): (o: Outcome)
    ensures o.Completed? <==> (itemId.Some? && itemId.value != SENTINEL_ITEM_ID)
    ensures o == Save(itemId, interrupted).outcome
  {
    Save(itemId, interrupted).outcome
  }
}
