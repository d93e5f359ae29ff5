/**
 A promise-backed resource (`createResource` in src/exercise/01.js).

 The resource keeps two mutable closure variables, `status` and `result`.
 It starts out pending, with `result` holding the in-flight promise; the
 promise's fulfil handler moves it to 'resolved' with the value and its
 reject handler to 'error' with the reason. `read` is a side-effect-free
 query: where the source throws (to suspend, or to report a failure) the
 model returns a tagged `Outcome` instead.

 JavaScript values are untyped, so one type parameter `T` stands for the
 in-flight promise, the fulfilment value and the rejection reason alike.
 */
module AsyncResource {

  /** The status tags of the source. `Rejected` is the tag that `read`
      tests for; no handler ever assigns it (the reject handler assigns
      `Error`). */
  datatype Status = Pending | Resolved | Error | Rejected

  /** What `read` does: throw the in-flight promise (Suspense suspends),
      throw a failure, or return a value. */
  datatype Outcome<T> = Suspend(thrown: T) | Throw(thrown: T) | Value(value: T)

  class Resource<T> {
    var status: Status
    var result: T

    /** The handlers only ever write 'pending', 'resolved' and 'error'. */
    ghost predicate Valid()
      reads this
    {
      status != Rejected
    }

    /** Settled resources no longer change: both handlers need `Pending`. */
    ghost predicate Settled()
      reads this
    {
      status == Resolved || status == Error
    }

    /** `createResource(promise)`: pending, with `result` the promise
        returned by `promise.then(...)`. */
    constructor (chained: T)
      ensures Valid() && !Settled()
      ensures status == Pending && result == chained
    {
      status := Pending;
      result := chained;
    }

    /** The fulfil handler. A promise calls at most one of its handlers,
        and at most once, so it only ever runs on a pending resource. */
    method Resolve(resolved: T)
      requires Valid() && status == Pending
      modifies this
      ensures Valid() && Settled()
      ensures status == Resolved && result == resolved
    {
      status := Resolved;
      result := resolved;
    }

    /** The reject handler; it tags the resource 'error', not 'rejected'. */
    method Reject(rejected: T)
      requires Valid() && status == Pending
      modifies this
      ensures Valid() && Settled()
      ensures status == Error && result == rejected
    {
      status := Error;
      result := rejected;
    }

    /** `read`, as written: suspends while pending, throws only for the tag
        'rejected', and otherwise hands back `result`, whatever the status. */
    function Read(): (o: Outcome<T>)
      reads this
      ensures o.Suspend? <==> status == Pending
      ensures o.Throw? <==> status == Rejected
      ensures o.Value? <==> (status == Resolved || status == Error)
      ensures o == Suspend(result) || o == Throw(result) || o == Value(result)
    {
      if status.Pending? then Suspend(result)
      else if status.Rejected? then Throw(result)
      else Value(result)
    }

    /** `read` as the surrounding design intends it: a failed resource
        throws its reason, so that an error boundary receives it. */
    function ReadIntended(): (o: Outcome<T>)
      reads this
      ensures o.Suspend? <==> status == Pending
      ensures o.Throw? <==> (status == Error || status == Rejected)
      ensures o.Value? <==> status == Resolved
      ensures o == Suspend(result) || o == Throw(result) || o == Value(result)
    {
      if status.Pending? then Suspend(result)
      else if status.Error? || status.Rejected? then Throw(result)
      else Value(result)
    }
  }

  /** On every resource the handlers can produce, the as-written `read`
      never throws: its throw branch is unreachable, so a rejection is
      handed back as if it were a value. */
  lemma ReadNeverThrows<T>(r: Resource<T>)
    requires r.Valid()
    ensures !r.Read().Throw?
    ensures r.status == Error ==> r.Read() == Value(r.result)
  {
  }

  /** The corrected read reports every failure the reject handler records,
      and agrees with the as-written read everywhere else. */
  lemma IntendedReadThrowsOnError<T>(r: Resource<T>)
    requires r.Valid()
    ensures r.status == Error ==> r.ReadIntended() == Throw(r.result)
    ensures r.status != Error ==> r.ReadIntended() == r.Read()
  {
  }

  /** The path that shows the finding: a resource whose promise rejects
      with `reason` hands the reason back from `read` as a value, where the
      corrected read throws it. */
  method RejectedReadReturnsReason<T>(chained: T, reason: T) returns (asWritten: Outcome<T>, intended: Outcome<T>)
    ensures asWritten == Value(reason)
    ensures intended == Throw(reason)
  {
    var r := new Resource(chained);
    r.Reject(reason);
    asWritten := r.Read();
    intended := r.ReadIntended();
  }
}
