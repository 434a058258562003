/** A caching proxy for a `Subject` whose `operation()` returns a string.
    The first call on an empty cache delegates to the target and stores
    its answer; later calls return the stored answer. A null answer is
    stored as null, so the cache stays empty and the next call delegates
    again. An exception thrown by the target leaves `operation()` before
    anything is stored, so the cache stays empty in that case too. */
module CacheProxies {
  import opened Optional

  /** How one call ended: it returned a string (`None` for null), or it
      threw the named exception. */
  datatype Reply = Returned(value: Option<string>) | Threw(exception: string)

  /** The exception a call on a null reference throws. */
  const NULL_POINTER_EXCEPTION: string := "java.lang.NullPointerException"

  /** The proxied target, seen as an oracle: its k-th invocation (counting
      from 0) ends as `target(k)`. Any non-null target, stateful or not,
      returning or throwing, is such an oracle, provided it does not call
      back into this proxy and calls are made one at a time; a null target
      is `NullTarget()`, whose every invocation throws. */
  type Target = nat -> Reply

  /** A `CacheProxy` constructed with `null`: every delegation throws
      `NullPointerException` at the call site. */
  function NullTarget(): (t: Target)
    ensures forall k: nat :: t(k) == Threw(NULL_POINTER_EXCEPTION)
  {
    k => Threw(NULL_POINTER_EXCEPTION)
  }

  /** True of a reply that fills the cache: a non-null returned string. */
  predicate Fills(r: Reply) {
    r.Returned? && r.value.Some?
  }

  /** The proxy's mutable part: the cached value and the number of times
      the target has been invoked so far. The target itself is not part of
      the state because the proxy never reassigns it. */
  datatype CacheState = CacheState(cacheValue: Option<string>, delegations: nat)

  /** What one `operation()` call leaves behind and how it ends. */
  datatype Answer = Answer(state: CacheState, reply: Reply)

  /** What a sequence of calls leaves behind and how each ended, in order. */
  datatype Session = Session(final: CacheState, replies: seq<Reply>)

  /** The state right after `new CacheProxy(target)`. */
  function Initial(): (s: CacheState)
    ensures s.cacheValue.None? && s.delegations == 0
  {
    CacheState(None, 0)
  }

  /** One `operation()` call. */
  function OperationStep(target: Target, s: CacheState): (a: Answer)
    // a returned value is always the cache's content after the call
    ensures a.reply.Returned? ==> a.reply.value == a.state.cacheValue
    // a thrown exception leaves the cache empty
    ensures a.reply.Threw? ==> a.state.cacheValue.None?
    // a filled cache answers by itself and nothing changes
    ensures s.cacheValue.Some? ==> a == Answer(s, Returned(s.cacheValue))
    // an empty cache asks the target exactly once and ends as the target did
    ensures s.cacheValue.None? ==>
      a.state.delegations == s.delegations + 1 && a.reply == target(s.delegations)
  {
    if s.cacheValue.None? then
      var r := target(s.delegations);
      match r
      case Returned(v) => Answer(CacheState(v, s.delegations + 1), r)
      case Threw(_) => Answer(CacheState(None, s.delegations + 1), r)
    else
      Answer(s, Returned(s.cacheValue))
  }

  /** `n` consecutive `operation()` calls starting from `s`, each exception
      being caught by the caller before the next call. */
  function Run(target: Target, s: CacheState, n: nat): (r: Session)
    ensures |r.replies| == n
    ensures s.delegations <= r.final.delegations <= s.delegations + n
    ensures s.cacheValue.Some? ==> r.final.cacheValue == s.cacheValue
    decreases n
  {
    if n == 0 then
      Session(s, [])
    else
      var a := OperationStep(target, s);
      var rest := Run(target, a.state, n - 1);
      Session(rest.final, [a.reply] + rest.replies)
  }

  /** Once the cache is filled, any number of further calls neither change
      the state nor invoke the target, and every one returns the cached
      value. */
  lemma {:induction false} FilledCacheIsStable(target: Target, s: CacheState, n: nat)
    requires s.cacheValue.Some?
    ensures Run(target, s, n).final == s
    ensures forall i :: 0 <= i < n ==> Run(target, s, n).replies[i] == Returned(s.cacheValue)
    decreases n
  {
    if n > 0 {
      FilledCacheIsStable(target, s, n - 1);
    }
  }

  /** When the target's first call returns a non-null string, a fresh
      proxy invokes it at most once however many calls are made, and every
      call returns that first answer. */
  lemma {:induction false} AtMostOneDelegation(target: Target, n: nat)
    requires Fills(target(0))
    ensures Run(target, Initial(), n).final.delegations == if n == 0 then 0 else 1
    ensures forall i :: 0 <= i < n ==> Run(target, Initial(), n).replies[i] == target(0)
  {
    if n > 0 {
      FilledCacheIsStable(target, OperationStep(target, Initial()).state, n - 1);
    }
  }

  /** While the target keeps returning null or throwing, every call
      invokes it again, the cache stays empty, and every call ends exactly
      as the target's invocation did. */
  lemma {:induction false} UnfilledRepliesAreNotCached(target: Target, s: CacheState, n: nat)
    requires s.cacheValue.None?
    requires forall k :: s.delegations <= k < s.delegations + n ==> !Fills(target(k))
    ensures Run(target, s, n).final == CacheState(None, s.delegations + n)
    ensures forall i :: 0 <= i < n ==> Run(target, s, n).replies[i] == target(s.delegations + i)
    decreases n
  {
    if n > 0 {
      var a := OperationStep(target, s);
      UnfilledRepliesAreNotCached(target, a.state, n - 1);
      forall i | 0 < i < n
        ensures Run(target, s, n).replies[i] == target(s.delegations + i)
      {
        assert Run(target, s, n).replies[i] == Run(target, a.state, n - 1).replies[i - 1];
      }
    }
  }

  /** A proxy built on a null target throws `NullPointerException` on every
      call and never fills its cache. */
  lemma NullTargetAlwaysThrows(n: nat)
    ensures Run(NullTarget(), Initial(), n).final.cacheValue.None?
    ensures forall i :: 0 <= i < n ==>
      Run(NullTarget(), Initial(), n).replies[i] == Threw(NULL_POINTER_EXCEPTION)
  {
    UnfilledRepliesAreNotCached(NullTarget(), Initial(), n);
  }

  /** A run from an empty cache ends empty exactly when no call of the
      target during it returned a non-null string; in that case the target
      was asked on every call. */
  lemma {:induction false} EmptyAfterRunIffNothingFilled(target: Target, s: CacheState, n: nat)
    requires s.cacheValue.None?
    ensures Run(target, s, n).final.cacheValue.None? <==>
      forall k :: s.delegations <= k < s.delegations + n ==> !Fills(target(k))
    ensures Run(target, s, n).final.cacheValue.None? ==>
      Run(target, s, n).final.delegations == s.delegations + n
    decreases n
  {
    if n > 0 {
      var a := OperationStep(target, s);
      if a.state.cacheValue.None? {
        EmptyAfterRunIffNothingFilled(target, a.state, n - 1);
      } else {
        assert Fills(target(s.delegations));
      }
    }
  }

  /** A run of `n + 1` calls is a run of `n` calls followed by one more. */
  lemma {:induction false} RunExtends(target: Target, s: CacheState, n: nat)
    ensures Run(target, s, n + 1) ==
      var r := Run(target, s, n);
      var a := OperationStep(target, r.final);
      Session(a.state, r.replies + [a.reply])
    decreases n
  {
    if n > 0 {
      var a := OperationStep(target, s);
      RunExtends(target, a.state, n - 1);
      assert [a.reply] + (Run(target, a.state, n - 1).replies + [OperationStep(target, Run(target, s, n).final).reply])
          == ([a.reply] + Run(target, a.state, n - 1).replies) + [OperationStep(target, Run(target, s, n).final).reply];
    }
  }

  /** A client that calls `operation()` on a fresh proxy `n` times,
      recording how each call ended (an exception does not stop it). */
  method ExecuteRepeatedly(target: Target, n: nat) returns (replies: seq<Reply>, final: CacheState)
    ensures Session(final, replies) == Run(target, Initial(), n)
    ensures |replies| == n && final.delegations <= n
    ensures Fills(target(0)) ==> final.delegations <= 1
    ensures Fills(target(0)) ==> forall i :: 0 <= i < n ==> replies[i] == target(0)
  {
    final := Initial();
    replies := [];
    var i := 0;
    while i < n
      invariant 0 <= i <= n
      invariant Session(final, replies) == Run(target, Initial(), i)
    {
      RunExtends(target, Initial(), i);
      var a := OperationStep(target, final);
      final, replies := a.state, replies + [a.reply];
      i := i + 1;
    }
    if Fills(target(0)) {
      AtMostOneDelegation(target, n);
    }
  }

  /** The proxy as an object: `target` is fixed at construction, and
      `cacheValue` and the delegation counter change only through
      `Operation`. */
  class CacheProxy {
    const target: Target
    var cacheValue: Option<string>
    var delegations: nat

    constructor(target: Target)
      ensures this.target == target
      ensures cacheValue.None? && delegations == 0
    {
      this.target := target;
      cacheValue := None;
      delegations := 0;
    }

    method Operation() returns (r: Reply)
      modifies this
      ensures Answer(CacheState(cacheValue, delegations), r)
        == OperationStep(target, CacheState(old(cacheValue), old(delegations)))
    {
      if cacheValue.None? {
        r := target(delegations);
        delegations := delegations + 1;
        if r.Returned? {
          cacheValue := r.value;
        }
      } else {
        r := Returned(cacheValue);
      }
    }
  }
}
