/** `NodesApiReadOnlyAspect`: an around-advice on the mutating `NodesApi` methods that
    suppresses a call made from a processor while the application is read-only. */
module ReadOnlyGuard {
  import opened Wrappers
  import opened Values
  import opened Text
  import opened Repository

  /** The method-name prefixes of the pointcut. */
  const InterceptedPrefixes: seq<string> := ["copy", "create", "delete", "lock", "move", "unlock", "update"]

  /** The package whose classes are held to the read-only flag. */
  const EnforcedPackage: string := "org.saidone.processors"

  /** The first frame of the stack that belongs to the caller: frames 0 to 2 are
      `Thread.getStackTrace`, the advice itself and the AspectJ machinery. */
  const FirstCallerFrame: nat := 3

  /** `application.read-only` when it is not configured. */
  const DefaultReadOnly := true

  /** Whether the pointcut matches a `NodesApi` method of this name. */
  predicate IsIntercepted(methodName: string) {
    exists k :: 0 <= k < |InterceptedPrefixes| && StartsWith(methodName, InterceptedPrefixes[k])
  }

  /** Whether some caller frame belongs to the enforced package. */
  predicate CallerIsEnforced(frames: seq<string>) {
    exists i :: FirstCallerFrame <= i < |frames| && StartsWith(frames[i], EnforcedPackage)
  }

  /** The advice's decision: whether the call goes on to the repository. */
  predicate Forwards(methodName: string, frames: seq<string>, readOnly: bool) {
    !IsIntercepted(methodName) || !CallerIsEnforced(frames) || !readOnly
  }

  /** The scan of `enforceReadOnly` over the stack frames, from index 3, stopping at the
      first frame of the enforced package. */
  method ScanCallerFrames(frames: seq<string>) returns (callerIsEnforcedPackage: bool)
    ensures callerIsEnforcedPackage <==> CallerIsEnforced(frames)
  {
    callerIsEnforcedPackage := false;
    var i := FirstCallerFrame;
    while i < |frames|
      invariant FirstCallerFrame <= i
      invariant !callerIsEnforcedPackage
      invariant forall j :: FirstCallerFrame <= j < i && j < |frames| ==> !StartsWith(frames[j], EnforcedPackage)
    {
      if StartsWith(frames[i], EnforcedPackage) {
        callerIsEnforcedPackage := true;
        return;
      }
      i := i + 1;
    }
  }

  /** Every mutating call the core issues is one the pointcut matches. */
  lemma CoreCallsAreIntercepted(c: Call)
    ensures IsIntercepted(MethodName(c))
  {
    match c
    case UpdateNode(_, _) =>
      assert StartsWith(MethodName(c), InterceptedPrefixes[6]);
    case DeleteNode(_, _) =>
      assert StartsWith(MethodName(c), InterceptedPrefixes[2]);
    case MoveNode(_, _) =>
      assert StartsWith(MethodName(c), InterceptedPrefixes[4]);
  }

  /** Names outside the seven prefixes, such as the read calls, pass untouched. */
  lemma ReadCallsAreNotIntercepted()
    ensures !IsIntercepted("getNode") && !IsIntercepted("listNodeChildren")
  {
    forall k | 0 <= k < |InterceptedPrefixes| ensures !StartsWith("getNode", InterceptedPrefixes[k]) {
      assert "getNode"[0] == 'g';
    }
    forall k | 0 <= k < |InterceptedPrefixes| ensures !StartsWith("listNodeChildren", InterceptedPrefixes[k]) {
      assert "listNodeChildren"[0] == 'l';
      assert "listNodeChildren"[1] == 'i';
    }
  }

  /** The stack of a call a processor of class `processorClass` makes: the three advice
      frames, the client proxy, then the processor. */
  function ProcessorFrames(processorClass: string): (frames: seq<string>)
    ensures CallerIsEnforced(frames)
  {
    var frames := ["java.lang.Thread", "org.saidone.aspects.NodesApiReadOnlyAspect",
                   "org.springframework.aop.aspectj.AspectJAroundAdvice", "org.alfresco.core.handler.NodesApi",
                   EnforcedPackage + "." + processorClass];
    assert StartsWith(frames[4], EnforcedPackage) by {
      assert frames[4][..|EnforcedPackage|] == EnforcedPackage;
    }
    frames
  }

  /** The `NodesApi` proxy with the advice woven in. */
  class GuardedNodesApi {
    const readOnly: bool
    const target: NodesApi

    constructor (readOnly: bool, target: NodesApi)
      ensures this.readOnly == readOnly && this.target == target
    {
      this.readOnly := readOnly;
      this.target := target;
    }

    /** `enforceReadOnly`: forwards the call once (`pjp.proceed()`) or returns `null`
        (`None`) without reaching the repository. */
    method Invoke(c: Call, frames: seq<string>) returns (r: Option<Result<(), Exception>>)
      modifies target
      ensures r.Some? <==> Forwards(MethodName(c), frames, readOnly)
      ensures target.calls == if r.Some? && Encodable(c) then old(target.calls) + [c] else old(target.calls)
      ensures r.Some? && !Encodable(c) ==> r.value == Err(Feign(EncodeFailed))
      ensures r.Some? && Encodable(c) ==> (r.value.Err? <==> c in target.rejected)
      ensures r.Some? && Encodable(c) && r.value.Err? ==> r.value.error == Feign(target.rejected[c])
    {
      CoreCallsAreIntercepted(c);
      var callerIsEnforcedPackage := ScanCallerFrames(frames);
      if !callerIsEnforcedPackage {
        var res := target.Invoke(c);
        return Some(res);
      }
      if readOnly {
        return None;
      }
      var res := target.Invoke(c);
      r := Some(res);
    }
  }

  /** With the flag set, a processor's mutating call never reaches the repository. */
  lemma ReadOnlySuppressesProcessors(c: Call, processorClass: string)
    ensures !Forwards(MethodName(c), ProcessorFrames(processorClass), true)
  {
    CoreCallsAreIntercepted(c);
  }

  /** A caller outside the processors is forwarded whatever the flag says. */
  lemma OutsiderIsForwarded(methodName: string, frames: seq<string>, readOnly: bool)
    requires forall i :: FirstCallerFrame <= i < |frames| ==> !StartsWith(frames[i], EnforcedPackage)
    ensures Forwards(methodName, frames, readOnly)
  {
  }
}
