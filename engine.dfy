/** The single engine audio unit that renders a whole graph: it walks an
    ordered list of units and calls each one's render block, stopping at the
    first failure. */
module Engine2 {
  import opened CoreAudio

  /** Identity of an `AudioBufferList` pointer. */
  type BufferListRef = nat
  /** Identity of an `AVAudioPCMBuffer`. */
  type PCMBufferRef = nat
  /** Identity of an `AURenderPullInputBlock`. */
  type PullInputBlockRef = nat

  /** The arguments a unit's render block receives that the executor chooses
      (the action flags and time stamp are passed through untouched). */
  datatype RenderArgs = RenderArgs(
    frameCount: nat,
    outputBusNumber: int,
    outputBuffer: BufferListRef,
    inputBlock: PullInputBlockRef)

  /** One entry of the execution list. The render block is the unit's
      own, opaque to the engine: all the engine sees is the status it
      returns for the arguments it is given. */
  datatype AUExecInfo = AUExecInfo(
    outputBuffer: BufferListRef,
    outputPCMBuffer: PCMBufferRef,
    renderBlock: RenderArgs -> OSStatus,
    inputBlock: PullInputBlockRef)

  /** A record that the render block of entry `unit` was called with `args`. */
  datatype Invocation = Invocation(unit: nat, args: RenderArgs)

  /** What one pass over the list produced: the status returned to the host
      and the calls made, in the order they were made. */
  datatype ExecResult = ExecResult(status: OSStatus, log: seq<Invocation>)

  /** The arguments the executor passes to `exec`: the caller's frame count,
      bus 0, and the entry's own output buffer and input block. */
  function ArgsFor(exec: AUExecInfo, frameCount: nat): RenderArgs
  {
    RenderArgs(frameCount, 0, exec.outputBuffer, exec.inputBlock)
  }

  /** The status `exec` returns when the executor calls it. */
  function StatusOf(exec: AUExecInfo, frameCount: nat): OSStatus
  {
    exec.renderBlock(ArgsFor(exec, frameCount))
  }

  /** The pass over `execList[i..]`: call each entry in turn and return the
      first status that is not `NoErr`, or `NoErr` after the last entry. */
  function ExecuteFrom(execList: seq<AUExecInfo>, frameCount: nat, i: nat): ExecResult
    requires i <= |execList|
    decreases |execList| - i
  {
    if i == |execList| then ExecResult(NoErr, [])
    else
      var call := Invocation(i, ArgsFor(execList[i], frameCount));
      var status := StatusOf(execList[i], frameCount);
      if status != NoErr then ExecResult(status, [call])
      else
        var rest := ExecuteFrom(execList, frameCount, i + 1);
        ExecResult(rest.status, [call] + rest.log)
  }

  /** One render call of the engine over the whole list. */
  function Execute(execList: seq<AUExecInfo>, frameCount: nat): ExecResult
  {
    ExecuteFrom(execList, frameCount, 0)
  }

  /** Every entry of `execList[..k]` returned `NoErr`. */
  predicate AllSucceed(execList: seq<AUExecInfo>, frameCount: nat, k: nat)
    requires k <= |execList|
  {
    forall j :: 0 <= j < k ==> StatusOf(execList[j], frameCount) == NoErr
  }

  lemma {:induction false} ExecuteFromLog(execList: seq<AUExecInfo>, frameCount: nat, i: nat)
    requires i <= |execList|
    ensures var r := ExecuteFrom(execList, frameCount, i);
      && |r.log| <= |execList| - i
      && forall k :: 0 <= k < |r.log| ==>
           r.log[k] == Invocation(i + k, ArgsFor(execList[i + k], frameCount))
    decreases |execList| - i
  {
    if i < |execList| && StatusOf(execList[i], frameCount) == NoErr {
      ExecuteFromLog(execList, frameCount, i + 1);
    }
  }

  /** The log of a render call is a prefix of the list, entry by entry and
      in list order: each entry is called at most once, after every entry
      before it, with the caller's frame count, bus 0 and its own output
      buffer and input block. */
  lemma ExecuteLogFollowsList(execList: seq<AUExecInfo>, frameCount: nat)
    ensures var r := Execute(execList, frameCount);
      && |r.log| <= |execList|
      && forall k :: 0 <= k < |r.log| ==>
           r.log[k] == Invocation(k, RenderArgs(frameCount, 0, execList[k].outputBuffer, execList[k].inputBlock))
  {
    ExecuteFromLog(execList, frameCount, 0);
  }

  lemma {:induction false} ExecuteFromSucceeds(execList: seq<AUExecInfo>, frameCount: nat, i: nat)
    requires i <= |execList|
    ensures var r := ExecuteFrom(execList, frameCount, i);
      (r.status == NoErr <==>
         forall j :: i <= j < |execList| ==> StatusOf(execList[j], frameCount) == NoErr)
      && (r.status == NoErr ==> |r.log| == |execList| - i)
    decreases |execList| - i
  {
    if i < |execList| && StatusOf(execList[i], frameCount) == NoErr {
      ExecuteFromSucceeds(execList, frameCount, i + 1);
    }
  }

  /** A render call returns `NoErr` exactly when every entry returned
      `NoErr` (so an empty list returns `NoErr`), and then every entry was
      called. */
  lemma ExecuteSucceedsIff(execList: seq<AUExecInfo>, frameCount: nat)
    ensures Execute(execList, frameCount).status == NoErr <==> AllSucceed(execList, frameCount, |execList|)
    ensures Execute(execList, frameCount).status == NoErr ==>
      |Execute(execList, frameCount).log| == |execList|
  {
    ExecuteFromSucceeds(execList, frameCount, 0);
  }

  lemma {:induction false} ExecuteFromFirstFailure(execList: seq<AUExecInfo>, frameCount: nat, i: nat, k: nat)
    requires i <= k < |execList|
    requires forall j :: i <= j < k ==> StatusOf(execList[j], frameCount) == NoErr
    requires StatusOf(execList[k], frameCount) != NoErr
    ensures var r := ExecuteFrom(execList, frameCount, i);
      r.status == StatusOf(execList[k], frameCount) && |r.log| == k - i + 1
    decreases k - i
  {
    if i < k {
      ExecuteFromFirstFailure(execList, frameCount, i + 1, k);
    }
  }

  /** When entry `k` is the first to fail, the render call returns exactly
      its status and entry `k` is the last one called: no later entry runs. */
  lemma ExecuteStopsAtFirstFailure(execList: seq<AUExecInfo>, frameCount: nat, k: nat)
    requires k < |execList|
    requires AllSucceed(execList, frameCount, k)
    requires StatusOf(execList[k], frameCount) != NoErr
    ensures Execute(execList, frameCount).status == StatusOf(execList[k], frameCount)
    ensures |Execute(execList, frameCount).log| == k + 1
    ensures Execute(execList, frameCount).log[k].unit == k
  {
    ExecuteFromFirstFailure(execList, frameCount, 0, k);
    ExecuteFromLog(execList, frameCount, 0);
  }

  /** The engine's own audio unit. */
  class EngineAudioUnit {
    /** The list of things to execute, in execution order. */
    var execList: seq<AUExecInfo>

    constructor ()
      ensures execList == []
    {
      execList := [];
    }

    /** The engine's render block. It reads `execList` and changes nothing
        itself; `log` records the calls it makes. The engine's own output
        bus, buffer list and input block are not used, so they are not
        parameters here. */
    method RenderBlock(frameCount: nat) returns (status: OSStatus, ghost log: seq<Invocation>)
      ensures ExecResult(status, log) == Execute(execList, frameCount)
      ensures status == NoErr <==> AllSucceed(execList, frameCount, |execList|)
      ensures |log| <= |execList|
      ensures forall k :: 0 <= k < |log| ==> log[k] == Invocation(k, ArgsFor(execList[k], frameCount))
      ensures status != NoErr ==>
        && |log| > 0
        && status == StatusOf(execList[|log| - 1], frameCount)
        && AllSucceed(execList, frameCount, |log| - 1)
    {
      log := [];
      var i := 0;
      while i < |execList|
        invariant 0 <= i <= |execList|
        invariant AllSucceed(execList, frameCount, i)
        invariant Execute(execList, frameCount)
                  == var rest := ExecuteFrom(execList, frameCount, i); ExecResult(rest.status, log + rest.log)
      {
        var exec := execList[i];
        // Bus 0, with this entry's own output buffer and input block.
        var args := RenderArgs(frameCount, 0, exec.outputBuffer, exec.inputBlock);
        var s := exec.renderBlock(args);
        log := log + [Invocation(i, args)];
        // Propagate errors.
        if s != NoErr {
          status := s;
          ExecuteLogFollowsList(execList, frameCount);
          ExecuteSucceedsIff(execList, frameCount);
          return;
        }
        i := i + 1;
      }
      status := NoErr;
      ExecuteLogFollowsList(execList, frameCount);
      ExecuteSucceedsIff(execList, frameCount);
    }
  }
}
