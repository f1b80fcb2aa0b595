/** The key/value validation contract shared by the saved configuration and the
    pulse controller (include/FormInterface.h), and the batch loop the request
    handlers run over it (src/AppServer.cpp). */
module FormInterface {

  datatype Option<T> = None | Some(value: T)

  /** FormInterface::SetResult */
  datatype SetResult = SetOk | SetInvalidKey | SetValTooLong | SetInvalidValue

  /** One submitted form argument: its name and its value. */
  datatype Arg = Arg(key: string, val: string)

  /** The text parsers of the platform libraries, whose rules are not part of
      this model and are therefore left abstract. */
  datatype Parsers = Parsers(
    toInt: string -> int,       // String::toInt
    toPercent: string -> nat,   // String::toFloat of a percentage, as a whole percent
    toMillis: string -> nat,    // 1000 * String::toFloat of a number of seconds
    isIp: string -> bool        // IPAddress::fromString succeeds
  )

  /** What one `set(key, val, msg)` call does to a validator whose state is an
      `S`: its result, the message it writes (`None` when it leaves `msg`
      alone) and the state afterwards. */
  datatype Applied<S> = Applied(result: SetResult, note: Option<string>, state: S)

  /** The argument that stopped a batch, and what its `set` reported. */
  datatype Failure = Failure(key: string, val: string, result: SetResult, note: Option<string>)

  /** The outcome of a batch: the validator's state afterwards, and the
      failure that stopped it, if any. */
  datatype Batch<S> = Batch(state: S, failure: Option<Failure>)

  /** The argument name under which the web server passes the raw body. */
  const RAW_BODY_KEY: string := "plain"

  /** The handlers' loop: apply the arguments in order, skip the raw body,
      and stop at the first result that is not `SetOk`. Nothing is undone. */
  function RunBatch<S>(s: S, args: seq<Arg>, apply: (S, Arg) -> Applied<S>): (b: Batch<S>)
    ensures b.failure.Some? ==> b.failure.value.result != SetOk && b.failure.value.key != RAW_BODY_KEY
    ensures b.failure.None? && args == [] ==> b.state == s
    decreases |args|
  {
    if args == [] then Batch(s, None)
    else if args[0].key == RAW_BODY_KEY then RunBatch(s, args[1..], apply)
    else
      var a := apply(s, args[0]);
      if a.result != SetOk then Batch(a.state, Some(Failure(args[0].key, args[0].val, a.result, a.note)))
      else RunBatch(a.state, args[1..], apply)
  }

  /** A batch that gets through `first` continues with `rest` from the state
      `first` left behind. */
  lemma {:induction false} RunBatchAppend<S>(s: S, first: seq<Arg>, rest: seq<Arg>, apply: (S, Arg) -> Applied<S>)
    requires RunBatch(s, first, apply).failure.None?
    ensures RunBatch(s, first + rest, apply) == RunBatch(RunBatch(s, first, apply).state, rest, apply)
    decreases |first|
  {
    if first != [] {
      assert (first + rest)[1..] == first[1..] + rest;
      if first[0].key == RAW_BODY_KEY {
        RunBatchAppend(s, first[1..], rest, apply);
      } else {
        RunBatchAppend(apply(s, first[0]).state, first[1..], rest, apply);
      }
    } else {
      assert first + rest == rest;
    }
  }

  /** A batch that fails inside `first` never looks at `rest`. */
  lemma {:induction false} RunBatchAbort<S>(s: S, first: seq<Arg>, rest: seq<Arg>, apply: (S, Arg) -> Applied<S>)
    requires RunBatch(s, first, apply).failure.Some?
    ensures RunBatch(s, first + rest, apply) == RunBatch(s, first, apply)
    decreases |first|
  {
    assert first != [];
    assert (first + rest)[1..] == first[1..] + rest;
    if first[0].key == RAW_BODY_KEY {
      RunBatchAbort(s, first[1..], rest, apply);
    } else if apply(s, first[0]).result == SetOk {
      RunBatchAbort(apply(s, first[0]).state, first[1..], rest, apply);
    }
  }

  /** The batch stops at the first rejected argument: the state is what the
      arguments before it made of it (earlier changes persist), and the
      arguments after it are ignored. */
  lemma RunBatchStopsAt<S>(s: S, done: seq<Arg>, bad: Arg, rest: seq<Arg>, apply: (S, Arg) -> Applied<S>)
    requires RunBatch(s, done, apply).failure.None?
    requires bad.key != RAW_BODY_KEY
    requires apply(RunBatch(s, done, apply).state, bad).result != SetOk
    ensures var a := apply(RunBatch(s, done, apply).state, bad);
            RunBatch(s, done + [bad] + rest, apply) == Batch(a.state, Some(Failure(bad.key, bad.val, a.result, a.note)))
  {
    var mid := RunBatch(s, done, apply).state;
    assert RunBatch(mid, [bad], apply).failure.Some?;
    RunBatchAppend(s, done, [bad] + rest, apply);
    assert done + [bad] + rest == done + ([bad] + rest);
    RunBatchAbort(mid, [bad], rest, apply);
  }

  /** The arguments other than the raw body. */
  function WithoutRawBody(args: seq<Arg>): (r: seq<Arg>)
    ensures |r| <= |args|
    ensures forall i :: 0 <= i < |r| ==> r[i].key != RAW_BODY_KEY && r[i] in args
  {
    if args == [] then []
    else if args[0].key == RAW_BODY_KEY then WithoutRawBody(args[1..])
    else [args[0]] + WithoutRawBody(args[1..])
  }

  /** The raw body argument plays no part in a batch. */
  lemma {:induction false} RunBatchIgnoresRawBody<S>(s: S, args: seq<Arg>, apply: (S, Arg) -> Applied<S>)
    ensures RunBatch(s, args, apply) == RunBatch(s, WithoutRawBody(args), apply)
    decreases |args|
  {
    if args != [] {
      if args[0].key == RAW_BODY_KEY {
        RunBatchIgnoresRawBody(s, args[1..], apply);
      } else {
        var w := WithoutRawBody(args);
        assert w[0] == args[0] && w[1..] == WithoutRawBody(args[1..]);
        var a := apply(s, args[0]);
        if a.result == SetOk {
          RunBatchIgnoresRawBody(a.state, args[1..], apply);
        }
      }
    }
  }

  /** The text a handler reports for a failed batch: the validator's message,
      or a generic one naming the key and the value when it wrote none. */
  function FailureText(f: Failure): (text: string)
    ensures f.note.Some? && f.note.value != "" ==> text == f.note.value
    ensures f.note.None? ==> text == "Failed to set key: " + f.key + "to value: " + f.val
    ensures text != ""
  {
    var res := if f.note.Some? then f.note.value else "";
    if |res| == 0 then "Failed to set key: " + f.key + "to value: " + f.val else res
  }
}
