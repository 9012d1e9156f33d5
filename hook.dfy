/**
 * index.js:125-193, `hook(cmd, args)`: one request to the worker and the two listeners that
 * wait for its answer. The `message` listener settles on the matching reply or on an `err`
 * message; the `error` listener (attached once) settles on a crash of the worker. Every call
 * of `cb` is recorded; the promise `hook` returns takes the first one.
 */
module Hook {
  import opened Wrappers
  import Values
  import Diagnosis

  /** A message or event reaching the worker object while the request is outstanding. */
  datatype Event =
    | Message(cmdIn: string, args: seq<Values.Value>)   // `[cmdIn, ...args]`, args[0] not an error when cmdIn is 'err'
    | ErrMessage(err: Diagnosis.WorkerError)            // `['err', err]`
    | WorkerError(err: Diagnosis.WorkerError)           // the worker's `error` event

  /** One call of `cb`. */
  datatype Settlement = Succeeded(args: seq<Values.Value>) | Failed(report: Diagnosis.Report)

  /** The request and what its error path needs: the command, its arguments, the entry and its format. */
  datatype Request = Request(
    cmd: string,
    code: string,            // `args[0]`, the expression of an `expr` request
    esm: bool,
    contents: string,
    recheck: Option<string>) // first line of a failed `node -c entry`, when it fails

  /** The closure state: the `done` flag, which listeners are attached, and the calls of `cb`. */
  datatype State = State(done: bool, listening: bool, errorListening: bool, calls: seq<Settlement>)

  const Initial := State(false, true, true, [])

  /** `error(err)`: detach the message listener, set `done`, and always call back with the decorated error. */
  function ErrorPath(q: Request, s: State, err: Diagnosis.WorkerError): State
  {
    var report := Diagnosis.Decorate(Diagnosis.AsWritten, err, q.esm, q.cmd, q.code, q.contents, q.recheck);
    s.(listening := false, done := true, calls := s.calls + [Failed(report)])
  }

  /**
   * One event. A message reaches `msg` only while it is attached: an `err` message takes
   * the error path whatever command is pending, a reply to another command is ignored, and
   * the matching reply detaches the error listener and calls back unless already done. The
   * `error` event reaches `error` once. An `err` message carrying no error object starts the
   * error path and throws when reading its stack, before calling back.
   */
  function Step(q: Request, s: State, e: Event): State
  {
    match e
    case Message(cmdIn, args) =>
      if !s.listening then s
      else if cmdIn == "err" then s.(listening := false, done := true)
      else if cmdIn != q.cmd then s
      else s.(errorListening := false, done := true,
              calls := s.calls + (if s.done then [] else [Succeeded(args)]))
    case ErrMessage(err) =>
      if !s.listening then s else ErrorPath(q, s, err)
    case WorkerError(err) =>
      if !s.errorListening then s else ErrorPath(q, s.(errorListening := false), err)
  }

  /** The events in order. */
  function Run(q: Request, s: State, events: seq<Event>): State
    decreases |events|
  {
    if |events| == 0 then s else Step(q, Run(q, s, events[..|events| - 1]), events[|events| - 1])
  }

  /** What the promise settles with: the first call of `cb`, if any. */
  function Outcome(s: State): Option<Settlement>
  {
    if |s.calls| == 0 then None else Some(s.calls[0])
  }

  /**
   * What every reachable state satisfies: `cb` was called only once `done` is set, a success
   * can only be the first call, and each listener still attached can add at most one more call.
   */
  predicate Good(s: State)
  {
    (|s.calls| > 0 ==> s.done) &&
    (forall i :: 0 < i < |s.calls| ==> !s.calls[i].Succeeded?) &&
    |s.calls| + (if s.listening then 1 else 0) + (if s.errorListening then 1 else 0) <= 2
  }

  // ---------------------------------------------------------------- properties

  lemma InitialGood()
    ensures Good(Initial)
  {
  }

  /** Every event keeps the state good. */
  lemma StepGood(q: Request, s: State, e: Event)
    requires Good(s)
    ensures Good(Step(q, s, e))
  {
    var t := Step(q, s, e);
    if e.Message? && s.listening && e.cmdIn == q.cmd && !s.done {
      assert |s.calls| == 0;
    }
    assert forall i :: 0 < i < |s.calls| ==> t.calls[i] == s.calls[i];
  }

  lemma {:induction false} RunGood(q: Request, events: seq<Event>)
    ensures Good(Run(q, Initial, events))
  {
    if |events| == 0 {
      InitialGood();
    } else {
      RunGood(q, events[..|events| - 1]);
      StepGood(q, Run(q, Initial, events[..|events| - 1]), events[|events| - 1]);
    }
  }

  /**
   * Whatever the workers sends, `cb` is called at most twice, succeeds at most once, and
   * never succeeds after an error: a success is always the first call.
   */
  lemma AtMostOneSuccess(q: Request, events: seq<Event>)
    ensures var s := Run(q, Initial, events);
      |s.calls| <= 2 &&
      forall i :: 0 <= i < |s.calls| && s.calls[i].Succeeded? ==> i == 0
  {
    RunGood(q, events);
  }

  /** Once `cb` has failed, no success can follow: the outcome stays the failure. */
  lemma {:induction false} FailureFinal(q: Request, s: State, events: seq<Event>)
    requires Good(s) && Outcome(s).Some? && Outcome(s).value.Failed?
    ensures Outcome(Run(q, s, events)) == Outcome(s)
    ensures forall i :: 0 <= i < |Run(q, s, events).calls| ==> !Run(q, s, events).calls[i].Succeeded?
  {
    if |events| > 0 {
      var prev := Run(q, s, events[..|events| - 1]);
      FailureFinal(q, s, events[..|events| - 1]);
      RunPreservesGood(q, s, events[..|events| - 1]);
      StepGood(q, prev, events[|events| - 1]);
      var t := Step(q, prev, events[|events| - 1]);
      assert t.calls[..|prev.calls|] == prev.calls;
    }
  }

  lemma {:induction false} RunPreservesGood(q: Request, s: State, events: seq<Event>)
    requires Good(s)
    ensures Good(Run(q, s, events))
  {
    if |events| > 0 {
      RunPreservesGood(q, s, events[..|events| - 1]);
      StepGood(q, Run(q, s, events[..|events| - 1]), events[|events| - 1]);
    }
  }

  /** An `err` message takes the error path whatever command is pending, while the listener is attached. */
  lemma ErrPreempts(q: Request, s: State, err: Diagnosis.WorkerError)
    requires s.listening
    ensures var t := Step(q, s, ErrMessage(err));
      t.done && !t.listening && |t.calls| == |s.calls| + 1 && t.calls[..|s.calls|] == s.calls &&
      t.calls[|s.calls|] == Failed(Diagnosis.Decorate(Diagnosis.AsWritten, err, q.esm, q.cmd, q.code, q.contents, q.recheck))
  {
  }

  /** A reply to another command changes nothing. */
  lemma OtherRepliesIgnored(q: Request, s: State, cmdIn: string, args: seq<Values.Value>)
    requires cmdIn != q.cmd && cmdIn != "err"
    ensures Step(q, s, Message(cmdIn, args)) == s
  {
  }

  /** The matching reply as the first event settles the promise with its arguments, whatever follows. */
  lemma ReplySettles(q: Request, args: seq<Values.Value>, events: seq<Event>)
    requires q.cmd != "err"
    ensures Outcome(Run(q, Initial, [Message(q.cmd, args)] + events)) == Some(Succeeded(args))
  {
    var all := [Message(q.cmd, args)] + events;
    ReplyFirst(q, args, all, |all|);
    assert all[..|all|] == all;
  }

  lemma {:induction false} ReplyFirst(q: Request, args: seq<Values.Value>, events: seq<Event>, k: nat)
    requires q.cmd != "err"
    requires 1 <= k <= |events| && events[0] == Message(q.cmd, args)
    ensures |Run(q, Initial, events[..k]).calls| > 0
    ensures Run(q, Initial, events[..k]).calls[0] == Succeeded(args)
  {
    if k == 1 {
      assert events[..1][..0] == [];
      assert events[..1][0] == Message(q.cmd, args);
    } else {
      ReplyFirst(q, args, events, k - 1);
      assert events[..k][..k - 1] == events[..k - 1];
      var prev := Run(q, Initial, events[..k - 1]);
      assert Step(q, prev, events[k - 1]).calls[..|prev.calls|] == prev.calls;
    }
  }

  // ---------------------------------------------------------------- the listeners, in place

  /** The closure of one `hook` call: its flags and the calls of `cb` made so far. */
  class Pending {
    const request: Request
    var done: bool
    var listening: bool
    var errorListening: bool
    var calls: seq<Settlement>

    function Snapshot(): State
      reads this
    {
      State(done, listening, errorListening, calls)
    }

    /** `worker.on('message', msg); worker.once('error', error)` */
    constructor (q: Request)
      ensures request == q && Snapshot() == Initial
    {
      request := q;
      done := false;
      listening := true;
      errorListening := true;
      calls := [];
    }

    /** `error(err)`. */
    method Error(err: Diagnosis.WorkerError)
      modifies this
      ensures Snapshot() == ErrorPath(request, old(Snapshot()), err)
    {
      listening := false;
      done := true;
      var report := Diagnosis.Decorate(Diagnosis.AsWritten, err, request.esm, request.cmd, request.code,
                                       request.contents, request.recheck);
      calls := calls + [Failed(report)];
    }

    /** Delivers one event to whichever listener it reaches. */
    method Deliver(e: Event)
      modifies this
      ensures Snapshot() == Step(request, old(Snapshot()), e)
    {
      match e
      case Message(cmdIn, args) =>
        if listening && cmdIn == "err" {
          listening := false;
          done := true;
        } else if listening && cmdIn == request.cmd {
          errorListening := false;
          if !done {
            calls := calls + [Succeeded(args)];
          }
          done := true;
        }
      case ErrMessage(err) =>
        if listening {
          Error(err);
        }
      case WorkerError(err) =>
        if errorListening {
          errorListening := false;
          Error(err);
        }
    }
  }
}
