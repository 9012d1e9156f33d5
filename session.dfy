/**
 * index.js:93-121, the host side of a running sandbox: the `exited` flag set by the
 * worker's exit, the shared `context` object that `context` messages are merged into, and
 * `sandbox.fin`, which clears the ESM loader's environment, refuses to run once the worker
 * has exited, and otherwise merges the final context and terminates the worker.
 */
module Session {
  import opened Wrappers
  import Values
  import Diagnosis

  const DataUrlVar := "LAZARETTO_LOADER_DATA_URL"
  const RelativeDirVar := "LAZARETTO_LOADER_RELATIVE_DIR"

  type Context = map<string, Values.Value>

  /** Why `fin` rejects: the worker is gone, or the final `sync` request failed. */
  datatype FinError = AlreadyFinished | Rejected(report: Diagnosis.Report)

  function Message(e: FinError): string
  {
    match e
    case AlreadyFinished => "Sandbox already finished"
    case Rejected(report) =>
      match report
      case Undecorated(err) => err.message
      case Decorated(_, _, _, message, _) => message
  }

  /** The process environment, the `exited` flag, the host's context and whether the worker was told to terminate. */
  datatype State = State(env: map<string, string>, exited: bool, context: Context, terminated: bool)

  /** `Object.assign(target, source)`: the own properties of `source` are copied onto `target`. */
  function Assign(target: Context, source: Context): (r: Context)
    ensures r.Keys == target.Keys + source.Keys
    ensures forall k :: k in source ==> r[k] == source[k]
    ensures forall k :: k in target && k !in source ==> r[k] == target[k]
  {
    map k | k in target.Keys + source.Keys :: if k in source then source[k] else target[k]
  }

  /** The `message` listener of index.js:94-97: only `context` messages are merged. */
  function OnMessage(s: State, tag: string, o: Context): State
  {
    if tag != "context" then s else s.(context := Assign(s.context, o))
  }

  /** The `exit` listener. */
  function OnExit(s: State): State
  {
    s.(exited := true)
  }

  /**
   * `sandbox.fin()`, where `reply` is how the `sync` request settles: the context the worker
   * sends back, or the error it fails with.
   */
  function Fin(esm: bool, s: State, reply: Result<Context, Diagnosis.Report>): (State, Result<(), FinError>)
  {
    var cleared := s.(env := if esm then s.env - {DataUrlVar, RelativeDirVar} else s.env);
    if s.exited then (cleared, Failure(AlreadyFinished))
    else
      match reply
      case Failure(report) => (cleared, Failure(Rejected(report)))
      case Success(ctx) => (cleared.(context := Assign(cleared.context, ctx), terminated := true), Success(()))
  }

  // ---------------------------------------------------------------- properties

  /** Merging the same properties twice is merging them once. */
  lemma AssignTwice(target: Context, source: Context)
    ensures Assign(Assign(target, source), source) == Assign(target, source)
  {
  }

  /** Merging is from the left: a later merge wins over an earlier one for the keys they share. */
  lemma AssignInOrder(target: Context, a: Context, b: Context)
    ensures Assign(Assign(target, a), b) == Assign(target, Assign(a, b))
  {
    var l := Assign(Assign(target, a), b);
    var r := Assign(target, Assign(a, b));
    assert l.Keys == r.Keys;
    forall k | k in l
      ensures l[k] == r[k]
    {
    }
  }

  /** Messages with any other tag leave the context alone. */
  lemma OtherTagsIgnored(s: State, tag: string, o: Context)
    requires tag != "context"
    ensures OnMessage(s, tag, o) == s
  {
  }

  /** Under ESM the loader's variables are gone after `fin`, whatever its outcome; nothing else in the environment changes. */
  lemma FinClearsLoaderEnv(esm: bool, s: State, reply: Result<Context, Diagnosis.Report>)
    ensures var env := Fin(esm, s, reply).0.env;
      (esm ==> DataUrlVar !in env && RelativeDirVar !in env) &&
      (forall k :: k != DataUrlVar && k != RelativeDirVar ==> (k in env <==> k in s.env)) &&
      (forall k :: k in env ==> env[k] == s.env[k]) &&
      (!esm ==> env == s.env)
  {
  }

  /** Once the worker has exited, `fin` rejects with "Sandbox already finished" and neither merges nor terminates. */
  lemma FinAfterExit(esm: bool, s: State, reply: Result<Context, Diagnosis.Report>)
    requires s.exited
    ensures Fin(esm, s, reply).1 == Failure(AlreadyFinished)
    ensures Message(Fin(esm, s, reply).1.error) == "Sandbox already finished"
    ensures Fin(esm, s, reply).0.context == s.context && Fin(esm, s, reply).0.terminated == s.terminated
  {
  }

  /** Before the worker exits, `fin` succeeds exactly when `sync` does, and then merges its context and terminates. */
  lemma FinBeforeExit(esm: bool, s: State, reply: Result<Context, Diagnosis.Report>)
    requires !s.exited
    ensures Fin(esm, s, reply).1.Success? <==> reply.Success?
    ensures reply.Success? ==>
      Fin(esm, s, reply).0.context == Assign(s.context, reply.value) && Fin(esm, s, reply).0.terminated
    ensures reply.Failure? ==>
      Fin(esm, s, reply).1 == Failure(Rejected(reply.error)) && Fin(esm, s, reply).0.context == s.context
  {
  }

  /**
   * `fin` is not idempotent: after a successful `fin` and the exit that termination causes,
   * a second `fin` rejects, and the context keeps what the first one merged.
   */
  lemma SecondFinRejects(esm: bool, s: State, first: Result<Context, Diagnosis.Report>,
                         second: Result<Context, Diagnosis.Report>)
    requires !s.exited && first.Success?
    ensures var after := OnExit(Fin(esm, s, first).0);
      Fin(esm, s, first).1.Success? &&
      Fin(esm, after, second).1 == Failure(AlreadyFinished) &&
      Fin(esm, after, second).0.context == Assign(s.context, first.value)
  {
    FinBeforeExit(esm, s, first);
    FinAfterExit(esm, OnExit(Fin(esm, s, first).0), second);
  }

  // ---------------------------------------------------------------- the sandbox, in place

  /** The closure variables of one sandbox, with `process.env` as a field. */
  class Sandbox {
    const esm: bool
    var env: map<string, string>
    var exited: bool
    var context: Context
    var terminated: bool

    function Snapshot(): State
      reads this
    {
      State(env, exited, context, terminated)
    }

    constructor (esm: bool, env: map<string, string>, context: Context)
      ensures this.esm == esm && Snapshot() == State(env, false, context, false)
    {
      this.esm := esm;
      this.env := env;
      this.exited := false;
      this.context := context;
      this.terminated := false;
    }

    method Receive(tag: string, o: Context)
      modifies this
      ensures Snapshot() == OnMessage(old(Snapshot()), tag, o)
    {
      if tag != "context" {
        return;
      }
      context := Assign(context, o);
    }

    method Exit()
      modifies this
      ensures Snapshot() == OnExit(old(Snapshot()))
    {
      exited := true;
    }

    method Finish(reply: Result<Context, Diagnosis.Report>) returns (r: Result<(), FinError>)
      modifies this
      ensures (Snapshot(), r) == Fin(esm, old(Snapshot()), reply)
    {
      if esm {
        env := env - {DataUrlVar, RelativeDirVar};
      }
      if exited {
        return Failure(AlreadyFinished);
      }
      match reply
      case Failure(report) =>
        return Failure(Rejected(report));
      case Success(ctx) =>
        context := Assign(context, ctx);
        terminated := true;
        return Success(());
    }
  }
}
