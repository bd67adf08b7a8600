/**
 * `run_program_with_inputs`: the scripted answers given to the mocked
 * `input`, the mock itself (answers handed out in order, calls counted), and
 * how the way a run ends becomes the `(output, error, input_calls)` triple.
 * Running the submission is not modelled as Python: a submission is given as
 * the sequence of steps it takes (print something, ask for input, exit,
 * raise), and what it prints may depend on the answers it has read so far.
 */
module Harness {
  import opened Wrappers

  // =====================================================================
  // Padding the scripted answers
  // =====================================================================

  /** `[x] * n`. */
  function Repeat(x: string, n: nat): (r: seq<string>)
    ensures |r| == n
    ensures forall k :: 0 <= k < n ==> r[k] == x
  {
    if n == 0 then [] else Repeat(x, n - 1) + [x]
  }

  /** `filler`: the padding value if one is given, else the last answer, else the empty string. */
  function Filler(inputs: seq<string>, padValue: Option<string>): string {
    match padValue
    case Some(v) => v
    case None => if inputs != [] then inputs[|inputs| - 1] else ""
  }

  function MaxZero(n: int): nat {
    if n < 0 then 0 else n
  }

  /**
   * `side_effect_values`: the given answers, in order, followed by
   * `max(0, pad_extra)` copies of the filler.
   */
  function PaddedInputs(inputs: seq<string>, padExtra: int, padValue: Option<string>): (padded: seq<string>)
    ensures |padded| == |inputs| + MaxZero(padExtra)
    ensures padded[..|inputs|] == inputs
    ensures forall k :: |inputs| <= k < |padded| ==> padded[k] == Filler(inputs, padValue)
  {
    inputs + Repeat(Filler(inputs, padValue), MaxZero(padExtra))
  }

  /** Without a padding value, the padding repeats the last answer, or "" when there is none. */
  lemma PaddingRepeatsLastAnswer(inputs: seq<string>, padExtra: int)
    requires padExtra > 0
    ensures var padded := PaddedInputs(inputs, padExtra, None);
      padded[|padded| - 1] == (if inputs == [] then "" else inputs[|inputs| - 1])
  {
  }

  // =====================================================================
  // The mocked input
  // =====================================================================

  /**
   * The mock that replaces `builtins.input`: every call is counted
   * (`call_count`); a call hands out the next scripted answer, or raises
   * `StopIteration` once the answers are used up.
   */
  class InputProvider {
    const answers: array<string>
    var cursor: nat
    var calls: nat

    /** The cursor has handed out every call's answer until the answers ran out. */
    ghost predicate Valid()
      reads this
    {
      cursor <= answers.Length && cursor <= calls && (cursor < answers.Length ==> cursor == calls)
    }

    /** The answers handed out so far, in order. */
    ghost function Handed(): seq<string>
      reads this, answers
      requires Valid()
    {
      answers[..cursor]
    }

    constructor(script: seq<string>)
      ensures Valid() && fresh(answers)
      ensures answers[..] == script && cursor == 0 && calls == 0
    {
      answers := new string[|script|](k requires 0 <= k < |script| => script[k]);
      cursor := 0;
      calls := 0;
    }

    /** One call of the mocked `input`: `None` stands for the `StopIteration` it raises. */
    method Next() returns (answer: Option<string>)
      requires Valid()
      modifies this
      ensures Valid()
      ensures calls == old(calls) + 1
      ensures old(cursor) < answers.Length ==>
        answer == Some(answers[old(cursor)]) && cursor == old(cursor) + 1 && Handed() == old(Handed()) + [answer.value]
      ensures old(cursor) == answers.Length ==> answer == None && cursor == old(cursor)
    {
      calls := calls + 1;
      if cursor < answers.Length {
        answer := Some(answers[cursor]);
        cursor := cursor + 1;
      } else {
        answer := None;
      }
    }
  }

  // =====================================================================
  // Running a submission
  // =====================================================================

  /**
   * One step of a submission: print text (which may depend on the answers it
   * has read so far), call `input`, raise `SystemExit`, or raise any other
   * exception (carrying the traceback text `traceback.format_exc` gives).
   */
  datatype Action =
    | Print(render: seq<string> -> string)
    | ReadInput
    | Exit
    | Raise(trace: string)

  /** The triple `run_program_with_inputs` returns: captured output, error text or `None`, `call_count`. */
  datatype RunResult = RunResult(output: string, error: Option<string>, inputCalls: nat)

  /** The traceback text of the `StopIteration` the mock raises when the answers run out. */
  const StopIterationTrace: string := "StopIteration"

  /**
   * The rest of a run: `program` still to be executed, `calls` answers
   * already read, `out` already captured.
   */
  function RunFrom(program: seq<Action>, answers: seq<string>, calls: nat, out: string): RunResult
    requires calls <= |answers|
    decreases |program|
  {
    if program == [] then RunResult(out, None, calls)
    else
      match program[0]
      case Print(render) => RunFrom(program[1..], answers, calls, out + render(answers[..calls]))
      case ReadInput =>
        if calls < |answers| then RunFrom(program[1..], answers, calls + 1, out)
        else RunResult(out, Some(StopIterationTrace), calls + 1)
      case Exit => RunResult(out, None, calls)
      case Raise(trace) => RunResult(out, Some(trace), calls)
  }

  /** The outcome of running `program` as `__main__` with the mock answering from `answers`. */
  function Run(program: seq<Action>, answers: seq<string>): RunResult {
    RunFrom(program, answers, 0, "")
  }

  /**
   * `run_program_with_inputs(filename, inputs, pad_extra, pad_value)`: pad
   * the answers, install the mock, run the submission step by step, and
   * report the output, the error and the number of `input` calls.
   */
  method RunProgramWithInputs(program: seq<Action>, inputs: seq<string>, padExtra: int, padValue: Option<string>)
    returns (out: string, error: Option<string>, inputCalls: nat)
    ensures RunResult(out, error, inputCalls) == Run(program, PaddedInputs(inputs, padExtra, padValue))
  {
    var padded := PaddedInputs(inputs, padExtra, padValue);
    var mocked := new InputProvider(padded);
    out, error := "", None;
    var i := 0;
    while i < |program|
      invariant 0 <= i <= |program|
      invariant mocked.Valid() && mocked.answers[..] == padded
      invariant mocked.cursor == mocked.calls
      invariant RunFrom(program[i..], padded, mocked.calls, out) == Run(program, padded)
      invariant error == None
      decreases |program| - i
    {
      assert program[i..][1..] == program[i + 1..];
      match program[i] {
        case Print(render) =>
          out := out + render(mocked.answers[..mocked.cursor]);
        case ReadInput =>
          var answer := mocked.Next();
          if answer.None? {
            error := Some(StopIterationTrace);
            inputCalls := mocked.calls;
            return;
          }
        case Exit =>
          // `except SystemExit: pass`
          inputCalls := mocked.calls;
          return;
        case Raise(trace) =>
          // `except Exception: error = traceback.format_exc()`
          error := Some(trace);
          inputCalls := mocked.calls;
          return;
      }
      i := i + 1;
    }
    inputCalls := mocked.calls;
  }

  // =====================================================================
  // What a run can end with
  // =====================================================================

  /** A run never counts more than one call past the scripted answers, and that call is the one that failed. */
  lemma {:induction false} RunFromCallsBound(program: seq<Action>, answers: seq<string>, calls: nat, out: string)
    requires calls <= |answers|
    ensures var r := RunFrom(program, answers, calls, out);
      calls <= r.inputCalls <= |answers| + 1 &&
      (r.inputCalls == |answers| + 1 ==> r.error == Some(StopIterationTrace))
    decreases |program|
  {
    if program != [] {
      match program[0]
      case Print(render) => RunFromCallsBound(program[1..], answers, calls, out + render(answers[..calls]));
      case ReadInput =>
        if calls < |answers| {
          RunFromCallsBound(program[1..], answers, calls + 1, out);
        }
      case Exit =>
      case Raise(_) =>
    }
  }

  /** The steps of `program` are all prints and input calls. */
  predicate Plain(program: seq<Action>) {
    forall k :: 0 <= k < |program| ==> program[k].Print? || program[k].ReadInput?
  }

  /** How many times `program` calls `input`. */
  function Reads(program: seq<Action>): nat {
    if program == [] then 0 else (if program[0].ReadInput? then 1 else 0) + Reads(program[1..])
  }

  /**
   * A `SystemExit` ends the run as a success: nothing after it runs, and the
   * result is the one the steps before it give, as if the program ended there.
   */
  lemma {:induction false} ExitEndsRun(p: seq<Action>, q: seq<Action>, answers: seq<string>, calls: nat, out: string)
    requires calls <= |answers|
    ensures RunFrom(p + [Exit] + q, answers, calls, out) == RunFrom(p, answers, calls, out)
    decreases |p|
  {
    if p != [] {
      assert (p + [Exit] + q)[1..] == p[1..] + [Exit] + q;
      match p[0]
      case Print(render) => ExitEndsRun(p[1..], q, answers, calls, out + render(answers[..calls]));
      case ReadInput =>
        if calls < |answers| {
          ExitEndsRun(p[1..], q, answers, calls + 1, out);
        }
      case Exit =>
      case Raise(_) =>
    } else {
      assert p + [Exit] + q == [Exit] + q;
    }
  }

  /**
   * A program of prints and input calls that asks no more than there are
   * answers runs to its end without error, having called `input` once per read.
   */
  lemma {:induction false} PlainRunCompletes(p: seq<Action>, answers: seq<string>, calls: nat, out: string)
    requires calls <= |answers| && Plain(p) && calls + Reads(p) <= |answers|
    ensures RunFrom(p, answers, calls, out).error == None
    ensures RunFrom(p, answers, calls, out).inputCalls == calls + Reads(p)
    decreases |p|
  {
    if p != [] {
      assert Plain(p[1..]) by {
        forall k | 0 <= k < |p[1..]| ensures p[1..][k].Print? || p[1..][k].ReadInput? {
          assert p[1..][k] == p[k + 1];
        }
      }
      if p[0].Print? {
        PlainRunCompletes(p[1..], answers, calls, out + p[0].render(answers[..calls]));
      } else {
        PlainRunCompletes(p[1..], answers, calls + 1, out);
      }
    }
  }

  /**
   * A program of prints and input calls that asks for more answers than
   * there are fails with the mock's `StopIteration`, after one call too many.
   */
  lemma {:induction false} PlainRunExhausts(p: seq<Action>, answers: seq<string>, calls: nat, out: string)
    requires calls <= |answers| && Plain(p) && calls + Reads(p) > |answers|
    ensures RunFrom(p, answers, calls, out).error == Some(StopIterationTrace)
    ensures RunFrom(p, answers, calls, out).inputCalls == |answers| + 1
    decreases |p|
  {
    assert p != [];
    assert Plain(p[1..]) by {
      forall k | 0 <= k < |p[1..]| ensures p[1..][k].Print? || p[1..][k].ReadInput? {
        assert p[1..][k] == p[k + 1];
      }
    }
    if p[0].Print? {
      PlainRunExhausts(p[1..], answers, calls, out + p[0].render(answers[..calls]));
    } else if calls < |answers| {
      PlainRunExhausts(p[1..], answers, calls + 1, out);
    }
  }

  /**
   * Any other exception becomes the error: after a program of prints and
   * input calls that had enough answers, raising ends the run with its trace.
   */
  lemma RaiseBecomesError(p: seq<Action>, trace: string, q: seq<Action>, answers: seq<string>)
    requires Plain(p) && Reads(p) <= |answers|
    ensures Run(p + [Raise(trace)] + q, answers).error == Some(trace)
    ensures Run(p + [Raise(trace)] + q, answers).inputCalls == Reads(p)
  {
    RaiseAfterPlain(p, trace, q, answers, 0, "");
  }

  lemma {:induction false} RaiseAfterPlain(p: seq<Action>, trace: string, q: seq<Action>, answers: seq<string>, calls: nat, out: string)
    requires calls <= |answers| && Plain(p) && calls + Reads(p) <= |answers|
    ensures RunFrom(p + [Raise(trace)] + q, answers, calls, out).error == Some(trace)
    ensures RunFrom(p + [Raise(trace)] + q, answers, calls, out).inputCalls == calls + Reads(p)
    decreases |p|
  {
    if p == [] {
      assert p + [Raise(trace)] + q == [Raise(trace)] + q;
    } else {
      assert (p + [Raise(trace)] + q)[1..] == p[1..] + [Raise(trace)] + q;
      assert Plain(p[1..]) by {
        forall k | 0 <= k < |p[1..]| ensures p[1..][k].Print? || p[1..][k].ReadInput? {
          assert p[1..][k] == p[k + 1];
        }
      }
      if p[0].Print? {
        RaiseAfterPlain(p[1..], trace, q, answers, calls, out + p[0].render(answers[..calls]));
      } else {
        RaiseAfterPlain(p[1..], trace, q, answers, calls + 1, out);
      }
    }
  }
}
