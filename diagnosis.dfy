/**
 * index.js:144-185, what the host makes of an error raised in the worker: the stack frame
 * that points into the entry, the line number read from it, the message, and the
 * `diagnosis` excerpt of the entry's source with the failing line marked.
 */
module Diagnosis {
  import opened Wrappers
  import opened Text

  /** The error as it arrives from the worker. */
  datatype WorkerError = WorkerError(name: string, message: string, stack: string, isSyntaxError: bool)

  /** What unary `+` makes of a piece of the frame. */
  datatype Number = NaN | Int(n: nat)

  /** What is passed to the callback: the error itself, or a copy carrying the extra fields. */
  datatype Report =
    | Undecorated(err: WorkerError)
    | Decorated(err: WorkerError, line: Number, esm: bool, message: string, diagnosis: Option<string>)

  /** The scheme of the data URL the ESM entry is loaded from. */
  const DataUrlMarker := "data:text/" + "javascript;base64,"

  // ---------------------------------------------------------------- the frame

  /** `findIndex` of the first line containing `pat` (a regular expression with no special characters is a substring test). */
  function FirstContaining(lines: seq<string>, pat: string): (r: int)
    ensures -1 <= r < |lines|
    ensures r == -1 <==> forall i :: 0 <= i < |lines| ==> !Contains(lines[i], pat)
    ensures r >= 0 ==> Contains(lines[r], pat) && forall i :: 0 <= i < r ==> !Contains(lines[i], pat)
  {
    if |lines| == 0 then -1
    else if Contains(lines[0], pat) then 0
    else
      var k := FirstContaining(lines[1..], pat);
      assert forall i :: 1 <= i < |lines| ==> lines[i] == lines[1..][i - 1];
      if k < 0 then -1 else k + 1
  }

  /** `find`: the first line containing `pat`, `undefined` (None) when there is none. */
  function Find(lines: seq<string>, pat: string): Option<string>
  {
    var k := FirstContaining(lines, pat);
    if k < 0 then None else Some(lines[k])
  }

  /**
   * The frame: under ESM the first stack line pointing into the data URL, under CommonJS
   * the first stack line. `recheck` is the first line of `node -c entry`'s error output when
   * that run fails; it is consulted only for an ESM syntax error with no frame.
   */
  function Frame(err: WorkerError, esm: bool, recheck: Option<string>): Option<string>
  {
    var stack := Split(err.stack, '\n');
    var frame := if esm then Find(stack, DataUrlMarker) else Some(stack[0]);
    if esm && frame.None? && err.isSyntaxError && recheck.Some? then Some(":" + recheck.value)
    else frame
  }

  /** `if (frame)`: a frame is used when it is present and not the empty string. */
  predicate Truthy(frame: Option<string>)
  {
    frame.Some? && frame.value != ""
  }

  /** The line number: the third `:`-separated piece of the frame under ESM, the second under CommonJS. */
  function LineOf(frame: string, esm: bool): Number
  {
    var pieces := Split(frame, ':');
    var k := if esm then 2 else 1;
    if k < |pieces| then
      match NumberOf(pieces[k])
      case Some(n) => Int(n)
      case None => NaN
    else NaN
  }

  // ---------------------------------------------------------------- the excerpt

  /** A template literal's rendering of `undefined` or of a string. */
  function Render(s: Option<string>): string
  {
    match s
    case None => "undefined"
    case Some(t) => t
  }

  /** What is appended to the failing line. */
  function Mark(banner: Option<string>): string
  {
    " <--- ### " + Render(banner) + " ###"
  }

  /** The lines as an array: every element present. */
  function Lift(lines: seq<string>): (r: seq<Option<string>>)
    ensures |r| == |lines| && forall i :: 0 <= i < |lines| ==> r[i] == Some(lines[i])
  {
    seq(|lines|, i requires 0 <= i < |lines| => Some(lines[i]))
  }

  /**
   * `diagnosis[line - 1] = ...`: the element is replaced when it exists; an index past the
   * end grows the array with holes (`None`) and reads the missing element as `undefined`;
   * index -1 or NaN names a property, not an element, and leaves the elements alone.
   */
  function Annotate(lines: seq<string>, line: Number, mark: string): (r: seq<Option<string>>)
    ensures line.Int? && 1 <= line.n ==> |r| == if line.n <= |lines| then |lines| else line.n
    ensures !(line.Int? && 1 <= line.n) ==> r == Lift(lines)
  {
    var arr := Lift(lines);
    match line
    case NaN => arr
    case Int(l) =>
      if l == 0 then arr
      else if l - 1 < |lines| then arr[l - 1 := Some(lines[l - 1] + mark)]
      else arr + seq(l - 1 - |lines|, _ => None) + [Some("undefined" + mark)]
  }

  /** Which end of the window: as the code clamps it, or as intended. */
  datatype Window = AsWritten | Intended

  /**
   * The window `[from, to)` for an array of `len` elements and error line `l`: five lines of
   * context either side, `to` clamped to the last index as written, to the length as intended.
   */
  function Bounds(w: Window, len: nat, l: nat): (r: (nat, nat))
    requires len >= 1
    ensures r.1 <= len
  {
    var from := if l - 5 < 0 then 0 else l - 5;
    var to := match w
      case AsWritten => (if l + 5 > len - 1 then len - 1 else l + 5)
      case Intended => (if l + 5 > len then len else l + 5);
    (from, to)
  }

  /** `slice(from, to).map((line, n) => `${n + from}: ${line}`)`: holes stay holes and `join` renders them empty. */
  function Excerpt(arr: seq<Option<string>>, from: nat, to: nat): (r: seq<string>)
    requires to <= |arr|
    ensures |r| == if from < to then to - from else 0
  {
    if from >= to then []
    else
      seq(to - from, n requires 0 <= n < to - from =>
        match arr[from + n]
        case None => ""
        case Some(t) => NatToString(n + from) + ": " + t)
  }

  /** `err.diagnosis`. A NaN line makes `from` and `to` NaN, which `slice` reads as 0: nothing is kept. */
  function Diagnosis(w: Window, contents: string, line: Number, banner: Option<string>): string
  {
    match line
    case NaN => ""
    case Int(l) =>
      var arr := Annotate(Split(contents, '\n'), line, Mark(banner));
      var b := Bounds(w, |arr|, l);
      Join(Excerpt(arr, b.0, b.1), "\n")
  }

  // ---------------------------------------------------------------- the report

  const Prefix := "Lazaretto Sandbox Error: "

  /** The first line of the message given to an error whose value could not be cloned back from `expr`. */
  function CloneHead(code: string): string
  {
    Prefix + QuotedCode(code)
  }

  function QuotedCode(code: string): string
  {
    "`" + Trim(code) + "` is not clonable: \n"
  }

  /** The rest of that message: the original message and a pointer to the structured clone algorithm. */
  function CloneTail(message: string): string
  {
    "              " + message + "\n              See https://developer.mozilla.org/en-US/docs/"
    + "Web/API/Web_Workers_API/" + "Structured_clone_algorithm\n            "
  }

  function CloneMessage(code: string, message: string): string
  {
    CloneHead(code) + CloneTail(message)
  }

  /**
   * The error path of `hook`: what `cb` receives for an error `err` raised while `cmd` was
   * pending (`code` is the first argument of `expr`), with the excerpt window `w`.
   */
  function Decorate(w: Window, err: WorkerError, esm: bool, cmd: string, code: string,
                    contents: string, recheck: Option<string>): Report
  {
    var frame := Frame(err, esm, recheck);
    if !Truthy(frame) then Undecorated(err)
    else
      var line := LineOf(frame.value, esm);
      if err.name == "DataCloneError" && cmd == "expr" then
        Decorated(err, line, esm, CloneMessage(code, err.message), None)
      else
        var banner := Find(Split(err.stack, '\n'), err.message);
        Decorated(err, line, esm, Prefix + "\n" + Render(banner), Some(Diagnosis(w, contents, line, banner)))
  }

  // ---------------------------------------------------------------- properties

  /** A piece of digits followed by nothing or by another `:` piece. */
  lemma NumberPiece(n: nat, tail: string)
    requires tail == "" || tail[0] == ':'
    ensures Split(NatToString(n) + tail, ':')[0] == NatToString(n)
  {
    var d := NatToString(n);
    assert ':' !in d;
    if tail == "" {
      assert d + tail == d;
      SplitWithout(d, ':');
    } else {
      assert d + tail == d + [':'] + tail[1..];
      SplitAfterPiece(d, tail[1..], ':');
    }
  }

  /** Under ESM, a frame `a:b:<n>...` is read as line `n`. */
  lemma {:induction false} EsmLineOf(a: string, b: string, n: nat, tail: string)
    requires ':' !in a && ':' !in b && (tail == "" || tail[0] == ':')
    ensures LineOf(a + ":" + b + ":" + NatToString(n) + tail, true) == Int(n)
  {
    var rest := NatToString(n) + tail;
    assert a + ":" + b + ":" + NatToString(n) + tail == a + [':'] + (b + [':'] + rest);
    SplitAfterPiece(a, b + [':'] + rest, ':');
    SplitAfterPiece(b, rest, ':');
    NumberPiece(n, tail);
    NumberOfNatToString(n);
  }

  /** Under CommonJS, a frame `a:<n>...` (such as `[worker eval]:3`) is read as line `n`. */
  lemma {:induction false} CjsLineOf(a: string, n: nat, tail: string)
    requires ':' !in a && (tail == "" || tail[0] == ':')
    ensures LineOf(a + ":" + NatToString(n) + tail, false) == Int(n)
  {
    var rest := NatToString(n) + tail;
    assert a + ":" + NatToString(n) + tail == a + [':'] + rest;
    SplitAfterPiece(a, rest, ':');
    NumberPiece(n, tail);
    NumberOfNatToString(n);
  }

  /** An ESM syntax error with no frame falls back on the first line of the failed syntax check. */
  lemma RecheckedFrame(err: WorkerError, recheck: Option<string>)
    requires err.isSyntaxError && recheck.Some?
    requires forall i :: 0 <= i < |Split(err.stack, '\n')| ==> !Contains(Split(err.stack, '\n')[i], DataUrlMarker)
    ensures Frame(err, true, recheck) == Some(":" + recheck.value)
  {
    var stack := Split(err.stack, '\n');
    assert FirstContaining(stack, DataUrlMarker) == -1;
  }

  /** That fallback frame, `:` before the check's `file:<n>`, is read as line `n`. */
  lemma RecheckedLine(file: string, n: nat)
    requires ':' !in file
    ensures LineOf(":" + (file + ":" + NatToString(n)), true) == Int(n)
  {
    var d := NatToString(n);
    assert ":" + (file + ":" + d) == "" + ":" + file + ":" + d + "";
    EsmLineOf("", file, n, "");
  }

  /** Under ESM the frame is the first stack line pointing into the entry's data URL. */
  lemma EsmFrameIsFirst(err: WorkerError, recheck: Option<string>, k: nat)
    requires k < |Split(err.stack, '\n')| && Contains(Split(err.stack, '\n')[k], DataUrlMarker)
    requires forall i :: 0 <= i < k ==> !Contains(Split(err.stack, '\n')[i], DataUrlMarker)
    ensures Frame(err, true, recheck) == Some(Split(err.stack, '\n')[k])
  {
    var stack := Split(err.stack, '\n');
    var j := FirstContaining(stack, DataUrlMarker);
    assert j == k;
  }

  /** `d` shows the lines of `lines` from index `from` on, each numbered by its 0-based index, line `l` (1-based) marked. */
  predicate Numbered(d: seq<string>, lines: seq<string>, from: nat, l: nat, mark: string)
  {
    forall n :: 0 <= n < |d| ==>
      n + from < |lines| &&
      d[n] == NatToString(n + from) + ": " + lines[n + from] + (if n + from == l - 1 then mark else "")
  }

  /** The excerpt shows each kept element numbered by its 0-based index, the failing line marked. */
  lemma ExcerptLines(lines: seq<string>, l: nat, mark: string, from: nat, to: nat)
    requires 1 <= l <= |lines| && to <= |lines|
    ensures Numbered(Excerpt(Annotate(lines, Int(l), mark), from, to), lines, from, l, mark)
  {
  }

  /**
   * For an error inside the file, the diagnosis text is one line per index of the window,
   * numbered by that index, the failing line carrying the banner.
   */
  lemma {:induction false} DiagnosisLines(w: Window, contents: string, l: nat, banner: Option<string>)
    requires 1 <= l <= |Split(contents, '\n')|
    requires banner.Some? ==> '\n' !in banner.value
    ensures var lines := Split(contents, '\n');
      var b := Bounds(w, |lines|, l);
      var d := Split(Diagnosis(w, contents, Int(l), banner), '\n');
      b.0 < b.1 ==> |d| == b.1 - b.0 && Numbered(d, lines, b.0, l, Mark(banner))
  {
    var lines := Split(contents, '\n');
    var mark := Mark(banner);
    var arr := Annotate(lines, Int(l), mark);
    var b := Bounds(w, |lines|, l);
    if b.0 < b.1 {
      var e := Excerpt(arr, b.0, b.1);
      DiagnosisJoins(w, contents, l, banner);
      ExcerptLines(lines, l, mark, b.0, b.1);
      ExcerptSingleLines(lines, l, banner, b.0, b.1);
      SplitJoin(e, '\n');
      assert Split(Diagnosis(w, contents, Int(l), banner), '\n') == e;
    }
  }

  lemma DiagnosisJoins(w: Window, contents: string, l: nat, banner: Option<string>)
    requires 1 <= l <= |Split(contents, '\n')|
    ensures var lines := Split(contents, '\n');
      var b := Bounds(w, |lines|, l);
      Diagnosis(w, contents, Int(l), banner) == Join(Excerpt(Annotate(lines, Int(l), Mark(banner)), b.0, b.1), "\n")
  {
  }

  /** No line of the excerpt spans lines. */
  lemma ExcerptSingleLines(lines: seq<string>, l: nat, banner: Option<string>, from: nat, to: nat)
    requires 1 <= l <= |lines| && to <= |lines|
    requires forall i :: 0 <= i < |lines| ==> '\n' !in lines[i]
    requires banner.Some? ==> '\n' !in banner.value
    ensures var e := Excerpt(Annotate(lines, Int(l), Mark(banner)), from, to);
      forall n :: 0 <= n < |e| ==> '\n' !in e[n]
  {
    var mark := Mark(banner);
    assert '\n' !in mark;
    var e := Excerpt(Annotate(lines, Int(l), mark), from, to);
    ExcerptLines(lines, l, mark, from, to);
    forall n | 0 <= n < |e|
      ensures '\n' !in e[n]
    {
      var num := NatToString(n + from);
      assert forall i :: 0 <= i < |num| ==> num[i] != '\n';
      assert '\n' !in lines[n + from];
    }
  }

  /** As written, the window never reaches the last element: `to` is clamped to the last index and `slice` excludes it. */
  lemma AsWrittenMissesLast(len: nat, l: nat)
    requires len >= 1
    ensures Bounds(AsWritten, len, l).1 <= len - 1
  {
  }

  /** As written, an error on the last line of a two-line file is reported without that line. */
  lemma LastLineLost(x: string, y: string, banner: Option<string>)
    requires '\n' !in x && '\n' !in y
    ensures Diagnosis(AsWritten, x + "\n" + y, Int(2), banner) == "0: " + x
  {
    TwoLines(x, y);
    DiagnosisJoins(AsWritten, x + "\n" + y, 2, banner);
    assert Bounds(AsWritten, 2, 2) == (0, 1);
    TwoLineExcerpt(x, y, Mark(banner), 1);
  }

  /** Corrected: the same error shows both lines, the second one marked. */
  lemma LastLineShown(x: string, y: string, banner: Option<string>)
    requires '\n' !in x && '\n' !in y
    ensures Diagnosis(Intended, x + "\n" + y, Int(2), banner) == "0: " + x + "\n" + "1: " + y + Mark(banner)
  {
    TwoLines(x, y);
    DiagnosisJoins(Intended, x + "\n" + y, 2, banner);
    assert Bounds(Intended, 2, 2) == (0, 2);
    TwoLineExcerpt(x, y, Mark(banner), 2);
    TwoJoined("0: " + x, "1: " + y + Mark(banner));
  }

  /** The first `to` lines of a two-line file with an error on its second line. */
  lemma TwoLineExcerpt(x: string, y: string, mark: string, to: nat)
    requires 1 <= to <= 2
    ensures Excerpt(Annotate([x, y], Int(2), mark), 0, to) == ["0: " + x, "1: " + y + mark][..to]
  {
    var e := Excerpt(Annotate([x, y], Int(2), mark), 0, to);
    ExcerptLines([x, y], 2, mark, 0, to);
    SmallNumerals();
    assert |e| == to;
    assert e[0] == "0: " + x by {
      assert "0" + ": " == "0: ";
    }
    if to == 2 {
      assert e[1] == "1: " + y + mark by {
        assert "1" + ": " == "1: ";
      }
    }
  }

  lemma TwoJoined(x: string, y: string)
    ensures Join([x, y], "\n") == x + "\n" + y
  {
    assert [x, y][1..] == [y];
  }

  lemma SmallNumerals()
    ensures NatToString(0) == "0" && NatToString(1) == "1"
  {
    assert DigitChar(0) == '0' && DigitChar(1) == '1';
  }

  lemma TwoLines(x: string, y: string)
    requires '\n' !in x && '\n' !in y
    ensures Split(x + "\n" + y, '\n') == [x, y]
  {
    assert x + "\n" + y == x + ['\n'] + y;
    SplitAfterPiece(x, y, '\n');
    SplitWithout(y, '\n');
  }

  /**
   * Corrected: for an error inside the file the window is the lines from five before the
   * line number up to five after it, clamped to the file, and it always holds the failing line.
   */
  lemma {:induction false} IntendedShowsFailingLine(contents: string, l: nat, banner: Option<string>)
    requires 1 <= l <= |Split(contents, '\n')|
    requires banner.Some? ==> '\n' !in banner.value
    ensures var lines := Split(contents, '\n');
      var from := if l < 5 then 0 else l - 5;
      var to := if l + 5 < |lines| then l + 5 else |lines|;
      var d := Split(Diagnosis(Intended, contents, Int(l), banner), '\n');
      |d| == to - from && from <= l - 1 < to &&
      d[l - 1 - from] == NatToString(l - 1) + ": " + lines[l - 1] + Mark(banner)
  {
    var lines := Split(contents, '\n');
    var b := Bounds(Intended, |lines|, l);
    assert b.0 < b.1;
    DiagnosisLines(Intended, contents, l, banner);
  }

  /**
   * The report: the extra fields only when a usable frame was found; no excerpt exactly for a
   * `DataCloneError` from `expr`; the message always names the sandbox, and a clone failure
   * quotes the trimmed expression.
   */
  lemma ReportShape(w: Window, err: WorkerError, esm: bool, cmd: string, code: string,
                    contents: string, recheck: Option<string>)
    ensures var r := Decorate(w, err, esm, cmd, code, contents, recheck);
      (r.Decorated? <==> Truthy(Frame(err, esm, recheck))) &&
      (r.Decorated? ==>
        r.esm == esm && r.line == LineOf(Frame(err, esm, recheck).value, esm) &&
        (r.diagnosis.None? <==> err.name == "DataCloneError" && cmd == "expr") &&
        StartsWith(r.message, Prefix) &&
        (r.diagnosis.None? ==> StartsWith(r.message, CloneHead(code))))
  {
    CloneMessageQuotes(code, err.message);
    var banner := Find(Split(err.stack, '\n'), err.message);
    StartsWithConcat(Prefix, "\n" + Render(banner));
    assert Prefix + "\n" + Render(banner) == Prefix + ("\n" + Render(banner));
  }

  /** The clone failure message starts with the sandbox prefix and the trimmed expression. */
  lemma CloneMessageQuotes(code: string, message: string)
    ensures StartsWith(CloneMessage(code, message), Prefix)
    ensures StartsWith(CloneMessage(code, message), CloneHead(code))
  {
    StartsWithConcat(CloneHead(code), CloneTail(message));
    StartsWithConcat(Prefix, QuotedCode(code));
    StartsWithTransitive(CloneMessage(code, message), CloneHead(code), Prefix);
  }
}
