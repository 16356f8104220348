/**
 * StacktraceExtractor: the frames of a span's stack trace. Frames from the
 * vendor directory are dropped, each remaining frame becomes an APM frame
 * record, and when source rendering is on the record carries the lines of
 * the frame's file around the calling line, grouped into the lines before
 * it, the line itself and the lines after it.
 *
 * The backtrace itself, base_path() and reading a file are parameters.
 */
module Stacktrace {
  import opened Php
  import opened ConfigService
  import opened SpanEmission
  import PackageConfig

  /** A debug_backtrace() frame: every entry may be missing. */
  datatype Frame = Frame(
    className: Option<string>,
    callType: Option<string>,
    functionName: Option<string>,
    file: Option<string>,
    line: Option<int>)

  /** The source lines of a frame; a group with no line in it is null. */
  datatype Snippet = Snippet(preContext: Option<seq<string>>, contextLine: Option<string>, postContext: Option<seq<string>>)

  /** A frame without source: the groups of an empty collection. */
  const NoSource := Snippet(None, None, None)

  /** The frame record sent to APM. */
  datatype FrameRecord = FrameRecord(
    functionName: string,
    absPath: Option<string>,
    filename: string,
    lineno: int,
    libraryFrame: bool,
    source: Snippet)

  // ---------------------------------------------------------------------------
  // getSourceCode

  /** The group keys of getSourceCode. */
  datatype Group = PreContext | ContextLine | PostContext

  /**
   * The filter step: the (0-based index, text) pairs of `lines` from `from`
   * on whose index lies within five of `line` - 1, where `line` is the
   * frame's 1-based line (a missing line reads as 0).
   */
  function Window(lines: seq<string>, line: int, from: nat): (r: seq<(int, string)>)
    requires from <= |lines|
    decreases |lines| - from
  {
    if from == |lines| then []
    else
      var lineStart := (line - 1) - 5;
      var lineStop := (line - 1) + 5;
      (if from >= lineStart && from <= lineStop then [(from, lines[from])] else [])
        + Window(lines, line, from + 1)
  }

  /** The groupBy key of index `index` around the 1-based `line`. */
  function GroupOf(index: int, line: int): Group {
    if index < line - 1 then PreContext
    else if index == line - 1 then ContextLine
    else PostContext
  }

  /** The texts of the pairs in `kept` that fall into group `g`, in order. */
  function GroupBy(kept: seq<(int, string)>, line: int, g: Group): (r: seq<string>)
    ensures |r| <= |kept|
  {
    if kept == [] then []
    else (if GroupOf(kept[0].0, line) == g then [kept[0].1] else []) + GroupBy(kept[1..], line, g)
  }

  /** The first 0-based index a group can hold. */
  function GroupStart(g: Group, line: int): int {
    match g
    case PreContext => line - 6
    case ContextLine => line - 1
    case PostContext => line
  }

  /** One past the last 0-based index a group can hold. */
  function GroupEnd(g: Group, line: int): int {
    match g
    case PreContext => line - 1
    case ContextLine => line
    case PostContext => line + 5
  }

  /** `x` clamped to the indices 0 .. n of a sequence of length n. */
  function Clamp(x: int, n: nat): (r: nat)
    ensures r <= n
    ensures 0 <= x <= n ==> r == x
  {
    if x < 0 then 0 else if x > n then n else x
  }

  /**
   * A kept line lands in exactly one group, and the groups cut the window
   * [line - 6, line + 4] into five lines before the calling line, the calling
   * line and five lines after it.
   */
  lemma GroupsPartitionWindow(index: int, line: int, g: Group)
    ensures ((line - 1) - 5 <= index <= (line - 1) + 5 && GroupOf(index, line) == g)
      <==> GroupStart(g, line) <= index < GroupEnd(g, line)
  {
  }

  /** One step of the filter and the grouping: line `from` goes to group `g` exactly when its index lies in g's range. */
  lemma GroupedWindowStep(lines: seq<string>, line: int, g: Group, from: nat)
    requires from < |lines|
    ensures GroupBy(Window(lines, line, from), line, g)
      == (if GroupStart(g, line) <= from < GroupEnd(g, line) then [lines[from]] else [])
         + GroupBy(Window(lines, line, from + 1), line, g)
  {
    var rest := Window(lines, line, from + 1);
    GroupsPartitionWindow(from, line, g);
    if (line - 1) - 5 <= from <= (line - 1) + 5 {
      var w := [(from, lines[from])] + rest;
      assert Window(lines, line, from) == w;
      assert w[0] == (from, lines[from]) && w[1..] == rest;
    } else {
      assert Window(lines, line, from) == [] + rest;
      assert [] + rest == rest;
    }
  }

  /** Grouping the window from `from` on selects a slice of the file's lines. */
  lemma {:induction false} GroupedWindowSlice(lines: seq<string>, line: int, g: Group, from: nat)
    requires from <= |lines|
    ensures GroupBy(Window(lines, line, from), line, g)
      == lines[Clamp(Max(from, GroupStart(g, line)), |lines|)..Clamp(Max(from, GroupEnd(g, line)), |lines|)]
    decreases |lines| - from
  {
    var n := |lines|;
    var lo, hi := GroupStart(g, line), GroupEnd(g, line);
    if from < n {
      var a0, b0 := Clamp(Max(from, lo), n), Clamp(Max(from, hi), n);
      var a1, b1 := Clamp(Max(from + 1, lo), n), Clamp(Max(from + 1, hi), n);
      var tail := GroupBy(Window(lines, line, from + 1), line, g);
      assert tail == lines[a1..b1] by {
        GroupedWindowSlice(lines, line, g, from + 1);
      }
      assert GroupBy(Window(lines, line, from), line, g)
          == (if lo <= from < hi then [lines[from]] else []) + tail by {
        GroupedWindowStep(lines, line, g, from);
      }
      if from < lo {
        assert a0 == a1 && b0 == b1;
      } else if from < hi {
        assert lines[a0..b0] == [lines[from]] + lines[a1..b1] by {
          assert a0 == from && a1 == from + 1 && b0 == b1;
        }
      } else {
        assert a1 == b1 && a0 == b0;
      }
    }
  }

  function Max(a: int, b: int): int {
    if a < b then b else a
  }

  /** groupBy leaves out a group with no line: the group is then null. */
  function NonEmpty(s: seq<string>): (r: Option<seq<string>>)
    ensures r.Some? <==> s != []
    ensures r.Some? ==> r.value == s
  {
    if s == [] then None else Some(s)
  }

  /** first() of a group, null for a missing one. */
  function First(s: seq<string>): (r: Option<string>)
    ensures r.Some? <==> s != []
    ensures r.Some? ==> r.value == s[0]
  {
    if s == [] then None else Some(s[0])
  }

  /** The filtered lines of a file grouped around the 1-based `line`. */
  function Grouped(lines: seq<string>, line: int): Snippet {
    var kept := Window(lines, line, 0);
    Snippet(NonEmpty(GroupBy(kept, line, PreContext)),
            First(GroupBy(kept, line, ContextLine)),
            NonEmpty(GroupBy(kept, line, PostContext)))
  }

  /**
   * The grouped window is the (up to) five lines before the calling line, the
   * calling line itself when the file has it, and the (up to) five lines after it.
   */
  lemma GroupedLines(lines: seq<string>, line: int)
    ensures var r := Grouped(lines, line);
      r.preContext == NonEmpty(lines[Clamp(line - 6, |lines|)..Clamp(line - 1, |lines|)])
      && r.contextLine == (if 1 <= line <= |lines| then Some(lines[line - 1]) else None)
      && r.postContext == NonEmpty(lines[Clamp(line, |lines|)..Clamp(line + 5, |lines|)])
  {
    var kept := Window(lines, line, 0);
    var n := |lines|;
    assert GroupBy(kept, line, PreContext) == lines[Clamp(line - 6, n)..Clamp(line - 1, n)] by {
      GroupedWindowSlice(lines, line, PreContext, 0);
    }
    assert GroupBy(kept, line, ContextLine) == lines[Clamp(line - 1, n)..Clamp(line, n)] by {
      GroupedWindowSlice(lines, line, ContextLine, 0);
    }
    assert GroupBy(kept, line, PostContext) == lines[Clamp(line, n)..Clamp(line + 5, n)] by {
      GroupedWindowSlice(lines, line, PostContext, 0);
    }
    if 1 <= line <= n {
      assert lines[Clamp(line - 1, n)..Clamp(line, n)] == [lines[line - 1]];
    }
  }

  /**
   * getSourceCode: nothing when renderSource is exactly false (a missing
   * setting reads as false) or the frame's file is empty; otherwise the lines
   * of the file (`read`) within five of the calling line, grouped.
   */
  function SourceCode(frame: Frame, renderSource: Value, read: string -> seq<string>): (r: Snippet)
    ensures renderSource == Bool(false) ==> r == NoSource
    ensures frame.file.None? || FalsyString(frame.file.value) ==> r == NoSource
    ensures renderSource != Bool(false) && frame.file.Some? && !FalsyString(frame.file.value)
      ==> r == Grouped(read(frame.file.value), frame.line.GetOr(0))
  {
    if renderSource == Bool(false) then NoSource
    else if frame.file.None? || FalsyString(frame.file.value) then NoSource
    else Grouped(read(frame.file.value), frame.line.GetOr(0))
  }

  /** At most five lines before, one calling line and five after; none of the groups is ever an empty list. */
  lemma SourceCodeBounds(frame: Frame, renderSource: Value, read: string -> seq<string>)
    ensures var r := SourceCode(frame, renderSource, read);
      (r.preContext.Some? ==> 1 <= |r.preContext.value| <= 5)
      && (r.postContext.Some? ==> 1 <= |r.postContext.value| <= 5)
  {
    if renderSource != Bool(false) && frame.file.Some? && !FalsyString(frame.file.value) {
      GroupedLines(read(frame.file.value), frame.line.GetOr(0));
    }
  }

  // ---------------------------------------------------------------------------
  // stripVendorTraces

  /** Whether a frame's file starts with `<basePath>/vendor`; a frame without a file does not. */
  predicate IsVendor(frame: Frame, basePath: string) {
    frame.file.Some? && StartsWith(frame.file.value, basePath + "/vendor")
  }

  /** stripVendorTraces: the frames outside the vendor directory, in their order. */
  function StripVendor(frames: seq<Frame>, basePath: string): (r: seq<Frame>)
    ensures |r| <= |frames|
    ensures forall k :: 0 <= k < |r| ==> !IsVendor(r[k], basePath)
  {
    if frames == [] then []
    else (if IsVendor(frames[0], basePath) then [] else [frames[0]]) + StripVendor(frames[1..], basePath)
  }

  /** A frame survives exactly when it is one of the frames and is not a vendor frame. */
  lemma {:induction false} StripVendorMembers(frames: seq<Frame>, basePath: string, f: Frame)
    ensures f in StripVendor(frames, basePath) <==> f in frames && !IsVendor(f, basePath)
  {
    if frames != [] {
      StripVendorMembers(frames[1..], basePath, f);
      assert frames == [frames[0]] + frames[1..];
    }
  }

  /** Stripping works frame by frame, so the surviving frames keep their order. */
  lemma {:induction false} StripVendorAppend(a: seq<Frame>, b: seq<Frame>, basePath: string)
    ensures StripVendor(a + b, basePath) == StripVendor(a, basePath) + StripVendor(b, basePath)
  {
    if a == [] {
      assert a + b == b;
    } else {
      assert (a + b)[0] == a[0] && (a + b)[1..] == a[1..] + b;
      StripVendorAppend(a[1..], b, basePath);
    }
  }

  /** A trace with no vendor frame is left as it is. */
  lemma {:induction false} StripVendorNone(frames: seq<Frame>, basePath: string)
    requires forall k :: 0 <= k < |frames| ==> !IsVendor(frames[k], basePath)
    ensures StripVendor(frames, basePath) == frames
  {
    if frames != [] {
      StripVendorNone(frames[1..], basePath);
    }
  }

  // ---------------------------------------------------------------------------
  // The frame record

  /** The part of `s` after its last '/'. */
  function AfterLastSlash(s: string): (r: string)
    ensures '/' !in r
    ensures |r| <= |s| && s[|s| - |r|..] == r
  {
    if s == [] || s[|s| - 1] == '/' then []
    else
      var r := AfterLastSlash(s[..|s| - 1]);
      assert s[..|s| - 1][|s| - 1 - |r|..] == r;
      assert s[|s| - 1 - |r|..] == r + [s[|s| - 1]];
      r + [s[|s| - 1]]
  }

  /** basename(): the last path component, trailing slashes ignored; a null path has the empty name. */
  function Basename(path: Option<string>): (r: string)
    ensures '/' !in r
  {
    match path
    case None => ""
    case Some(p) => AfterLastSlash(TrimRight(p, {'/'}))
  }

  /** The name of a file in a directory is what basename() returns for its path. */
  lemma {:induction false} BasenameOfJoin(dir: string, name: string)
    requires name != [] && '/' !in name
    ensures Basename(Some(dir + "/" + name)) == name
  {
    var p := dir + "/" + name;
    assert p[|p| - 1] == name[|name| - 1];
    assert TrimRight(p, {'/'}) == p;
    NameAfterSlash(dir, name);
  }

  lemma {:induction false} NameAfterSlash(dir: string, name: string)
    requires '/' !in name
    ensures AfterLastSlash(dir + "/" + name) == name
    decreases |name|
  {
    var p := dir + "/" + name;
    if name == [] {
      assert p[|p| - 1] == '/';
    } else {
      var init, last := name[..|name| - 1], name[|name| - 1];
      assert name == init + [last];
      assert p[..|p| - 1] == dir + "/" + init && p[|p| - 1] == last;
      assert last != '/' by {
        assert last in name;
      }
      assert '/' !in init;
      assert AfterLastSlash(p) == AfterLastSlash(dir + "/" + init) + [last];
      NameAfterSlash(dir, init);
    }
  }

  /** The frame record: function is class, call type and function name run together, the missing ones as empty strings. */
  function Record(frame: Frame, renderSource: Value, read: string -> seq<string>): (r: FrameRecord)
    ensures !r.libraryFrame && r.absPath == frame.file
    ensures r.lineno == if frame.line.Some? then frame.line.value else 0
    ensures r.source == SourceCode(frame, renderSource, read)
  {
    FrameRecord(frame.className.GetOr("") + frame.callType.GetOr("") + frame.functionName.GetOr(""),
                frame.file, Basename(frame.file), frame.line.GetOr(0), false,
                SourceCode(frame, renderSource, read))
  }

  /** A method frame's function names the class, the call type and the method. */
  lemma RecordFunctionName(frame: Frame, renderSource: Value, read: string -> seq<string>)
    requires frame.className.Some? && frame.callType.Some? && frame.functionName.Some?
    ensures Record(frame, renderSource, read).functionName
      == frame.className.value + frame.callType.value + frame.functionName.value
  {
  }

  // ---------------------------------------------------------------------------
  // getStacktrace

  /** A non-empty run of decimal digits. */
  predicate IsDigits(s: string) {
    |s| > 0 && forall i :: 0 <= i < |s| ==> '0' <= s[i] <= '9'
  }

  /** The value of a run of decimal digits, most significant first. */
  function DigitsValue(s: string): nat
    decreases |s|
  {
    if s == [] then 0
    else 10 * DigitsValue(s[..|s| - 1]) + if '0' <= s[|s| - 1] <= '9' then s[|s| - 1] as int - '0' as int else 0
  }

  /** The decimal string of a natural number, as an environment variable holds it. */
  function Decimal(n: nat): (r: string)
    ensures IsDigits(r)
  {
    (if n < 10 then [] else Decimal(n / 10)) + [('0' as int + n % 10) as char]
  }

  /** Reading a decimal string gives the number back. */
  lemma {:induction false} DecimalValue(n: nat)
    ensures DigitsValue(Decimal(n)) == n
  {
    var prefix := if n < 10 then [] else Decimal(n / 10);
    var c := ('0' as int + n % 10) as char;
    assert Decimal(n) == prefix + [c];
    assert (prefix + [c])[..|prefix|] == prefix;
    assert c as int - '0' as int == n % 10;
    assert DigitsValue(Decimal(n)) == 10 * DigitsValue(prefix) + n % 10;
    if n >= 10 {
      DecimalValue(n / 10);
    }
  }

  /**
   * The configured depth as debug_backtrace()'s int parameter receives it:
   * null and false are 0, true is 1, a string of digits is its number, and
   * anything else is the TypeError the call raises (None).
   */
  function Depth(v: Value): (r: Option<int>)
    ensures v.Int? ==> r == Some(v.i)
    ensures v == Null || v == Bool(false) ==> r == Some(0)
    ensures v == Bool(true) ==> r == Some(1)
    ensures v.Str? ==> (r.Some? <==> IsDigits(v.s)) && (r.Some? ==> r.value >= 0)
    ensures v.List? || v.Map? || v.Obj? ==> r.None?
  {
    match v
    case Null => Some(0)
    case Bool(b) => Some(if b then 1 else 0)
    case Int(i) => Some(i)
    case Str(s) => if IsDigits(s) then Some(DigitsValue(s)) else None
    case _ => None
  }

  /** spans.backtraceDepth, read with 0 as its default. */
  function BacktraceDepth(config: Value): Option<int> {
    Depth(Get(config, Key(["spans", "backtraceDepth"]), Int(0)))
  }

  /** debug_backtrace()'s limit: 0 keeps every frame, a positive n the first n, a negative one none. */
  function Limit(trace: seq<Frame>, limit: int): (r: seq<Frame>)
    ensures limit == 0 ==> r == trace
    ensures limit > 0 ==> r == trace[..if limit < |trace| then limit else |trace|]
    ensures limit < 0 ==> r == []
  {
    if limit < 0 then []
    else if limit == 0 || |trace| <= limit then trace
    else trace[..limit]
  }

  function Records(frames: seq<Frame>, renderSource: Value, read: string -> seq<string>): (r: seq<FrameRecord>)
    ensures |r| == |frames|
    ensures forall k :: 0 <= k < |r| ==> r[k] == Record(frames[k], renderSource, read)
  {
    seq(|frames|, k requires 0 <= k < |frames| => Record(frames[k], renderSource, read))
  }

  /**
   * getStacktrace: the backtrace (`trace`, innermost call first) cut to
   * spans.backtraceDepth frames, without vendor frames, as frame records;
   * renderSource is read with false as its default. A depth debug_backtrace()
   * cannot take as an int is its TypeError.
   */
  function GetStacktrace(trace: seq<Frame>, config: Value, basePath: string,
                         read: string -> seq<string>): (r: Result<seq<FrameRecord>, AgentError>)
    ensures r.Ok? <==> BacktraceDepth(config).Some?
    ensures r.Ok? ==> var depth := BacktraceDepth(config).value;
      |r.value| <= |trace| && (depth > 0 ==> |r.value| <= depth) && (depth < 0 ==> r.value == [])
    ensures r.Ok? ==> forall k :: 0 <= k < |r.value| ==> !r.value[k].libraryFrame
  {
    match BacktraceDepth(config)
    case None => Err(TypeError("debug_backtrace", "int"))
    case Some(depth) =>
      var frames := StripVendor(Limit(trace, depth), basePath);
      Ok(Records(frames, Get(config, Key(["spans", "renderSource"]), Bool(false)), read))
  }

  /** Every frame within the depth that is not a vendor frame gives its record in the stack trace. */
  lemma StacktraceFrames(trace: seq<Frame>, config: Value, basePath: string,
                         read: string -> seq<string>, f: Frame)
    ensures var renderSource := Get(config, Key(["spans", "renderSource"]), Bool(false));
      (BacktraceDepth(config).Some? && f in Limit(trace, BacktraceDepth(config).value) && !IsVendor(f, basePath))
        ==> Record(f, renderSource, read) in GetStacktrace(trace, config, basePath, read).value
  {
    if BacktraceDepth(config).Some? {
      var renderSource := Get(config, Key(["spans", "renderSource"]), Bool(false));
      var frames := StripVendor(Limit(trace, BacktraceDepth(config).value), basePath);
      StripVendorMembers(Limit(trace, BacktraceDepth(config).value), basePath, f);
      if f in frames {
        var k :| 0 <= k < |frames| && frames[k] == f;
        assert GetStacktrace(trace, config, basePath, read).value[k] == Record(f, renderSource, read);
      }
    }
  }

  /** With renderSource false, or unset, no record carries source lines. */
  lemma NoSourceWithoutRendering(trace: seq<Frame>, config: Value, basePath: string,
                                 read: string -> seq<string>)
    requires !Has(config, Key(["spans", "renderSource"])) || Get(config, Key(["spans", "renderSource"])) == Bool(false)
    ensures GetStacktrace(trace, config, basePath, read).Ok? ==>
      forall r :: r in GetStacktrace(trace, config, basePath, read).value ==> r.source == NoSource
  {
    GetDefault(config, Key(["spans", "renderSource"]), Bool(false), Null);
  }

  /**
   * Under the package configuration the stack trace holds at most 25 frames
   * when neither APM_BACKTRACEDEPTH nor ELASTIC_APM_STACK_TRACE_LIMIT is set,
   * and at most n when APM_BACKTRACEDEPTH is the decimal string of n > 0.
   */
  lemma ConfiguredDepth(env: PackageConfig.Environment, hostname: Value, n: nat, trace: seq<Frame>,
                        basePath: string, read: string -> seq<string>)
    ensures var r := GetStacktrace(trace, PackageConfig.Repository(env, hostname), basePath, read);
      ("APM_BACKTRACEDEPTH" !in env && "ELASTIC_APM_STACK_TRACE_LIMIT" !in env ==> r.Ok? && |r.value| <= 25)
      && (("APM_BACKTRACEDEPTH" in env && env["APM_BACKTRACEDEPTH"] == PackageConfig.Text(Decimal(n)) && n > 0)
          ==> r.Ok? && |r.value| <= n)
  {
    var config := PackageConfig.Repository(env, hostname);
    var p := Key(["spans", "backtraceDepth"]);
    PackageConfig.SpanSettings(env, hostname);
    GetDefault(config, p, Int(0), Null);
    GetDefault(config, p, Null, Null);
    DecimalValue(n);
  }
}
