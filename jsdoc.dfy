/**
 * internal/javascript/jsdoc.go: the JSDoc reader that gives script
 * functions their summary, parameter names, types and descriptions.
 *
 * Every regular expression of the file is written out as the leftmost-first
 * RE2 match it performs: `\s` is the five ASCII blanks, `\w` the ASCII word
 * characters and `.` any character except a line break. A pattern that does
 * not match where the Go code indexes `match[1]` anyway (an index out of
 * range, so a panic) is the `NoMatch` error outcome here.
 */
module JsDoc {
  import opened Wrappers
  import opened Text

  /** `javaScriptArgumentMetadata`. */
  datatype ArgumentMetadata = ArgumentMetadata(name: string, typ: string, description: string)

  /** `javaScriptReturnMetadata`. */
  datatype ReturnMetadata = ReturnMetadata(typ: string, description: string)

  /** `JavaScriptFunctionMetadata`; a nil `returns` pointer is `None`. */
  datatype FunctionMetadata = FunctionMetadata(
    summary: string,
    description: string,
    params: seq<ArgumentMetadata>,
    returnEntry: Option<ReturnMetadata>)

  /** The patterns whose missing match makes `regExFindAndDelete` panic. */
  datatype Pattern = TagPattern | ParamNamePattern | DescriptionPattern | TypePattern

  datatype DocError =
    /** "unknown tag: %s" */
    | UnknownTag(tag: string)
    /** `match[1]` on a failed match: the Go code panics. */
    | NoMatch(pattern: Pattern)

  // ---------------------------------------------------------------------
  // removeWhitespaceFromString
  // ---------------------------------------------------------------------

  /** `removeWhitespaceFromString`: every run of `\s` replaced by nothing. */
  function RemoveWhitespace(s: string): (r: string)
    ensures |r| <= |s|
    ensures forall i :: 0 <= i < |r| ==> !IsReSpace(r[i])
  {
    if s == [] then []
    else (if IsReSpace(s[0]) then [] else [s[0]]) + RemoveWhitespace(s[1..])
  }

  /** White space is removed piece by piece: the rest keeps its order. */
  lemma {:induction false} RemoveWhitespaceAppend(a: string, b: string)
    ensures RemoveWhitespace(a + b) == RemoveWhitespace(a) + RemoveWhitespace(b)
    decreases |a|
  {
    if a == [] {
      assert a + b == b;
    } else {
      assert (a + b)[0] == a[0];
      assert (a + b)[1..] == a[1..] + b;
      RemoveWhitespaceAppend(a[1..], b);
    }
  }

  /** Each character is dropped exactly when it is white space. */
  lemma RemoveWhitespaceChar(c: char)
    ensures RemoveWhitespace([c]) == if IsReSpace(c) then [] else [c]
  {
    assert [c][1..] == [];
  }

  /** A text without white space is left as it is. */
  lemma {:induction false} RemoveWhitespaceKeeps(s: string)
    requires forall i :: 0 <= i < |s| ==> !IsReSpace(s[i])
    ensures RemoveWhitespace(s) == s
    decreases |s|
  {
    if s != [] {
      RemoveWhitespaceKeeps(s[1..]);
    }
  }

  lemma RemoveWhitespaceIdempotent(s: string)
    ensures RemoveWhitespace(RemoveWhitespace(s)) == RemoveWhitespace(s)
  {
    RemoveWhitespaceKeeps(RemoveWhitespace(s));
  }

  // ---------------------------------------------------------------------
  // The line patterns
  // ---------------------------------------------------------------------

  /** The end of the run of `\s` that starts at `i`. */
  function SpaceEnd(s: string, i: nat): (r: nat)
    requires i <= |s|
    ensures i <= r <= |s|
    decreases |s| - i
  {
    if i < |s| && IsReSpace(s[i]) then SpaceEnd(s, i + 1) else i
  }

  /** The run is maximal: blanks up to its end, and no blank at it. */
  lemma {:induction false} SpaceEndSpec(s: string, i: nat)
    requires i <= |s|
    ensures SpaceEnd(s, i) < |s| ==> !IsReSpace(s[SpaceEnd(s, i)])
    ensures forall k :: i <= k < SpaceEnd(s, i) ==> IsReSpace(s[k])
    decreases |s| - i
  {
    if i < |s| && IsReSpace(s[i]) {
      SpaceEndSpec(s, i + 1);
    }
  }

  /** The end of the run of `\w` that starts at `i`. */
  function WordEnd(s: string, i: nat): (r: nat)
    requires i <= |s|
    ensures i <= r <= |s|
    decreases |s| - i
  {
    if i < |s| && IsWordChar(s[i]) then WordEnd(s, i + 1) else i
  }

  /** The run is maximal: word characters up to its end, and none at it. */
  lemma {:induction false} WordEndSpec(s: string, i: nat)
    requires i <= |s|
    ensures WordEnd(s, i) < |s| ==> !IsWordChar(s[WordEnd(s, i)])
    ensures forall k :: i <= k < WordEnd(s, i) ==> IsWordChar(s[k])
    decreases |s| - i
  {
    if i < |s| && IsWordChar(s[i]) {
      WordEndSpec(s, i + 1);
    }
  }

  /** What `^\s?\*\s?` matches: a star, with at most one blank on either side. */
  predicate IsLeader(p: string) {
    (|p| == 1 && p[0] == '*')
    || (|p| == 2 && ((IsReSpace(p[0]) && p[1] == '*') || (p[0] == '*' && IsReSpace(p[1]))))
    || (|p| == 3 && IsReSpace(p[0]) && p[1] == '*' && IsReSpace(p[2]))
  }

  /**
   * `jsdocBeginRegEx.ReplaceAllString(line, "")`: the longest leader at the
   * start of the line is removed, and nothing when the line has none.
   */
  function StripLeader(line: string): (r: string)
    ensures |r| <= |line| && r == line[|line| - |r|..]
  {
    var star :=
      if |line| >= 2 && IsReSpace(line[0]) && line[1] == '*' then 2
      else if |line| >= 1 && line[0] == '*' then 1
      else 0;
    if star == 0 then line
    else if star < |line| && IsReSpace(line[star]) then line[star + 1..]
    else line[star..]
  }

  /** What is removed is a leader, and no longer prefix is one. */
  lemma StripLeaderLongest(line: string)
    ensures var r := StripLeader(line); r == line || IsLeader(line[..|line| - |r|])
    ensures var r := StripLeader(line); forall k :: |line| - |r| < k <= |line| && k <= 3 ==> !IsLeader(line[..k])
  {
  }

  /** A line as the loop sees it: leader removed, then trimmed. */
  function CleanLine(raw: string): string {
    TrimSpace(StripLeader(raw))
  }

  /** A captured group, trimmed, and the text left once the match is replaced. */
  datatype Found = Found(group: string, rest: string)

  /** `regExFindAndDelete(jsdocTagRegEx, line, "")`: `^@(\w+)`. */
  function FindTag(line: string): (r: Option<Found>)
    ensures r.Some? <==> |line| >= 2 && line[0] == '@' && IsWordChar(line[1])
    ensures r.Some? ==> line == "@" + r.value.group + r.value.rest
    ensures r.Some? ==> forall k :: 0 <= k < |r.value.group| ==> IsWordChar(r.value.group[k])
    ensures r.Some? ==> r.value.rest == [] || !IsWordChar(r.value.rest[0])
  {
    if |line| == 0 || line[0] != '@' then None
    else
      var e := WordEnd(line, 1);
      WordEndSpec(line, 1);
      if e == 1 then None
      else
        TagSplit(line, e);
        Some(Found(TrimSpace(line[1..e]), line[e..]))
  }

  /** The tag word ends where the word characters stop, and trimming leaves it as it is. */
  lemma TagSplit(line: string, e: nat)
    requires 1 < e <= |line| && e == WordEnd(line, 1)
    ensures TrimSpace(line[1..e]) == line[1..e]
    ensures line == [line[0]] + line[1..e] + line[e..]
    ensures forall k :: 0 <= k < |line[1..e]| ==> IsWordChar(line[1..e][k])
    ensures line[e..] == [] || !IsWordChar(line[e..][0])
  {
    WordEndSpec(line, 1);
    var w := line[1..e];
    TagWordTrimmed(w);
    assert line == [line[0]] + w + line[e..];
    assert forall k :: 0 <= k < |w| ==> w[k] == line[1 + k];
  }

  lemma TagWordTrimmed(w: string)
    requires |w| > 0 && IsWordChar(w[0]) && IsWordChar(w[|w| - 1])
    ensures TrimSpace(w) == w
  {
    WordCharIsNotSpace(w[0]);
    WordCharIsNotSpace(w[|w| - 1]);
    TrimSpaceOfTrimmed(w);
  }

  /** One match of `\}\s+(\w+)\s+\-`, at `start`, with its captured word. */
  datatype ParamHit = ParamHit(start: nat, wordStart: nat, wordEnd: nat, end: nat)

  /** The match of the parameter-name pattern at exactly `p`; the pattern's runs leave no choice. */
  function ParamAt(s: string, p: nat): (r: Option<ParamHit>)
    requires p <= |s|
    ensures r.Some? ==> r.value.start == p < r.value.wordStart < r.value.wordEnd < r.value.end <= |s|
    ensures r.Some? ==> s[p] == '}' && s[r.value.end - 1] == '-'
  {
    if p == |s| || s[p] != '}' then None
    else
      var a := SpaceEnd(s, p + 1);
      var b := WordEnd(s, a);
      var c := SpaceEnd(s, b);
      if a == p + 1 || b == a || c == b || c == |s| || s[c] != '-' then None
      else Some(ParamHit(p, a, b, c + 1))
  }

  /** The leftmost match of the parameter-name pattern at or after `p`. */
  function FirstParam(s: string, p: nat): (r: Option<ParamHit>)
    requires p <= |s|
    ensures r.Some? ==> p <= r.value.start < r.value.wordStart < r.value.wordEnd < r.value.end <= |s|
    decreases |s| - p
  {
    if p == |s| then None
    else if ParamAt(s, p).Some? then ParamAt(s, p)
    else FirstParam(s, p + 1)
  }

  /** No match of the parameter-name pattern starts in `[lo, hi)`. */
  predicate NoParamIn(s: string, lo: nat, hi: nat)
    requires hi <= |s| + 1
    decreases hi - lo
  {
    lo >= hi || (ParamAt(s, lo).None? && NoParamIn(s, lo + 1, hi))
  }

  lemma {:induction false} NoParamInAt(s: string, lo: nat, hi: nat, k: nat)
    requires hi <= |s| + 1 && NoParamIn(s, lo, hi) && lo <= k < hi
    ensures ParamAt(s, k).None?
    decreases k - lo
  {
    if lo < k {
      NoParamInAt(s, lo + 1, hi, k);
    }
  }

  /** `FirstParam` finds a match, and no match starts before it. */
  lemma {:induction false} FirstParamIsLeftmost(s: string, p: nat)
    requires p <= |s|
    ensures FirstParam(s, p).Some? ==> ParamAt(s, FirstParam(s, p).value.start) == FirstParam(s, p)
    ensures FirstParam(s, p).Some? ==> NoParamIn(s, p, FirstParam(s, p).value.start)
    ensures FirstParam(s, p).None? ==> NoParamIn(s, p, |s| + 1)
    decreases |s| - p
  {
    if p < |s| {
      var m := ParamAt(s, p);
      if m.Some? {
        assert FirstParam(s, p) == m;
        assert m.value.start == p;
      } else {
        assert FirstParam(s, p) == FirstParam(s, p + 1);
        FirstParamIsLeftmost(s, p + 1);
      }
    } else {
      assert NoParamIn(s, p + 1, |s| + 1);
    }
  }

  /** Whatever `FirstParam` does not return does not match: the search is leftmost. */
  lemma FirstParamSkipsNothing(s: string, p: nat, k: nat)
    requires p <= k <= |s|
    ensures FirstParam(s, p).Some? && k < FirstParam(s, p).value.start ==> ParamAt(s, k).None?
    ensures FirstParam(s, p).None? ==> ParamAt(s, k).None?
  {
    FirstParamIsLeftmost(s, p);
    var r := FirstParam(s, p);
    if r.Some? && k < r.value.start {
      NoParamInAt(s, p, r.value.start, k);
    } else if r.None? {
      NoParamInAt(s, p, |s| + 1, k);
    }
  }

  /** `jsdocParamNameRegEx.ReplaceAllString(s[p..], "}")`: every match, left to right, becomes `}`. */
  function ReplaceParams(s: string, p: nat): string
    requires p <= |s|
    decreases |s| - p
  {
    var m := FirstParam(s, p);
    if m.None? then s[p..]
    else s[p..m.value.start] + "}" + ReplaceParams(s, m.value.end)
  }

  /** The position of the last `c` in `s[lo..hi]`, or `lo - 1` when there is none. */
  function LastIndexIn(s: string, c: char, lo: nat, hi: nat): (r: int)
    requires lo <= hi <= |s|
    ensures lo - 1 <= r < hi
    ensures r >= lo ==> s[r] == c
    ensures forall k :: r < k < hi && lo <= k ==> s[k] != c
    decreases hi - lo
  {
    if hi == lo then lo - 1
    else if s[hi - 1] == c then hi - 1
    else LastIndexIn(s, c, lo, hi - 1)
  }

  /**
   * `regExFindAndDelete(jsdocDescriptionRegEx, s, "")`: `([^}]+)$` matches
   * the non-empty text after the last `}`; the rest is what precedes it.
   */
  function FindDescription(s: string): (r: Option<Found>)
    ensures r.None? <==> |s| == 0 || s[|s| - 1] == '}'
  {
    var d := LastIndexIn(s, '}', 0, |s|) + 1;
    if d == |s| then None
    else Some(Found(TrimSpace(s[d..]), s[..d]))
  }

  /**
   * The group of `jsdocTypeRegEx` (`\{(.*)\}`), searched from `i`: the first
   * `{` whose line holds a later `}`, up to the last such `}` of that line.
   */
  function TypeFrom(s: string, i: nat): (r: Option<string>)
    requires i <= |s|
    decreases |s| - i
  {
    var p := NextIndex(s, '{', i);
    if p == |s| then None
    else
      var e := NextIndex(s, '\n', p);
      var q := LastIndexIn(s, '}', p + 1, e);
      if q > p then Some(TrimSpace(s[p + 1..q]))
      else TypeFrom(s, e)
  }

  /** On a single line, the type is what lies between the first `{` and the last `}`. */
  lemma TypeOnOneLine(s: string)
    requires forall k :: 0 <= k < |s| ==> s[k] != '\n'
    ensures var p := NextIndex(s, '{', 0); var q := LastIndexIn(s, '}', 0, |s|);
      TypeFrom(s, 0) == if p < q then Some(TrimSpace(s[p + 1..q])) else None
  {
    var p := NextIndex(s, '{', 0);
    if p < |s| {
      NoBreakAfter(s, p);
      LastIndexInWider(s, '}', 0, p + 1, |s|);
      TypeFromFound(s, p);
    }
  }

  lemma NoBreakAfter(s: string, p: nat)
    requires p <= |s| && forall k :: 0 <= k < |s| ==> s[k] != '\n'
    ensures NextIndex(s, '\n', p) == |s|
  {
  }

  /** One step of the search, when the first `{` has no line break after it. */
  lemma TypeFromFound(s: string, p: nat)
    requires p == NextIndex(s, '{', 0) < |s| && NextIndex(s, '\n', p) == |s|
    ensures var q := LastIndexIn(s, '}', p + 1, |s|);
      TypeFrom(s, 0) == if q > p then Some(TrimSpace(s[p + 1..q])) else None
  {
    NextIndexEnd(s, '{', |s|);
  }

  /** Searching a wider range finds the same last occurrence when it lies in the narrower one. */
  lemma {:induction false} LastIndexInWider(s: string, c: char, lo: nat, mid: nat, hi: nat)
    requires lo <= mid <= hi <= |s|
    ensures LastIndexIn(s, c, mid, hi) >= mid ==> LastIndexIn(s, c, lo, hi) == LastIndexIn(s, c, mid, hi)
    ensures LastIndexIn(s, c, mid, hi) < mid ==> LastIndexIn(s, c, lo, hi) < mid
    decreases hi - mid
  {
    if hi > mid && s[hi - 1] != c {
      LastIndexInWider(s, c, lo, mid, hi - 1);
    }
  }

  lemma NextIndexEnd(s: string, c: char, e: nat)
    requires e == |s|
    ensures NextIndex(s, c, e) == |s|
  {
  }

  /** `regExFindAndDelete(jsdocTypeRegEx, s, "")`, of which only the group is used. */
  function FindType(s: string): Option<string> {
    TypeFrom(s, 0)
  }

  // ---------------------------------------------------------------------
  // One line
  // ---------------------------------------------------------------------

  /** What one line of a JSDoc block is, after cleaning and tag matching. */
  datatype Line =
    | Blank
    | TextLine(text: string)
    | ParamLine(param: ArgumentMetadata)
    | ReturnsLine(ret: ReturnMetadata)
    | BadLine(error: DocError)

  /** The `case "param"` branch, on the text after the tag. */
  function ParamEntry(rest: string): Result<ArgumentMetadata, DocError> {
    var m := FirstParam(rest, 0);
    if m.None? then Failure(NoMatch(ParamNamePattern))
    else
      var name := TrimSpace(rest[m.value.wordStart..m.value.wordEnd]);
      var d := FindDescription(ReplaceParams(rest, 0));
      if d.None? then Failure(NoMatch(DescriptionPattern))
      else
        var t := FindType(d.value.rest);
        if t.None? then Failure(NoMatch(TypePattern))
        else Success(ArgumentMetadata(name, t.value, d.value.group))
  }

  /** The `case "returns"` branch, on the text after the tag. */
  function ReturnEntry(rest: string): Result<ReturnMetadata, DocError> {
    var d := FindDescription(rest);
    if d.None? then Failure(NoMatch(DescriptionPattern))
    else
      var t := FindType(d.value.rest);
      if t.None? then Failure(NoMatch(TypePattern))
      else Success(ReturnMetadata(t.value, d.value.group))
  }

  /** The body of the line loop of `parseJSDoc`, up to the update of the collected state. */
  function Classify(raw: string): Line {
    LineKind(CleanLine(raw))
  }

  /** The body of the line loop on a cleaned line. */
  function LineKind(line: string): Line {
    if line == "" then Blank
    else if HasPrefix(line, "@") then
      var t := FindTag(line);
      if t.None? then BadLine(NoMatch(TagPattern))
      else if t.value.group == "param" then
        var e := ParamEntry(t.value.rest);
        if e.Failure? then BadLine(e.error) else ParamLine(e.value)
      else if t.value.group == "returns" then
        var e := ReturnEntry(t.value.rest);
        if e.Failure? then BadLine(e.error) else ReturnsLine(e.value)
      else BadLine(UnknownTag(t.value.group))
    else TextLine(line)
  }

  /**
   * On a cleaned line: empty lines are skipped, lines without a leading `@`
   * are text, a tag pattern that does not match is a panic, and a tag other
   * than `param` and `returns` is "unknown tag".
   */
  lemma LineKindSpec(line: string)
    ensures LineKind(line).Blank? <==> line == ""
    ensures LineKind(line).TextLine? <==> line != "" && line[0] != '@'
    ensures LineKind(line).TextLine? ==> LineKind(line).text == line
    ensures line != "" && line[0] == '@' && FindTag(line).None? ==> LineKind(line) == BadLine(NoMatch(TagPattern))
    ensures line != "" && line[0] == '@' && FindTag(line).Some? && FindTag(line).value.group != "param" && FindTag(line).value.group != "returns"
      ==> LineKind(line) == BadLine(UnknownTag(FindTag(line).value.group))
    ensures LineKind(line).ParamLine? ==> FindTag(line).Some? && FindTag(line).value.group == "param"
    ensures LineKind(line).ReturnsLine? ==> FindTag(line).Some? && FindTag(line).value.group == "returns"
  {
    if line != "" && HasPrefix(line, "@") {
      var t := FindTag(line);
      if t.Some? && t.value.group == "param" {
        var e := ParamEntry(t.value.rest);
        assert LineKind(line) == if e.Failure? then BadLine(e.error) else ParamLine(e.value);
      } else if t.Some? && t.value.group == "returns" {
        var e := ReturnEntry(t.value.rest);
        assert LineKind(line) == if e.Failure? then BadLine(e.error) else ReturnsLine(e.value);
      }
    }
  }

  // ---------------------------------------------------------------------
  // parseJSDoc
  // ---------------------------------------------------------------------

  /** The loop state of `parseJSDoc`: the description buffer, the params, the returns pointer. */
  datatype DocState = DocState(buf: string, params: seq<ArgumentMetadata>, returnEntry: Option<ReturnMetadata>)

  /** The lines of a block, each classified. */
  function Classified(lines: seq<string>): (ls: seq<Line>)
    ensures |ls| == |lines| && forall k :: 0 <= k < |lines| ==> ls[k] == Classify(lines[k])
  {
    seq(|lines|, k requires 0 <= k < |lines| => Classify(lines[k]))
  }

  /** The state after a line that is not bad. */
  function StepState(st: DocState, l: Line): DocState
    requires !l.BadLine?
  {
    match l
    case Blank => st
    case TextLine(t) => st.(buf := st.buf + t + "\n")
    case ParamLine(a) => st.(params := st.params + [a])
    case ReturnsLine(ret) => st.(returnEntry := Some(ret))
  }

  /** The loop of `parseJSDoc` over the classified lines `ls[i..]`, from state `st`. */
  function DocFold(ls: seq<Line>, i: nat, st: DocState): Result<DocState, DocError>
    requires i <= |ls|
    decreases |ls| - i
  {
    if i == |ls| then Success(st)
    else if ls[i].BadLine? then Failure(ls[i].error)
    else DocFold(ls, i + 1, StepState(st, ls[i]))
  }

  /** One step of the loop. */
  lemma DocFoldNext(ls: seq<Line>, i: nat, st: DocState)
    requires i < |ls|
    ensures DocFold(ls, i, st) == if ls[i].BadLine? then Failure(ls[i].error) else DocFold(ls, i + 1, StepState(st, ls[i]))
  {
  }

  /** `strings.SplitN(all, "\n", 2)` read into summary and description. */
  function SummaryOf(all: string): (string, string) {
    var i := NextIndex(all, '\n', 0);
    if i == |all| then (all, "") else (all[..i], all[i + 1..])
  }

  /** The classified lines of a JSDoc text. */
  function DocLines(doc: string): seq<Line> {
    Classified(Split(doc, '\n'))
  }

  /** What `parseJSDoc` returns for the classified lines `ls`. */
  function DocResult(ls: seq<Line>): Result<FunctionMetadata, DocError> {
    var r := DocFold(ls, 0, DocState("", [], None));
    if r.Failure? then Failure(r.error)
    else
      var (summary, description) := SummaryOf(r.value.buf);
      Success(FunctionMetadata(summary, description, r.value.params, r.value.returnEntry))
  }

  /** `parseJSDoc(doc)`, as a function. */
  function DocMetadata(doc: string): Result<FunctionMetadata, DocError> {
    DocResult(DocLines(doc))
  }

  /**
   * `parseJSDoc`: the text is split into lines, each line is classified, and
   * the loop collects the classified lines.
   */
  method ParseJSDoc(doc: string) returns (r: Result<FunctionMetadata, DocError>)
    ensures r == DocMetadata(doc)
  {
    r := CollectLines(DocLines(doc));
  }

  /** The loop of `parseJSDoc`, with the description buffer, the params and the returns pointer. */
  method CollectLines(ls: seq<Line>) returns (r: Result<FunctionMetadata, DocError>)
    ensures r == DocResult(ls)
  {
    var buf := "";
    var params: seq<ArgumentMetadata> := [];
    var returnEntry: Option<ReturnMetadata> := None;
    var i := 0;
    while i < |ls|
      invariant 0 <= i <= |ls|
      invariant DocFold(ls, i, DocState(buf, params, returnEntry)) == DocFold(ls, 0, DocState("", [], None))
    {
      var line := ls[i];
      DocFoldNext(ls, i, DocState(buf, params, returnEntry));
      if line.BadLine? {
        return Failure(line.error);
      }
      ghost var st' := StepState(DocState(buf, params, returnEntry), line);
      if line.TextLine? {
        buf := buf + line.text + "\n";
      } else if line.ParamLine? {
        params := params + [line.param];
      } else if line.ReturnsLine? {
        returnEntry := Some(line.ret);
      }
      assert DocState(buf, params, returnEntry) == st';
      i := i + 1;
    }
    var (summary, description) := SummaryOf(buf);
    r := Success(FunctionMetadata(summary, description, params, returnEntry));
  }

  // ---------------------------------------------------------------------
  // What parseJSDoc collects
  // ---------------------------------------------------------------------

  /** The entries of the `@param` lines of `ls[i..]`, in document order. */
  function ParamsOf(ls: seq<Line>, i: nat): seq<ArgumentMetadata>
    requires i <= |ls|
    decreases |ls| - i
  {
    if i == |ls| then []
    else (if ls[i].ParamLine? then [ls[i].param] else []) + ParamsOf(ls, i + 1)
  }

  /** The entry of the last `@returns` line of `ls[i..]`, or `cur` when there is none. */
  function LastReturns(ls: seq<Line>, i: nat, cur: Option<ReturnMetadata>): (r: Option<ReturnMetadata>)
    requires i <= |ls|
    ensures (forall k :: i <= k < |ls| ==> !ls[k].ReturnsLine?) ==> r == cur
    decreases |ls| - i
  {
    if i == |ls| then cur
    else LastReturns(ls, i + 1, if ls[i].ReturnsLine? then Some(ls[i].ret) else cur)
  }

  /** The text lines of `ls[i..]`, in document order. */
  function TextsOf(ls: seq<Line>, i: nat): seq<string>
    requires i <= |ls|
    decreases |ls| - i
  {
    if i == |ls| then []
    else (if ls[i].TextLine? then [ls[i].text] else []) + TextsOf(ls, i + 1)
  }

  /** The lines of a text, each followed by a line break. */
  function Terminated(ts: seq<string>): string {
    if ts == [] then "" else ts[0] + "\n" + Terminated(ts[1..])
  }

  /** The whole block is read exactly when no line of it is bad; otherwise the first bad line's error is returned. */
  lemma {:induction false} DocFoldOutcome(ls: seq<Line>, i: nat, st: DocState)
    requires i <= |ls|
    ensures DocFold(ls, i, st).Success? <==> forall k :: i <= k < |ls| ==> !ls[k].BadLine?
    ensures DocFold(ls, i, st).Failure? ==>
      (exists k :: i <= k < |ls| && ls[k].BadLine? && (forall j :: i <= j < k ==> !ls[j].BadLine?)
         && DocFold(ls, i, st).error == ls[k].error)
    decreases |ls| - i
  {
    if i < |ls| && !ls[i].BadLine? {
      var st' := StepState(st, ls[i]);
      assert DocFold(ls, i, st) == DocFold(ls, i + 1, st');
      DocFoldOutcome(ls, i + 1, st');
      if DocFold(ls, i + 1, st').Failure? {
        var k :| i + 1 <= k < |ls| && ls[k].BadLine? && (forall j :: i + 1 <= j < k ==> !ls[j].BadLine?)
          && DocFold(ls, i + 1, st').error == ls[k].error;
        assert forall j :: i <= j < k ==> !ls[j].BadLine?;
      }
    }
  }

  /** On success, the params are the `@param` entries in document order. */
  lemma {:induction false} DocFoldParams(ls: seq<Line>, i: nat, st: DocState)
    requires i <= |ls| && DocFold(ls, i, st).Success?
    ensures DocFold(ls, i, st).value.params == st.params + ParamsOf(ls, i)
    decreases |ls| - i
  {
    if i == |ls| {
      assert ParamsOf(ls, i) == [];
      assert st.params + [] == st.params;
    } else {
      var l := ls[i];
      var st' := StepState(st, l);
      assert DocFold(ls, i, st) == DocFold(ls, i + 1, st');
      DocFoldParams(ls, i + 1, st');
      var mine := if l.ParamLine? then [l.param] else [];
      assert ParamsOf(ls, i) == mine + ParamsOf(ls, i + 1);
      assert st'.params == st.params + mine;
      assert st.params + mine + ParamsOf(ls, i + 1) == st.params + (mine + ParamsOf(ls, i + 1));
    }
  }

  /** On success, the returns entry is the last `@returns` line's, or the one held before. */
  lemma {:induction false} DocFoldReturns(ls: seq<Line>, i: nat, st: DocState)
    requires i <= |ls| && DocFold(ls, i, st).Success?
    ensures DocFold(ls, i, st).value.returnEntry == LastReturns(ls, i, st.returnEntry)
    decreases |ls| - i
  {
    if i < |ls| {
      var l := ls[i];
      var st' := StepState(st, l);
      assert DocFold(ls, i, st) == DocFold(ls, i + 1, st');
      DocFoldReturns(ls, i + 1, st');
      assert st'.returnEntry == if l.ReturnsLine? then Some(l.ret) else st.returnEntry;
    }
  }

  /** On success, the buffer holds the text lines, each followed by a line break. */
  lemma {:induction false} DocFoldBuffer(ls: seq<Line>, i: nat, st: DocState)
    requires i <= |ls| && DocFold(ls, i, st).Success?
    ensures DocFold(ls, i, st).value.buf == st.buf + Terminated(TextsOf(ls, i))
    decreases |ls| - i
  {
    if i == |ls| {
      assert TextsOf(ls, i) == [];
      assert st.buf + "" == st.buf;
    } else {
      var l := ls[i];
      var st' := StepState(st, l);
      assert DocFold(ls, i, st) == DocFold(ls, i + 1, st');
      DocFoldBuffer(ls, i + 1, st');
      var rest := Terminated(TextsOf(ls, i + 1));
      if l.TextLine? {
        assert TextsOf(ls, i) == [l.text] + TextsOf(ls, i + 1);
        assert Terminated(TextsOf(ls, i)) == l.text + "\n" + rest;
        assert st'.buf == st.buf + l.text + "\n";
        assert st.buf + l.text + "\n" + rest == st.buf + (l.text + "\n" + rest);
      } else {
        assert TextsOf(ls, i) == [] + TextsOf(ls, i + 1);
        assert [] + TextsOf(ls, i + 1) == TextsOf(ls, i + 1);
        assert st'.buf == st.buf;
      }
    }
  }

  /** The entry of a `@returns` line with no later `@returns` line is the one kept. */
  lemma {:induction false} LastReturnsWins(ls: seq<Line>, i: nat, cur: Option<ReturnMetadata>, k: nat)
    requires i <= k < |ls| && ls[k].ReturnsLine?
    requires forall j :: k < j < |ls| ==> !ls[j].ReturnsLine?
    ensures LastReturns(ls, i, cur) == Some(ls[k].ret)
    decreases |ls| - i
  {
    if i < k {
      LastReturnsWins(ls, i + 1, if ls[i].ReturnsLine? then Some(ls[i].ret) else cur, k);
    }
  }

  predicate SingleLine(s: string) {
    forall k :: 0 <= k < |s| ==> s[k] != '\n'
  }

  /** A cleaned line is a slice of the raw line, so it holds no line break when the raw line holds none. */
  lemma CleanLineSingle(raw: string)
    requires SingleLine(raw)
    ensures SingleLine(CleanLine(raw))
  {
    var l := StripLeader(raw);
    SingleLineSlice(raw, |raw| - |l|, |raw|);
    var lo, hi := TrimSpaceSlice(l);
    SingleLineSlice(l, lo, hi);
  }

  lemma SingleLineSlice(s: string, a: nat, b: nat)
    requires a <= b <= |s| && SingleLine(s)
    ensures SingleLine(s[a..b])
  {
    forall k | 0 <= k < b - a
      ensures s[a..b][k] != '\n'
    {
      assert s[a..b][k] == s[a + k];
    }
  }

  /** The first line break of `a + "\n" + b` is the one after `a` when `a` holds none. */
  lemma NextBreak(a: string, b: string)
    requires SingleLine(a)
    ensures NextIndex(a + "\n" + b, '\n', 0) == |a|
  {
    var all := a + "\n" + b;
    forall k | 0 <= k < |a|
      ensures all[k] != '\n'
    {
      assert all[k] == a[k];
    }
    NextIndexIs(all, '\n', 0, |a|);
  }

  /** The text of a text line is its cleaned raw line. */
  lemma TextLineSingle(raw: string)
    requires SingleLine(raw) && Classify(raw).TextLine?
    ensures SingleLine(Classify(raw).text)
  {
    LineKindSpec(CleanLine(raw));
    CleanLineSingle(raw);
  }

  lemma {:induction false} TextsSingle(ls: seq<Line>, i: nat)
    requires i <= |ls| && forall k :: 0 <= k < |ls| && ls[k].TextLine? ==> SingleLine(ls[k].text)
    ensures forall k :: 0 <= k < |TextsOf(ls, i)| ==> SingleLine(TextsOf(ls, i)[k])
    decreases |ls| - i
  {
    if i < |ls| {
      TextsSingle(ls, i + 1);
    }
  }

  /** The text lines of a JSDoc text hold no line break. */
  lemma DocTextsSingle(doc: string)
    ensures forall k :: 0 <= k < |DocLines(doc)| && DocLines(doc)[k].TextLine? ==> SingleLine(DocLines(doc)[k].text)
  {
    var lines := Split(doc, '\n');
    forall k | 0 <= k < |lines| && Classify(lines[k]).TextLine?
      ensures SingleLine(Classify(lines[k]).text)
    {
      SplitNoSep(doc, '\n', k);
      TextLineSingle(lines[k]);
    }
  }

  /** The summary is the first text line, and the description the other text lines, each followed by a line break. */
  lemma SummaryIsFirstLine(ts: seq<string>)
    requires forall k :: 0 <= k < |ts| ==> SingleLine(ts[k])
    ensures SummaryOf(Terminated(ts)) == if ts == [] then ("", "") else (ts[0], Terminated(ts[1..]))
  {
    if ts != [] {
      var all := Terminated(ts);
      assert all == ts[0] + "\n" + Terminated(ts[1..]);
      NextBreak(ts[0], Terminated(ts[1..]));
      assert all[..|ts[0]|] == ts[0];
      assert all[|ts[0]| + 1..] == Terminated(ts[1..]);
    }
  }

  /**
   * `parseJSDoc` in full: it fails exactly when some line is bad, with the
   * first bad line's error; otherwise the params are the `@param` entries in
   * order, the returns entry is the last `@returns` line's (absent when
   * there is none), the summary is the first text line and the description
   * the remaining text lines.
   */
  lemma DocResultSpec(ls: seq<Line>)
    requires forall k :: 0 <= k < |ls| && ls[k].TextLine? ==> SingleLine(ls[k].text)
    ensures DocResult(ls).Success? <==> forall k :: 0 <= k < |ls| ==> !ls[k].BadLine?
    ensures DocResult(ls).Failure? ==>
      (exists k :: 0 <= k < |ls| && ls[k].BadLine? && (forall j :: 0 <= j < k ==> !ls[j].BadLine?)
         && DocResult(ls).error == ls[k].error)
    ensures var ts := TextsOf(ls, 0);
      DocResult(ls).Success? ==>
        && DocResult(ls).value.params == ParamsOf(ls, 0)
        && DocResult(ls).value.returnEntry == LastReturns(ls, 0, None)
        && DocResult(ls).value.summary == (if ts == [] then "" else ts[0])
        && DocResult(ls).value.description == (if ts == [] then "" else Terminated(ts[1..]))
  {
    var st := DocState("", [], None);
    DocFoldOutcome(ls, 0, st);
    if DocFold(ls, 0, st).Success? {
      DocFoldParams(ls, 0, st);
      DocFoldReturns(ls, 0, st);
      DocFoldBuffer(ls, 0, st);
      TextsSingle(ls, 0);
      SummaryIsFirstLine(TextsOf(ls, 0));
      assert "" + Terminated(TextsOf(ls, 0)) == Terminated(TextsOf(ls, 0));
    }
  }

  // ---------------------------------------------------------------------
  // parseScriptJSDoc
  // ---------------------------------------------------------------------

  /** `pat` occurs in `s` at `i`. */
  predicate At(s: string, i: nat, pat: string) {
    i + |pat| <= |s| && s[i..i + |pat|] == pat
  }

  /** The first occurrence of `pat` at or after `p`, or `|s|` when there is none. */
  function IndexFrom(s: string, pat: string, p: nat): (r: nat)
    requires p <= |s| && |pat| > 0
    ensures p <= r <= |s| && (r < |s| ==> At(s, r, pat))
    ensures forall k :: p <= k < r ==> !At(s, k, pat)
    decreases |s| - p
  {
    if p == |s| || At(s, p, pat) then p else IndexFrom(s, pat, p + 1)
  }

  // A JSDoc block: the text between the opening slash-star-star and the closing
  // star-slash, and the signature line after it.
  datatype Block = Block(doc: string, signature: string)

  datatype BlockMatch = BlockMatch(start: nat, block: Block, end: nat)

  // The leftmost match of `jsdocRegEx` at or after `p`: the first opening
  // slash-star-star, the shortest text up to a closing star-slash and a line
  // break, an optional `$(`, and the rest of that line as the signature.
  function BlockAt(src: string, p: nat): (r: Option<BlockMatch>)
    requires p <= |src|
    ensures r.Some? ==> p <= r.value.start < r.value.end <= |src|
    ensures r.Some? ==> At(src, r.value.start, "/**") && forall k :: p <= k < r.value.start ==> !At(src, k, "/**")
    ensures r.Some? ==> var q := r.value.start + 3 + |r.value.block.doc|;
      At(src, q, "*/\n") && r.value.block.doc == src[r.value.start + 3..q]
      && forall k :: r.value.start + 3 <= k < q ==> !At(src, k, "*/\n")
    ensures r.Some? ==> SingleLine(r.value.block.signature)
  {
    var s := IndexFrom(src, "/**", p);
    if s == |src| then None
    else
      var q := IndexFrom(src, "*/\n", s + 3);
      if q == |src| then None
      else
        var sig := if At(src, q + 3, "$(") then q + 5 else q + 3;
        var e := NextIndex(src, '\n', sig);
        assert forall k :: 0 <= k < e - sig ==> src[sig..e][k] == src[sig + k];
        Some(BlockMatch(s, Block(src[s + 3..q], src[sig..e]), e))
  }

  /** `jsdocRegEx.FindAllStringSubmatch(src[p..], -1)`: successive non-overlapping matches. */
  function Blocks(src: string, p: nat): seq<Block>
    requires p <= |src|
    decreases |src| - p
  {
    var m := BlockAt(src, p);
    if m.None? then [] else [m.value.block] + Blocks(src, m.value.end)
  }

  /** The key a block is stored under. */
  function Fingerprint(b: Block): string {
    RemoveWhitespace(b.signature)
  }

  /** The fingerprints of the blocks, in order. */
  function Fingerprints(bs: seq<Block>): (keys: seq<string>)
    ensures |keys| == |bs| && forall k :: 0 <= k < |bs| ==> keys[k] == Fingerprint(bs[k])
  {
    seq(|bs|, k requires 0 <= k < |bs| => Fingerprint(bs[k]))
  }

  /** What `parseJSDoc` makes of each block, in order. */
  function Parsed(bs: seq<Block>): (mds: seq<Result<FunctionMetadata, DocError>>)
    ensures |mds| == |bs| && forall k :: 0 <= k < |bs| ==> mds[k] == DocMetadata(bs[k].doc)
  {
    seq(|bs|, k requires 0 <= k < |bs| => DocMetadata(bs[k].doc))
  }

  /** The loop of `parseScriptJSDoc` from block `i`: block `k` has key `keys[k]` and parse result `mds[k]`. */
  function ScriptFold(keys: seq<string>, mds: seq<Result<FunctionMetadata, DocError>>, i: nat, acc: map<string, FunctionMetadata>)
    : Result<map<string, FunctionMetadata>, DocError>
    requires |keys| == |mds| && i <= |mds|
    decreases |mds| - i
  {
    if i == |mds| then Success(acc)
    else if mds[i].Failure? then Failure(mds[i].error)
    else ScriptFold(keys, mds, i + 1, acc[keys[i] := mds[i].value])
  }

  /** `parseScriptJSDoc(src)`, as a function. */
  function ScriptMetadata(src: string): Result<map<string, FunctionMetadata>, DocError> {
    var bs := Blocks(src, 0);
    ScriptFold(Fingerprints(bs), Parsed(bs), 0, map[])
  }

  /** `parseScriptJSDoc`. */
  method ParseScriptJSDoc(src: string) returns (r: Result<map<string, FunctionMetadata>, DocError>)
    ensures r == ScriptMetadata(src)
  {
    var matches := Blocks(src, 0);
    ghost var keys := Fingerprints(matches);
    ghost var mds := Parsed(matches);
    var res: map<string, FunctionMetadata> := map[];
    var i := 0;
    while i < |matches|
      invariant 0 <= i <= |matches|
      invariant ScriptFold(keys, mds, i, res) == ScriptFold(keys, mds, 0, map[])
    {
      var md := ParseJSDoc(matches[i].doc);
      assert md == mds[i];
      if md.Failure? {
        return Failure(md.error);
      }
      res := res[Fingerprint(matches[i]) := md.value];
      i := i + 1;
    }
    r := Success(res);
  }

  /** One bad block fails the whole source, with the first bad block's error. */
  lemma {:induction false} ScriptFoldOutcome(keys: seq<string>, mds: seq<Result<FunctionMetadata, DocError>>, i: nat, acc: map<string, FunctionMetadata>)
    requires |keys| == |mds| && i <= |mds|
    ensures ScriptFold(keys, mds, i, acc).Success? <==> forall k :: i <= k < |mds| ==> mds[k].Success?
    ensures ScriptFold(keys, mds, i, acc).Failure? ==>
      (exists k :: i <= k < |mds| && mds[k].Failure? && (forall j :: i <= j < k ==> mds[j].Success?)
         && ScriptFold(keys, mds, i, acc).error == mds[k].error)
    decreases |mds| - i
  {
    if i < |mds| && mds[i].Success? {
      var acc' := acc[keys[i] := mds[i].value];
      assert ScriptFold(keys, mds, i, acc) == ScriptFold(keys, mds, i + 1, acc');
      ScriptFoldOutcome(keys, mds, i + 1, acc');
      if ScriptFold(keys, mds, i + 1, acc').Failure? {
        var k :| i + 1 <= k < |mds| && mds[k].Failure? && (forall j :: i + 1 <= j < k ==> mds[j].Success?)
          && ScriptFold(keys, mds, i + 1, acc').error == mds[k].error;
        assert forall j :: i <= j < k ==> mds[j].Success?;
      }
    }
  }

  /** The strings a sequence holds. */
  function Elements(q: seq<string>): (r: set<string>)
    ensures forall x :: x in r <==> x in q
  {
    set x | x in q
  }

  /** On success, the keys are those already present and the keys of the blocks read. */
  lemma {:induction false} ScriptFoldKeys(keys: seq<string>, mds: seq<Result<FunctionMetadata, DocError>>, i: nat, acc: map<string, FunctionMetadata>)
    requires |keys| == |mds| && i <= |mds| && ScriptFold(keys, mds, i, acc).Success?
    ensures ScriptFold(keys, mds, i, acc).value.Keys == acc.Keys + Elements(keys[i..])
    decreases |mds| - i
  {
    if i < |mds| {
      ScriptFoldKeys(keys, mds, i + 1, acc[keys[i] := mds[i].value]);
      assert keys[i..] == [keys[i]] + keys[i + 1..];
      assert Elements(keys[i..]) == {keys[i]} + Elements(keys[i + 1..]);
    }
  }

  /** A key no later block has keeps its value. */
  lemma {:induction false} ScriptFoldKeeps(keys: seq<string>, mds: seq<Result<FunctionMetadata, DocError>>, i: nat, acc: map<string, FunctionMetadata>, key: string)
    requires |keys| == |mds| && i <= |mds| && ScriptFold(keys, mds, i, acc).Success? && key in acc
    requires forall j :: i <= j < |keys| ==> keys[j] != key
    ensures key in ScriptFold(keys, mds, i, acc).value && ScriptFold(keys, mds, i, acc).value[key] == acc[key]
    decreases |mds| - i
  {
    if i < |mds| {
      ScriptFoldKeeps(keys, mds, i + 1, acc[keys[i] := mds[i].value], key);
    }
  }

  /** A later block with the same key replaces an earlier one: the last one is kept. */
  lemma {:induction false} ScriptFoldLastWins(keys: seq<string>, mds: seq<Result<FunctionMetadata, DocError>>, i: nat, acc: map<string, FunctionMetadata>, k: nat)
    requires |keys| == |mds| && i <= k < |mds| && ScriptFold(keys, mds, i, acc).Success?
    requires forall j :: k < j < |keys| ==> keys[j] != keys[k]
    ensures mds[k].Success?
    ensures keys[k] in ScriptFold(keys, mds, i, acc).value
    ensures ScriptFold(keys, mds, i, acc).value[keys[k]] == mds[k].value
    decreases |mds| - i
  {
    ScriptFoldOutcome(keys, mds, i, acc);
    var acc' := acc[keys[i] := mds[i].value];
    if i < k {
      ScriptFoldLastWins(keys, mds, i + 1, acc', k);
    } else {
      ScriptFoldKeeps(keys, mds, i + 1, acc', keys[k]);
    }
  }
}
