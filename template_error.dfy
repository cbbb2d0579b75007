/** ActionView::TemplateError: a template-rendering failure decorated with the
    template's display name, the failing line, a window of its source and the
    chain of templates that included it. */
module TemplateErrors {
  import opened Text
  import opened Paths
  import opened LineSearch
  import opened SourceWindow

  const ClassName := "ActionView::TemplateError"
  const TracePrefix := "Trace of template inclusion: "
  const BacktraceSeparator := "\n    "

  /** What the renderer knows about the template that failed. */
  datatype Template = Template(basePathForException: string, source: string, filename: string)

  /** The failure being decorated: its message and its cleaned backtrace. */
  datatype Failure = Failure(message: string, cleanBacktrace: seq<string>)

  /** "#{x}": a missing value interpolates as the empty string. */
  function Shown(x: Option<string>): string
  {
    if x.Some? then x.value else ""
  }

  /** source_location */
  function SourceLocationOf(lineNumber: Option<string>, fileName: string): (r: string)
    ensures |fileName| <= |r| && r[|r| - |fileName|..] == fileName
    ensures lineNumber.None? <==> r[..|r| - |fileName|] == "in "
  {
    (if lineNumber.Some? then "on line #" + lineNumber.value + " of " else "in ") + fileName
  }

  /** The sub-templates' display paths, in inclusion order. */
  function StrippedPaths(chain: seq<string>, basePath: string, root: Option<string>): (r: seq<string>)
    ensures |r| == |chain|
  {
    seq(|chain|, i requires 0 <= i < |chain| => StripBasePath(chain[i], basePath, root))
  }

  /** sub_template_message for a given chain of sub-templates. */
  function TraceMessage(chain: seq<string>, basePath: string, root: Option<string>): (r: string)
    ensures r == "" <==> chain == []
  {
    if chain == [] then "" else TracePrefix + Join(StrippedPaths(chain, basePath, root), ", ")
  }

  /** The single entry of the backtrace computed at construction. */
  function BacktraceText(location: string, extract: Option<string>, cleanBacktrace: seq<string>): (r: string)
    ensures Capitalize(location) + "\n\n" <= r
  {
    Capitalize(location) + "\n\n" + Shown(extract) + BacktraceSeparator + Join(cleanBacktrace, BacktraceSeparator)
  }

  /** to_s */
  function ReportText(message: string, location: string, extract: Option<string>, cleanBacktrace: seq<string>): (r: string)
    ensures "\n\n" + ClassName + " (" + message + ") " + location + ":\n" <= r
    ensures |r| >= 2 && r[|r| - 2..] == "\n\n"
  {
    "\n\n" + ClassName + " (" + message + ") " + location + ":\n"
      + Shown(extract) + BacktraceSeparator + Join(cleanBacktrace, BacktraceSeparator) + "\n\n"
  }

  /** Appending a sub-template extends the trace message by its stripped path:
      after the prefix for the first one, after ", " for every later one. */
  lemma TraceAfterAppend(chain: seq<string>, path: string, basePath: string, root: Option<string>)
    ensures TraceMessage(chain + [path], basePath, root) ==
      if chain == [] then TracePrefix + StripBasePath(path, basePath, root)
      else TraceMessage(chain, basePath, root) + ", " + StripBasePath(path, basePath, root)
  {
    var paths, last := StrippedPaths(chain, basePath, root), StripBasePath(path, basePath, root);
    StrippedPathsSnoc(chain, path, basePath, root);
    JoinSnoc(paths, last, ", ");
    assert TraceMessage(chain + [path], basePath, root) == TracePrefix + Join(paths + [last], ", ");
    if chain != [] {
      assert TraceMessage(chain, basePath, root) == TracePrefix + Join(paths, ", ");
      RegroupFour(TracePrefix, Join(paths, ", "), ", ", last);
    }
  }

  lemma RegroupFour(a: string, b: string, c: string, d: string)
    ensures a + (b + c + d) == a + b + c + d
  {
  }

  lemma StrippedPathsSnoc(chain: seq<string>, path: string, basePath: string, root: Option<string>)
    ensures StrippedPaths(chain + [path], basePath, root)
         == StrippedPaths(chain, basePath, root) + [StripBasePath(path, basePath, root)]
  {
    var all := StrippedPaths(chain + [path], basePath, root);
    assert all == StrippedPaths(chain, basePath, root) + [StripBasePath(path, basePath, root)];
  }

  /** The trace message is empty exactly while no sub-template was recorded;
      with two recorded it names both, in order, separated by ", ". */
  lemma TraceOfTwo(a: string, b: string, basePath: string, root: Option<string>)
    ensures TraceMessage([], basePath, root) == ""
    ensures TraceMessage([a, b], basePath, root) ==
      TracePrefix + StripBasePath(a, basePath, root) + ", " + StripBasePath(b, basePath, root)
  {
    TraceAfterAppend([a], b, basePath, root);
    assert [a] + [b] == [a, b];
  }

  lemma LowerLocationWords()
    ensures DowncaseAll("n line #") == "n line #" && DowncaseAll(" of ") == " of "
  {
    LowerLineWord();
    LowerOfWord();
  }

  lemma LowerLineWord()
    ensures DowncaseAll("n line #") == "n line #"
  {
    var w := "n line #";
    assert forall i :: 0 <= i < |w| ==> w[i] in {'n', ' ', 'l', 'i', 'e', '#'};
    DowncaseUnchanged(w);
  }

  lemma LowerOfWord()
    ensures DowncaseAll(" of ") == " of "
  {
    var w := " of ";
    assert forall i :: 0 <= i < |w| ==> w[i] in {' ', 'o', 'f'};
    DowncaseUnchanged(w);
  }

  lemma LowerLocationMiddle(d: string)
    requires AllDigits(d)
    ensures DowncaseAll("n line #" + d + " of ") == "n line #" + d + " of "
  {
    DowncaseAllConcat("n line #" + d, " of ");
    DowncaseAllConcat("n line #", d);
    LowerLocationWords();
    DowncaseUnchanged(d);
  }

  lemma FoundLocationText(d: string, f: string, g: string)
    ensures "on line #" + d + " of " + f == ['o'] + (("n line #" + d + " of ") + f)
    ensures "On line #" + d + " of " + g == ['O'] + (("n line #" + d + " of ") + g)
  {
    assert "on line #" == ['o'] + "n line #";
    assert "On line #" == ['O'] + "n line #";
  }

  /** The backtrace header is the location with its first letter capitalised
      and everything after it, the display path included, in lower case; the
      digits of the line number are kept as found. */
  lemma CapitalizedLocation(lineNumber: Option<string>, fileName: string)
    requires lineNumber.Some? ==> AllDigits(lineNumber.value)
    ensures Capitalize(SourceLocationOf(lineNumber, fileName)) ==
      if lineNumber.Some? then "On line #" + lineNumber.value + " of " + DowncaseAll(fileName)
      else "In " + DowncaseAll(fileName)
  {
    if lineNumber.Some? {
      var d := lineNumber.value;
      FoundLocationText(d, fileName, DowncaseAll(fileName));
      LowerLocationMiddle(d);
      CapitalizeSplit('o', "n line #" + d + " of ", fileName);
    } else {
      assert "in " + fileName == ['i'] + ("n " + fileName);
      assert "In " + DowncaseAll(fileName) == ['I'] + ("n " + DowncaseAll(fileName));
      DowncaseUnchanged("n ");
      CapitalizeSplit('i', "n ", fileName);
    }
  }

  /** When the line number is a line of the file and has no leading zero, the
      extract prints that line under the very number the location shows. */
  lemma ExtractShowsLocationLine(lines: seq<string>, digits: string, indentation: nat)
    requires |digits| > 0 && AllDigits(digits) && (digits[0] != '0' || |digits| == 1)
    requires 1 <= ToI(digits) <= |lines|
    ensures var num := ToI(digits); var start := StartIndex(num);
      && Window(lines, num).Some?
      && var numbered := Numbered(Window(lines, num).value, start, indentation);
         && num - 1 - start < |numbered|
         && numbered[num - 1 - start] == Spaces(indentation) + digits + ": " + lines[num - 1]
  {
    var num := ToI(digits);
    DigitRunStopsAt(digits, []);
    assert digits + [] == digits;
    ShowParse(digits);
    WindowHoldsReportedLine(lines, num);
  }

  lemma BaseAbsentExample()
    ensures RemoveAll("views/show.html", "/app/") == "views/show.html"
  {
    var rest := "views/show.html";
    forall i: nat ensures !OccursAt(rest, "/app/", i) {
      if i + 5 <= |rest| {
        if i == 5 { assert rest[i..i + 5][1] != 'a'; } else { assert rest[i..i + 5][0] != '/'; }
      }
    }
    RemoveAllNoMatch(rest, "/app/");
  }

  /** file_name of a template under the base path: the base path is gone and
      no leading slash is left. */
  lemma FileNameExample()
    ensures FileNameOf("/app/views/show.html", "/app/", None) == "views/show.html"
  {
    var path := "/app/views/show.html";
    assert path[..5] == "/app/" && path[5..] == "views/show.html";
    BaseAbsentExample();
    assert RemoveAll(path, "/app/") == "views/show.html";
  }

  lemma BasenameExample()
    ensures Basename("views/show.html") == "show.html"
  {
    assert "views/show.html" == "views" + "/" + "show.html";
    BasenameOfLastComponent("views", "show.html");
  }

  lemma CaptureExample()
    ensures Capture("show.html:12: undefined method", "show.html") == Some("12")
  {
    var msg := "show.html:12: undefined method";
    assert msg == "show.html" + ":" + "12" + ": undefined method";
    CaptureAtStart("show.html", "12", ": undefined method");
  }

  /** line_number finds the digits that follow the template's base name in the message. */
  lemma LineNumberExample()
    ensures LineNumberOf("show.html:12: undefined method", [], "views/show.html") == Some("12")
  {
    var msg, file := "show.html:12: undefined method", "views/show.html";
    BasenameExample();
    CaptureExample();
    assert LineNumberOf(msg, [], file) == Capture(msg, "show.html");
  }

  /** The single backtrace entry for a template error with these inputs: the
      capitalised location, a blank line, the extract at indentation 4, then
      the cleaned backtrace. */
  function BacktraceOf(basePath: string, filePath: string, root: Option<string>, failure: Failure, lines: seq<string>): (r: seq<string>)
    ensures |r| == 1
  {
    var fileName := FileNameOf(filePath, basePath, root);
    var lineNumber := LineNumberOf(failure.message, failure.cleanBacktrace, fileName);
    [BacktraceText(SourceLocationOf(lineNumber, fileName), ExtractOf(lines, lineNumber, 4), failure.cleanBacktrace)]
  }

  /** compute_backtrace, run by the constructor before the object exists: the
      extract is produced by the numbering loop. */
  method ComputeBacktrace(basePath: string, filePath: string, root: Option<string>, failure: Failure, lines: seq<string>)
    returns (b: seq<string>)
    ensures b == BacktraceOf(basePath, filePath, root, failure, lines)
  {
    var fileName := FileNameOf(filePath, basePath, root);
    var lineNumber := LineNumberOf(failure.message, failure.cleanBacktrace, fileName);
    var extract := SourceExtractText(lines, lineNumber, 4);
    b := [BacktraceText(SourceLocationOf(lineNumber, fileName), extract, failure.cleanBacktrace)];
  }

  class TemplateError {
    const basePath: string
    const filePath: string
    /** RAILS_ROOT, when it is defined. */
    const railsRoot: Option<string>
    const originalException: Failure
    /** The template file's lines, as IO.readlines gives them. */
    const sourceLines: seq<string>
    /** Computed once by the constructor and never again. */
    const backtrace: seq<string>
    /** @sub_templates; nil and empty coincide, since it is created by its first append. */
    var subTemplates: seq<string>
    /** @line_number: filled only by a line number that was found. */
    var lineNumberCache: Option<string>

    /** file_name */
    function FileName(): (r: string)
      ensures |r| <= |filePath|
    {
      FileNameOf(filePath, basePath, railsRoot)
    }

    /** The line number that line_number finds whenever it searches. */
    function FoundLineNumber(): Option<string>
    {
      LineNumberOf(originalException.message, originalException.cleanBacktrace, FileName())
    }

    ghost predicate Valid()
      reads this
    {
      && (lineNumberCache.None? || lineNumberCache == FoundLineNumber())
      && backtrace == BacktraceOf(basePath, filePath, railsRoot, originalException, sourceLines)
    }

    /** Stores the inputs and computes the backtrace; computing it already
        resolves and memoises the line number. */
    constructor (template: Template, originalException: Failure, sourceLines: seq<string>, railsRoot: Option<string>)
      ensures basePath == template.basePathForException && filePath == template.filename
      ensures this.originalException == originalException && this.sourceLines == sourceLines
      ensures this.railsRoot == railsRoot
      ensures subTemplates == [] && lineNumberCache == FoundLineNumber()
      ensures Valid()
    {
      basePath := template.basePathForException;
      this.originalException := originalException;
      filePath := template.filename;
      this.sourceLines := sourceLines;
      this.railsRoot := railsRoot;
      var entries := ComputeBacktrace(template.basePathForException, template.filename, railsRoot, originalException, sourceLines);
      backtrace := entries;
      var fileName := FileNameOf(template.filename, template.basePathForException, railsRoot);
      lineNumberCache := LineNumberOf(originalException.message, originalException.cleanBacktrace, fileName);
      subTemplates := [];
    }

    /** backtrace: the value built at construction, a single string. */
    function Backtrace(): (r: seq<string>)
      reads this
      requires Valid()
      ensures |r| == 1
      ensures r[0] == BacktraceText(SourceLocationOf(FoundLineNumber(), FileName()),
                                    ExtractOf(sourceLines, FoundLineNumber(), 4), originalException.cleanBacktrace)
    {
      backtrace
    }

    /** line_number: `@line_number ||= ...` keeps a found number and searches
        again while none was found. */
    method LineNumber() returns (n: Option<string>)
      requires Valid()
      modifies this
      ensures Valid() && n == FoundLineNumber()
      ensures lineNumberCache == (if old(lineNumberCache).Some? then old(lineNumberCache) else n)
      ensures subTemplates == old(subTemplates)
    {
      if lineNumberCache.Some? {
        return lineNumberCache;
      }
      n := LineNumberOf(originalException.message, originalException.cleanBacktrace, FileName());
      if n.Some? {
        lineNumberCache := n;
      }
    }

    /** sub_template_of: records one more including template, duplicates kept. */
    method SubTemplateOf(templatePath: string) returns (chain: seq<string>)
      requires Valid()
      modifies this
      ensures Valid()
      ensures subTemplates == old(subTemplates) + [templatePath] && chain == subTemplates
      ensures lineNumberCache == old(lineNumberCache)
      ensures SubTemplateMessage() ==
        if old(subTemplates) == [] then TracePrefix + StripBasePath(templatePath, basePath, railsRoot)
        else old(SubTemplateMessage()) + ", " + StripBasePath(templatePath, basePath, railsRoot)
    {
      TraceAfterAppend(subTemplates, templatePath, basePath, railsRoot);
      subTemplates := subTemplates + [templatePath];
      chain := subTemplates;
    }

    /** sub_template_message */
    function SubTemplateMessage(): (r: string)
      reads this
      ensures r == "" <==> subTemplates == []
    {
      TraceMessage(subTemplates, basePath, railsRoot)
    }

    /** source_extract(indentation) */
    method SourceExtract(indentation: nat) returns (r: Option<string>)
      requires Valid()
      modifies this
      ensures Valid() && r == ExtractOf(sourceLines, FoundLineNumber(), indentation)
      ensures lineNumberCache == (if old(lineNumberCache).Some? then old(lineNumberCache) else FoundLineNumber())
      ensures subTemplates == old(subTemplates)
    {
      var num := LineNumber();
      r := SourceExtractText(sourceLines, num, indentation);
    }

    /** source_location */
    method SourceLocation() returns (s: string)
      requires Valid()
      modifies this
      ensures Valid() && s == SourceLocationOf(FoundLineNumber(), FileName())
      ensures lineNumberCache == (if old(lineNumberCache).Some? then old(lineNumberCache) else FoundLineNumber())
      ensures subTemplates == old(subTemplates)
    {
      var num := LineNumber();
      s := SourceLocationOf(num, FileName());
    }

    /** to_s */
    method ToS() returns (s: string)
      requires Valid()
      modifies this
      ensures Valid()
      ensures s == ReportText(originalException.message, SourceLocationOf(FoundLineNumber(), FileName()),
                              ExtractOf(sourceLines, FoundLineNumber(), 0), originalException.cleanBacktrace)
      ensures lineNumberCache == (if old(lineNumberCache).Some? then old(lineNumberCache) else FoundLineNumber())
      ensures subTemplates == old(subTemplates)
    {
      var location := SourceLocation();
      var extract := SourceExtract(0);
      s := ReportText(originalException.message, location, extract, originalException.cleanBacktrace);
    }
  }

  /** A client's view: no trace before any sub-template is recorded, both
      paths in order afterwards, and the same backtrace before and after. */
  method InclusionTrace(template: Template, failure: Failure, lines: seq<string>, root: Option<string>, a: string, b: string)
    returns (before: string, after: string, firstBacktrace: seq<string>, lastBacktrace: seq<string>)
    ensures before == ""
    ensures after == TracePrefix + StripBasePath(a, template.basePathForException, root)
                     + ", " + StripBasePath(b, template.basePathForException, root)
    ensures |firstBacktrace| == 1 && lastBacktrace == firstBacktrace
  {
    var e := new TemplateError(template, failure, lines, root);
    before := e.SubTemplateMessage();
    firstBacktrace := e.Backtrace();
    var chain := e.SubTemplateOf(a);
    chain := e.SubTemplateOf(b);
    after := e.SubTemplateMessage();
    var location := e.SourceLocation();
    lastBacktrace := e.Backtrace();
  }
}
