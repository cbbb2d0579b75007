# ActionView::TemplateError in Dafny

A model of `ActionView::TemplateError` from Rails' actionpack: the exception
that decorates a failure raised while rendering a template. It works out the
template's display name (`file_name`, `strip_base_path`), recovers the failing
line from the failure's message or backtrace (`line_number`), prints the
source lines around it with their numbers (`source_extract`), records the
templates that included the failing one (`sub_template_of`,
`sub_template_message`), and formats all of this into `source_location`,
`to_s` and the one-entry `backtrace` computed at construction.

Modules, one per concern of `actionpack/lib/action_view/template_error.rb`:

- `Text` (text.dfy): the Ruby library pieces the report is built from:
  `Integer#to_s`, `String#to_i`, `Array#join`, ActiveSupport's `Enumerable#sum` over strings,
  `' ' * n` and the ASCII `String#capitalize` of Ruby 1.8.
- `Paths` (paths.dfy): `String#gsub` with a literal pattern, the
  line-anchored removal of the project root, `strip_base_path`, `file_name`
  and `File.basename`.
- `LineSearch` (line_search.dfy): the search for `basename:digits`, first in
  the message, then line by line in the backtrace.
- `SourceWindow` (source_window.dfy): the window bounds, Ruby's inclusive
  range slice and the numbering loop of `source_extract`.
- `TemplateErrors` (template_error.dfy): the class `TemplateError` with its
  fixed inputs as `const` fields, the append-only `subTemplates` list, the
  `lineNumberCache` memo and the `backtrace` computed once by the constructor;
  and the text of `source_location`, `sub_template_message`, `to_s` and
  `backtrace` as functions.

Notes on the code's behaviour:

- `line_number` is guarded by `if file_name`, which is true for every string,
  the empty one included. The search is therefore always made, with the
  pattern `:digits` when the display name is empty.
- `strip_base_path` uses `gsub`, which deletes every non-overlapping
  occurrence of the base path, scanning from the left.
  The project root is removed with the pattern `^root`, and `^` matches at the
  start of the string and right after every newline.
  `Paths.StripRootSingleLine` shows that on a path without newlines this is
  exactly removal of a leading root.
- The window runs from index `max(num - 4, 0)` to index `min(num + 2, len)`
  inclusive. In 1-based line numbers that is `num - 3` to `num + 3`: three
  lines on either side of the reported line, clipped at both ends of the file.
- `source_location` prints the captured digits as they were found, leading
  zeros included. `source_extract` numbers its lines from `to_i` of those
  digits.

## Model

| member | source | states |
|---|---|---|
| Text.ToI | actionpack/lib/action_view/template_error.rb:35 | `to_i` of a string of digits is its decimal value, and 0 when the string does not start with a digit |
| Text.ShowNat | actionpack/lib/action_view/template_error.rb:48 | a printed line number is a non-empty run of digits that starts with '0' only for 0 |
| Text.ParseShow | actionpack/lib/action_view/template_error.rb:35-48 | reading a printed number back with `to_i` gives the number |
| Text.ToIShowNat | actionpack/lib/action_view/template_error.rb:35 | `to_i` of a printed number followed by a non-digit is that number |
| Text.DigitRun | actionpack/lib/action_view/template_error.rb:60 | the greedy `\d+` is the longest all-digit prefix: digits only, and the next character is not a digit |
| Text.Join | actionpack/lib/action_view/template_error.rb:27 | `join` starts with the first element; with JoinSnoc below and `Join([]) == ""` it is fixed for every list |
| Text.Concat | actionpack/lib/action_view/template_error.rb:46-49 | ActiveSupport's `Enumerable#sum` over strings starts with the first piece and is empty exactly when every piece is empty; ConcatSnoc extends it piece by piece |
| Text.ConcatSnoc | actionpack/lib/action_view/template_error.rb:46-49 | summing one more piece appends that piece |
| Text.Spaces | actionpack/lib/action_view/template_error.rb:42 | `' ' * indentation` has exactly `indentation` characters, all spaces |
| Text.JoinSnoc | actionpack/lib/action_view/template_error.rb:27 | joining one more element appends the separator and that element |
| Text.Capitalize | actionpack/lib/action_view/template_error.rb:86 | `capitalize` keeps the length, upper-cases the first character and lower-cases every later one |
| Text.CapitalizeSplit | actionpack/lib/action_view/template_error.rb:86 | `capitalize` upper-cases the first character and lower-cases the rest |
| Paths.RemoveAll | actionpack/lib/action_view/template_error.rb:92 | `gsub(base, "")` never lengthens the path; RemoveAllNoMatch and RemoveAllLeftmost fix its result |
| Paths.RemoveAllNoMatch | actionpack/lib/action_view/template_error.rb:92 | a path in which the base path does not occur is left as it is |
| Paths.RemoveAllLeftmost | actionpack/lib/action_view/template_error.rb:92 | text before the first occurrence is kept, that occurrence is deleted, and the rest is stripped on its own: every non-overlapping occurrence goes, scanning from the left |
| Paths.RemoveAllUnchanged | actionpack/lib/action_view/template_error.rb:92 | `gsub(base, "")` leaves the path unchanged if and only if the base path is empty or does not occur in it |
| Paths.RemoveAllIdempotent | actionpack/lib/action_view/template_error.rb:92 | stripping twice equals stripping once when the base path no longer occurs in the result |
| Paths.StripRootFrom | actionpack/lib/action_view/template_error.rb:93 | the `^root` removal, scanning with the start-of-line flag, never lengthens the path |
| Paths.StripRoot | actionpack/lib/action_view/template_error.rb:93 | the `^root` removal never lengthens the path and changes nothing for an empty root; StripRootSingleLine fixes it on single-line paths |
| Paths.StripBasePath | actionpack/lib/action_view/template_error.rb:91-95 | `strip_base_path` never lengthens the path; StripBasePathUnchanged says when it leaves it as it is |
| Paths.StripBasePathUnchanged | actionpack/lib/action_view/template_error.rb:91-95 | without a configured root, the path comes back unchanged exactly when the base path is empty or does not occur in it |
| Paths.StripRootSingleLine | actionpack/lib/action_view/template_error.rb:93 | on a path without newlines the `^root` pattern removes a leading root and nothing else |
| Paths.FileNameOf | actionpack/lib/action_view/template_error.rb:66-70 | `file_name` is the stripped path minus at most one character; it differs from it exactly when that starts with '/', and starts with '/' itself exactly when the stripped path starts with "//" |
| Paths.Basename | actionpack/lib/action_view/template_error.rb:60 | `File.basename` is empty only for the empty path, holds no '/' unless it is "/", and is the path itself when that has no '/' |
| Paths.BasenameOfLastComponent | actionpack/lib/action_view/template_error.rb:60 | the base name of `dir/name` is `name` |
| LineSearch.FirstMatchFrom | actionpack/lib/action_view/template_error.rb:62 | the search returns the leftmost index where `name:digit` matches, and no index when there is no match |
| LineSearch.Capture | actionpack/lib/action_view/template_error.rb:62 | `$1` is present exactly when the string matches, and is then a non-empty run of digits |
| LineSearch.CaptureIsLeftmostGreedy | actionpack/lib/action_view/template_error.rb:60-62 | `$1` is the whole digit run after the name and colon at the leftmost match |
| LineSearch.CaptureAtStart | actionpack/lib/action_view/template_error.rb:60-62 | a string that begins with the name, a colon and digits followed by a non-digit captures exactly those digits |
| LineSearch.FirstMatchingLine | actionpack/lib/action_view/template_error.rb:62 | `find` returns the first backtrace line that matches, and none when no line matches |
| LineSearch.LineNumberOf | actionpack/lib/action_view/template_error.rb:57-63 | a line number found is a non-empty run of digits; none is found only if the message does not match; LineNumberPriority gives the full priority order |
| LineSearch.LineNumberPriority | actionpack/lib/action_view/template_error.rb:57-63 | a match in the message wins; otherwise the first matching backtrace line supplies the digits; the result is nil exactly when nothing matches |
| SourceWindow.StartIndex | actionpack/lib/action_view/template_error.rb:39 | `[num - 4, 0].max`: at least 0 and at least `num - 4`, and equal to one of them |
| SourceWindow.EndIndex | actionpack/lib/action_view/template_error.rb:40 | `[num + 2, length].min`: at most the length and at most `num + 2`, and equal to one of them |
| SourceWindow.Window | actionpack/lib/action_view/template_error.rb:44 | the slice holds at most 7 lines, each the file line at its offset from the start index |
| SourceWindow.RangeSlice | actionpack/lib/action_view/template_error.rb:44 | `a[first..last]` is nil exactly when `first` is past the end, is a contiguous run from `first`, has `last - first + 1` elements inside the array and is clipped at its end |
| SourceWindow.ExtractOf | actionpack/lib/action_view/template_error.rb:33-50 | `source_extract` returns text exactly when a line number was found and it is at most four past the end of the file |
| SourceWindow.SourceExtractText | actionpack/lib/action_view/template_error.rb:33-50 | `source_extract` once the line number is known returns exactly ExtractOf: nil when the slice is nil, otherwise the numbered window |
| SourceWindow.NumberWindow | actionpack/lib/action_view/template_error.rb:43-49 | the running-counter loop produces the window's numbered lines, the k-th numbered `start + k + 1`, concatenated in order |
| SourceWindow.WindowWithinFile | actionpack/lib/action_view/template_error.rb:39-44 | every printed line is the file line of that number, numbers lie between 1 and the file length and within 3 of the reported line, and there are at most 7 |
| SourceWindow.FullWindow | actionpack/lib/action_view/template_error.rb:39-48 | for `num >= 4` and `num + 3 <= len` the window is the 7 lines numbered `num - 3` to `num + 3` |
| SourceWindow.WindowHoldsReportedLine | actionpack/lib/action_view/template_error.rb:39-44 | a reported line that exists in the file is always in the window |
| SourceWindow.WindowMissing | actionpack/lib/action_view/template_error.rb:44 | the slice is nil exactly when the reported line is more than 4 past the end of the file |
| SourceWindow.NumberedLine | actionpack/lib/action_view/template_error.rb:48 | a printed line is as long as the indentation, the number, ": " and the file line together |
| SourceWindow.Numbered | actionpack/lib/action_view/template_error.rb:46-49 | one printed line per window line; NumberedLinesReadBack gives the content of each |
| SourceWindow.NumberedLinesReadBack | actionpack/lib/action_view/template_error.rb:42-48 | each printed line is the indentation, then a number that reads back as `start + k + 1`, then ": " and the file line unchanged |
| TemplateErrors.SourceLocationOf | actionpack/lib/action_view/template_error.rb:97-103 | the location ends with the display name and starts with "in " exactly when no line number was found |
| TemplateErrors.TraceMessage | actionpack/lib/action_view/template_error.rb:24-31 | the trace message is empty exactly when no sub-template was recorded |
| TemplateErrors.BacktraceText | actionpack/lib/action_view/template_error.rb:84-89 | the backtrace entry starts with the capitalised location and a blank line |
| TemplateErrors.BacktraceOf | actionpack/lib/action_view/template_error.rb:84-89 | the computed backtrace has exactly one entry |
| TemplateErrors.ComputeBacktrace | actionpack/lib/action_view/template_error.rb:84-89 | `compute_backtrace`, run with the numbering loop, yields BacktraceOf of the same inputs |
| TemplateErrors.ReportText | actionpack/lib/action_view/template_error.rb:72-75 | the report starts with two newlines, the class name, the message in parentheses and the location, and ends with two newlines |
| TemplateErrors.TraceAfterAppend | actionpack/lib/action_view/template_error.rb:24-31 | one more sub-template extends the trace by its stripped path, after the prefix for the first and after ", " for later ones |
| TemplateErrors.TraceOfTwo | actionpack/lib/action_view/template_error.rb:24-31 | no sub-templates give ""; two give the prefix and both stripped paths in order |
| TemplateErrors.CapitalizedLocation | actionpack/lib/action_view/template_error.rb:86 | the backtrace header is "On line #N of " or "In ", then the display path in lower case |
| TemplateErrors.ExtractShowsLocationLine | actionpack/lib/action_view/template_error.rb:33-50 | for a line of the file without leading zeros, the extract prints that line under the same digits the location shows |
| TemplateErrors.FileNameExample | actionpack/lib/action_view/template_error.rb:66-70 | `/app/views/show.html` under base path `/app/` displays as `views/show.html` |
| TemplateErrors.LineNumberExample | actionpack/lib/action_view/template_error.rb:57-63 | the message `show.html:12: undefined method` gives line number "12" for `views/show.html` |
| TemplateErrors.InclusionTrace | actionpack/lib/action_view/template_error.rb:24-55 | a client sees "" before any sub-template, both stripped paths in order after two, and the same single-entry backtrace throughout |
| TemplateErrors.TemplateError.FileName | actionpack/lib/action_view/template_error.rb:66-70 | `file_name` is never longer than the template's file path; FileNameOf gives it exactly |
| TemplateErrors.TemplateError.constructor | actionpack/lib/action_view/template_error.rb:9-14 | stores the inputs, starts with no sub-templates, and computes the backtrace, which fills the line-number memo |
| TemplateErrors.TemplateError.Backtrace | actionpack/lib/action_view/template_error.rb:79-89 | `backtrace` is the one string built at construction from the capitalised location, the extract at indentation 4 and the joined backtrace |
| TemplateErrors.TemplateError.LineNumber | actionpack/lib/action_view/template_error.rb:57-64 | returns the line number the search finds; the memo keeps a found number and stays empty otherwise |
| TemplateErrors.TemplateError.SubTemplateOf | actionpack/lib/action_view/template_error.rb:52-55 | appends the path, duplicates kept, and extends the trace message accordingly |
| TemplateErrors.TemplateError.SubTemplateMessage | actionpack/lib/action_view/template_error.rb:24-31 | the trace message is empty exactly while no sub-template was recorded |
| TemplateErrors.TemplateError.SourceExtract | actionpack/lib/action_view/template_error.rb:33-50 | returns the numbered window for the found line number, memoising it |
| TemplateErrors.TemplateError.SourceLocation | actionpack/lib/action_view/template_error.rb:97-103 | "on line #N of " or "in ", then the display name |
| TemplateErrors.TemplateError.ToS | actionpack/lib/action_view/template_error.rb:72-75 | the report: class name, message, location, extract at indentation 0 and the backtrace joined with a newline and four spaces |

## Left out

- Reading the template file (`IO.readlines`, line 37): the file's lines are a constructor parameter. Read failures, and a file that changes between two calls, are not modelled.
- `File.expand_path` (lines 92-93): paths are taken to be absolute and already normalised, so it is the identity.
- The `RAILS_ROOT` global (lines 93, 109): an optional constructor parameter.
- `ActiveSupport::Deprecation.silence`, `original_exception.message` and `clean_backtrace` (lines 16-22): the message and the cleaned backtrace are fixed values of the `Failure` datatype.
- The `Exception::TraceSubstitutions` registration (lines 107-110): it changes a table of another library.
- `assigns.dup` and `template.source` (line 11): stored by the source but never used by its logic, so the class does not keep them.
- SourceWindow.ExtractOf: a window that starts exactly at the end of the file is empty, and its rendering comes from ActiveSupport's `Enumerable#sum`, which is not part of this model. The model renders it as the empty string. Line numbers are unbounded: the RangeError that the slice at line 44 raises when the start index is past the platform's `long` range is not modelled, and the model returns no extract there.
- Text.ToI: only reads the leading run of digits. Ruby's handling of signs, spaces and underscores is not modelled, because `to_i` is only ever applied to a captured run of digits.
- Text.Capitalize: ASCII letters only, as in Ruby 1.8.
- General Ruby regular expressions: only the literal `name:` followed by `\d+` is modelled. `Regexp.escape` makes the name literal anyway.
- `#{self.class}` in `to_s` is the constant `ActionView::TemplateError`. Subclasses are not modelled.
- TemplateErrors.TemplateError.constructor: always succeeds. The source's constructor raises whenever `compute_backtrace` does (line 13): when the template file cannot be read (line 37), and with a RangeError when the line number found makes the slice's start index at line 44 exceed the platform's `long` range. Neither exception is modelled, because line numbers are unbounded and the file's lines are a parameter.
- TemplateErrors.TemplateError.SourceExtract: the indentation is a natural number. The ArgumentError that `' ' * indentation` raises for a negative indentation once a line number was found is not modelled. Line numbers are unbounded, so the RangeError raised at line 44 for a start index past the platform's `long` range is not modelled either.
- TemplateErrors.TemplateError.SubTemplateOf: returns a snapshot of the list of sub-templates, not the live `@sub_templates` array that `<<` returns. Changes a caller makes through that array, which would alter every later `sub_template_message`, are not modelled.
- `file_name` applies `slice!` to a string it has just built. The model computes the same value without mutation, because nothing else can see that string.
