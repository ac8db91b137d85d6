/**
 Writing a file into the container through a quoted here-document, and what a shell reading the
 command by section 2.7.4 of the POSIX Shell Command Language then delivers. The end of the input
 ends a line as a newline does.
 */
module Heredoc {
  import opened Wrappers

  // ---- lines -----------------------------------------------------------------------------------

  predicate OneLine(s: string) {
    forall i :: 0 <= i < |s| ==> s[i] != '\n'
  }

  /** The text cut at its newlines; a text with none is one line. */
  function Lines(s: string): (lines: seq<string>)
    ensures lines != []
  {
    if s == [] then [""]
    else
      var rest := Lines(s[1..]);
      if s[0] == '\n' then [""] + rest else [[s[0]] + rest[0]] + rest[1..]
  }

  function Unlines(lines: seq<string>): string {
    if lines == [] then "" else lines[0] + "\n" + Unlines(lines[1..])
  }

  lemma {:induction false} LinesOfOne(s: string)
    requires OneLine(s)
    ensures Lines(s) == [s]
  {
    if s != [] {
      LinesOfOne(s[1..]);
      assert s == [s[0]] + s[1..];
    }
  }

  lemma {:induction false} LinesAtBreak(a: string, b: string)
    ensures Lines(a + "\n" + b) == Lines(a) + Lines(b)
  {
    var s := a + "\n" + b;
    if a == [] {
      assert s[1..] == b;
    } else {
      assert s[1..] == a[1..] + "\n" + b;
      LinesAtBreak(a[1..], b);
    }
  }

  lemma {:induction false} UnlinesOfLines(s: string)
    ensures Unlines(Lines(s)) == s + "\n"
  {
    if s == [] {
      assert Unlines([""][1..]) == "";
    } else {
      var rest := Lines(s[1..]);
      UnlinesOfLines(s[1..]);
      assert s == [s[0]] + s[1..];
      if s[0] == '\n' {
        assert ([""] + rest)[1..] == rest;
        assert "" + "\n" + Unlines(rest) == s + "\n";
      } else {
        var more := Unlines(rest[1..]);
        assert ([[s[0]] + rest[0]] + rest[1..])[1..] == rest[1..];
        calc {
          Unlines(Lines(s));
          ([s[0]] + rest[0]) + "\n" + more;
          [s[0]] + (rest[0] + "\n" + more);
          [s[0]] + (s[1..] + "\n");
          s + "\n";
        }
      }
    }
  }

  // ---- the substring test ------------------------------------------------------------------------

  predicate At(text: string, needle: string, i: nat) {
    i + |needle| <= |text| && text[i..i + |needle|] == needle
  }

  /** Python's `needle in text`. */
  predicate Contains(text: string, needle: string) {
    exists i :: 0 <= i <= |text| && At(text, needle, i)
  }

  lemma ContainsPart(before: string, needle: string, after: string)
    ensures Contains(before + needle + after, needle)
  {
    assert At(before + needle + after, needle, |before|);
  }

  lemma PartOf(text: string, needle: string) returns (before: string, after: string)
    requires Contains(text, needle)
    ensures text == before + needle + after
  {
    var i :| 0 <= i <= |text| && At(text, needle, i);
    before, after := text[..i], text[i + |needle|..];
  }

  function Padded(s: string): string {
    "\n" + s + "\n"
  }

  lemma PaddedInFront(a: string, b: string)
    ensures Contains(Padded(a + "\n" + b), Padded(a))
  {
    ContainsPart("", Padded(a), b + "\n");
    assert "" + Padded(a) + (b + "\n") == Padded(a + "\n" + b);
  }

  lemma Reassociate(a: string, b: string, c: string, d: string)
    ensures a + b + c + d == a + (b + c + d)
  {
  }

  lemma PaddedOnto(a: string, b: string)
    ensures Padded(a + "\n" + b) == ("\n" + a) + Padded(b)
  {
  }

  lemma PaddedBehind(a: string, b: string, line: string)
    requires Contains(Padded(b), Padded(line))
    ensures Contains(Padded(a + "\n" + b), Padded(line))
  {
    var before, after := PartOf(Padded(b), Padded(line));
    var front := "\n" + a;
    PaddedOnto(a, b);
    ContainsPart(front + before, Padded(line), after);
    Reassociate(front, before, Padded(line), after);
  }

  lemma {:induction false} LineIsPadded(content: string, line: string)
    requires line in Lines(content)
    ensures Contains(Padded(content), Padded(line))
    decreases |content|
  {
    if OneLine(content) {
      LinesOfOne(content);
      assert At(Padded(content), Padded(line), 0);
    } else {
      var a, b := Break(content);
      LinesOfOne(a);
      LinesAtBreak(a, b);
      if line == a {
        PaddedInFront(a, b);
      } else {
        LineIsPadded(b, line);
        PaddedBehind(a, b, line);
      }
    }
  }

  /** The first line, and what follows its newline. */
  lemma {:induction false} Break(content: string) returns (a: string, b: string)
    requires !OneLine(content)
    ensures OneLine(a) && content == a + "\n" + b
  {
    if content[0] == '\n' {
      a, b := "", content[1..];
    } else {
      var c;
      c, b := Break(content[1..]);
      a := [content[0]] + c;
      assert content == [content[0]] + content[1..];
    }
  }

  lemma LinesOfPieces(before: string, line: string, after: string)
    requires OneLine(line)
    ensures Lines(before + Padded(line) + after) == Lines(before) + [line] + Lines(after)
  {
    assert before + Padded(line) + after == before + "\n" + (line + "\n" + after);
    LinesAtBreak(before, line + "\n" + after);
    LinesAtBreak(line, after);
    LinesOfOne(line);
  }

  lemma LinesOfPadded(content: string)
    ensures Lines(Padded(content)) == [""] + Lines(content) + [""]
  {
    assert Padded(content) == "" + "\n" + (content + "\n" + "");
    LinesAtBreak("", content + "\n" + "");
    LinesAtBreak(content, "");
  }

  /** The padded line cuts the padded content into lines; they are the content's between two empty ones. */
  lemma PaddedIsLine(content: string, line: string)
    requires OneLine(line) && Contains(Padded(content), Padded(line))
    ensures line in Lines(content)
  {
    var before, after := PartOf(Padded(content), Padded(line));
    LinesOfPieces(before, line, after);
    LinesOfPadded(content);
    var k := |Lines(before)|;
    assert (Lines(before) + [line] + Lines(after))[k] == line;
    assert Lines(content)[k - 1] == line;
  }

  /** The newline-padded substring test holds if and only if the candidate is a line of the content. */
  lemma PaddedTestFindsLines(content: string, candidate: string)
    requires OneLine(candidate)
    ensures Contains(Padded(content), Padded(candidate)) <==> candidate in Lines(content)
  {
    if candidate in Lines(content) {
      LineIsPadded(content, candidate);
    } else if Contains(Padded(content), Padded(candidate)) {
      PaddedIsLine(content, candidate);
    }
  }

  // ---- the shell -------------------------------------------------------------------------------------

  /** The here-document: the lines before the first that is only the delimiter; None if there is none. */
  function Body(lines: seq<string>, delimiter: string): Option<string> {
    if lines == [] then None
    else if lines[0] == delimiter then Some("")
    else match Body(lines[1..], delimiter)
         case None => None
         case Some(body) => Some(lines[0] + "\n" + body)
  }

  lemma {:induction false} BodyStopsAt(lines: seq<string>, delimiter: string)
    requires delimiter !in lines
    ensures Body(lines + [delimiter], delimiter) == Some(Unlines(lines))
  {
    if lines != [] {
      assert (lines + [delimiter])[1..] == lines[1..] + [delimiter];
      BodyStopsAt(lines[1..], delimiter);
    }
  }

  lemma {:induction false} BodyStopsEarly(lines: seq<string>, more: seq<string>, delimiter: string)
    requires delimiter in lines
    ensures Body(lines + more, delimiter).Some? && |Body(lines + more, delimiter).value| < |Unlines(lines)|
  {
    if lines[0] != delimiter {
      assert (lines + more)[1..] == lines[1..] + more;
      BodyStopsEarly(lines[1..], more, delimiter);
    }
  }

  /** A shell that has read the redirection reads the content back if and only if the delimiter is no line of it. */
  lemma HeredocRoundTrip(content: string, sentinel: string)
    requires OneLine(sentinel)
    ensures Body(Lines(content + "\n" + sentinel), sentinel) == Some(content + "\n") <==> sentinel !in Lines(content)
  {
    LinesAtBreak(content, sentinel);
    LinesOfOne(sentinel);
    UnlinesOfLines(content);
    if sentinel in Lines(content) {
      BodyStopsEarly(Lines(content), [sentinel], sentinel);
    } else {
      BodyStopsAt(Lines(content), sentinel);
    }
  }

  /** What follows the last single quote. */
  function Unquoted(s: string): string {
    if s == [] || s[|s| - 1] == '\'' then [] else Unquoted(s[..|s| - 1]) + [s[|s| - 1]]
  }

  predicate EndsWith(s: string, tail: string) {
    |tail| <= |s| && s[|s| - |tail|..] == tail
  }

  /** The quoted delimiter a command line ends in, if it does. */
  function Delimiter(line: string): Option<string> {
    if line == [] || line[|line| - 1] != '\'' then None
    else
      var d := Unquoted(line[..|line| - 1]);
      if EndsWith(line, "<<'" + d + "'") then Some(d) else None
  }

  /** What the command's first line, if it redirects from a here-document, gets as standard input. */
  function Delivered(command: string): Option<string> {
    var lines := Lines(command);
    match Delimiter(lines[0])
    case None => None
    case Some(d) => Body(lines[1..], d)
  }

  // ---- write_file --------------------------------------------------------------------------------

  predicate SafeChar(c: char) {
    'A' <= c <= 'Z' || 'a' <= c <= 'z' || '0' <= c <= '9' || c == '_' || c == '.' || c == '/' || c == '~' || c == '-'
  }

  predicate SafeChars(s: string) {
    forall i :: 0 <= i < |s| ==> SafeChar(s[i])
  }

  /** The path pattern; its final anchor lets one trailing newline through. */
  predicate SafePath(path: string) {
    (path != [] && SafeChars(path)) || (|path| > 1 && path[|path| - 1] == '\n' && SafeChars(path[..|path| - 1]))
  }

  function CommandHead(parent: string, path: string): string {
    "mkdir -p " + parent + " && cat > " + path
  }

  function Redirection(sentinel: string): string {
    " <<'" + sentinel + "'"
  }

  function Command(parent: string, path: string, sentinel: string, content: string): string {
    CommandHead(parent, path) + Redirection(sentinel) + "\n" + (content + "\n" + sentinel)
  }

  predicate Quotable(sentinel: string) {
    forall i :: 0 <= i < |sentinel| ==> sentinel[i] != '\n' && sentinel[i] != '\''
  }

  lemma {:induction false} UnquotedTail(head: string, tail: string)
    requires forall i :: 0 <= i < |tail| ==> tail[i] != '\''
    ensures Unquoted(head + "'" + tail) == tail
  {
    var s := head + "'" + tail;
    if tail != [] {
      UnquotedTail(head, tail[..|tail| - 1]);
      assert s[..|s| - 1] == head + "'" + tail[..|tail| - 1];
    }
  }

  lemma DelimiterOf(head: string, sentinel: string)
    requires Quotable(sentinel)
    ensures Delimiter(head + Redirection(sentinel)) == Some(sentinel)
  {
    var line := head + Redirection(sentinel);
    assert line[..|line| - 1] == (head + " <<") + "'" + sentinel;
    UnquotedTail(head + " <<", sentinel);
    assert line == (head + " ") + ("<<'" + sentinel + "'");
  }

  lemma DeliveredBy(line: string, sentinel: string, content: string)
    requires OneLine(line) && Delimiter(line) == Some(sentinel)
    requires OneLine(sentinel) && sentinel !in Lines(content)
    ensures Delivered(line + "\n" + (content + "\n" + sentinel)) == Some(content + "\n")
  {
    var body := content + "\n" + sentinel;
    LinesAtBreak(line, body);
    LinesOfOne(line);
    assert ([line] + Lines(body))[1..] == Lines(body);
    HeredocRoundTrip(content, sentinel);
  }

  lemma NothingDelivered(line: string, rest: string)
    requires OneLine(line) && Delimiter(line).None?
    ensures Delivered(line + "\n" + rest).None?
  {
    LinesAtBreak(line, rest);
    LinesOfOne(line);
  }

  /** An accepted path that ends in a newline ends the command's first line too early. */
  lemma SplitByNewline(parent: string, path: string, sentinel: string, content: string)
    requires SafeChars(parent) && path != [] && SafeChars(path)
    ensures Delivered(Command(parent, path + "\n", sentinel, content)).None?
  {
    var line, rest := CommandHead(parent, path), Redirection(sentinel) + "\n" + (content + "\n" + sentinel);
    assert line[|line| - 1] == path[|path| - 1];
    NothingDelivered(line, rest);
    assert CommandHead(parent, path + "\n") == line + "\n";
    assert line + "\n" + Redirection(sentinel) + "\n" + (content + "\n" + sentinel) == line + "\n" + rest;
  }

  lemma CleanPathDelivers(parent: string, path: string, sentinel: string, content: string)
    requires SafeChars(parent) && SafeChars(path) && Quotable(sentinel) && sentinel !in Lines(content)
    ensures Delivered(Command(parent, path, sentinel, content)) == Some(content + "\n")
  {
    DelimiterOf(CommandHead(parent, path), sentinel);
    DeliveredBy(CommandHead(parent, path) + Redirection(sentinel), sentinel, content);
  }

  lemma WithoutNewline(path: string) returns (clean: string)
    requires SafePath(path) && path[|path| - 1] == '\n'
    ensures path == clean + "\n" && clean != [] && SafeChars(clean)
  {
    clean := path[..|path| - 1];
    assert !SafeChar(path[|path| - 1]);
  }

  /**
   For every accepted path, every content and every sentinel that is no line of it, the command's
   redirection feeds the file exactly the content and a newline - unless the accepted path ends in
   a newline.
   */
  lemma CommandDelivers(parent: string, path: string, sentinel: string, content: string)
    requires SafeChars(parent) && SafePath(path) && Quotable(sentinel) && sentinel !in Lines(content)
    ensures Delivered(Command(parent, path, sentinel, content)) == Some(content + "\n") <==> path[|path| - 1] != '\n'
  {
    if path[|path| - 1] == '\n' {
      var clean := WithoutNewline(path);
      SplitByNewline(parent, clean, sentinel, content);
    } else {
      CleanPathDelivers(parent, path, sentinel, content);
    }
  }

  /** The part of a text after its last space. */
  function LastWord(s: string): string {
    if s == [] || s[|s| - 1] == ' ' then [] else LastWord(s[..|s| - 1]) + [s[|s| - 1]]
  }

  /** The file a command's first line redirects into: the word after `> `, in front of the here-document. */
  function Target(command: string): Option<string> {
    var line := Lines(command)[0];
    match Delimiter(line)
    case None => None
    case Some(sentinel) =>
      if |Redirection(sentinel)| > |line| then None else
        var head := line[..|line| - |Redirection(sentinel)|];
        var file := LastWord(head);
        if EndsWith(head, "> " + file) then Some(file) else None
  }

  lemma {:induction false} LastWordOf(head: string, word: string)
    requires forall i :: 0 <= i < |word| ==> word[i] != ' '
    ensures LastWord(head + " " + word) == word
  {
    var s := head + " " + word;
    if word != [] {
      LastWordOf(head, word[..|word| - 1]);
      assert s[..|s| - 1] == head + " " + word[..|word| - 1];
    }
  }

  lemma HeadEndsWithPath(parent: string, path: string)
    ensures EndsWith(CommandHead(parent, path), "> " + path)
    ensures CommandHead(parent, path) == ("mkdir -p " + parent + " && cat >") + " " + path
  {
    var front := "mkdir -p " + parent + " && cat ";
    assert CommandHead(parent, path) == front + ("> " + path);
    assert CommandHead(parent, path)[|front|..] == "> " + path;
  }

  lemma SafeIsOneWord(path: string)
    requires SafeChars(path)
    ensures OneLine(path) && forall i :: 0 <= i < |path| ==> path[i] != ' '
  {
  }

  /** And it is the file of that path that the command feeds. */
  lemma CommandTargets(parent: string, path: string, sentinel: string, content: string)
    requires SafeChars(parent) && SafeChars(path) && Quotable(sentinel)
    ensures Target(Command(parent, path, sentinel, content)) == Some(path)
  {
    var head := CommandHead(parent, path);
    var line := head + Redirection(sentinel);
    SafeIsOneWord(path);
    SafeIsOneWord(parent);
    DelimiterOf(head, sentinel);
    LinesAtBreak(line, content + "\n" + sentinel);
    LinesOfOne(line);
    assert line[..|line| - |Redirection(sentinel)|] == head;
    HeadEndsWithPath(parent, path);
    LastWordOf("mkdir -p " + parent + " && cat >", path);
  }

  // ---- the sentinel search -----------------------------------------------------------------------

  function LineSet(content: string): set<string> {
    set line | line in Lines(content)
  }

  lemma {:induction false} SetIsNoLarger(xs: seq<string>)
    ensures |set x | x in xs| <= |xs|
  {
    if xs != [] {
      var front, last := xs[..|xs| - 1], xs[|xs| - 1];
      SetIsNoLarger(front);
      assert (set x | x in xs) == (set x | x in front) + {last};
    }
  }

  lemma {:induction false} SubsetIsNoLarger(a: set<string>, b: set<string>)
    requires a <= b
    ensures |a| <= |b|
  {
    if a != {} {
      var x :| x in a;
      SubsetIsNoLarger(a - {x}, b - {x});
    }
  }

  predicate Distinct(draw: nat -> string, n: nat) {
    forall i: nat, j: nat :: i < j <= n ==> draw(i) != draw(j)
  }

  /** The first `k` candidates are all lines of the content. */
  ghost predicate AllLines(draw: nat -> string, k: nat, content: string) {
    forall i: nat :: i < k ==> draw(i) in Lines(content)
  }

  ghost predicate Drawn(drawn: set<string>, draw: nat -> string, k: nat, content: string) {
    && |drawn| == k && drawn <= LineSet(content)
    && forall s :: s in drawn ==> exists i: nat :: i < k && draw(i) == s
  }

  lemma {:induction false} FirstDrawn(draw: nat -> string, k: nat, content: string) returns (drawn: set<string>)
    requires AllLines(draw, k, content) && k <= |Lines(content)| + 1 && Distinct(draw, |Lines(content)|)
    ensures Drawn(drawn, draw, k, content)
    decreases k
  {
    if k == 0 {
      drawn := {};
    } else {
      var before := FirstDrawn(draw, k - 1, content);
      assert draw(k - 1) !in before;
      drawn := before + {draw(k - 1)};
    }
  }

  /** Pairwise distinct lines are no more than the content has. */
  lemma DrawnIsBounded(draw: nat -> string, k: nat, content: string)
    requires AllLines(draw, k, content) && k <= |Lines(content)| + 1 && Distinct(draw, |Lines(content)|)
    ensures k <= |Lines(content)|
  {
    var drawn := FirstDrawn(draw, k, content);
    SetIsNoLarger(Lines(content));
    SubsetIsNoLarger(drawn, LineSet(content));
  }

  lemma OneMoreLine(draw: nat -> string, k: nat, content: string)
    requires AllLines(draw, k, content) && k <= |Lines(content)| && Distinct(draw, |Lines(content)|)
    requires OneLine(draw(k)) && Contains(Padded(content), Padded(draw(k)))
    ensures AllLines(draw, k + 1, content) && k + 1 <= |Lines(content)|
  {
    PaddedTestFindsLines(content, draw(k));
    DrawnIsBounded(draw, k + 1, content);
  }

  /**
   Draw candidates until one is no line of the content. If the first (number of lines) + 1 are
   pairwise distinct, one of those is the answer: the first that is no line.
   */
  method UniqueHeredocSentinel(content: string, draw: nat -> string) returns (sentinel: string, k: nat)
    requires Distinct(draw, |Lines(content)|)
    requires forall i :: OneLine(draw(i))
    ensures k <= |Lines(content)| && sentinel == draw(k)
    ensures sentinel !in Lines(content)
    ensures AllLines(draw, k, content)
  {
    k, sentinel := 0, draw(0);
    while Contains(Padded(content), Padded(sentinel))
      invariant k <= |Lines(content)| && sentinel == draw(k)
      invariant AllLines(draw, k, content)
      decreases |Lines(content)| - k
    {
      OneMoreLine(draw, k, content);
      k := k + 1;
      sentinel := draw(k);
    }
    PaddedTestFindsLines(content, sentinel);
  }

  datatype WriteError = UnsafePath | ExecFailed(exitCode: int)

  /**
   Write the file: `exec` runs the command in the container and gives its exit code. A write that
   returns ran a command that succeeded, and what that command's redirection fed to the file is
   exactly the content and a newline - unless the accepted path ends in one. A path the container
   refuses (a directory, say) shows as a failed command.
   */
  method WriteFile(parent: string, path: string, content: string, draw: nat -> string, exec: string -> int)
    returns (r: Result<string, WriteError>)
    requires SafeChars(parent) && Distinct(draw, |Lines(content)|) && forall i :: Quotable(draw(i))
    ensures r == Failure(UnsafePath) <==> !SafePath(path)
    ensures r.Failure? && r.error.ExecFailed? ==> r.error.exitCode != 0
    ensures r.Success? ==> exec(r.value) == 0
    ensures r.Success? ==> (Delivered(r.value) == Some(content + "\n") <==> path[|path| - 1] != '\n')
    ensures r.Success? && path[|path| - 1] != '\n' ==> Target(r.value) == Some(path)
  {
    if !SafePath(path) {
      return Failure(UnsafePath);
    }
    forall i: nat
      ensures OneLine(draw(i))
    {
      assert Quotable(draw(i));
    }
    var sentinel, k := UniqueHeredocSentinel(content, draw);
    CommandDelivers(parent, path, sentinel, content);
    if path[|path| - 1] != '\n' {
      CommandTargets(parent, path, sentinel, content);
    }
    var command := Command(parent, path, sentinel, content);
    var exitCode := exec(command);
    return if exitCode == 0 then Success(command) else Failure(ExecFailed(exitCode));
  }
}
