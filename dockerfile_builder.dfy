/** The Dockerfile generator of triton_testcontainer/dockerfile_builder.py.
    A `DockerfileBuilder` keeps an ordered list of lines: parser directives
    go to the front, instructions to the back, and `build` joins the lines
    with newlines. Spelling follows the Dockerfile reference (the FROM
    instruction and the `syntax` and `escape` parser directives). */
module Dockerfile {
  import opened Outcomes
  import Strings

  const SyntaxParserDirective := "# syntax="
  const EscapeDirective := "# escape="

  /** The default of `syntax`'s `remote_image_reference`. */
  const DefaultSyntaxReference := "docker/dockerfile:1"

  /** The default of `from_`'s `image`. */
  const DefaultFromImage := "ubuntu:20.04"

  const MissingImageMessage := "image is required argument in 'FROM' instruction"

  /** The message of the IndexError Python raises for `[][0]`. */
  const IndexOutOfRangeMessage := "list index out of range"

  /** Python's `list.insert(i, x)` for an index inside the list: `x` is at
      index `i` and taking it out gives the old list back. */
  function Insert(lines: seq<string>, i: nat, x: string): (r: seq<string>)
    requires i <= |lines|
    ensures |r| == |lines| + 1 && r[i] == x
    ensures r[..i] + r[i + 1..] == lines
  {
    var r := lines[..i] + [x] + lines[i..];
    assert r[..i] == lines[..i] && r[i + 1..] == lines[i..];
    r
  }

  /** `syntax` as written: the bare reference is inserted as line 0; the
      directive it formats is never used. */
  function SyntaxLines(lines: seq<string>, reference: string): (r: seq<string>)
    ensures |r| == |lines| + 1 && r[0] == reference && r[1..] == lines
  {
    [reference] + lines
  }

  /** `syntax` as its documentation shows it: the `# syntax=` directive
      becomes line 0. */
  function IntendedSyntaxLines(lines: seq<string>, reference: string): (r: seq<string>)
    ensures |r| == |lines| + 1 && r[0] == SyntaxParserDirective + reference && r[1..] == lines
  {
    [SyntaxParserDirective + reference] + lines
  }

  /** `list.append(x)`: the old lines, then `x` as the last line. */
  function AppendedLines(lines: seq<string>, x: string): (r: seq<string>)
    ensures |r| == |lines| + 1 && r[|lines|] == x && r[..|lines|] == lines
  {
    lines + [x]
  }

  /** Where `escape` inserts its directive: after a leading syntax directive,
      otherwise at the front. */
  function EscapePosition(lines: seq<string>): nat
    requires |lines| > 0
  {
    if SyntaxParserDirective <= lines[0] then 1 else 0
  }

  /** `escape` as written: nothing for `None`; for a character, line 0 is
      read first, so an empty list raises IndexError. */
  function EscapeLines(lines: seq<string>, escapeChar: Option<string>): (r: Result<seq<string>>)
    ensures r.Err? <==> escapeChar.Some? && |lines| == 0
    ensures r.Err? ==> r.error.IndexError?
    ensures r.Ok? && escapeChar.None? ==> r.value == lines
    ensures escapeChar.Some? && |lines| > 0 ==>
      (var k := EscapePosition(lines);
       |r.value| == |lines| + 1 && r.value[k] == EscapeDirective + escapeChar.value
       && r.value[..k] + r.value[k + 1..] == lines)
  {
    match escapeChar
    case None => Ok(lines)
    case Some(c) =>
      if |lines| == 0 then Err(IndexError(IndexOutOfRangeMessage))
      else Ok(Insert(lines, EscapePosition(lines), EscapeDirective + c))
  }

  /** `escape` as its documentation shows it: on an empty list the directive
      becomes the only line. */
  function IntendedEscapeLines(lines: seq<string>, escapeChar: Option<string>): (r: seq<string>)
    ensures escapeChar.None? ==> r == lines
    ensures escapeChar.Some? && lines == [] ==> r == [EscapeDirective + escapeChar.value]
    ensures escapeChar.Some? && |lines| > 0 ==>
      (var k := EscapePosition(lines);
       |r| == |lines| + 1 && r[k] == EscapeDirective + escapeChar.value
       && r[..k] + r[k + 1..] == lines)
  {
    match escapeChar
    case None => lines
    case Some(c) =>
      if |lines| == 0 then [EscapeDirective + c]
      else Insert(lines, EscapePosition(lines), EscapeDirective + c)
  }

  /** The line `from_` appends, or its SyntaxError: the user directive wins
      outright; otherwise `FROM [--platform=<p> ]<image>[ AS <name>]`. */
  function FromLine(image: string, platform: string, asName: string, userDirective: string): (r: Result<string>)
    ensures r.Err? <==> userDirective == "" && image == ""
    ensures r.Err? ==> r.error == SyntaxError(MissingImageMessage)
    ensures r.Ok? ==> "FROM " <= r.value
  {
    if userDirective != "" then Ok("FROM " + userDirective)
    else if image == "" then Err(SyntaxError(MissingImageMessage))
    else Ok("FROM "
            + (if platform != "" then "--platform=" + platform + " " else "")
            + image
            + (if asName != "" then " AS " + asName else ""))
  }

  class DockerfileBuilder {
    /** The instruction and directive lines, in file order. */
    var lines: seq<string>

    constructor ()
      ensures lines == []
    {
      lines := [];
    }

    /** `build`: the lines joined by newlines; the lines are only read, so
        building twice gives the same text. */
    method Build() returns (text: string)
      ensures text == Strings.Join(lines, '\n')
    {
      text := Strings.Join(lines, '\n');
    }

    /** `syntax` as written. */
    method Syntax(reference: string := DefaultSyntaxReference)
      modifies this
      ensures lines == SyntaxLines(old(lines), reference)
    {
      var directive := SyntaxParserDirective + reference;  // formatted, then unused
      lines := [reference] + lines;
    }

    /** `syntax` with the directive it formats. */
    method IntendedSyntax(reference: string := DefaultSyntaxReference)
      modifies this
      ensures lines == IntendedSyntaxLines(old(lines), reference)
    {
      var directive := SyntaxParserDirective + reference;
      lines := [directive] + lines;
    }

    /** `escape` as written: the IndexError on an empty list is raised
        before anything changes. */
    method Escape(escapeChar: Option<string>) returns (raised: Option<Error>)
      modifies this
      ensures EscapeLines(old(lines), escapeChar).Ok? ==>
        raised == None && lines == EscapeLines(old(lines), escapeChar).value
      ensures EscapeLines(old(lines), escapeChar).Err? ==>
        raised == Some(EscapeLines(old(lines), escapeChar).error) && lines == old(lines)
    {
      if escapeChar.None? {
        return None;
      }
      if |lines| == 0 {
        return Some(IndexError(IndexOutOfRangeMessage));
      }
      var position := if SyntaxParserDirective <= lines[0] then 1 else 0;
      var directive := EscapeDirective + escapeChar.value;
      lines := lines[..position] + [directive] + lines[position..];
      raised := None;
    }

    /** `escape` with an empty list handled as its documentation shows. */
    method IntendedEscape(escapeChar: Option<string>)
      modifies this
      ensures lines == IntendedEscapeLines(old(lines), escapeChar)
    {
      if escapeChar.None? {
        return;
      }
      var position := if |lines| > 0 && SyntaxParserDirective <= lines[0] then 1 else 0;
      var directive := EscapeDirective + escapeChar.value;
      lines := lines[..position] + [directive] + lines[position..];
    }

    /** `append_user_instruction`: the instruction, verbatim, becomes the
        last line. */
    method AppendUserInstruction(userInstruction: string)
      modifies this
      ensures lines == AppendedLines(old(lines), userInstruction)
    {
      lines := lines + [userInstruction];
    }

    /** `from_`: assembles the FROM line from its parts, or raises
        SyntaxError for a missing image before anything changes. */
    method From(image: string := DefaultFromImage, platform: string := "",
                asName: string := "", userDirective: string := "")
      returns (raised: Option<Error>)
      modifies this
      ensures FromLine(image, platform, asName, userDirective).Ok? ==>
        raised == None && lines == old(lines) + [FromLine(image, platform, asName, userDirective).value]
      ensures FromLine(image, platform, asName, userDirective).Err? ==>
        raised == Some(FromLine(image, platform, asName, userDirective).error) && lines == old(lines)
    {
      if userDirective != "" {
        lines := lines + ["FROM " + userDirective];
        return None;
      }
      var directive: seq<string> := [];
      if platform != "" {
        directive := directive + ["--platform=" + platform];
      }
      if image == "" {
        return Some(SyntaxError(MissingImageMessage));
      }
      directive := directive + [image];
      if asName != "" {
        directive := directive + ["AS " + asName];
      }
      FromPartsJoin(image, platform, asName, directive);
      lines := lines + ["FROM " + Strings.Join(directive, ' ')];
      raised := None;
    }
  }

  /** The parts `from_` collects, joined by spaces, are the text after
      `FROM ` in `FromLine`. */
  lemma FromPartsJoin(image: string, platform: string, asName: string, parts: seq<string>)
    requires image != ""
    requires parts == (if platform != "" then ["--platform=" + platform] else [])
                      + [image] + (if asName != "" then ["AS " + asName] else [])
    ensures "FROM " + Strings.Join(parts, ' ') == FromLine(image, platform, asName, "").value
  {
    var tail := [image] + (if asName != "" then ["AS " + asName] else []);
    var tailText := image + (if asName != "" then " AS " + asName else "");
    if asName != "" {
      Strings.JoinCons(image, ["AS " + asName], ' ');
    }
    assert Strings.Join(tail, ' ') == tailText;
    if platform != "" {
      Strings.JoinCons("--platform=" + platform, tail, ' ');
      assert parts == ["--platform=" + platform] + tail;
    } else {
      assert parts == tail;
    }
  }

  // ---------------------------------------------------------------------
  // Properties of the specification functions

  /** A built Dockerfile read back line by line gives the lines, provided
      there is at least one and none contains a newline. */
  lemma BuildReadsBack(lines: seq<string>)
    requires |lines| > 0 && Strings.FreeOf(lines, '\n')
    ensures Strings.Split(Strings.Join(lines, '\n'), '\n') == lines
  {
    Strings.SplitJoin(lines, '\n');
  }

  /** Appending an instruction adds exactly one line at the end of the built
      text and leaves every earlier line as it was. */
  lemma AppendAddsLastLine(lines: seq<string>, instruction: string)
    requires |lines| > 0 && '\n' !in instruction
    ensures Strings.Split(Strings.Join(lines + [instruction], '\n'), '\n')
         == Strings.Split(Strings.Join(lines, '\n'), '\n') + [instruction]
  {
    Strings.JoinSnoc(lines, instruction, '\n');
    Strings.SplitConcat(Strings.Join(lines, '\n'), instruction, '\n');
    Strings.SplitFree(instruction, '\n');
  }

  /** However late the (intended) syntax directive is added, it is line 0 of
      the built text and the earlier lines follow it unchanged. */
  lemma SyntaxDirectiveIsFirstLine(lines: seq<string>, reference: string)
    requires Strings.FreeOf(lines, '\n') && '\n' !in reference
    ensures Strings.Split(Strings.Join(IntendedSyntaxLines(lines, reference), '\n'), '\n')
         == [SyntaxParserDirective + reference] + lines
  {
    var all := IntendedSyntaxLines(lines, reference);
    assert '\n' !in SyntaxParserDirective + reference by {
      assert forall k :: 0 <= k < 9 ==> (SyntaxParserDirective + reference)[k] == SyntaxParserDirective[k];
    }
    assert Strings.FreeOf(all, '\n') by {
      forall i | 0 <= i < |all| ensures '\n' !in all[i] {
        if i > 0 {
          assert all[i] == lines[i - 1];
        }
      }
    }
    Strings.SplitJoin(all, '\n');
  }

  /** `syntax` (either form) inserts exactly one line at index 0 and shifts
      every existing line down by one. */
  lemma SyntaxShiftsLines(lines: seq<string>, reference: string)
    ensures |SyntaxLines(lines, reference)| == |lines| + 1
    ensures SyntaxLines(lines, reference)[0] == reference
    ensures forall i :: 0 <= i < |lines| ==> SyntaxLines(lines, reference)[i + 1] == lines[i]
    ensures |IntendedSyntaxLines(lines, reference)| == |lines| + 1
    ensures IntendedSyntaxLines(lines, reference)[0] == SyntaxParserDirective + reference
    ensures forall i :: 0 <= i < |lines| ==> IntendedSyntaxLines(lines, reference)[i + 1] == lines[i]
  {
  }

  /** `escape` with a character on a non-empty list inserts exactly its
      directive, after a leading syntax directive and at the front otherwise;
      taking that one line out gives the old lines back. */
  lemma EscapeInsertsOneLine(lines: seq<string>, c: string)
    requires |lines| > 0
    ensures EscapeLines(lines, Some(c)).Ok?
    ensures var r := EscapeLines(lines, Some(c)).value;
      var k := EscapePosition(lines);
      |r| == |lines| + 1 && r[k] == EscapeDirective + c
      && (k == 1 <==> SyntaxParserDirective <= lines[0])
      && r[..k] + r[k + 1..] == lines
  {
  }

  /** `escape(None)` leaves the lines as they are, in both forms. */
  lemma EscapeNoneKeepsLines(lines: seq<string>)
    ensures EscapeLines(lines, None) == Ok(lines)
    ensures IntendedEscapeLines(lines, None) == lines
  {
  }

  /** A user directive makes the FROM line on its own: image, platform and
      stage name are ignored. */
  lemma FromUserDirectiveWins(image: string, platform: string, asName: string, userDirective: string)
    requires userDirective != ""
    ensures FromLine(image, platform, asName, userDirective).Ok?
    ensures FromLine(image, platform, asName, userDirective).value == "FROM " + userDirective
    ensures FromLine(image, platform, asName, userDirective) == FromLine(DefaultFromImage, "", "", userDirective)
  {
  }

  /** Without a user directive, an empty image is the only refusal. */
  lemma FromNeedsImage(image: string, platform: string, asName: string)
    ensures FromLine(image, platform, asName, "").Err? <==> image == ""
    ensures image == "" ==> FromLine(image, platform, asName, "") == Err(SyntaxError(MissingImageMessage))
  {
  }

  /** A structured FROM line read back word by word: `FROM`, then the
      platform flag if any, the image, and `AS <name>` if any, in exactly
      that order (for parts without spaces). */
  lemma FromLineWords(image: string, platform: string, asName: string)
    requires image != "" && ' ' !in image && ' ' !in platform && ' ' !in asName
    ensures FromLine(image, platform, asName, "").Ok?
    ensures Strings.Split(FromLine(image, platform, asName, "").value, ' ')
         == ["FROM"]
            + (if platform != "" then ["--platform=" + platform] else [])
            + [image]
            + (if asName != "" then ["AS", asName] else [])
  {
    var platformWords := if platform != "" then ["--platform=" + platform] else [];
    var nameWords := if asName != "" then ["AS", asName] else [];
    var words := ["FROM"] + platformWords + [image] + nameWords;
    assert ' ' !in "--platform=" + platform by {
      forall k | 0 <= k < |"--platform=" + platform| ensures ("--platform=" + platform)[k] != ' ' {
        if k >= 11 {
          assert ("--platform=" + platform)[k] == platform[k - 11];
        }
      }
    }
    assert Strings.FreeOf(words, ' ');
    Strings.SplitJoin(words, ' ');
    var parts := platformWords + [image] + (if asName != "" then ["AS " + asName] else []);
    FromPartsJoin(image, platform, asName, parts);
    FromWordsJoin(image, platform, asName, platformWords, nameWords);
  }

  /** The words after the platform flag, joined by spaces: the image, then
      `AS <name>` if a stage name is given. */
  lemma FromTailJoin(image: string, asName: string, nameWords: seq<string>)
    requires nameWords == if asName != "" then ["AS", asName] else []
    ensures Strings.Join([image] + nameWords, ' ')
         == image + (if asName != "" then " AS " + asName else "")
  {
    if asName != "" {
      Strings.JoinCons("AS", [asName], ' ');
      Strings.JoinCons(image, ["AS", asName], ' ');
    } else {
      assert [image] + nameWords == [image];
    }
  }

  lemma FromWordsJoin(image: string, platform: string, asName: string,
                      platformWords: seq<string>, nameWords: seq<string>)
    requires image != ""
    requires platformWords == if platform != "" then ["--platform=" + platform] else []
    requires nameWords == if asName != "" then ["AS", asName] else []
    ensures Strings.Join(["FROM"] + platformWords + [image] + nameWords, ' ')
         == FromLine(image, platform, asName, "").value
  {
    var tail := [image] + nameWords;
    var tailText := image + (if asName != "" then " AS " + asName else "");
    FromTailJoin(image, asName, nameWords);
    var words := ["FROM"] + platformWords + [image] + nameWords;
    if platform != "" {
      var flag := "--platform=" + platform;
      assert FromLine(image, platform, asName, "").value == "FROM " + (flag + " ") + tailText;
      assert words == ["FROM"] + ([flag] + tail);
      Strings.JoinCons(flag, tail, ' ');
      Strings.JoinCons("FROM", [flag] + tail, ' ');
      assert Strings.Join(words, ' ') == "FROM" + [' '] + (flag + [' '] + tailText);
    } else {
      assert FromLine(image, platform, asName, "").value == "FROM " + tailText;
      assert words == ["FROM"] + tail;
      Strings.JoinCons("FROM", tail, ' ');
    }
  }

  // ---------------------------------------------------------------------
  // The two parser directives as written and as documented

  /** As written, `syntax()` followed by `escape("\\")` builds the bare
      reference with the escape directive in front of it, where the
      documentation shows the syntax directive followed by the escape
      directive. */
  lemma SyntaxThenEscapeAsWritten()
    ensures EscapeLines(SyntaxLines([], DefaultSyntaxReference), Some("\\")).Ok?
    ensures EscapeLines(SyntaxLines([], DefaultSyntaxReference), Some("\\")).value
         == [EscapeDirective + "\\", DefaultSyntaxReference]
    ensures SyntaxLines([], DefaultSyntaxReference) != ["# syntax=docker/dockerfile:1"]
  {
    assert !(SyntaxParserDirective <= DefaultSyntaxReference) by {
      assert DefaultSyntaxReference[0] != SyntaxParserDirective[0];
    }
    assert SyntaxLines([], DefaultSyntaxReference)[0] != "# syntax=docker/dockerfile:1" by {
      assert |DefaultSyntaxReference| != |"# syntax=docker/dockerfile:1"|;
    }
    var lines := SyntaxLines([], DefaultSyntaxReference);
    assert EscapePosition(lines) == 0;
    assert Insert(lines, 0, EscapeDirective + "\\") == [EscapeDirective + "\\"] + lines;
  }

  /** With the intended directives, the escape directive always lands right
      after the syntax directive, whatever lines were there before. */
  lemma SyntaxThenEscapeIntended(lines: seq<string>, reference: string, c: string)
    ensures IntendedEscapeLines(IntendedSyntaxLines(lines, reference), Some(c))
         == [SyntaxParserDirective + reference, EscapeDirective + c] + lines
  {
    var withSyntax := IntendedSyntaxLines(lines, reference);
    assert SyntaxParserDirective <= withSyntax[0];
    assert withSyntax[..1] == [SyntaxParserDirective + reference] && withSyntax[1..] == lines;
  }

  /** As written, `escape` with a character on a new builder raises
      IndexError, where the documentation shows a one-line Dockerfile. */
  lemma EscapeOnEmptyAsWritten(c: string)
    ensures EscapeLines([], Some(c)).Err? && EscapeLines([], Some(c)).error.IndexError?
  {
  }

  /** With the intended handling, `escape` on a new builder yields the
      escape directive as the only line. */
  lemma EscapeOnEmptyIntended(c: string)
    ensures IntendedEscapeLines([], Some(c)) == [EscapeDirective + c]
    ensures Strings.Join(IntendedEscapeLines([], Some(c)), '\n') == "# escape=" + c
  {
  }

  /** On a non-empty list the intended `escape` is the one written. */
  lemma IntendedEscapeAgrees(lines: seq<string>, escapeChar: Option<string>)
    requires |lines| > 0 || escapeChar.None?
    ensures EscapeLines(lines, escapeChar) == Ok(IntendedEscapeLines(lines, escapeChar))
  {
  }

  /** A client of the class: the documented `syntax().escape("\\")` with the
      intended directives, then the two forms of FROM. */
  method ExampleDockerfile()
  {
    var b := new DockerfileBuilder();
    var empty := b.Build();
    assert empty == "";
    b.IntendedSyntax();
    b.IntendedEscape(Some("\\"));
    assert b.lines == [SyntaxParserDirective + DefaultSyntaxReference, EscapeDirective + "\\"] by {
      SyntaxThenEscapeIntended([], DefaultSyntaxReference, "\\");
    }
    var raised := b.From(image := "");
    assert raised == Some(SyntaxError(MissingImageMessage)) && |b.lines| == 2;
    raised := b.From(platform := "aarch64", asName := "stage");
    assert raised.None? && |b.lines| == 3;
    b.AppendUserInstruction("RUN echo ready");
    assert b.lines[3] == "RUN echo ready";
  }
}
