/**
 * The line-by-line markdown formatter used for the model's answers. The text
 * is split on line feeds and every line is classified on its own, by the first
 * of seven rules that matches: level-3, level-2 and level-1 headings, numbered
 * item, bullet item, one-line code, paragraph.
 */
module MarkdownRenderer {
  import opened JsString

  /** What one line is rendered as. `Heading` covers the three heading rules (`level` 1 to 3). */
  datatype Block =
    | Heading(level: nat, text: string)
    | Numbered(number: string, body: string)
    | Bullet(text: string)
    | Code(text: string)
    | Paragraph(text: string)

  /** `#` repeated `level` times, then a space. */
  function Marker(level: nat): (m: string)
    ensures |m| == level + 1 && m[level] == ' '
    ensures forall i :: 0 <= i < level ==> m[i] == '#'
  {
    seq(level, _ => '#') + " "
  }

  /**
   * The regular expression `^\d+\.\s`: one or more ASCII digits, a dot, then
   * one white-space character. Digits cannot match the dot, so the only run
   * of digits to try is the longest one.
   */
  predicate IsNumberedLine(line: string) {
    var d := DigitRun(line);
    1 <= d && d + 1 < |line| && line[d] == '.' && IsWhitespace(line[d + 1])
  }

  /** The same pattern read as the regular expression does: some digit prefix, a dot, white space. */
  ghost predicate MatchesNumberedPattern(line: string) {
    exists k :: 1 <= k < |line| - 1 && AllDigits(line[..k]) && line[k] == '.' && IsWhitespace(line[k + 1])
  }

  predicate IsBulletLine(line: string) {
    StartsWith(line, "- ") || StartsWith(line, "* ")
  }

  predicate IsCodeLine(line: string) {
    StartsWith(line, "`") && EndsWith(line, "`")
  }

  /** One line, by the first rule that matches. */
  function Classify(line: string): (b: Block)
  {
    if StartsWith(line, "### ") then Heading(3, ReplaceFirst(line, "### ", ""))
    else if StartsWith(line, "## ") then Heading(2, ReplaceFirst(line, "## ", ""))
    else if StartsWith(line, "# ") then Heading(1, ReplaceFirst(line, "# ", ""))
    else if IsNumberedLine(line) then
      var fields := Split(line, '.');
      Numbered(fields[0], Trim(Join(fields[1..], '.')))
    else if IsBulletLine(line) then Bullet(Substring(line, 2))
    else if IsCodeLine(line) then Code(RemoveAll(line, '`'))
    else Paragraph(line)
  }

  /** The whole answer: one block per line-feed-separated segment, in order. */
  function Render(content: string): (blocks: seq<Block>)
  {
    var lines := Split(content, '\n');
    seq(|lines|, i requires 0 <= i < |lines| => Classify(lines[i]))
  }

  // ---------------------------------------------------------------------
  // The rules, in order, as an independent reference

  /** The position (0 to 6) of the rule that produced a block. */
  function RuleOf(b: Block): nat
  {
    match b
    case Heading(level, _) => if level == 3 then 0 else if level == 2 then 1 else 2
    case Numbered(_, _) => 3
    case Bullet(_) => 4
    case Code(_) => 5
    case Paragraph(_) => 6
  }

  /** Whether the rule at position `rule` accepts `line`; the paragraph rule accepts every line. */
  ghost predicate RuleMatches(rule: nat, line: string)
  {
    if rule == 0 then StartsWith(line, Marker(3))
    else if rule == 1 then StartsWith(line, Marker(2))
    else if rule == 2 then StartsWith(line, Marker(1))
    else if rule == 3 then MatchesNumberedPattern(line)
    else if rule == 4 then IsBulletLine(line)
    else if rule == 5 then IsCodeLine(line)
    else true
  }

  /** The longest-digit-run test and the regular expression accept the same lines. */
  lemma NumberedPatternIff(line: string)
    ensures IsNumberedLine(line) <==> MatchesNumberedPattern(line)
  {
    var d := DigitRun(line);
    DigitRunSpec(line);
    if IsNumberedLine(line) {
      assert 1 <= d < |line| - 1 && AllDigits(line[..d]) && line[d] == '.' && IsWhitespace(line[d + 1]);
    }
    if MatchesNumberedPattern(line) {
      var k :| 1 <= k < |line| - 1 && AllDigits(line[..k]) && line[k] == '.' && IsWhitespace(line[k + 1]);
      assert k == d;
    }
  }

  /** The rule that produced `Classify(line)` accepts the line, and no earlier rule does. */
  lemma FirstMatchWins(line: string)
    ensures RuleMatches(RuleOf(Classify(line)), line)
    ensures forall rule :: 0 <= rule < RuleOf(Classify(line)) ==> !RuleMatches(rule, line)
  {
    NumberedPatternIff(line);
    assert Marker(3) == "### " && Marker(2) == "## " && Marker(1) == "# ";
  }

  /** A line starting with `### ` is a level-3 heading, never a level-2 or level-1 one. */
  lemma LevelThreeWins(line: string)
    requires StartsWith(line, "### ")
    ensures Classify(line).Heading? && Classify(line).level == 3
  {
  }

  /** Each kind of block is produced by exactly the lines its rule describes. */
  lemma KindIff(line: string)
    ensures (Classify(line).Heading? && Classify(line).level == 3) <==> StartsWith(line, "### ")
    ensures (Classify(line).Heading? && Classify(line).level == 2) <==> StartsWith(line, "## ")
    ensures (Classify(line).Heading? && Classify(line).level == 1) <==> StartsWith(line, "# ")
    ensures Classify(line).Numbered? <==> IsNumberedLine(line)
    ensures Classify(line).Bullet? <==> IsBulletLine(line)
    ensures Classify(line).Code? <==> IsCodeLine(line)
    ensures Classify(line).Paragraph? <==>
      && !StartsWith(line, "### ") && !StartsWith(line, "## ") && !StartsWith(line, "# ")
      && !IsNumberedLine(line) && !IsBulletLine(line) && !IsCodeLine(line)
  {
    var b := Classify(line);
    if IsNumberedLine(line) {
      assert IsDigit(line[0]);
    }
    if IsCodeLine(line) {
      assert line[0] == '`';
    }
    if StartsWith(line, "### ") {
      assert line[1] == '#' && line[2] == '#';
      assert b.Heading? && b.level == 3;
    } else if StartsWith(line, "## ") {
      assert line[1] == '#';
      assert b.Heading? && b.level == 2;
    } else if StartsWith(line, "# ") {
      assert b.Heading? && b.level == 1;
    } else if IsNumberedLine(line) {
      assert b.Numbered?;
    } else if IsBulletLine(line) {
      assert b.Bullet?;
      assert !IsCodeLine(line);
    } else if IsCodeLine(line) {
      assert b.Code?;
    } else {
      assert b.Paragraph?;
    }
  }

  /** A heading's text is the line without its marker: marker and text give the line back. */
  lemma HeadingText(line: string)
    requires Classify(line).Heading?
    ensures 1 <= Classify(line).level <= 3
    ensures Marker(Classify(line).level) + Classify(line).text == line
  {
    ReplaceFirstSpec(line, "### ", "");
    ReplaceFirstSpec(line, "## ", "");
    ReplaceFirstSpec(line, "# ", "");
    assert Marker(3) == "### " && Marker(2) == "## " && Marker(1) == "# ";
  }

  /**
   * A numbered item's number is the digit run before the first dot; its body is
   * everything after that dot, later dots included, trimmed.
   */
  lemma NumberedParts(line: string)
    requires Classify(line).Numbered?
    ensures var d := DigitRun(line);
      && d + 1 < |line|
      && Classify(line).number == line[..d]
      && |Classify(line).number| >= 1 && AllDigits(Classify(line).number)
      && line == Classify(line).number + "." + line[d + 1..]
      && Classify(line).body == Trim(line[d + 1..])
  {
    KindIff(line);
    var d := DigitRun(line);
    DigitRunSpec(line);
    assert '.' !in line[..d] by {
      assert AllDigits(line[..d]);
    }
    SplitFirstField(line, '.', d);
    assert line == line[..d] + "." + line[d + 1..];
  }

  /** A bullet's text is the line without its two-character marker. */
  lemma BulletText(line: string)
    requires Classify(line).Bullet?
    ensures line[..2] == "- " || line[..2] == "* "
    ensures line == line[..2] + Classify(line).text
  {
    KindIff(line);
    SubstringSpec(line, 2);
  }

  /**
   * A code block carries no backtick. It is what lies between the two end
   * backticks, with every backtick inside dropped and the other characters kept
   * in order; with no backtick inside, it is exactly what lies between them.
   */
  lemma CodeText(line: string)
    requires Classify(line).Code?
    ensures IsCodeLine(line) && '`' !in Classify(line).text
    ensures |line| >= 2 ==> Classify(line).text == RemoveAll(line[1..|line| - 1], '`')
    ensures |line| >= 2 && '`' !in line[1..|line| - 1] ==> Classify(line).text == line[1..|line| - 1]
  {
    KindIff(line);
    RemoveAllSpec(line, '`');
    if |line| >= 2 {
      var inner := line[1..|line| - 1];
      RemoveAllSpec(inner, '`');
      assert line == ['`'] + inner + ['`'];
      RemoveAllConcat(['`'] + inner, ['`'], '`');
      RemoveAllConcat(['`'], inner, '`');
      RemoveAllSingle('`', '`');
    }
  }

  /** A lone backtick is an empty code block. */
  lemma LoneBacktick()
    ensures Classify("`") == Code("")
  {
    assert IsCodeLine("`");
  }

  /** A paragraph is the line unchanged. */
  lemma ParagraphText(line: string)
    requires Classify(line).Paragraph?
    ensures Classify(line).text == line
  {
  }

  /** Lines are formatted independently: rendering two texts joined by a line feed renders each. */
  lemma RenderConcat(a: string, b: string)
    ensures Render(a + "\n" + b) == Render(a) + Render(b)
  {
    SplitConcat(a, b, '\n');
  }

  /** One block per line-feed-separated segment. */
  lemma RenderCount(content: string)
    ensures |Render(content)| == multiset(content)['\n'] + 1
  {
    SplitCount(content, '\n');
  }

  /** Lines joined with line feeds render as one block per line, in order. */
  lemma RenderLines(lines: seq<string>)
    requires |lines| >= 1
    requires forall i :: 0 <= i < |lines| ==> '\n' !in lines[i]
    ensures |Render(Join(lines, '\n'))| == |lines|
    ensures forall i :: 0 <= i < |lines| ==> Render(Join(lines, '\n'))[i] == Classify(lines[i])
  {
    SplitJoin(lines, '\n');
  }

  /** The digit run of digits followed by a non-digit is exactly those digits. */
  lemma {:induction false} DigitRunPrefix(n: string, rest: string)
    requires AllDigits(n)
    requires rest != [] && !IsDigit(rest[0])
    ensures DigitRun(n + rest) == |n|
  {
    if n != [] {
      assert (n + rest)[1..] == n[1..] + rest;
      DigitRunPrefix(n[1..], rest);
    }
  }

  /** A text without line feeds is one block. */
  lemma RenderLine(line: string)
    requires '\n' !in line
    ensures Render(line) == [Classify(line)]
  {
    SplitNoSeparator(line, '\n');
  }

  /** The renderer's documented examples: a line `# title` renders as that one level-1 heading. */
  lemma HeadingExample(title: string)
    requires '\n' !in title
    ensures Render("# " + title) == [Heading(1, title)]
  {
    var line := "# " + title;
    assert line[1] == ' ';
    assert forall i :: 2 <= i < |line| ==> line[i] == title[i - 2];
    assert StartsWith(line, "# ");
    assert !StartsWith(line, "## ") && !StartsWith(line, "### ") by {
      assert "## "[1] == '#' && "### "[1] == '#';
    }
    ReplaceFirstSpec(line, "# ", "");
    assert "" + line[2..] == title;
    RenderLine(line);
  }

  /** A line `- item` renders as that one bullet. */
  lemma BulletExample(item: string)
    requires '\n' !in item
    ensures Render("- " + item) == [Bullet(item)]
  {
    var line := "- " + item;
    assert line[0] == '-' && line[1] == ' ';
    assert forall i :: 2 <= i < |line| ==> line[i] == item[i - 2];
    assert StartsWith(line, "- ");
    assert DigitRun(line) == 0;
    assert line[2..] == item;
    RenderLine(line);
  }

  /** `n. step` with a digit run `n` matches the numbered rule, and the run is exactly `n`. */
  lemma NumberedLineOf(n: string, step: string)
    requires |n| >= 1 && AllDigits(n)
    ensures DigitRun(n + ". " + step) == |n|
    ensures IsNumberedLine(n + ". " + step)
  {
    var line := n + ". " + step;
    assert line == n + (". " + step);
    assert (". " + step)[0] == '.';
    DigitRunPrefix(n, ". " + step);
    assert line[|n|] == '.' && line[|n| + 1] == ' ';
  }

  /** A line `n. step` is the numbered item with number `n` and the trimmed step. */
  lemma NumberedClassify(n: string, step: string)
    requires |n| >= 1 && AllDigits(n)
    ensures Classify(n + ". " + step) == Numbered(n, Trim(step))
  {
    var line := n + ". " + step;
    NumberedSlices(n, step);
    assert line[..|n|] == n;
    assert line[|n| + 1..] == " " + step;
    TrimLeadingSpace(step);
  }

  lemma NumberedSlices(n: string, step: string)
    requires |n| >= 1 && AllDigits(n)
    ensures Classify(n + ". " + step) == Numbered((n + ". " + step)[..|n|], Trim((n + ". " + step)[|n| + 1..]))
  {
    var line := n + ". " + step;
    NumberedLineOf(n, step);
    KindIff(line);
    NumberedParts(line);
  }

  lemma TrimLeadingSpace(s: string)
    ensures Trim(" " + s) == Trim(s)
  {
    assert (" " + s)[1..] == s;
    assert TrimStart(" " + s) == TrimStart(s);
  }

  /** A numbered step written `n. step` renders as that one numbered item. */
  lemma NumberedExample(n: string, step: string)
    requires |n| >= 1 && AllDigits(n)
    requires '\n' !in step
    ensures Render(n + ". " + step) == [Numbered(n, Trim(step))]
  {
    var line := n + ". " + step;
    NumberedClassify(n, step);
    assert '\n' !in line by {
      assert forall i :: 0 <= i < |n| ==> line[i] == n[i];
    }
    RenderLine(line);
  }

  /** An empty line is an empty paragraph, and an empty text renders as one. */
  lemma EmptyExample()
    ensures Classify("") == Paragraph("")
    ensures Render("") == [Paragraph("")]
  {
    RenderLine("");
  }
}
