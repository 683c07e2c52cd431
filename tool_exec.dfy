/**
 * The chat rendering of a `bash` tool result: a header of the command and its run facts, then
 * the standard output, and the standard error where there is any.
 */
module ToolExec {
  import opened Text
  import opened Json
  import opened Tools

  /** The header lines, before they are joined and stripped. */
  function HeaderLines(cmd: string, result: ToolResult): (lines: seq<string>)
    ensures 5 <= |lines| <= 7 && lines[0] == "$ " + cmd
  {
    ["$ " + cmd,
     "role: " + PyStr(Get(result.meta, "role")),
     "cwd: " + PyStr(Get(result.meta, "cwd")),
     "exit_code: " + IntToString(result.exitCode),
     "duration_ms: " + PyStr(Get(result.meta, "duration_ms"))]
    + (if Truthy(Get(result.meta, "truncated_stdout")) then ["stdout: truncated"] else [])
    + (if Truthy(Get(result.meta, "truncated_stderr")) then ["stderr: truncated"] else [])
  }

  /** The standard output as shown: stripped, or `<empty>` where nothing is left. */
  function ShownStdout(stdout: string): string
  {
    var s := Strip(stdout);
    if s == "" then "<empty>" else s
  }

  /** The header, the standard output section and, where `stderr` is not empty, the standard
      error section. */
  function Body(header: string, stdout: string, stderr: string): string
  {
    var body := header + "\n\nSTDOUT:\n" + stdout;
    if stderr == "" then body else body + "\n\nSTDERR:\n" + stderr
  }

  /** The whole rendering: it closes with the standard error section when the stripped error
      output is not empty, and with the standard output section otherwise. */
  function Rendered(cmd: string, result: ToolResult): (r: string)
    ensures Strip(result.stderr) != "" ==> EndsWith(r, "\n\nSTDERR:\n" + Strip(result.stderr))
    ensures Strip(result.stderr) == "" ==> EndsWith(r, "\n\nSTDOUT:\n" + ShownStdout(result.stdout))
  {
    var header := Strip(Join(HeaderLines(cmd, result), "\n"));
    BodySections(header, ShownStdout(result.stdout), Strip(result.stderr));
    Body(header, ShownStdout(result.stdout), Strip(result.stderr))
  }

  /** `_render_bash_result` */
  method RenderBashResult(cmd: string, result: ToolResult) returns (body: string)
    ensures body == Rendered(cmd, result)
  {
    var durationMs := Get(result.meta, "duration_ms");
    var role := Get(result.meta, "role");
    var cwd := Get(result.meta, "cwd");
    var lines := ["$ " + cmd, "role: " + PyStr(role), "cwd: " + PyStr(cwd),
                  "exit_code: " + IntToString(result.exitCode), "duration_ms: " + PyStr(durationMs)];
    if Truthy(Get(result.meta, "truncated_stdout")) {
      lines := lines + ["stdout: truncated"];
    }
    if Truthy(Get(result.meta, "truncated_stderr")) {
      lines := lines + ["stderr: truncated"];
    }
    assert lines == HeaderLines(cmd, result);
    var header := Strip(Join(lines, "\n"));
    var stdout := Strip(result.stdout);
    if stdout == "" {
      stdout := "<empty>";
    }
    var stderr := Strip(result.stderr);
    body := header + "\n\nSTDOUT:\n" + stdout;
    if stderr != "" {
      body := body + "\n\nSTDERR:\n" + stderr;
    }
  }

  /** The five fixed lines come first, in order: the command, role, cwd, exit code and
      duration. */
  lemma HeaderLinesFixed(cmd: string, result: ToolResult)
    ensures var lines := HeaderLines(cmd, result);
      |lines| >= 5 && lines[0] == "$ " + cmd && lines[3] == "exit_code: " + IntToString(result.exitCode)
      && StartsWith(lines[1], "role: ") && StartsWith(lines[2], "cwd: ") && StartsWith(lines[4], "duration_ms: ")
  {
    var lines := HeaderLines(cmd, result);
    var fixed := lines[..5];
    assert fixed[1] == "role: " + PyStr(Get(result.meta, "role"));
    assert fixed[2] == "cwd: " + PyStr(Get(result.meta, "cwd"));
    assert fixed[4] == "duration_ms: " + PyStr(Get(result.meta, "duration_ms"));
  }

  /** A `truncated` line follows the fixed ones for each flag that is set, and only then. */
  lemma HeaderLinesFlags(cmd: string, result: ToolResult)
    ensures var lines := HeaderLines(cmd, result);
      var out := Truthy(Get(result.meta, "truncated_stdout"));
      var err := Truthy(Get(result.meta, "truncated_stderr"));
      |lines| == 5 + (if out then 1 else 0) + (if err then 1 else 0)
      && (out ==> lines[5] == "stdout: truncated")
      && (err ==> lines[|lines| - 1] == "stderr: truncated")
  {
  }

  /** Stripping keeps a prefix that opens and closes with characters that are not whitespace. */
  lemma StripKeepsPrefix(s: string, p: string)
    requires StartsWith(s, p) && p != [] && !IsSpace(p[0]) && !IsSpace(p[|p| - 1])
    ensures StartsWith(Strip(s), p)
  {
    assert s[0] == p[0];
    assert LStrip(s) == s;
    var r := RStrip(s);
    assert s[|p| - 1] == p[|p| - 1];
    assert |r| >= |p|;
    assert r[..|p|] == s[..|p|];
  }

  /** Joined lines start with the first lines and then the start of the next one. */
  lemma JoinPrefix(a: seq<string>, b: seq<string>, lead: string, sep: string)
    requires a != [] && b != [] && StartsWith(b[0], lead)
    ensures StartsWith(Join(a + b, sep), Join(a, sep) + sep + lead)
  {
    JoinConcat(a, b, sep);
    JoinStartsWith(b, sep);
    var rest := Join(b, sep);
    assert rest[..|lead|] == lead;
    var p := Join(a, sep) + sep;
    assert (p + rest)[..|p| + |lead|] == p + lead;
  }

  /** Lines whose first opens with a non-space, joined and stripped, keep the first four lines
      and a prefix of the fifth that does not end in whitespace. */
  lemma LinesStart(lines: seq<string>, lead: string)
    requires |lines| >= 5 && lines[0] != [] && !IsSpace(lines[0][0])
    requires StartsWith(lines[4], lead) && lead != [] && !IsSpace(lead[|lead| - 1])
    ensures StartsWith(Strip(Join(lines, "\n")), Join(lines[..4], "\n") + "\n" + lead)
  {
    assert lines == lines[..4] + lines[4..];
    JoinPrefix(lines[..4], lines[4..], lead, "\n");
    var p := Join(lines[..4], "\n") + "\n" + lead;
    JoinStartsWith(lines[..4], "\n");
    assert p[0] == lines[0][0];
    StripKeepsPrefix(Join(lines, "\n"), p);
  }

  /** A prefix of a prefix is a prefix. */
  lemma PrefixTrans(s: string, t: string, p: string)
    requires StartsWith(s, t) && StartsWith(t, p)
    ensures StartsWith(s, p)
  {
    assert s[..|p|] == s[..|t|][..|p|];
  }

  /** Four joined lines open with the first one and a line break. */
  lemma JoinFourStart(lines: seq<string>)
    requires |lines| == 4
    ensures StartsWith(Join(lines, "\n"), lines[0] + "\n")
  {
    JoinCons(lines[0], lines[1..], "\n");
    assert lines == [lines[0]] + lines[1..];
  }

  /** The first four lines, joined, open with the first line and a line break. */
  lemma FourStart(lines: seq<string>, t: string)
    requires |lines| >= 4
    ensures StartsWith(Join(lines[..4], "\n") + "\n" + t, lines[0] + "\n")
  {
    var four := lines[..4];
    JoinFourStart(four);
    assert four[0] == lines[0];
    ExtendStart(Join(four, "\n"), "\n", four[0] + "\n");
    ExtendStart(Join(four, "\n") + "\n", t, four[0] + "\n");
  }

  /** A prefix of a string is a prefix of any extension of it. */
  lemma ExtendStart(s: string, t: string, p: string)
    requires StartsWith(s, p)
    ensures StartsWith(s + t, p)
  {
    assert (s + t)[..|p|] == s[..|p|];
  }

  /** A body opens with every prefix of its header. */
  lemma BodyStart(header: string, stdout: string, stderr: string, p: string, q: string)
    requires StartsWith(header, p) && StartsWith(p, q)
    ensures StartsWith(Body(header, stdout, stderr), p) && StartsWith(Body(header, stdout, stderr), q)
  {
    var body := Body(header, stdout, stderr);
    BodySections(header, stdout, stderr);
    PrefixTrans(header + "\n\nSTDOUT:\n" + stdout, header, header);
    PrefixTrans(body, header + "\n\nSTDOUT:\n" + stdout, header);
    PrefixTrans(body, header, p);
    PrefixTrans(body, p, q);
  }

  /** The rendering opens with the command line, then the role, cwd and exit-code lines, and
      the start of the duration line: stripping the joined header removes none of them. */
  lemma RenderedStart(cmd: string, result: ToolResult)
    ensures var lines := HeaderLines(cmd, result);
      StartsWith(Rendered(cmd, result), Join(lines[..4], "\n") + "\n" + "duration_ms:")
    ensures StartsWith(Rendered(cmd, result), "$ " + cmd + "\n")
  {
    var lines := HeaderLines(cmd, result);
    HeaderLinesFixed(cmd, result);
    assert lines[0][0] == '$';
    LinesStart(lines, "duration_ms:");
    FourStart(lines, "duration_ms:");
    BodyStart(Strip(Join(lines, "\n")), ShownStdout(result.stdout), Strip(result.stderr),
              Join(lines[..4], "\n") + "\n" + "duration_ms:", lines[0] + "\n");
  }

  /** The standard output section follows the header; a blank output reads `<empty>`. */
  lemma StdoutShown(stdout: string)
    ensures Strip(stdout) == "" ==> ShownStdout(stdout) == "<empty>"
    ensures Strip(stdout) != "" ==> ShownStdout(stdout) == Strip(stdout)
  {
  }

  /** The standard error section closes the body exactly when the error output is not empty;
      otherwise the body ends with the standard output section. */
  lemma BodySections(header: string, stdout: string, stderr: string)
    ensures StartsWith(Body(header, stdout, stderr), header + "\n\nSTDOUT:\n" + stdout)
    ensures stderr != "" ==> EndsWith(Body(header, stdout, stderr), "\n\nSTDERR:\n" + stderr)
    ensures stderr == "" ==> EndsWith(Body(header, stdout, stderr), "\n\nSTDOUT:\n" + stdout)
  {
    var body := header + "\n\nSTDOUT:\n" + stdout;
    var r := Body(header, stdout, stderr);
    assert r[..|body|] == body;
    if stderr != "" {
      var section := "\n\nSTDERR:\n" + stderr;
      assert r[|r| - |section|..] == section;
    } else {
      var section := "\n\nSTDOUT:\n" + stdout;
      assert body[|body| - |section|..] == section;
    }
  }
}
