/**
 * `generateDockerfile`: the build file written into the package directory,
 * rendered from the manifest by a single template.
 */
module Dockerfile {
  import opened Wrappers
  import opened Text
  import opened Manifest

  const DefaultImage: string := "alpine:latest"

  /**
   * The final step used when the manifest has no test command: the text
   * `CMD ["sh", "-c", "echo \"No test command specified\""]`, spelled as a
   * concatenation of short literals so that Dafny can check each piece
   * for line feeds separately.
   */
  const Placeholder: string := "CMD [\"sh\", " + "\"-c\", " + "\"echo \\\"No " + "test command " + "specified\\\"\"]"

  /** The comment line above the optional install step. */
  const InstallHeading: string := "# Install test dependencies if specified"

  /**
   * The template, one line of it per line here: the base image (`runtime`,
   * or the default when it is missing or empty), the fixed copy steps, an
   * optional install step and the final command. `x ? a : b` on a string
   * tests for a non-empty string.
   */
  function GenerateDockerfile(m: Entries): string
  {
    var baseImage := if HasValue(m, "runtime") then m["runtime"] else DefaultImage;
    Render(baseImage,
           if HasValue(m, "test_deps") then "RUN " + m["test_deps"] else "",
           if HasValue(m, "test_command") then "CMD " + m["test_command"] else Placeholder)
  }

  /** The template text around its three substitutions. */
  function Render(base: string, install: string, command: string): string
  {
    "FROM " + base + "\n"
    + "\n"
    + "WORKDIR /skill" + "\n"
    + "\n"
    + "# Copy skill files" + "\n"
    + "COPY . ." + "\n"
    + "\n"
    + InstallHeading + "\n"
    + install + "\n"
    + "\n"
    + "# Run tests" + "\n"
    + command + "\n"
  }

  /** The thirteen lines of the rendered file, the last one empty. */
  function Layout(base: string, install: string, command: string): seq<string>
  {
    ["FROM " + base, "", "WORKDIR /skill", "", "# Copy skill files", "COPY . .", "",
     InstallHeading, install, "", "# Run tests", command, ""]
  }

  lemma {:induction false} JoinSnoc(a: seq<string>, x: string, c: char)
    requires |a| >= 1
    ensures Join(a + [x], c) == Join(a, c) + [c] + x
    decreases |a|
  {
    if |a| > 1 {
      assert (a + [x])[1..] == a[1..] + [x];
      JoinSnoc(a[1..], x, c);
    }
  }

  /** The first five lines joined: the template up to the copy heading. */
  lemma JoinHead(base: string)
    ensures Join(["FROM " + base, "", "WORKDIR /skill", "", "# Copy skill files"], '\n')
            == "FROM " + base + "\n" + "\n" + "WORKDIR /skill" + "\n" + "\n" + "# Copy skill files"
  {
    var c := '\n';
    var a1 := ["FROM " + base];
    var p1 := "FROM " + base;
    var a2 := a1 + [""];
    var p2 := p1 + "\n";
    assert Join(a2, c) == p2 by { JoinSnoc(a1, "", c); }
    var a3 := a2 + ["WORKDIR /skill"];
    var p3 := p2 + "\n" + "WORKDIR /skill";
    assert Join(a3, c) == p3 by { JoinSnoc(a2, "WORKDIR /skill", c); }
    var a4 := a3 + [""];
    var p4 := p3 + "\n";
    assert Join(a4, c) == p4 by { JoinSnoc(a3, "", c); }
    var a5 := a4 + ["# Copy skill files"];
    assert Join(a5, c) == p4 + "\n" + "# Copy skill files" by { JoinSnoc(a4, "# Copy skill files", c); }
    assert a5 == ["FROM " + base, "", "WORKDIR /skill", "", "# Copy skill files"];
  }

  /** The first nine lines joined: the template up to the install step. */
  lemma JoinUpToInstall(base: string, install: string)
    ensures Join(["FROM " + base, "", "WORKDIR /skill", "", "# Copy skill files", "COPY . .", "",
                  InstallHeading, install], '\n')
            == "FROM " + base + "\n" + "\n" + "WORKDIR /skill" + "\n" + "\n" + "# Copy skill files" + "\n"
               + "COPY . ." + "\n" + "\n" + InstallHeading + "\n" + install
  {
    var c := '\n';
    var a5 := ["FROM " + base, "", "WORKDIR /skill", "", "# Copy skill files"];
    var p5 := "FROM " + base + "\n" + "\n" + "WORKDIR /skill" + "\n" + "\n" + "# Copy skill files";
    JoinHead(base);
    var a6 := a5 + ["COPY . ."];
    var p6 := p5 + "\n" + "COPY . .";
    assert Join(a6, c) == p6 by { JoinSnoc(a5, "COPY . .", c); }
    var a7 := a6 + [""];
    var p7 := p6 + "\n";
    assert Join(a7, c) == p7 by { JoinSnoc(a6, "", c); }
    var a8 := a7 + [InstallHeading];
    var p8 := p7 + "\n" + InstallHeading;
    assert Join(a8, c) == p8 by { JoinSnoc(a7, InstallHeading, c); }
    var a9 := a8 + [install];
    assert Join(a9, c) == p8 + "\n" + install by { JoinSnoc(a8, install, c); }
    assert a9 == ["FROM " + base, "", "WORKDIR /skill", "", "# Copy skill files", "COPY . .", "",
                  InstallHeading, install];
  }

  /** Rendering is joining the layout's lines with line feeds. */
  lemma RenderIsJoin(base: string, install: string, command: string)
    ensures Render(base, install, command) == Join(Layout(base, install, command), '\n')
  {
    var c := '\n';
    var a9 := ["FROM " + base, "", "WORKDIR /skill", "", "# Copy skill files", "COPY . .", "",
               InstallHeading, install];
    var p9 := "FROM " + base + "\n" + "\n" + "WORKDIR /skill" + "\n" + "\n" + "# Copy skill files" + "\n"
              + "COPY . ." + "\n" + "\n" + InstallHeading + "\n" + install;
    JoinUpToInstall(base, install);
    var a10 := a9 + [""];
    var p10 := p9 + "\n";
    assert Join(a10, c) == p10 by { JoinSnoc(a9, "", c); }
    var a11 := a10 + ["# Run tests"];
    var p11 := p10 + "\n" + "# Run tests";
    assert Join(a11, c) == p11 by { JoinSnoc(a10, "# Run tests", c); }
    var a12 := a11 + [command];
    var p12 := p11 + "\n" + command;
    assert Join(a12, c) == p12 by { JoinSnoc(a11, command, c); }
    var a13 := a12 + [""];
    assert Join(a13, c) == p12 + "\n" by { JoinSnoc(a12, "", c); }
    assert a13 == Layout(base, install, command);
  }

  lemma PlaceholderShape()
    ensures '\n' !in Placeholder && StartsWith(Placeholder, "CMD ")
  {
  }

  /** None of the template's fixed texts holds a line feed. */
  lemma FixedTextsSingleLine()
    ensures '\n' !in DefaultImage && '\n' !in "RUN " && '\n' !in "CMD " && '\n' !in "FROM "
    ensures '\n' !in "# Copy skill files" && '\n' !in "WORKDIR /skill" && '\n' !in "COPY . ."
    ensures '\n' !in InstallHeading && '\n' !in "# Run tests"
  {
    HeadingsSingleLine();
    ShortTextsSingleLine();
  }

  lemma HeadingsSingleLine()
    ensures '\n' !in InstallHeading && '\n' !in "# Copy skill files" && '\n' !in "# Run tests"
  {
  }

  lemma ShortTextsSingleLine()
    ensures '\n' !in DefaultImage && '\n' !in "RUN " && '\n' !in "CMD " && '\n' !in "FROM "
    ensures '\n' !in "WORKDIR /skill" && '\n' !in "COPY . ."
  {
  }

  lemma ConcatSingleLine(a: string, b: string)
    requires '\n' !in a && '\n' !in b
    ensures '\n' !in a + b
  {
  }

  lemma LayoutSingleLine(base: string, install: string, command: string)
    requires '\n' !in base && '\n' !in install && '\n' !in command
    ensures forall p :: p in Layout(base, install, command) ==> '\n' !in p
  {
    FixedTextsSingleLine();
    ConcatSingleLine("FROM ", base);
    var L := Layout(base, install, command);
    forall i | 0 <= i < |L|
      ensures '\n' !in L[i]
    {
    }
  }

  /** In the layout, a line starts with `RUN ` exactly when an install step is present. */
  lemma LayoutInstall(base: string, deps: Option<string>, command: string)
    requires StartsWith(command, "CMD ")
    ensures HasStep(Layout(base, if deps.Some? then "RUN " + deps.value else "", command), "RUN ") <==> deps.Some?
  {
    var L := Layout(base, if deps.Some? then "RUN " + deps.value else "", command);
    assert L[0][0] == 'F' && L[11][0] == 'C';
    assert L[2][0] == 'W' && L[4][0] == '#' && L[5][0] == 'C' && L[7][0] == '#' && L[10][0] == '#';
    assert L[1] == L[3] == L[6] == L[9] == L[12] == "";
    assert deps.Some? ==> StartsWith(L[8], "RUN ");
    assert deps.None? ==> L[8] == "";
  }

  /** The three substituted lines hold no line feed when the manifest's values hold none. */
  lemma SubstitutionsSingleLine(m: Entries)
    requires SingleLine(m)
    ensures '\n' !in (if HasValue(m, "runtime") then m["runtime"] else DefaultImage)
    ensures '\n' !in (if HasValue(m, "test_deps") then "RUN " + m["test_deps"] else "")
    ensures '\n' !in (if HasValue(m, "test_command") then "CMD " + m["test_command"] else Placeholder)
  {
    FixedTextsSingleLine();
    PlaceholderShape();
    if HasValue(m, "test_deps") {
      ConcatSingleLine("RUN ", m["test_deps"]);
    }
    if HasValue(m, "test_command") {
      ConcatSingleLine("CMD ", m["test_command"]);
    }
  }

  /**
   * Read back line by line, a file rendered from single-line values has
   * the base image on its first line, the install step (or a blank) on the
   * ninth and the final command on the twelfth, followed by a line feed.
   */
  lemma DockerfileLines(m: Entries)
    requires SingleLine(m)
    ensures Split(GenerateDockerfile(m), '\n') == Layout(
              if HasValue(m, "runtime") then m["runtime"] else DefaultImage,
              if HasValue(m, "test_deps") then "RUN " + m["test_deps"] else "",
              if HasValue(m, "test_command") then "CMD " + m["test_command"] else Placeholder)
  {
    var base := if HasValue(m, "runtime") then m["runtime"] else DefaultImage;
    var install := if HasValue(m, "test_deps") then "RUN " + m["test_deps"] else "";
    var command := if HasValue(m, "test_command") then "CMD " + m["test_command"] else Placeholder;
    var L := Layout(base, install, command);
    RenderIsJoin(base, install, command);
    assert GenerateDockerfile(m) == Render(base, install, command);
    SubstitutionsSingleLine(m);
    LayoutSingleLine(base, install, command);
    SplitJoin(L, '\n');
  }

  /** Some line of `lines` is a step with the given instruction. */
  predicate HasStep(lines: seq<string>, instruction: string)
  {
    exists i :: 0 <= i < |lines| && StartsWith(lines[i], instruction)
  }

  /**
   * The file has an install step (a line starting with `RUN `) exactly when
   * `test_deps` is non-empty.
   */
  lemma DockerfileInstallStep(m: Entries)
    requires SingleLine(m)
    ensures HasStep(Split(GenerateDockerfile(m), '\n'), "RUN ") <==> HasValue(m, "test_deps")
  {
    var base := if HasValue(m, "runtime") then m["runtime"] else DefaultImage;
    var command := if HasValue(m, "test_command") then "CMD " + m["test_command"] else Placeholder;
    var deps := if HasValue(m, "test_deps") then Some(m["test_deps"]) else None;
    DockerfileLines(m);
    PlaceholderShape();
    LayoutInstall(base, deps, command);
    assert Split(GenerateDockerfile(m), '\n') == Layout(base, if deps.Some? then "RUN " + deps.value else "", command);
  }

  /**
   * The file starts from the declared runtime or the default image, has
   * `RUN <test_deps>` (or a blank) on its ninth line, ends its last step
   * with the test command or the placeholder, and ends with a line feed.
   */
  lemma DockerfileBaseAndCommand(m: Entries)
    requires SingleLine(m)
    ensures var lines := Split(GenerateDockerfile(m), '\n');
            && |lines| == 13
            && lines[0] == "FROM " + (if HasValue(m, "runtime") then m["runtime"] else "alpine:latest")
            && lines[8] == (if HasValue(m, "test_deps") then "RUN " + m["test_deps"] else "")
            && lines[|lines| - 2] == (if HasValue(m, "test_command") then "CMD " + m["test_command"] else Placeholder)
            && lines[|lines| - 1] == ""
  {
    DockerfileLines(m);
  }
}
