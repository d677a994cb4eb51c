/**
 * The older `run` action: joins the command line, loads the project's
 * .envcli.yml and scans every entry without stopping, so the LAST entry that
 * provides the command decides the image, tag, directory and shell.
 */
module LegacyRun {
  import opened Wrappers
  import Paths

  /** One entry of the older configuration document's command list. */
  datatype CommandEntry = CommandEntry(
    name: string,
    image: string,
    tag: string,
    directory: string,
    shell: string,
    commands: seq<string>)

  /** The older configuration document: its list of command entries. */
  datatype LegacyConfig = LegacyConfig(entries: seq<CommandEntry>)

  /** The four values the matching loop copies out of a matched entry. */
  datatype Target = Target(image: string, tag: string, directory: string, shell: string)

  const NO_TARGET := Target("", "", "", "")

  /** What the action ends with. */
  datatype RunOutcome =
    | NoProjectFound
    | CommandNotFound(commandName: string)
    | NoDockerFound
    | Execute(image: string, tag: string, shell: string, commandLine: string,
              hostProjectDirectory: string, containerDirectory: string, containerWorkingDirectory: string)

  predicate Provides(e: CommandEntry, commandName: string) {
    commandName in e.commands
  }

  /** strings.Join. */
  function Join(parts: seq<string>, sep: string): string {
    if parts == [] then ""
    else if |parts| == 1 then parts[0]
    else parts[0] + sep + Join(parts[1..], sep)
  }

  /** strings.Split on a one-character separator. */
  function Split(s: string, sep: char): (r: seq<string>)
    ensures |r| >= 1
  {
    if s == [] then [""]
    else
      var rest := Split(s[1..], sep);
      if s[0] == sep then [""] + rest else [[s[0]] + rest[0]] + rest[1..]
  }

  /** c.Args().First(): the first argument, or "" when there is none. */
  function FirstArg(args: seq<string>): string {
    if |args| > 0 then args[0] else ""
  }

  /** c.Args().Tail(): the arguments after the first, or none when there are fewer than two. */
  function TailArgs(args: seq<string>): seq<string> {
    if |args| >= 2 then args[1..] else []
  }

  /** The command line forwarded into the container. */
  function CommandLine(args: seq<string>): string {
    Join([FirstArg(args)] + TailArgs(args), " ")
  }

  /** The forwarded command line is the arguments joined with single spaces, in every case. */
  lemma CommandLineIsJoin(args: seq<string>)
    ensures CommandLine(args) == Join(args, " ")
  {
    if |args| >= 2 {
      assert [FirstArg(args)] + TailArgs(args) == args;
    } else if |args| == 1 {
      assert [FirstArg(args)] + TailArgs(args) == args;
    }
  }

  lemma {:induction false} SplitWord(p: string, sep: char)
    requires sep !in p
    ensures Split(p, sep) == [p]
    decreases |p|
  {
    if p != [] {
      assert sep != p[0] && sep !in p[1..];
      SplitWord(p[1..], sep);
      assert [p[0]] + p[1..] == p;
    }
  }

  lemma {:induction false} SplitFirstWord(p: string, sep: char, rest: string)
    requires sep !in p
    ensures Split(p + [sep] + rest, sep) == [p] + Split(rest, sep)
    decreases |p|
  {
    if p == [] {
      assert p + [sep] + rest == [sep] + rest;
      assert ([sep] + rest)[1..] == rest;
    } else {
      assert (p + [sep] + rest)[1..] == p[1..] + [sep] + rest;
      SplitFirstWord(p[1..], sep, rest);
      assert [p[0]] + p[1..] == p;
    }
  }

  /**
   * The words of the forwarded command line are the arguments again, as long
   * as no argument itself contains a space.
   */
  lemma {:induction false} SplitCommandLine(args: seq<string>)
    requires |args| >= 1
    requires forall i :: 0 <= i < |args| ==> ' ' !in args[i]
    ensures Split(CommandLine(args), ' ') == args
  {
    CommandLineIsJoin(args);
    SplitJoin(args);
  }

  lemma {:induction false} SplitJoin(parts: seq<string>)
    requires |parts| >= 1
    requires forall i :: 0 <= i < |parts| ==> ' ' !in parts[i]
    ensures Split(Join(parts, " "), ' ') == parts
    decreases |parts|
  {
    if |parts| == 1 {
      SplitWord(parts[0], ' ');
    } else {
      SplitJoin(parts[1..]);
      assert " " == [' '];
      SplitFirstWord(parts[0], ' ', Join(parts[1..], " "));
      assert [parts[0]] + parts[1..] == parts;
    }
  }

  /** Joining two non-empty lists is joining each and putting the separator between them. */
  lemma {:induction false} JoinAppend(a: seq<string>, b: seq<string>, sep: string)
    requires a != [] && b != []
    ensures Join(a + b, sep) == Join(a, sep) + sep + Join(b, sep)
    decreases |a|
  {
    if |a| == 1 {
      assert (a + b)[1..] == b;
    } else {
      assert (a + b)[1..] == a[1..] + b;
      JoinAppend(a[1..], b, sep);
    }
  }

  /** Before a list that joins non-empty, a part can be swapped for any other part that joins to the same text. */
  lemma JoinReplaceFront(x1: seq<string>, x2: seq<string>, after: seq<string>, sep: string)
    requires x1 != [] && x2 != [] && Join(x1, sep) == Join(x2, sep)
    ensures Join(x1 + after, sep) == Join(x2 + after, sep)
  {
    if after == [] {
      assert x1 + after == x1 && x2 + after == x2;
    } else {
      JoinAppend(x1, after, sep);
      JoinAppend(x2, after, sep);
    }
  }

  /** After a list, a non-empty part can be swapped for any other part that joins to the same text. */
  lemma JoinReplaceBack(before: seq<string>, x1: seq<string>, x2: seq<string>, sep: string)
    requires x1 != [] && x2 != [] && Join(x1, sep) == Join(x2, sep)
    ensures Join(before + x1, sep) == Join(before + x2, sep)
  {
    if before == [] {
      assert before + x1 == x1 && before + x2 == x2;
    } else {
      JoinAppend(before, x1, sep);
      JoinAppend(before, x2, sep);
    }
  }

  /** Inside a joined list, a non-empty part can be swapped for any other part that joins to the same text. */
  lemma JoinReplace(before: seq<string>, m1: seq<string>, m2: seq<string>, after: seq<string>, sep: string)
    requires m1 != [] && m2 != [] && Join(m1, sep) == Join(m2, sep)
    ensures Join(before + m1 + after, sep) == Join(before + m2 + after, sep)
  {
    JoinReplaceFront(m1, m2, after, sep);
    assert before + m1 + after == before + (m1 + after);
    assert before + m2 + after == before + (m2 + after);
    JoinReplaceBack(before, m1 + after, m2 + after, sep);
  }

  /**
   * An argument that contains a space gives the same forwarded command line
   * as the two arguments on either side of that space.
   */
  lemma ArgumentBoundariesLost(args: seq<string>, i: nat, p: string, q: string)
    requires i < |args| && args[i] == p + " " + q
    ensures CommandLine(args) == CommandLine(args[..i] + [p, q] + args[i + 1..])
  {
    CommandLineIsJoin(args);
    CommandLineIsJoin(args[..i] + [p, q] + args[i + 1..]);
    assert Join([p, q], " ") == Join([args[i]], " ");
    assert args == args[..i] + [args[i]] + args[i + 1..];
    JoinReplace(args[..i], [args[i]], [p, q], args[i + 1..], " ");
  }

  /** The index of the last entry that provides commandName, or None. */
  function LastMatchIndex(entries: seq<CommandEntry>, commandName: string): (r: Option<nat>)
    ensures r.Some? ==> r.value < |entries| && Provides(entries[r.value], commandName)
    ensures r.Some? ==> forall j :: r.value < j < |entries| ==> !Provides(entries[j], commandName)
    ensures r.None? <==> forall j :: 0 <= j < |entries| ==> !Provides(entries[j], commandName)
  {
    if entries == [] then None
    else if Provides(entries[|entries| - 1], commandName) then Some(|entries| - 1)
    else LastMatchIndex(entries[..|entries| - 1], commandName)
  }

  function TargetOf(e: CommandEntry): Target {
    Target(e.image, e.tag, e.directory, e.shell)
  }

  /** The values the matching loop leaves: all four from the last providing entry, or all "". */
  function MatchedTarget(entries: seq<CommandEntry>, commandName: string): Target {
    match LastMatchIndex(entries, commandName)
    case Some(i) => TargetOf(entries[i])
    case None => NO_TARGET
  }

  /** The matching loop of the run action. */
  method MatchCommand(config: LegacyConfig, commandName: string)
    returns (dockerImage: string, dockerImageTag: string, projectDirectory: string, commandShell: string)
    ensures Target(dockerImage, dockerImageTag, projectDirectory, commandShell) == MatchedTarget(config.entries, commandName)
  {
    var entries := config.entries;
    dockerImage, dockerImageTag, projectDirectory, commandShell := "", "", "", "";
    for i := 0 to |entries|
      invariant Target(dockerImage, dockerImageTag, projectDirectory, commandShell) == MatchedTarget(entries[..i], commandName)
    {
      var element := entries[i];
      ghost var before := Target(dockerImage, dockerImageTag, projectDirectory, commandShell);
      for k := 0 to |element.commands|
        invariant Target(dockerImage, dockerImageTag, projectDirectory, commandShell)
                  == if commandName in element.commands[..k] then TargetOf(element) else before
      {
        if element.commands[k] == commandName {
          dockerImage := element.image;
          dockerImageTag := element.tag;
          projectDirectory := element.directory;
          commandShell := element.shell;
        }
        assert element.commands[..k + 1] == element.commands[..k] + [element.commands[k]];
      }
      assert element.commands[..|element.commands|] == element.commands;
      assert entries[..i + 1][..i] == entries[..i];
    }
    assert entries[..|entries|] == entries;
  }

  /** What the action does once a project directory is known and its document loaded. */
  function Dispatch(args: seq<string>, projectDirectory: string, config: LegacyConfig,
                    relativeWorkingDirectory: string, dockerAvailable: bool): RunOutcome
  {
    var commandName := FirstArg(args);
    var t := MatchedTarget(config.entries, commandName);
    if t.image == "" then CommandNotFound(commandName)
    else if !dockerAvailable then NoDockerFound
    else Execute(t.image, t.tag, t.shell, CommandLine(args),
                 projectDirectory, t.directory, t.directory + "/" + relativeWorkingDirectory)
  }

  /**
   * The run action. The configuration loader, the project directory and the
   * relative working directory come from a loader that is not part of this
   * model; whether a Docker installation was detected is a parameter.
   */
  method RunAction(args: seq<string>, projectDirectory: string, loadProjectConfig: string -> LegacyConfig,
                   relativeWorkingDirectory: string, dockerAvailable: bool)
    returns (outcome: RunOutcome)
    ensures projectDirectory == "" ==> outcome == NoProjectFound
    ensures projectDirectory != "" ==>
              outcome == Dispatch(args, projectDirectory, loadProjectConfig(projectDirectory + Paths.MARKER_FILE),
                                  relativeWorkingDirectory, dockerAvailable)
  {
    var commandName := FirstArg(args);
    var commandWithArguments := Join([commandName] + TailArgs(args), " ");
    if projectDirectory == "" {
      return NoProjectFound;
    }
    var config := loadProjectConfig(projectDirectory + Paths.MARKER_FILE);
    var dockerImage, dockerImageTag, imageDirectory, commandShell := MatchCommand(config, commandName);
    if dockerImage == "" {
      return CommandNotFound(commandName);
    }
    if dockerAvailable {
      return Execute(dockerImage, dockerImageTag, commandShell, commandWithArguments,
                     projectDirectory, imageDirectory, imageDirectory + "/" + relativeWorkingDirectory);
    }
    return NoDockerFound;
  }

  /**
   * The run reports the command as not found exactly when no entry provides
   * it or the last one that does has an empty image, even if an earlier
   * provider names an image.
   */
  lemma NotFoundCases(args: seq<string>, projectDirectory: string, config: LegacyConfig,
                      relativeWorkingDirectory: string, dockerAvailable: bool)
    ensures var commandName := FirstArg(args);
            var last := LastMatchIndex(config.entries, commandName);
            Dispatch(args, projectDirectory, config, relativeWorkingDirectory, dockerAvailable).CommandNotFound?
            <==> (last.None? || config.entries[last.value].image == "")
  {
  }

  /**
   * When the command runs, image, tag, directory and shell all come from the
   * one last providing entry, and the command line is the joined arguments.
   */
  lemma ExecutesLastProvider(args: seq<string>, projectDirectory: string, config: LegacyConfig,
                             relativeWorkingDirectory: string, dockerAvailable: bool)
    requires Dispatch(args, projectDirectory, config, relativeWorkingDirectory, dockerAvailable).Execute?
    ensures var o := Dispatch(args, projectDirectory, config, relativeWorkingDirectory, dockerAvailable);
            var last := LastMatchIndex(config.entries, FirstArg(args));
            && last.Some?
            && var e := config.entries[last.value];
            && Provides(e, FirstArg(args))
            && (forall j :: last.value < j < |config.entries| ==> !Provides(config.entries[j], FirstArg(args)))
            && o.image == e.image && o.tag == e.tag && o.shell == e.shell && o.containerDirectory == e.directory
            && o.commandLine == Join(args, " ")
            && o.hostProjectDirectory == projectDirectory
  {
    CommandLineIsJoin(args);
  }
}
