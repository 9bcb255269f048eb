/** What the tool does to the outside world, recorded instead of performed:
    the rsync commands it issues, the lines it prints, the `ssh ... du`
    invocation of the sizes report and the exit status. */
module Effects {
  import opened Systems
  import opened Wrappers
  import Strings

  /** One rsync invocation: `rsync -avP source destination`, with
      `--size-only` before the paths when `sizeOnly` is set. */
  datatype Command = Command(sizeOnly: bool, source: string, destination: string)

  /** A line printed to standard output. */
  datatype Line =
    | RsyncLine(cmd: Command)
    | NoSourceRoms(system: System)
    | NoDestination(system: System, frontendName: string)
    | UnsupportedLevel(level: string)
    | DestinationDirRequired
    | Usage
    | UnsupportedDestination(destination: string)
    | Available(names: seq<string>)

  /** `ssh host command`, as the sizes report issues it. */
  datatype SshCommand = SshCommand(host: string, command: string)

  /** The observable outcome of one run of the tool. */
  datatype Exit = Exit(code: int, output: seq<Line>, executed: seq<Command>, ssh: Option<SshCommand>)

  /** The commands among the printed lines, in order: what a run that is
      not a dry run executes. */
  function Commands(lines: seq<Line>): (r: seq<Command>)
    ensures |r| <= |lines|
    ensures forall c :: c in r <==> RsyncLine(c) in lines
  {
    if lines == [] then []
    else
      assert lines == [lines[0]] + lines[1..];
      (if lines[0].RsyncLine? then [lines[0].cmd] else []) + Commands(lines[1..])
  }

  lemma {:induction false} CommandsAppend(a: seq<Line>, b: seq<Line>)
    ensures Commands(a + b) == Commands(a) + Commands(b)
  {
    if a == [] {
      assert a + b == b;
    } else {
      assert (a + b)[0] == a[0];
      assert (a + b)[1..] == a[1..] + b;
      CommandsAppend(a[1..], b);
    }
  }

  /** The commands a run executes: none in a dry run, otherwise every one it
      prints. */
  function Executed(dryRun: bool, lines: seq<Line>): seq<Command> {
    if dryRun then [] else Commands(lines)
  }

  lemma ExecutedAppend(dryRun: bool, a: seq<Line>, b: seq<Line>)
    ensures Executed(dryRun, a + b) == Executed(dryRun, a) + Executed(dryRun, b)
  {
    CommandsAppend(a, b);
  }

  /** The destination names the sizes report accepts instead of a frontend. */
  const SizesAliases: set<string> := {"sizes", "rom-sizes", "rom_sizes"}

  /** The `du` command line the sizes report runs on the source host. */
  function DuCommand(directories: seq<string>): string {
    "du --total --summarize --human-readable " + Strings.JoinWith(directories, " ")
  }
}
