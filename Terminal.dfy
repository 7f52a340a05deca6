/**
 * The terminal view: the title, the choice of the scripted log, the
 * line-by-line replay of that log, and the small command interpreter the
 * user reaches once the run is complete.
 */
module Terminal {
  import opened Text
  import opened Types
  import opened TerminalLogs

  // ---------------------------------------------------------------------
  // Title and log selection
  // ---------------------------------------------------------------------

  /** `getTitle`. The file name of an install is printed as JavaScript
      prints it, so a missing one reads `null`. */
  function Title(actionType: Option<ActionType>, fileName: Option<string>): (t: string)
    ensures actionType == None <==> t == "Terminal"
    ensures actionType == Some(Install) ==>
      t == "Installing: " + (if fileName.Some? then fileName.value else "null")
    ensures actionType == Some(Wipe) ==> t == "Wiping Data"
    ensures actionType == Some(AdvancedWipe) ==> t == "Advanced Wipe"
    ensures actionType == Some(Mount) ==> t == "Mounting Partitions"
  {
    match actionType
    case None => "Terminal"
    case Some(Install) => "Installing: " + (if fileName.Some? then fileName.value else "null")
    case Some(Wipe) => "Wiping Data"
    case Some(AdvancedWipe) => "Advanced Wipe"
    case Some(Mount) => "Mounting Partitions"
  }

  /** The title tells the runs apart: two different actions never show the
      same title, whatever file is being installed. */
  lemma TitlesDistinct(a1: Option<ActionType>, f1: Option<string>, a2: Option<ActionType>, f2: Option<string>)
    requires a1 != a2
    ensures Title(a1, f1) != Title(a2, f2)
  {
    var t1, t2 := Title(a1, f1), Title(a2, f2);
    assert t1[0] != t2[0];
  }

  /** The inputs the advanced-wipe and mount generators need draws for are
      covered by the draws supplied. */
  predicate DrawsFit(partitions: Option<seq<string>>, mountOps: Option<seq<MountOp>>,
                     wipeDraws: WipeDraws, mountDraws: seq<Draw>)
  {
    && (partitions.Some? ==> WipeDrawsFit(partitions.value, wipeDraws))
    && (mountOps.Some? ==> MountDrawsFit(mountOps.value, mountDraws))
  }

  /** The script the run replays: an install needs a non-empty file name, an
      advanced wipe its option list and a mount run its operations (an empty
      list still counts as given); anything else falls back to the factory
      wipe. */
  function LogLines(actionType: ActionType, fileName: Option<string>,
                    partitions: Option<seq<string>>, mountOps: Option<seq<MountOp>>,
                    wipeDraws: WipeDraws, mountDraws: seq<Draw>): (lines: seq<string>)
    requires DrawsFit(partitions, mountOps, wipeDraws, mountDraws)
  {
    if actionType == Install && fileName.Some? && fileName.value != "" then InstallLogs(fileName.value)
    else if actionType == AdvancedWipe && partitions.Some? then AdvancedWipeLogs(partitions.value, wipeDraws)
    else if actionType == Mount && mountOps.Some? then MountLogs(mountOps.value, mountDraws)
    else WipeLogs()
  }

  /** An install replays the install script for its file, and falls back to
      the factory wipe without a file name. */
  lemma LogLinesInstall(fileName: Option<string>,
                        partitions: Option<seq<string>>, mountOps: Option<seq<MountOp>>,
                        wipeDraws: WipeDraws, mountDraws: seq<Draw>)
    requires DrawsFit(partitions, mountOps, wipeDraws, mountDraws)
    ensures var lines := LogLines(Install, fileName, partitions, mountOps, wipeDraws, mountDraws);
      && (fileName.Some? && fileName.value != "" ==> lines == InstallLogs(fileName.value))
      && (fileName == None || fileName == Some("") ==> lines == WipeLogs())
  {
  }

  /** The other actions replay their own scripts when their input is
      there. */
  lemma LogLinesDispatch(actionType: ActionType, fileName: Option<string>,
                         partitions: Option<seq<string>>, mountOps: Option<seq<MountOp>>,
                         wipeDraws: WipeDraws, mountDraws: seq<Draw>)
    requires DrawsFit(partitions, mountOps, wipeDraws, mountDraws)
    ensures var lines := LogLines(actionType, fileName, partitions, mountOps, wipeDraws, mountDraws);
      && (actionType == Wipe ==> lines == WipeLogs())
      && (actionType == AdvancedWipe && partitions.Some? ==> lines == AdvancedWipeLogs(partitions.value, wipeDraws))
      && (actionType == Mount && mountOps.Some? ==> lines == MountLogs(mountOps.value, mountDraws))
  {
  }

  /** The effect's choice of generator, running the imperative ones. */
  method GenerateLogLines(actionType: ActionType, fileName: Option<string>,
                          partitions: Option<seq<string>>, mountOps: Option<seq<MountOp>>,
                          wipeDraws: WipeDraws, mountDraws: seq<Draw>) returns (lines: seq<string>)
    requires DrawsFit(partitions, mountOps, wipeDraws, mountDraws)
    ensures lines == LogLines(actionType, fileName, partitions, mountOps, wipeDraws, mountDraws)
  {
    if actionType == Install && fileName.Some? && fileName.value != "" {
      lines := InstallLogs(fileName.value);
      LogLinesInstall(fileName, partitions, mountOps, wipeDraws, mountDraws);
    } else if actionType == AdvancedWipe && partitions.Some? {
      lines := GenerateAdvancedWipeLogs(partitions.value, wipeDraws);
      LogLinesDispatch(actionType, fileName, partitions, mountOps, wipeDraws, mountDraws);
    } else if actionType == Mount && mountOps.Some? {
      lines := GenerateMountLogs(mountOps.value, mountDraws);
      LogLinesDispatch(actionType, fileName, partitions, mountOps, wipeDraws, mountDraws);
    } else {
      lines := WipeLogs();
    }
  }

  // ---------------------------------------------------------------------
  // Command interpreter
  // ---------------------------------------------------------------------

  /** What a command asks of the surrounding view besides printing: nothing,
      `onReboot`, `onComplete`, or emptying the command history. */
  datatype Effect = NoEffect | Reboot | Exit | Clear

  datatype Reply = Reply(lines: seq<string>, effect: Effect)

  const HelpLines: seq<string> := [
    "Available commands:",
    "  help          - Show this help message",
    "  ls /sdcard    - List contents of internal storage",
    "  date          - Display the current date and time",
    "  echo [text]   - Print text to the terminal",
    "  clear         - Clear the command output",
    "  reboot        - Reboot the system",
    "  exit          - Go back to the main menu"]

  const SdcardListing: seq<string> := [
    "drwx------   - root     root             2024-05-21 10:30 DCIM",
    "drwx------   - root     root             2024-05-20 15:01 Download",
    "-rw-------   - root     root     1.2G    2024-05-18 09:00 RiverOS_Performance_Mod_v2.1.zip",
    "-rw-------   - root     root     850M    2024-05-17 11:45 Universal_GApps_Suite_lite.zip"]

  const KnownCommands: set<string> := {"help", "ls", "date", "echo", "reboot", "exit", "clear", ""}

  /** The trimmed command line cut at every single space. */
  function Words(command: string): (w: seq<string>)
    ensures |w| >= 1
  {
    Split(Trim(command), ' ')
  }

  /** The commands the interpreter knows; anything else is `Unknown`. */
  datatype Command = Help | Ls | Date | Echo | RebootCommand | ExitCommand | ClearCommand | Empty | Unknown

  /** The `switch (cmd)` of `executeCommand`. */
  function CommandOf(word: string): (c: Command)
    ensures c == Unknown <==> word !in KnownCommands
  {
    if word == "help" then Help
    else if word == "ls" then Ls
    else if word == "date" then Date
    else if word == "echo" then Echo
    else if word == "reboot" then RebootCommand
    else if word == "exit" then ExitCommand
    else if word == "clear" then ClearCommand
    else if word == "" then Empty
    else Unknown
  }

  /** `ls`: the fixed listing for `/sdcard`, an error naming the argument
      otherwise, `.` standing for a missing or empty argument. */
  function ListDirectory(args: seq<string>): seq<string>
  {
    if |args| > 0 && args[0] == "/sdcard" then SdcardListing
    else ["ls: " + (if |args| > 0 && args[0] != "" then args[0] else ".") + ": No such file or directory"]
  }

  /** The `switch` of `executeCommand` on the words of a command line: the
      first word picks the command, the others are its arguments. `now`
      stands for `new Date().toString()`. */
  function Execute(words: seq<string>, now: string): Reply
    requires |words| >= 1
  {
    var cmd := words[0];
    var args := words[1..];
    match CommandOf(cmd)
    case Help => Reply(HelpLines, NoEffect)
    case Ls => Reply(ListDirectory(args), NoEffect)
    case Date => Reply([now], NoEffect)
    case Echo => Reply([Join(args, " ")], NoEffect)
    case RebootCommand => Reply(["Rebooting system..."], Reboot)
    case ExitCommand => Reply(["Exiting terminal..."], Exit)
    case ClearCommand => Reply([], Clear)
    case Empty => Reply([], NoEffect)
    case Unknown => Reply(["sh: " + cmd + ": command not found"], NoEffect)
  }

  /** `executeCommand`: trims the line, cuts it at single spaces and runs
      the command the first word names. */
  function ExecuteCommand(command: string, now: string): Reply
  {
    Execute(Words(command), now)
  }

  /** `help` prints the command list, `date` the current time, and a blank
      line nothing at all. */
  lemma FixedReplies(command: string, now: string)
    ensures Words(command)[0] == "help" ==> ExecuteCommand(command, now) == Reply(HelpLines, NoEffect)
    ensures Words(command)[0] == "date" ==> ExecuteCommand(command, now) == Reply([now], NoEffect)
    ensures IsBlank(command) ==> ExecuteCommand(command, now) == Reply([], NoEffect)
  {
    if IsBlank(command) {
      assert Trim(command) == [];
      assert Words(command) == [""];
    }
  }

  /** A command calls `onReboot`, calls `onComplete` or empties the history
      exactly when its first word is `reboot`, `exit` or `clear`. */
  lemma CommandEffects(words: seq<string>, now: string)
    requires |words| >= 1
    ensures var e := Execute(words, now).effect;
      && (e == Reboot <==> words[0] == "reboot")
      && (e == Exit <==> words[0] == "exit")
      && (e == Clear <==> words[0] == "clear")
      && (e == Clear ==> Execute(words, now).lines == [])
  {
  }

  /** Any word outside the command set is reported as not found, and
      nothing else happens. */
  lemma UnknownCommand(words: seq<string>, now: string)
    requires |words| >= 1 && words[0] !in KnownCommands
    ensures Execute(words, now) == Reply(["sh: " + words[0] + ": command not found"], NoEffect)
  {
  }

  /** The command word is the trimmed input up to its first space, and the
      arguments, joined again, are everything after that space. */
  lemma CommandWords(command: string)
    ensures var t := Trim(command); var w := Words(command);
      && ' ' !in w[0]
      && (' ' !in t ==> w == [t])
      && (' ' in t ==> t == w[0] + " " + Join(w[1..], " "))
  {
    var t := Trim(command);
    SplitHead(t, ' ');
    JoinTail(t, ' ');
  }

  /** `echo` prints the text after the first space of the trimmed input, or
      an empty line when there is none. */
  lemma EchoPrintsRest(command: string, now: string)
    requires Words(command)[0] == "echo"
    ensures ExecuteCommand(command, now) == Reply([AfterFirst(Trim(command), ' ')], NoEffect)
  {
    var w := Words(command);
    JoinTail(Trim(command), ' ');
    EchoJoins(w, now);
  }

  /** `echo` prints its arguments joined by single spaces. */
  lemma EchoJoins(words: seq<string>, now: string)
    requires |words| >= 1 && words[0] == "echo"
    ensures Execute(words, now) == Reply([Join(words[1..], " ")], NoEffect)
  {
  }

  /** A command word followed by a space and a text that does not end in
      whitespace splits into the word and the pieces of the text. */
  lemma {:induction false} WordsOfLine(cmd: string, rest: string)
    requires cmd != [] && ' ' !in cmd && !IsJsWhitespace(cmd[0])
    requires rest != [] && !IsJsWhitespace(rest[|rest| - 1])
    ensures Words(cmd + " " + rest) == [cmd] + Split(rest, ' ')
  {
    var c := cmd + " " + rest;
    assert c[0] == cmd[0] && c[|c| - 1] == rest[|rest| - 1];
    TrimUnchanged(c);
    assert c == cmd + (" " + rest);
    SplitPrefix(cmd, " " + rest, ' ');
    assert (" " + rest)[1..] == rest;
    assert Split(" " + rest, ' ') == [""] + Split(rest, ' ');
    assert cmd + "" == cmd;
  }

  /** A text that does not end in whitespace comes back unchanged from
      `echo`; `echo` alone prints an empty line. */
  lemma EchoRoundTrip(text: string, now: string)
    requires text == [] || !IsJsWhitespace(text[|text| - 1])
    ensures ExecuteCommand("echo " + text, now) == Reply([text], NoEffect)
  {
    if text == [] {
      assert "echo " + text == "echo ";
      EchoAlone(now);
    } else {
      EchoText(text, now);
    }
  }

  /** `echo ` with nothing after it prints an empty line. */
  lemma EchoAlone(now: string)
    ensures ExecuteCommand("echo ", now) == Reply([""], NoEffect)
  {
    var c := "echo ";
    assert TrimStart(c) == c;
    assert c[..|c| - 1] == "echo";
    assert TrimEnd(c) == TrimEnd("echo") == "echo";
    SplitHead("echo", ' ');
    assert Words(c) == ["echo"];
    EchoJoins(["echo"], now);
  }

  /** `echo`, a space and a non-empty text print the text. */
  lemma EchoText(text: string, now: string)
    requires text != [] && !IsJsWhitespace(text[|text| - 1])
    ensures ExecuteCommand("echo " + text, now) == Reply([text], NoEffect)
  {
    var c := "echo " + text;
    assert c == "echo" + " " + text;
    WordsOfLine("echo", text);
    var w := Words(c);
    assert w[1..] == Split(text, ' ');
    JoinSplit(text, ' ');
    EchoJoins(w, now);
  }

  /** `ls` with one argument: `/sdcard` lists the four fixed entries, any
      other path is reported missing by name. */
  lemma LsArgument(arg: string, now: string)
    requires arg != [] && ' ' !in arg && !IsJsWhitespace(arg[|arg| - 1])
    ensures ExecuteCommand("ls " + arg, now) ==
      if arg == "/sdcard" then Reply(SdcardListing, NoEffect)
      else Reply(["ls: " + arg + ": No such file or directory"], NoEffect)
  {
    assert "ls " + arg == "ls" + " " + arg;
    WordsOfLine("ls", arg);
    SplitHead(arg, ' ');
    assert Words("ls " + arg) == ["ls", arg];
  }

  /** `ls` with any other first argument reports it missing; with no
      argument (or an empty one, from a double space) it reports `.`. */
  lemma LsMissing(words: seq<string>, now: string)
    requires |words| >= 1 && words[0] == "ls"
    requires |words| == 1 || words[1] != "/sdcard"
    ensures var arg := if |words| > 1 && words[1] != "" then words[1] else ".";
      Execute(words, now) == Reply(["ls: " + arg + ": No such file or directory"], NoEffect)
  {
  }

  /** `reboot` and `exit` only signal their callback and print one line. */
  lemma RebootAndExit(words: seq<string>, now: string)
    requires |words| >= 1
    ensures words[0] == "reboot" ==> Execute(words, now) == Reply(["Rebooting system..."], Reboot)
    ensures words[0] == "exit" ==> Execute(words, now) == Reply(["Exiting terminal..."], Exit)
  {
  }

  // ---------------------------------------------------------------------
  // Command history
  // ---------------------------------------------------------------------

  predicate IsBlank(s: string)
  {
    forall i :: 0 <= i < |s| ==> IsJsWhitespace(s[i])
  }

  /** The prompt line echoed for an input, as typed. */
  function Prompt(input: string): string
  {
    "~ # " + input
  }

  /** `handleCommand` on the history: a blank input is ignored; otherwise
      the prompt line and the output are appended, except that `clear`
      empties the history first, so only its prompt line remains. */
  function Submit(history: seq<string>, input: string, now: string): (h: seq<string>)
    ensures IsBlank(input) ==> h == history
    ensures !IsBlank(input) && Words(input)[0] != "clear" ==>
      h == history + [Prompt(input)] + ExecuteCommand(input, now).lines
    ensures !IsBlank(input) && Words(input)[0] == "clear" ==> h == [Prompt(input)]
  {
    if IsBlank(input) then history
    else
      var words := Words(input);
      var reply := Execute(words, now);
      CommandEffects(words, now);
      var before := if reply.effect == Clear then [] else history;
      before + [Prompt(input)] + reply.lines
  }

  /** A non-blank input always leaves its prompt line in the history,
      directly before its output. */
  lemma SubmitEchoesPrompt(history: seq<string>, input: string, now: string)
    requires !IsBlank(input)
    ensures var h := Submit(history, input, now);
      var out := ExecuteCommand(input, now).lines;
      && |h| >= |out| + 1
      && h[|h| - |out| - 1] == Prompt(input)
      && h[|h| - |out|..] == out
  {
  }

  /** The line a run's log starts with. */
  const StartLine: string := "Initiating process..."

  /** `handleCommand`: a blank input changes nothing; otherwise the command
      runs, `clear` empties the history first, the prompt line and the
      output are appended, and the field is cleared. The effect returned is
      the callback the command invokes. */
  method RunCommand(history: seq<string>, input: string, now: string)
    returns (history': seq<string>, input': string, effect: Effect)
    ensures history' == Submit(history, input, now)
    ensures input' == if IsBlank(input) then input else ""
    ensures effect == if IsBlank(input) then NoEffect else ExecuteCommand(input, now).effect
  {
    if Trim(input) == "" {
      assert IsBlank(input);
      return history, input, NoEffect;
    }
    var output := ExecuteCommand(input, now);
    CommandEffects(Words(input), now);
    history' := history;
    if output.effect == Clear {
      history' := [];
    }
    history' := history' + [Prompt(input)] + output.lines;
    input' := "";
    effect := output.effect;
  }

  /** The terminal component. `logs` is what has been replayed so far of
      `logLines`; `next` is the interval's counter. */
  class TerminalView {
    const actionType: Option<ActionType>
    const fileName: Option<string>
    const logLines: seq<string>
    var logs: seq<string>
    var next: nat
    var isComplete: bool
    var cliOutput: seq<string>
    var inputValue: string

    /** The replayed lines are a prefix of the script after the initial
        line, and the run is complete once the whole script is shown. */
    predicate Valid()
      reads this`logs, this`next, this`isComplete
    {
      && next <= |logLines|
      && (actionType.Some? ==> logs == [StartLine] + logLines[..next])
      && (actionType.None? ==> logs == [] && logLines == [] && isComplete)
      && (isComplete ==> next == |logLines|)
    }

    /** Mounting the view and running its first effect: without an action
        the view is complete at once and empty; otherwise the script is
        generated from the draws and replay starts. */
    constructor(actionType: Option<ActionType>, fileName: Option<string>,
                partitions: Option<seq<string>>, mountOps: Option<seq<MountOp>>,
                wipeDraws: WipeDraws, mountDraws: seq<Draw>)
      requires DrawsFit(partitions, mountOps, wipeDraws, mountDraws)
      ensures Valid()
      ensures this.actionType == actionType && this.fileName == fileName
      ensures actionType.Some? ==>
        && logLines == LogLines(actionType.value, fileName, partitions, mountOps, wipeDraws, mountDraws)
        && logs == [StartLine] && !isComplete
      ensures actionType.None? ==> logs == [] && isComplete
      ensures cliOutput == [] && inputValue == ""
    {
      this.actionType := actionType;
      this.fileName := fileName;
      var lines: seq<string> := [];
      if actionType.Some? {
        lines := GenerateLogLines(actionType.value, fileName, partitions, mountOps, wipeDraws, mountDraws);
      }
      logLines := lines;
      next := 0;
      cliOutput := [];
      inputValue := "";
      if actionType.None? {
        logs := [];
        isComplete := true;
      } else {
        logs := [StartLine];
        isComplete := false;
      }
    }

    /** One firing of the replay interval: show the next script line, or
        mark the run complete once every line is shown. */
    method Tick()
      requires Valid()
      modifies this
      ensures Valid()
      ensures old(next) < |logLines| ==>
        logs == old(logs) + [logLines[old(next)]] && next == old(next) + 1 && isComplete == old(isComplete)
      ensures old(next) == |logLines| ==> logs == old(logs) && next == old(next) && isComplete
      ensures cliOutput == old(cliOutput) && inputValue == old(inputValue)
    {
      if next < |logLines| {
        assert logLines[..next + 1] == logLines[..next] + [logLines[next]];
        logs := logs + [logLines[next]];
        next := next + 1;
      } else {
        isComplete := true;
      }
    }

    /** Typing into the command field, which is shown once the run is
        complete. */
    method SetInput(value: string)
      requires Valid() && isComplete
      modifies this
      ensures Valid()
      ensures inputValue == value
      ensures logs == old(logs) && next == old(next) && isComplete == old(isComplete)
      ensures cliOutput == old(cliOutput)
    {
      inputValue := value;
    }

    /** `handleCommand` on the view: the history and the field take what
        `RunCommand` computes from them, and the replayed log is left as it
        is. */
    method HandleCommand(now: string) returns (effect: Effect)
      requires Valid() && isComplete
      modifies this`cliOutput, this`inputValue
      ensures Valid()
      ensures cliOutput == Submit(old(cliOutput), old(inputValue), now)
      ensures inputValue == if IsBlank(old(inputValue)) then old(inputValue) else ""
      ensures effect == if IsBlank(old(inputValue)) then NoEffect else ExecuteCommand(old(inputValue), now).effect
      ensures logs == old(logs) && next == old(next) && isComplete == old(isComplete)
    {
      cliOutput, inputValue, effect := RunCommand(cliOutput, inputValue, now);
    }
  }
}
