/**
 * The T-key terminal: the command line, its history and completion, and the two commands
 * that reach the game, `play` (start a level) and `pass` (unlock levels). The other
 * commands only print, and are modelled by the reply they stand for.
 */
module Terminal {
  import opened Wrappers
  import opened Strings
  import opened Reaction
  import opened Levels
  import SM = StorageManager
  import G = Game

  /** The command table's keys, in their declaration order. */
  const CommandNames: seq<string> := ["help", "clear", "play", "pass", "validate", "fetch", "ls", "status",
                                      "unlock-all-skin", "version", "exit"]

  /** The suggestion list shows at most this many commands. */
  const SuggestionLimit: nat := 5

  // ------------------------------------------------------------------ completion

  /** The names that start with the prefix, in table order. */
  function Filter(names: seq<string>, prefix: string): (r: seq<string>)
    ensures forall c :: c in r <==> c in names && StartsWith(c, prefix)
    ensures |r| <= |names|
  {
    if names == [] then []
    else (if StartsWith(names[0], prefix) then [names[0]] else []) + Filter(names[1..], prefix)
  }

  /** `Object.keys(commands).filter(cmd => cmd.startsWith(input))`. */
  function Matches(prefix: string): (r: seq<string>)
    ensures forall c :: c in r <==> c in CommandNames && StartsWith(c, prefix)
  {
    Filter(CommandNames, prefix)
  }

  /** A single match is a command name extending what was typed, so Tab completes to a command. */
  lemma CompletionIsCommand(line: string)
    requires |Matches(line)| == 1
    ensures Matches(line)[0] in CommandNames && StartsWith(Matches(line)[0], line)
  {
    assert Matches(line)[0] in Matches(line);
  }

  function Take<T>(s: seq<T>, n: nat): (r: seq<T>)
    ensures |r| <= n && |r| <= |s| && r == s[..|r|]
    ensures |r| == if |s| < n then |s| else n
  {
    if |s| <= n then s else s[..n]
  }

  /** `updateSuggestions`: nothing for blank input, else the first five matches of the trimmed input. */
  function Suggestions(input: string): (r: seq<string>)
    ensures Trim(input) == "" ==> r == []
    ensures |r| <= SuggestionLimit
    ensures forall c :: c in r ==> c in CommandNames && StartsWith(c, Trim(input))
    ensures Trim(input) != "" && |Matches(Trim(input))| <= SuggestionLimit ==> r == Matches(Trim(input))
  {
    var line := Trim(input);
    if line == "" then [] else Take(Matches(line), SuggestionLimit)
  }

  // ------------------------------------------------------------------ replies

  /** What a command prints, as the message it stands for. */
  datatype Reply =
    | HelpAll
    | HelpFor(command: string)
    | HelpUnknown(command: string)
    | MissingArgument(command: string)
    | InvalidId(arg: string)
    | NoSuchLevel(id: int)
    | Locked(id: int)
    | Starting(id: int, start: G.LevelArg)
    | UnlockedLevel(id: int)
    | UnlockedAll(count: int)
    | Unmodelled(command: string)
    | Silent
    | UnknownCommand(name: string)

  /** `help [command]`. */
  function HelpReply(args: seq<string>): (r: Reply)
    ensures args == [] <==> r == HelpAll
    ensures args != [] && args[0] in CommandNames ==> r == HelpFor(args[0])
    ensures args != [] && args[0] !in CommandNames ==> r == HelpUnknown(args[0])
  {
    if args == [] then HelpAll
    else if args[0] in CommandNames then HelpFor(args[0])
    else HelpUnknown(args[0])
  }

  /** What `play` hands to the game after the checks, as the source writes it: the level object. */
  function PlayArgumentAsWritten(level: Level): G.LevelArg
  {
    G.ByObject(level)
  }

  /** Handed the level object, the game's lookup by id finds nothing, so `play` never starts a level. */
  lemma PlayAsWrittenNeverStarts(levels: seq<Level>, level: Level)
    ensures G.LevelLookup(levels, PlayArgumentAsWritten(level)).None?
  {
  }

  /** What `play` evidently means to hand over: the id it has just validated. */
  function PlayArgument(level: Level): (arg: G.LevelArg)
    ensures arg == G.ById(level.id)
  {
    G.ById(level.id)
  }

  /**
   * `play <id>`: the checks run in order (missing argument, not a number, no such level,
   * still locked) and only a level that passes all four is started.
   */
  function Play(args: seq<string>, levels: seq<Level>, unlocked: seq<int>): (r: Reply)
    ensures args == [] ==> r == MissingArgument("play")
    ensures args != [] && ParseInt(args[0]).None? ==> r == InvalidId(args[0])
    ensures args != [] && ParseInt(args[0]).Some? ==> var id := ParseInt(args[0]).value;
      && (GetLevel(levels, id).None? ==> r == NoSuchLevel(id))
      && (GetLevel(levels, id).Some? && id !in unlocked ==> r == Locked(id))
      && (GetLevel(levels, id).Some? && id in unlocked ==> r == Starting(id, PlayArgument(GetLevel(levels, id).value)))
  {
    if args == [] then MissingArgument("play")
    else match ParseInt(args[0])
      case None => InvalidId(args[0])
      case Some(id) =>
        match GetLevel(levels, id)
        case None => NoSuchLevel(id)
        case Some(level) => if id !in unlocked then Locked(id) else Starting(id, PlayArgument(level))
  }

  /** A level `play` starts is found by the game, is the catalogue's level of that id, and is unlocked. */
  lemma PlayStartsTheLevel(args: seq<string>, levels: seq<Level>, unlocked: seq<int>)
    requires Play(args, levels, unlocked).Starting?
    ensures var r := Play(args, levels, unlocked);
      && r.id in unlocked
      && G.LevelLookup(levels, r.start) == GetLevel(levels, r.id)
      && G.LevelLookup(levels, r.start).Some?
  {
  }

  /** What `pass all` unlocks as written: the ids 1 to the catalogue's length. */
  function PassAllIdsAsWritten(levels: seq<Level>): (ids: seq<int>)
    ensures |ids| == |levels| && forall i :: 0 <= i < |ids| ==> ids[i] == i + 1
  {
    seq(|levels|, i => i + 1)
  }

  /** On the shipped catalogue (ids up to 90), `pass all` as written leaves level 90 locked. */
  lemma PassAllAsWrittenMissesLevels(levels: seq<Level>)
    requires |levels| == |CatalogIds| && forall i :: 0 <= i < |levels| ==> levels[i].id == CatalogIds[i]
    ensures levels[35].id == 90 && 90 !in PassAllIdsAsWritten(levels)
  {
    CatalogShape();
  }

  /** What `pass all` evidently means: the id of every level. */
  function PassAllIds(levels: seq<Level>): (ids: seq<int>)
    ensures |ids| == |levels|
    ensures forall i :: 0 <= i < |levels| ==> ids[i] == levels[i].id
  {
    seq(|levels|, i requires 0 <= i < |levels| => levels[i].id)
  }

  /** `pass all`, so read, unlocks every level of the catalogue. */
  lemma PassAllUnlocksEveryLevel(levels: seq<Level>, list: seq<int>, level: Level)
    requires level in levels
    ensures level.id in UnlockedAfter(list, PassAllIds(levels))
  {
    var i :| 0 <= i < |levels| && levels[i] == level;
    assert PassAllIds(levels)[i] == level.id;
  }

  /**
   * `pass <id|all>`: the reply and the ids to unlock. A number N unlocks N + 1 (not N), as
   * the source does; `all` unlocks every level of the catalogue.
   */
  function Pass(args: seq<string>, levels: seq<Level>): (plan: (Reply, seq<int>))
    ensures args == [] ==> plan == (MissingArgument("pass"), [])
    ensures args != [] && args[0] == "all" ==> plan == (UnlockedAll(|levels|), PassAllIds(levels))
    ensures args != [] && args[0] != "all" && ParseInt(args[0]).None? ==> plan == (InvalidId(args[0]), [])
    ensures args != [] && args[0] != "all" && ParseInt(args[0]).Some? ==>
      plan == (UnlockedLevel(ParseInt(args[0]).value + 1), [ParseInt(args[0]).value + 1])
  {
    if args == [] then (MissingArgument("pass"), [])
    else if args[0] == "all" then (UnlockedAll(|levels|), PassAllIds(levels))
    else match ParseInt(args[0])
      case None => (InvalidId(args[0]), [])
      case Some(n) => (UnlockedLevel(n + 1), [n + 1])
  }

  /** The unlock list after unlocking each id in turn. */
  function UnlockedAfter(list: seq<int>, ids: seq<int>): (r: seq<int>)
    ensures forall x :: x in r <==> x in list || x in ids
    decreases |ids|
  {
    if ids == [] then list else UnlockedAfter(SM.WithUnlocked(list, ids[0]), ids[1..])
  }

  /** The reply of every command but `clear` and `exit`, which act on the terminal and print nothing. */
  function Respond(name: string, args: seq<string>, levels: seq<Level>, unlocked: seq<int>): (r: Reply)
    ensures name !in CommandNames ==> r == UnknownCommand(name)
  {
    if name == "help" then HelpReply(args)
    else if name == "play" then Play(args, levels, unlocked)
    else if name == "pass" then Pass(args, levels).0
    else if name == "clear" || name == "exit" then Silent
    else if name in CommandNames then Unmodelled(name)
    else UnknownCommand(name)
  }

  /** A line of terminal output. */
  datatype Line = Echo(command: string) | Printed(reply: Reply) | Candidates(names: seq<string>)

  /** The lines one command leaves after its echo: nothing for a silent command, else its reply. */
  function ReplyLines(reply: Reply): seq<Line>
  {
    if reply == Silent then [] else [Printed(reply)]
  }

  class Terminal {
    const levels: seq<Level>
    const storage: SM.StorageManager
    var history: seq<string>
    var historyIndex: int
    var input: string
    var output: seq<Line>
    var visible: bool

    /** History holds non-blank lines and the index stays within -1 and the history's length. */
    predicate Valid()
      reads this
    {
      && -1 <= historyIndex <= |history|
      && forall i :: 0 <= i < |history| ==> history[i] != ""
    }

    constructor(catalogue: seq<Level>, store: SM.StorageManager)
      ensures levels == catalogue && storage == store
      ensures history == [] && historyIndex == -1 && input == "" && output == [] && !visible
      ensures Valid()
    {
      levels, storage := catalogue, store;
      history, historyIndex, input, output, visible := [], -1, "", [], false;
    }

    /** Unlock each id in turn through the store. */
    method UnlockEach(ids: seq<int>)
      modifies storage
      ensures storage.GetProgress() == old(storage.GetProgress()).(unlockedLevels := UnlockedAfter(old(storage.GetProgress()).unlockedLevels, ids))
      ensures storage.storedSettings == old(storage.storedSettings) && storage.storedCollection == old(storage.storedCollection)
    {
      var i := 0;
      while i < |ids|
        invariant 0 <= i <= |ids|
        invariant UnlockedAfter(storage.GetProgress().unlockedLevels, ids[i..]) == UnlockedAfter(old(storage.GetProgress()).unlockedLevels, ids)
        invariant storage.GetProgress() == old(storage.GetProgress()).(unlockedLevels := storage.GetProgress().unlockedLevels)
        invariant storage.storedSettings == old(storage.storedSettings) && storage.storedCollection == old(storage.storedCollection)
      {
        assert ids[i..][1..] == ids[i + 1..];
        storage.UnlockLevel(ids[i]);
        i := i + 1;
      }
    }

    /** `show`: the terminal becomes visible; nothing else of it changes. */
    method Show()
      modifies this
      ensures visible
      ensures history == old(history) && historyIndex == old(historyIndex) && input == old(input) && output == old(output)
    {
      visible := true;
    }

    /** `hide`: the terminal is hidden and its input cleared; history and output stay. */
    method Hide()
      modifies this
      ensures !visible && input == ""
      ensures history == old(history) && historyIndex == old(historyIndex) && output == old(output)
    {
      visible := false;
      input := "";
    }

    /**
     * Run a known command: `clear` empties the output, `exit` and a `play` that starts a
     * level hide the terminal, `pass` unlocks.
     */
    method Run(name: string, args: seq<string>)
      requires name in CommandNames
      modifies this, storage
      ensures name == "clear" ==> output == []
      ensures name != "clear" ==> output == old(output) + ReplyLines(Respond(name, args, levels, old(storage.GetProgress()).unlockedLevels))
      ensures var hides := name == "exit" || (name == "play" && Respond(name, args, levels, old(storage.GetProgress()).unlockedLevels).Starting?);
        visible == (old(visible) && !hides) && input == (if hides then "" else old(input))
      ensures name == "pass" ==>
        storage.GetProgress() == old(storage.GetProgress()).(unlockedLevels := UnlockedAfter(old(storage.GetProgress()).unlockedLevels, Pass(args, levels).1))
      ensures name != "pass" ==> storage.storedProgress == old(storage.storedProgress)
      ensures storage.storedSettings == old(storage.storedSettings) && storage.storedCollection == old(storage.storedCollection)
      ensures history == old(history) && historyIndex == old(historyIndex)
    {
      var reply := Respond(name, args, levels, storage.GetProgress().unlockedLevels);
      if name == "clear" {
        output := [];
      } else {
        if name == "pass" {
          UnlockEach(Pass(args, levels).1);
        } else if name == "exit" || (name == "play" && reply.Starting?) {
          Hide();
        }
        output := output + ReplyLines(reply);
      }
    }

    /**
     * `executeCommand`: blank input does nothing; otherwise the trimmed line joins the history
     * with the index just past it, is echoed, and its first word picks the command, the other
     * words being its arguments; an unknown name only prints an error. The input is cleared.
     */
    method ExecuteCommand()
      requires Valid()
      modifies this, storage
      ensures var line := Trim(old(input));
        line == "" ==> (history == old(history) && historyIndex == old(historyIndex) && output == old(output)
                        && input == old(input) && storage.storedProgress == old(storage.storedProgress))
      ensures var line := Trim(old(input));
        line != "" ==> history == old(history) + [line] && historyIndex == |history| && input == "" && Words(line) != []
      ensures var line := Trim(old(input));
        line != "" && Words(line)[0] != "clear" ==>
          output == old(output) + [Echo(line)] + ReplyLines(Respond(Words(line)[0], Words(line)[1..], levels, old(storage.GetProgress()).unlockedLevels))
      ensures var line := Trim(old(input));
        line != "" && Words(line)[0] !in CommandNames ==> storage.storedProgress == old(storage.storedProgress)
      ensures storage.storedSettings == old(storage.storedSettings)
      ensures Valid()
    {
      var line := Trim(input);
      if line == "" {
        return;
      }
      RunLine(line);
    }

    /**
     * A non-blank trimmed line joins the history with the index just past it and is echoed;
     * its first word picks the command, and the rest are its arguments. The input is cleared.
     */
    method RunLine(line: string)
      requires line != "" && !IsWhitespace(line[0])
      requires Valid()
      modifies this, storage
      ensures history == old(history) + [line] && historyIndex == |history| && input == "" && Valid()
      ensures Words(line) != []
      ensures Words(line)[0] != "clear" ==>
        output == old(output) + [Echo(line)] + ReplyLines(Respond(Words(line)[0], Words(line)[1..], levels, old(storage.GetProgress()).unlockedLevels))
      ensures Words(line)[0] !in CommandNames ==> storage.storedProgress == old(storage.storedProgress)
      ensures storage.storedSettings == old(storage.storedSettings)
    {
      history := history + [line];
      historyIndex := |history|;
      WordsHead(line);
      var parts := Words(line);
      var name := parts[0];
      output := output + [Echo(line)];
      if name in CommandNames {
        Run(name, parts[1..]);
      } else {
        output := output + [Printed(UnknownCommand(name))];
      }
      input := "";
    }

    /**
     * `navigateHistory(direction)`: nothing on an empty history; otherwise the index moves
     * and is clamped to [0, length], and the input shows that entry, or nothing past the end.
     */
    method NavigateHistory(direction: int)
      requires Valid()
      modifies this
      ensures history == old(history) && output == old(output)
      ensures old(history) == [] ==> historyIndex == old(historyIndex) && input == old(input)
      ensures old(history) != [] ==> 0 <= historyIndex <= |history|
      ensures old(history) != [] ==> historyIndex == (var i := old(historyIndex) + direction;
                                                      if i < 0 then 0 else if i > |history| then |history| else i)
      ensures old(history) != [] ==> input == if historyIndex < |history| then history[historyIndex] else ""
      ensures Valid()
    {
      if |history| == 0 {
        return;
      }
      var i := historyIndex + direction;
      historyIndex := if i < 0 then 0 else if i > |history| then |history| else i;
      input := if historyIndex < |history| then history[historyIndex] else "";
    }

    /**
     * `autoComplete`: for non-blank input, a single matching command replaces the input by
     * its name and a space; several matches are listed; none changes nothing.
     */
    method AutoComplete()
      modifies this
      ensures history == old(history) && historyIndex == old(historyIndex)
      ensures var line := Trim(old(input));
        && (line != "" && |Matches(line)| == 1 ==> input == Matches(line)[0] + " " && output == old(output))
        && (line != "" && |Matches(line)| > 1 ==> input == old(input) && output == old(output) + [Candidates(Matches(line))])
        && (line == "" || Matches(line) == [] ==> input == old(input) && output == old(output))
    {
      var line := Trim(input);
      if line == "" {
        return;
      }
      var matches := Matches(line);
      if |matches| == 1 {
        input := matches[0] + " ";
      } else if |matches| > 1 {
        output := output + [Candidates(matches)];
      }
    }
  }
}
