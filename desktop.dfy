/**
 * The desktop-entry command: the `auth-rs exec …` line a launcher runs, the
 * file name derived from the entry's display name, and the entry's text.
 */
module Desktop {
  import opened Wrappers
  import opened Errors
  import opened Strings

  /** Where `--character-id` sits: after `auth-rs exec` and the optional session option. */
  function CharacterAt(sessionName: Option<string>): nat
  {
    if sessionName.Some? then 4 else 2
  }

  /**
   * The words of the Exec line: the subcommand, the session option when a
   * session is named, the character option, the program and, behind "--",
   * its arguments when there are any.
   */
  function ExecTokens(sessionName: Option<string>, characterId: string, exec: string, args: seq<string>): (cmd: seq<string>)
    ensures |cmd| == CharacterAt(sessionName) + 3 + (if args == [] then 0 else 1 + |args|)
    ensures cmd[0] == "auth-rs" && cmd[1] == "exec"
    ensures cmd[2] == "--session-name" <==> sessionName.Some?
    ensures sessionName.Some? ==> cmd[3] == sessionName.value
    ensures var o := CharacterAt(sessionName); cmd[o] == "--character-id" && cmd[o + 1] == characterId && cmd[o + 2] == exec
    ensures args != [] ==> cmd[CharacterAt(sessionName) + 3] == "--" && cmd[CharacterAt(sessionName) + 4..] == args
  {
    ExecHead(sessionName, characterId, exec) + (if args == [] then [] else ["--"] + args)
  }

  /** The words before the program's arguments. */
  function ExecHead(sessionName: Option<string>, characterId: string, exec: string): (h: seq<string>)
    ensures |h| == CharacterAt(sessionName) + 3
  {
    ["auth-rs", "exec"]
    + (if sessionName.Some? then ["--session-name", sessionName.value] else [])
    + ["--character-id", characterId, exec]
  }

  /** The Exec line: the words pushed one by one, then joined by single spaces without quoting. */
  method BuildExecCommand(sessionName: Option<string>, characterId: string, exec: string, args: seq<string>)
    returns (line: string)
    ensures line == Join(ExecTokens(sessionName, characterId, exec, args), " ")
  {
    var cmd := ["auth-rs", "exec"];
    if sessionName.Some? {
      cmd := cmd + ["--session-name"];
      cmd := cmd + [sessionName.value];
    }
    cmd := cmd + ["--character-id"];
    cmd := cmd + [characterId];
    cmd := cmd + [exec];
    assert cmd == ExecHead(sessionName, characterId, exec);
    if args != [] {
      ghost var head := cmd;
      cmd := cmd + ["--"];
      cmd := cmd + args;
      assert cmd == head + (["--"] + args);
    } else {
      assert cmd == cmd + [];
    }
    assert cmd == ExecTokens(sessionName, characterId, exec, args);
    line := Join(cmd, " ");
  }

  /** The fixed words of the Exec line hold no space. */
  lemma FixedTokensUnspaced()
    ensures ' ' !in "auth-rs" && ' ' !in "exec" && ' ' !in "--session-name" && ' ' !in "--character-id" && ' ' !in "--"
  {
  }

  /** When no word the caller supplies holds a space, the Exec line splits back into its words. */
  lemma ExecLineSplits(sessionName: Option<string>, characterId: string, exec: string, args: seq<string>)
    requires sessionName.Some? ==> ' ' !in sessionName.value
    requires ' ' !in characterId && ' ' !in exec
    requires forall k :: 0 <= k < |args| ==> ' ' !in args[k]
    ensures Split(Join(ExecTokens(sessionName, characterId, exec, args), " "), ' ') == ExecTokens(sessionName, characterId, exec, args)
  {
    var cmd := ExecTokens(sessionName, characterId, exec, args);
    FixedTokensUnspaced();
    forall k | 0 <= k < |cmd| ensures ' ' !in cmd[k] {
      var o := CharacterAt(sessionName);
      if k >= o + 4 {
        assert cmd[k] == cmd[o + 4..][k - o - 4];
      }
    }
    SplitJoin(cmd, ' ');
  }

  /** Joining after appending one piece adds the separator and that piece. */
  lemma {:induction false} JoinSnoc(xs: seq<string>, y: string, sep: string)
    requires |xs| >= 1
    ensures Join(xs + [y], sep) == Join(xs, sep) + sep + y
    decreases |xs|
  {
    if |xs| == 1 {
      assert xs + [y] == [xs[0], y];
      assert [xs[0], y][1..] == [y];
    } else {
      assert (xs + [y])[1..] == xs[1..] + [y];
      JoinSnoc(xs[1..], y, sep);
    }
  }

  /** Without quoting, a single argument holding a space gives the same line as the two arguments around it. */
  lemma NoQuoting(sessionName: Option<string>, characterId: string, exec: string, a: string, b: string)
    ensures Join(ExecTokens(sessionName, characterId, exec, [a + " " + b]), " ")
         == Join(ExecTokens(sessionName, characterId, exec, [a, b]), " ")
  {
    var h := ExecHead(sessionName, characterId, exec) + ["--"];
    assert ExecTokens(sessionName, characterId, exec, [a + " " + b]) == h + [a + " " + b];
    assert ExecTokens(sessionName, characterId, exec, [a, b]) == (h + [a]) + [b];
    JoinSnoc(h, a + " " + b, " ");
    JoinSnoc(h + [a], b, " ");
    JoinSnoc(h, a, " ");
  }

  /** The characters a desktop file name keeps: ASCII letters and digits, '-' and '_'. */
  predicate KeptInFilename(c: char)
  {
    IsAsciiAlphanumeric(c) || c == '-' || c == '_'
  }

  /** The characters a sanitised file name is made of. */
  predicate FilenameChar(c: char)
  {
    IsAsciiLower(c) || IsAsciiDigit(c) || c == '-' || c == '_'
  }

  /** The file name of an entry: every character not kept becomes '_', then the name is lower-cased. */
  function SanitizeFilename(name: string): (r: string)
    ensures |r| == |name|
    ensures forall k :: 0 <= k < |r| ==> FilenameChar(r[k])
    ensures forall k :: 0 <= k < |name| && !KeptInFilename(name[k]) ==> r[k] == '_'
    ensures forall k :: 0 <= k < |name| && KeptInFilename(name[k]) ==> r[k] == ToLowerAscii(name[k])
  {
    LowerAscii(seq(|name|, k requires 0 <= k < |name| => if KeptInFilename(name[k]) then name[k] else '_'))
  }

  /** A name already made of file-name characters is its own file name. */
  lemma SanitizeFixed(name: string)
    requires forall k :: 0 <= k < |name| ==> FilenameChar(name[k])
    ensures SanitizeFilename(name) == name
  {
    var r := SanitizeFilename(name);
    forall k | 0 <= k < |name| ensures r[k] == name[k] {
      assert KeptInFilename(name[k]);
    }
  }

  /** Sanitising twice gives what sanitising once gives. */
  lemma SanitizeIdempotent(name: string)
    ensures SanitizeFilename(SanitizeFilename(name)) == SanitizeFilename(name)
  {
    SanitizeFixed(SanitizeFilename(name));
  }

  /** A path joined onto a directory, with one '/' between them. */
  function JoinPath(dir: string, file: string): (p: string)
    ensures |p| >= |file| && p[|p| - |file|..] == file
  {
    if dir == [] then file
    else if dir[|dir| - 1] == '/' then dir + file
    else dir + "/" + file
  }

  /** The entry's path: `<name>.desktop` inside the applications directory. */
  function EntryPath(applicationsDir: string, name: string): (p: string)
    ensures var file := SanitizeFilename(name) + ".desktop";
      && |p| >= |file| && p[|p| - |file|..] == file
      && (applicationsDir != [] && applicationsDir[|applicationsDir| - 1] != '/' ==> p == applicationsDir + "/" + file)
  {
    JoinPath(applicationsDir, SanitizeFilename(name) + ".desktop")
  }

  /** The lines of a desktop entry for `name` running `command`. */
  function EntryLines(name: string, command: string): seq<string>
  {
    [
      "[Desktop Entry]",
      "Name=" + name,
      "Comment=Launch RuneLite",
      "Exec=" + command,
      "Icon=runelite",
      "Terminal=false",
      "Type=Application",
      "Categories=Game;"]
  }

  /** The entry's text: its lines, each ended by a newline. */
  function EntryContents(name: string, command: string): string
  {
    Join(EntryLines(name, command) + [""], "\n")
  }

  /** The fixed lines of an entry hold no newline. */
  lemma FixedLinesUnbroken()
    ensures '\n' !in "[Desktop Entry]" && '\n' !in "Name=" && '\n' !in "Comment=Launch RuneLite" && '\n' !in "Exec="
    ensures '\n' !in "Icon=runelite" && '\n' !in "Terminal=false" && '\n' !in "Type=Application" && '\n' !in "Categories=Game;"
  {
  }

  /**
   * When neither the name nor the command holds a newline, the entry's text
   * reads back as its lines, with the `Name=` line second and the `Exec=`
   * line fourth, and ends with a newline.
   */
  lemma EntryContentsLines(name: string, command: string)
    requires '\n' !in name && '\n' !in command
    ensures Split(EntryContents(name, command), '\n') == EntryLines(name, command) + [""]
    ensures Split(EntryContents(name, command), '\n')[1] == "Name=" + name
    ensures Split(EntryContents(name, command), '\n')[3] == "Exec=" + command
  {
    var lines := EntryLines(name, command) + [""];
    FixedLinesUnbroken();
    forall k | 0 <= k < |lines| ensures '\n' !in lines[k] {
    }
    SplitJoin(lines, '\n');
  }

  /**
   * The applications directory: `applications` under the data directory, or
   * under `.local/share` in the home directory when there is no data
   * directory; NoCacheDir when there is neither. `createFault` is the failure
   * of creating the directory, if it fails.
   */
  function ApplicationsDir(dataDir: Option<string>, homeDir: Option<string>, createFault: Option<string>): (r: Result<string, AuthError>)
    ensures dataDir.None? && homeDir.None? ==> r == Failure(NoCacheDir)
    ensures (dataDir.Some? || homeDir.Some?) && createFault.Some? ==> r == Failure(FileSystemError(createFault.value))
    ensures r.Success? <==> (dataDir.Some? || homeDir.Some?) && createFault.None?
    ensures r.Success? && dataDir.Some? ==> r.value == JoinPath(dataDir.value, "applications")
    ensures r.Success? && dataDir.None? ==> r.value == JoinPath(JoinPath(homeDir.value, ".local/share"), "applications")
  {
    var base := if dataDir.Some? then Some(dataDir.value)
      else if homeDir.Some? then Some(JoinPath(homeDir.value, ".local/share"))
      else None;
    match base
    case None => Failure(NoCacheDir)
    case Some(data) =>
      if createFault.Some? then Failure(FileSystemError(createFault.value))
      else Success(JoinPath(data, "applications"))
  }

  /**
   * Creates the entry: finds the applications directory, builds the Exec line
   * and the text, and writes it at the entry's path. `written` is the write
   * attempted (path and text), `writeFault` the failure of that write.
   */
  method CreateEntry(
    dataDir: Option<string>, homeDir: Option<string>, createFault: Option<string>, writeFault: Option<string>,
    sessionName: Option<string>, name: string, characterId: string, exec: string, args: seq<string>)
    returns (r: Result<string, AuthError>, written: Option<(string, string)>)
    ensures ApplicationsDir(dataDir, homeDir, createFault).Failure? ==>
      r == Failure(ApplicationsDir(dataDir, homeDir, createFault).error) && written.None?
    ensures ApplicationsDir(dataDir, homeDir, createFault).Success? ==>
      var path := EntryPath(ApplicationsDir(dataDir, homeDir, createFault).value, name);
      && written == Some((path, EntryContents(name, Join(ExecTokens(sessionName, characterId, exec, args), " "))))
      && r == if writeFault.Some? then Failure(FileSystemError(writeFault.value)) else Success(path)
  {
    var dir := ApplicationsDir(dataDir, homeDir, createFault);
    if dir.Failure? {
      return Failure(dir.error), None;
    }
    var command := BuildExecCommand(sessionName, characterId, exec, args);
    var contents := EntryContents(name, command);
    var path := EntryPath(dir.value, name);
    written := Some((path, contents));
    if writeFault.Some? {
      r := Failure(FileSystemError(writeFault.value));
    } else {
      r := Success(path);
    }
  }
}
