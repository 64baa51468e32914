/** The two command-line flag scanners (`cli/gatekeeper.ts`, `scripts/common.ts`) and where they differ. */
module Flags {
  import opened Base

  type Flags = map<string, string>

  predicate IsFlag(s: string) {
    |s| >= 2 && s[0] == '-' && s[1] == '-'
  }

  function Key(s: string): string
    requires IsFlag(s)
  {
    s[2..]
  }

  /** The argument after position `i` is the flag's value unless it is missing, empty or a flag itself. */
  predicate TakesNext(args: seq<string>, i: nat) {
    i + 1 < |args| && args[i + 1] != "" && !IsFlag(args[i + 1])
  }

  function ValueAt(args: seq<string>, i: nat): string {
    if TakesNext(args, i) then args[i + 1] else "true"
  }

  /** What one left-to-right scan collects; a later flag overrides an earlier one. */
  function Scan(args: seq<string>): Flags {
    if args == [] then map[]
    else if IsFlag(args[0]) then map[Key(args[0]) := ValueAt(args, 0)] + Scan(args[1..])
    else Scan(args[1..])
  }

  /** The flag at position `i` is the last one for its key. */
  predicate LastOf(args: seq<string>, i: nat)
    requires i < |args| && IsFlag(args[i])
  {
    forall j :: i < j < |args| && IsFlag(args[j]) ==> Key(args[j]) != Key(args[i])
  }

  /** Independent reading of a scan: a key is set exactly when some argument is its flag, and it has the
      value of the last one. */
  lemma {:induction false} ScanKeepsLast(args: seq<string>, i: nat)
    requires i < |args| && IsFlag(args[i])
    requires LastOf(args, i)
    ensures Key(args[i]) in Scan(args) && Scan(args)[Key(args[i])] == ValueAt(args, i)
  {
    if i > 0 {
      ScanKeepsLast(args[1..], i - 1);
    } else {
      ScanIsSound(args[1..], Key(args[0]));
    }
  }

  lemma {:induction false} ScanIsSound(args: seq<string>, key: string)
    ensures key in Scan(args) ==> exists i :: 0 <= i < |args| && IsFlag(args[i]) && Key(args[i]) == key
  {
    if args != [] && key in Scan(args) && !(IsFlag(args[0]) && Key(args[0]) == key) {
      ScanIsSound(args[1..], key);
      var i :| 0 <= i < |args[1..]| && IsFlag(args[1..][i]) && Key(args[1..][i]) == key;
      assert args[i + 1] == args[1..][i];
    }
  }

  /** A flag is two dashes and a name, and the name is what it sets. */
  lemma FlagIsWritten(s: string, name: string)
    ensures IsFlag(s) <==> s == "--" + s[if |s| < 2 then |s| else 2..]
    ensures IsFlag("--" + name) && Key("--" + name) == name
  {
  }

  /** Written out: `--name` anywhere, with no `--name` after it, sets `name` to the argument after it, unless
      there is none, or it is empty or starts with two dashes itself; then it sets it to "true". */
  lemma WrittenFlagSets(before: seq<string>, name: string, after: seq<string>)
    requires "--" + name !in after
    ensures var flags := Scan(before + ["--" + name] + after);
      && name in flags
      && flags[name] == if after == [] || after[0] == "" || "--" <= after[0] then "true" else after[0]
  {
    var flag := "--" + name;
    var args, i := before + [flag] + after, |before|;
    FlagIsWritten(flag, name);
    forall j | i < j < |args| && IsFlag(args[j]) ensures Key(args[j]) != name {
      assert args[j] == after[j - i - 1] && after[j - i - 1] in after;
      assert args[j] == "--" + Key(args[j]);
    }
    ScanKeepsLast(args, i);
    if after != [] { assert args[i + 1] == after[0]; }
  }

  /** The loop both scanners share, skipping a value it has consumed. */
  method ScanLoop(rest: seq<string>) returns (flags: Flags)
    ensures flags == Scan(rest)
  {
    flags := map[];
    var index := 0;
    while index < |rest|
      invariant 0 <= index <= |rest|
      invariant flags + Scan(rest[index..]) == Scan(rest)
    {
      var value := rest[index];
      var tail := rest[index..];
      assert tail[1..] == rest[index + 1..];
      if IsFlag(value) {
        var key := Key(value);
        assert ValueAt(tail, 0) == ValueAt(rest, index);
        if index + 1 == |rest| || rest[index + 1] == "" || IsFlag(rest[index + 1]) {
          flags := flags[key := "true"];
        } else {
          flags := flags[key := rest[index + 1]];
          assert rest[index + 1..][0] == rest[index + 1] && rest[index + 1..][1..] == rest[index + 2..];
          assert Scan(rest[index + 1..]) == Scan(rest[index + 2..]);
          index := index + 1;
        }
      }
      index := index + 1;
    }
    assert rest[index..] == [];
  }

  function Rest(argv: seq<string>): seq<string> {
    if argv == [] then [] else argv[1..]
  }

  /** What the command-line tool makes of its arguments. */
  function CliCommand(argv: seq<string>): string {
    if argv == [] then "help" else argv[0]
  }

  function CliFlags(argv: seq<string>): Flags {
    Scan(Rest(argv))
  }

  /** `parseArgs` of the command-line tool. */
  method ParseCliArgs(argv: seq<string>) returns (command: string, flags: Flags)
    ensures command == CliCommand(argv) && flags == CliFlags(argv)
  {
    command := if argv == [] then "help" else argv[0];
    flags := ScanLoop(Rest(argv));
  }

  /** What the scripts make of theirs: a leading flag is put in after everything else has been scanned. */
  function ScriptCommand(argv: seq<string>): Option<string> {
    if argv == [] || argv[0] == "" || IsFlag(argv[0]) then None else Some(argv[0])
  }

  function ScriptFlags(argv: seq<string>): Flags {
    if argv != [] && IsFlag(argv[0]) then Scan(Rest(argv))[Key(argv[0]) := ValueAt(argv, 0)] else Scan(Rest(argv))
  }

  /** `parseArgs` of the scripts. */
  method ParseScriptArgs(argv: seq<string>) returns (command: Option<string>, flags: Flags)
    ensures command == ScriptCommand(argv) && flags == ScriptFlags(argv)
  {
    var rest := Rest(argv);
    flags := ScanLoop(rest);
    if argv == [] || argv[0] == "" || IsFlag(argv[0]) {
      if argv != [] && IsFlag(argv[0]) {
        var key := Key(argv[0]);
        if rest == [] || rest[0] == "" || IsFlag(rest[0]) {
          flags := flags[key := "true"];
        } else {
          flags := flags[key := rest[0]];
        }
      }
      return None, flags;
    }
    return Some(argv[0]), flags;
  }

  /** For a list that starts with a flag: the scripts give what the command-line tool gives for the list
      after any command word, except for the first flag's own key, where a later repeat loses instead of
      winning. They agree exactly when no later repeat says something else. */
  lemma LeadingFlagLosesRepeats(argv: seq<string>, word: string)
    requires argv != [] && IsFlag(argv[0])
    ensures var cli, scripts := CliFlags([word] + argv), ScriptFlags(argv);
      var k, v, later := Key(argv[0]), ValueAt(argv, 0), Scan(argv[1..]);
      && cli.Keys == scripts.Keys
      && (forall j :: j in cli && j != k ==> cli[j] == scripts[j])
      && scripts[k] == v && cli[k] == (if k in later then later[k] else v)
      && (cli == scripts <==> (k in later ==> later[k] == v))
  {
  }

  /** The last flag for a key that was set. */
  lemma {:induction false} LastFlag(args: seq<string>, key: string) returns (i: nat)
    requires key in Scan(args)
    ensures i < |args| && IsFlag(args[i]) && Key(args[i]) == key && LastOf(args, i)
  {
    if key in Scan(args[1..]) {
      i := LastFlag(args[1..], key);
      i := i + 1;
      LastOfTail(args, i);
    } else {
      i := 0;
      forall j | 0 < j < |args| && IsFlag(args[j]) ensures Key(args[j]) != key {
        FlagIsSet(args[1..], j - 1);
      }
    }
  }

  lemma LastOfTail(args: seq<string>, i: nat)
    requires 0 < i < |args| && IsFlag(args[i])
    ensures IsFlag(args[1..][i - 1]) && (LastOf(args[1..], i - 1) <==> LastOf(args, i))
  {
    if LastOf(args[1..], i - 1) {
      forall j | i < j < |args| && IsFlag(args[j]) ensures Key(args[j]) != Key(args[i]) {
        assert args[1..][j - 1] == args[j];
      }
    }
  }

  lemma {:induction false} FlagIsSet(args: seq<string>, i: nat)
    requires i < |args| && IsFlag(args[i])
    ensures Key(args[i]) in Scan(args)
  {
    if i == 0 {
    } else {
      FlagIsSet(args[1..], i - 1);
    }
  }

  /** The same list given to both: the flags agree exactly when the first argument is no flag, or is one that
      a later flag repeats and whose last repeat has the same value; the commands agree exactly when there is
      a first argument that is neither empty nor a flag. */
  lemma SameListAgreesExactlyWhen(argv: seq<string>)
    ensures CliFlags(argv) == ScriptFlags(argv) <==>
      (argv != [] && IsFlag(argv[0]) ==>
        exists i :: 0 < i < |argv| && IsFlag(argv[i]) && Key(argv[i]) == Key(argv[0])
                    && LastOf(argv, i) && ValueAt(argv, i) == ValueAt(argv, 0))
    ensures ScriptCommand(argv) == Some(CliCommand(argv)) <==> argv != [] && argv[0] != "" && !IsFlag(argv[0])
  {
    if argv != [] && IsFlag(argv[0]) {
      var k, rest := Key(argv[0]), argv[1..];
      assert CliFlags(argv) == ScriptFlags(argv) <==> k in Scan(rest) && Scan(rest)[k] == ValueAt(argv, 0);
      if k in Scan(rest) {
        var i := LastFlag(rest, k);
        LastOfTail(argv, i + 1);
        LastRepeatWins(argv, i + 1);
      }
      forall i | 0 < i < |argv| && IsFlag(argv[i]) && Key(argv[i]) == k && LastOf(argv, i)
        ensures k in Scan(rest) && Scan(rest)[k] == ValueAt(argv, i) {
        LastRepeatWins(argv, i);
      }
    }
  }

  lemma LastRepeatWins(argv: seq<string>, i: nat)
    requires 0 < i < |argv| && IsFlag(argv[i])
    requires LastOf(argv, i)
    ensures Key(argv[i]) in CliFlags(argv) && CliFlags(argv)[Key(argv[i])] == ValueAt(argv, i)
  {
    LastOfTail(argv, i);
    ScanKeepsLast(argv[1..], i - 1);
  }

  /** For a list that starts with anything but a flag, the empty word included, both set the same flags, with
      or without a command word before it, and they name the same command but for the missing one. */
  lemma NonFlagListsAgree(argv: seq<string>, word: string)
    requires argv == [] || !IsFlag(argv[0])
    ensures ScriptFlags(argv) == CliFlags(argv) == CliFlags([word] + argv)
    ensures CliCommand(argv) == match ScriptCommand(argv)
                                case Some(command) => command
                                case None => if argv == [] then "help" else ""
  {
  }
}
