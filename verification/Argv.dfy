/**
 The command line handed on to LiveKit: OpenRTC's own flags are stripped, and positional paths
 are first rewritten into those flags.
 */
module Argv {
  import opened Basics

  predicate IsValueFlag(name: string) {
    name in {"--agents-dir", "--default-stt", "--default-llm", "--default-tts", "--default-greeting",
             "--dashboard-refresh", "--metrics-json-file", "--metrics-jsonl", "--metrics-jsonl-interval",
               "--watch-path"}
  }

  predicate IsBoolFlag(name: string) {
    name in {"--dashboard", "--no-watch"}
  }

  /** The text before the first `=`, or all of it. */
  function BeforeEq(arg: string): string {
    if arg == [] || arg[0] == '=' then [] else [arg[0]] + BeforeEq(arg[1..])
  }

  /** An OpenRTC option, alone or with an attached `=value`. */
  predicate OpenRtcOnly(arg: string) {
    IsValueFlag(BeforeEq(arg)) || IsBoolFlag(BeforeEq(arg))
  }

  /** An OpenRTC option whose value is the next token. */
  predicate TakesValue(arg: string) {
    '=' !in arg && IsValueFlag(arg)
  }

  lemma {:induction false} BeforeEqWhole(arg: string)
    ensures BeforeEq(arg) == arg <==> '=' !in arg
  {
    if arg != [] && arg[0] != '=' {
      BeforeEqWhole(arg[1..]);
      assert arg == [arg[0]] + arg[1..];
    }
  }

  lemma TakesValueIsOurs(arg: string)
    requires TakesValue(arg)
    ensures OpenRtcOnly(arg)
  {
    BeforeEqWhole(arg);
  }

  /** `str.partition("=")` on a name with its value attached gives the name, whatever the value holds. */
  lemma {:induction false} BeforeEqOfPair(name: string, value: string)
    requires '=' !in name
    ensures BeforeEq(name + "=" + value) == name
  {
    var arg := name + "=" + value;
    if name != [] {
      BeforeEqOfPair(name[1..], value);
      assert arg[1..] == name[1..] + "=" + value;
      assert arg[0] == name[0];
    }
  }

  /** Text with a `=` in it is a name and an attached value. */
  lemma {:induction false} BeforeEqSplits(arg: string)
    ensures '=' in arg ==> BeforeEq(arg) + "=" <= arg
    ensures '=' !in BeforeEq(arg)
  {
    if arg != [] && arg[0] != '=' {
      BeforeEqSplits(arg[1..]);
      assert arg == [arg[0]] + arg[1..];
      if '=' in arg {
        assert BeforeEq(arg) + "=" == [arg[0]] + (BeforeEq(arg[1..]) + "=");
      }
    }
  }

  lemma FlagNamesArePlain(name: string)
    requires IsValueFlag(name) || IsBoolFlag(name)
    ensures '=' !in name
  {
  }

  /**
   Ours are exactly the known flag names, alone or with a value attached; and those that take the
   next token are exactly the names that need a value, alone.
   */
  lemma OursExactly(arg: string)
    ensures OpenRtcOnly(arg) <==> exists name :: (IsValueFlag(name) || IsBoolFlag(name)) && Sets(name, arg)
    ensures TakesValue(arg) <==> IsValueFlag(arg)
  {
    hide IsValueFlag, IsBoolFlag;
    if IsValueFlag(arg) {
      FlagNamesArePlain(arg);
    }
    BeforeEqWhole(arg);
    BeforeEqSplits(arg);
    assert Sets(BeforeEq(arg), arg);
    forall name | (IsValueFlag(name) || IsBoolFlag(name)) && Sets(name, arg) ensures BeforeEq(arg) == name {
      FlagNamesArePlain(name);
      if arg == name {
        BeforeEqWhole(name);
      } else {
        var value := arg[|name| + 1..];
        assert arg == name + "=" + value;
        BeforeEqOfPair(name, value);
      }
    }
  }

  // ---- stripping ----

  function Strip(argv: seq<string>): seq<string> {
    if argv == [] || argv[0] == "--" then argv
    else if TakesValue(argv[0]) then Strip(argv[(if |argv| == 1 then 1 else 2)..])
    else if OpenRtcOnly(argv[0]) then Strip(argv[1..])
    else [argv[0]] + Strip(argv[1..])
  }

  /** `_strip_openrtc_only_flags_for_livekit`, the loop. */
  method StripOpenrtcOnlyFlags(argv: seq<string>) returns (out: seq<string>)
    ensures out == Strip(argv)
  {
    hide IsValueFlag, IsBoolFlag, BeforeEq, Strip;
    out := [];
    var i := 0;
    assert argv[0..] == argv;
    while i < |argv|
      invariant 0 <= i <= |argv|
      invariant out + Strip(argv[i..]) == Strip(argv)
    {
      var arg := argv[i];
      StripStep(argv, i);
      BeforeEqWhole(arg);
      if arg == "--" {
        out := out + argv[i..];
        return;
      }
      if '=' in arg {
        var name := BeforeEq(arg);
        if IsValueFlag(name) || IsBoolFlag(name) {
          i := i + 1;
          continue;
        }
        Appended(out, arg, Strip(argv[i + 1..]));
        out := out + [arg];
        i := i + 1;
        continue;
      }
      if IsBoolFlag(arg) {
        NotBoth(arg);
        i := i + 1;
        continue;
      }
      if IsValueFlag(arg) {
        i := i + 1;
        if i < |argv| {
          i := i + 1;
        }
        continue;
      }
      Appended(out, arg, Strip(argv[i + 1..]));
      out := out + [arg];
      i := i + 1;
    }
    assert argv[i..] == [] && Strip([]) == [] by { StripNil(); }
  }

  lemma Appended(out: seq<string>, arg: string, rest: seq<string>)
    ensures out + ([arg] + rest) == out + [arg] + rest
  {
  }

  lemma NotBoth(name: string)
    requires IsBoolFlag(name)
    ensures !IsValueFlag(name)
  {
  }

  lemma StripNil()
    ensures Strip([]) == []
  {
  }

  /** One step of the loop, at index `i`. */
  lemma StripStep(argv: seq<string>, i: nat)
    requires i < |argv|
    ensures Strip(argv[i..])
         == if argv[i] == "--" then argv[i..]
            else if TakesValue(argv[i]) then Strip(argv[(if i + 1 < |argv| then i + 2 else i + 1)..])
            else if OpenRtcOnly(argv[i]) then Strip(argv[i + 1..])
            else [argv[i]] + Strip(argv[i + 1..])
  {
    hide TakesValue, OpenRtcOnly;
    assert argv[i..][1..] == argv[i + 1..];
    if i + 1 < |argv| {
      assert argv[i..][2..] == argv[i + 2..];
    }
  }

  // ---- what stripping means, read off the positions ----

  /** Token `i` is the value of the flag before it. */
  predicate Consumed(argv: seq<string>, i: nat)
    requires i <= |argv|
  {
    i > 0 && TakesValue(argv[i - 1]) && !Consumed(argv, i - 1)
  }

  /** A `--` that is not a consumed value stands at or before `i`: everything from there is passed through. */
  predicate PassThrough(argv: seq<string>, i: nat)
    requires i < |argv|
  {
    (argv[i] == "--" && !Consumed(argv, i)) || (i > 0 && PassThrough(argv, i - 1))
  }

  predicate Kept(argv: seq<string>, i: nat)
    requires i < |argv|
  {
    PassThrough(argv, i) || (!Consumed(argv, i) && !OpenRtcOnly(argv[i]))
  }

  /** The kept tokens among the first `n`. */
  function KeptTokens(argv: seq<string>, n: nat): seq<string>
    requires n <= |argv|
  {
    if n == 0 then [] else KeptTokens(argv, n - 1) + if Kept(argv, n - 1) then [argv[n - 1]] else []
  }

  lemma {:induction false} ConsumedShift(argv: seq<string>, k: nat, i: nat)
    requires k + i <= |argv| && !Consumed(argv, k)
    ensures Consumed(argv[k..], i) == Consumed(argv, k + i)
  {
    if i > 0 {
      ConsumedShift(argv, k, i - 1);
      assert argv[k..][i - 1] == argv[k + i - 1];
    }
  }

  lemma {:induction false} PassThroughShift(argv: seq<string>, k: nat, i: nat)
    requires k + i < |argv| && !Consumed(argv, k) && (k > 0 ==> !PassThrough(argv, k - 1))
    ensures PassThrough(argv[k..], i) == PassThrough(argv, k + i)
  {
    hide Consumed;
    ConsumedShift(argv, k, i);
    assert argv[k..][i] == argv[k + i];
    if i > 0 {
      PassThroughShift(argv, k, i - 1);
    }
  }

  lemma KeptExtend(argv: seq<string>, n: nat)
    requires n < |argv|
    ensures KeptTokens(argv, n + 1) == if Kept(argv, n) then KeptTokens(argv, n) + [argv[n]] else KeptTokens(argv, n)
  {
    hide Kept;
  }

  lemma KeptNone(argv: seq<string>)
    ensures KeptTokens(argv, 0) == []
  {
  }

  lemma {:induction false} KeptShift(argv: seq<string>, k: nat, n: nat)
    requires k + n <= |argv| && !Consumed(argv, k) && (k > 0 ==> !PassThrough(argv, k - 1))
    ensures KeptTokens(argv, k + n) == KeptTokens(argv, k) + KeptTokens(argv[k..], n)
  {
    hide Consumed, PassThrough, OpenRtcOnly, KeptTokens;
    KeptNone(argv[k..]);
    if n > 0 {
      KeptShift(argv, k, n - 1);
      ConsumedShift(argv, k, n - 1);
      PassThroughShift(argv, k, n - 1);
      assert argv[k..][n - 1] == argv[k + n - 1];
      KeptExtend(argv, k + n - 1);
      KeptExtend(argv[k..], n - 1);
    }
  }

  lemma {:induction false} KeptAll(argv: seq<string>, n: nat)
    requires n <= |argv| && (argv != [] ==> argv[0] == "--")
    ensures KeptTokens(argv, n) == argv[..n]
    ensures n > 0 ==> PassThrough(argv, n - 1)
  {
    if n > 0 {
      KeptAll(argv, n - 1);
      assert argv[..n] == argv[..n - 1] + [argv[n - 1]];
      if n == 1 {
        assert !Consumed(argv, 0);
      }
    }
  }

  /** The first token stands on its own, and is kept unless it is ours. */
  lemma FirstToken(argv: seq<string>)
    requires argv != [] && argv[0] != "--"
    ensures !Consumed(argv, 0) && !PassThrough(argv, 0)
    ensures Consumed(argv, 1) <==> TakesValue(argv[0])
    ensures KeptTokens(argv, 1) == if OpenRtcOnly(argv[0]) then [] else [argv[0]]
  {
    hide OpenRtcOnly, TakesValue;
    KeptNone(argv);
    KeptExtend(argv, 0);
  }

  /** A flag that takes a value is dropped with it, and what follows stands on its own. */
  lemma FlagAndValue(argv: seq<string>)
    requires |argv| > 1 && argv[0] != "--" && TakesValue(argv[0])
    ensures !Consumed(argv, 2) && !PassThrough(argv, 1) && KeptTokens(argv, 2) == []
  {
    FirstToken(argv);
    TakesValueIsOurs(argv[0]);
    hide OpenRtcOnly, TakesValue, KeptTokens;
    KeptExtend(argv, 1);
  }

  function Head(argv: seq<string>): seq<string>
    requires argv != []
  {
    if OpenRtcOnly(argv[0]) then [] else [argv[0]]
  }

  lemma StripTurn(argv: seq<string>, k: nat)
    requires 0 < k <= |argv| && argv[0] != "--"
    requires k == if TakesValue(argv[0]) && |argv| > 1 then 2 else 1
    ensures Strip(argv) == Head(argv) + Strip(argv[k..])
  {
    if TakesValue(argv[0]) {
      TakesValueIsOurs(argv[0]);
    }
    hide OpenRtcOnly, TakesValue;
  }

  lemma HeadKept(argv: seq<string>, k: nat)
    requires 0 < k <= |argv| && argv[0] != "--"
    requires k == if TakesValue(argv[0]) && |argv| > 1 then 2 else 1
    ensures KeptTokens(argv, k) == Head(argv)
    ensures k < |argv| ==> !Consumed(argv, k) && !PassThrough(argv, k - 1)
  {
    FirstToken(argv);
    hide KeptTokens, Consumed, PassThrough;
    if k == 2 {
      FlagAndValue(argv);
      TakesValueIsOurs(argv[0]);
    }
    hide OpenRtcOnly, TakesValue;
  }

  /** Past `k` tokens with nothing left open, the rest of the line is read on its own. */
  lemma KeptFrom(argv: seq<string>, k: nat)
    requires k <= |argv| && (k < |argv| ==> !Consumed(argv, k) && (k > 0 ==> !PassThrough(argv, k - 1)))
    ensures KeptTokens(argv, |argv|) == KeptTokens(argv, k) + KeptTokens(argv[k..], |argv| - k)
  {
    hide KeptTokens, Consumed, PassThrough;
    if k < |argv| {
      KeptShift(argv, k, |argv| - k);
    } else {
      KeptNone(argv[k..]);
    }
  }

  /**
   What the loop returns: the tokens that are neither an OpenRTC option nor the value of one,
   and everything from the first `--` that is not itself a consumed value, in order.
   */
  lemma {:induction false} StripIsKept(argv: seq<string>)
    ensures Strip(argv) == KeptTokens(argv, |argv|)
  {
    hide OpenRtcOnly, TakesValue, KeptTokens, Strip, Head, Consumed, PassThrough;
    if argv == [] {
      StripNil();
      KeptNone(argv);
    } else if argv[0] == "--" {
      KeptAll(argv, |argv|);
      StripPassedThrough(argv);
    } else {
      var k := if TakesValue(argv[0]) && |argv| > 1 then 2 else 1;
      StripIsKept(argv[k..]);
      StripTurn(argv, k);
      HeadKept(argv, k);
      KeptFrom(argv, k);
    }
  }

  lemma StripPassedThrough(argv: seq<string>)
    requires argv != [] && argv[0] == "--"
    ensures Strip(argv) == argv == argv[..|argv|]
  {
  }

  lemma {:induction false} KeptIsSubsequence(argv: seq<string>, n: nat)
    requires n <= |argv|
    ensures IsSubsequence(KeptTokens(argv, n), argv[..n])
  {
    if n > 0 {
      hide Kept, IsSubsequence, KeptTokens;
      KeptIsSubsequence(argv, n - 1);
      KeptExtend(argv, n - 1);
      assert argv[..n][..n - 1] == argv[..n - 1];
      SubsequenceGrow(KeptTokens(argv, n - 1), argv[..n]);
    }
  }

  lemma StripIsSubsequence(argv: seq<string>)
    ensures IsSubsequence(Strip(argv), argv)
  {
    StripIsKept(argv);
    KeptIsSubsequence(argv, |argv|);
    assert argv[..|argv|] == argv;
  }

  /** No OpenRTC option before the first `--`. */
  ghost predicate Clean(argv: seq<string>) {
    forall i :: 0 <= i < |argv| && "--" !in argv[..i + 1] ==> !OpenRtcOnly(argv[i])
  }

  lemma CleanStep(argv: seq<string>)
    requires argv != [] && argv[0] != "--"
    ensures Clean(argv) <==> !OpenRtcOnly(argv[0]) && Clean(argv[1..])
  {
    hide OpenRtcOnly;
    var rest := argv[1..];
    forall i | 0 <= i < |rest| ensures rest[i] == argv[i + 1] && ("--" in rest[..i + 1] <==> "--" in argv[..i + 2]) {
      assert argv[..i + 2] == [argv[0]] + rest[..i + 1];
    }
    assert "--" in argv[..1] <==> argv[0] == "--";
    if Clean(argv) {
      forall i | 0 <= i < |rest| && "--" !in rest[..i + 1] ensures !OpenRtcOnly(rest[i]) {
        assert "--" !in argv[..(i + 1) + 1];
      }
    }
    if !OpenRtcOnly(argv[0]) && Clean(rest) {
      forall i | 0 <= i < |argv| && "--" !in argv[..i + 1] ensures !OpenRtcOnly(argv[i]) {
        if i > 0 {
          assert "--" !in rest[..(i - 1) + 1];
        }
      }
    }
  }

  lemma PassedThroughIsClean(argv: seq<string>)
    requires argv != [] && argv[0] == "--"
    ensures Clean(argv)
  {
    hide OpenRtcOnly;
    forall i | 0 <= i < |argv| ensures "--" in argv[..i + 1] && argv[i] == argv[..i + 1][i] {
      assert argv[..i + 1][0] == "--";
    }
  }

  lemma {:induction false} StripIsClean(argv: seq<string>)
    ensures Clean(Strip(argv))
  {
    hide OpenRtcOnly, TakesValue;
    if argv == [] {
    } else if argv[0] == "--" {
      PassedThroughIsClean(argv);
    } else {
      StripIsClean(argv[1..]);
      if TakesValue(argv[0]) && |argv| > 1 {
        StripIsClean(argv[2..]);
      } else if !TakesValue(argv[0]) && !OpenRtcOnly(argv[0]) {
        assert Strip(argv)[1..] == Strip(argv[1..]);
        CleanStep(Strip(argv));
      }
    }
  }

  /**
   Stripping leaves a command line alone exactly when no OpenRTC option precedes its first `--`;
   so it is idempotent.
   */
  lemma {:induction false} StripFixpoints(argv: seq<string>)
    ensures Strip(argv) == argv <==> Clean(argv)
  {
    hide OpenRtcOnly, TakesValue;
    StripIsClean(argv);
    if Clean(argv) && argv != [] && argv[0] != "--" {
      CleanStep(argv);
      StripFixpoints(argv[1..]);
      if TakesValue(argv[0]) {
        TakesValueIsOurs(argv[0]);
      }
      assert argv == [argv[0]] + argv[1..];
    }
  }

  lemma StripIdempotent(argv: seq<string>)
    ensures Strip(Strip(argv)) == Strip(argv)
  {
    StripIsClean(argv);
    StripFixpoints(Strip(argv));
  }

  // ---- positional shortcuts ----

  predicate IsWorkerCommand(command: string) {
    command in {"start", "dev", "console"}
  }

  predicate IsDirCommand(command: string) {
    command in {"list", "connect", "download-files"}
  }

  predicate IsOption(arg: string) {
    "-" <= arg
  }

  predicate Sets(flag: string, arg: string) {
    arg == flag || flag + "=" <= arg
  }

  predicate HasFlag(flag: string, args: seq<string>) {
    exists i :: 0 <= i < |args| && Sets(flag, args[i])
  }

  /** `_inject_agents_dir_positional`. */
  function InjectAgentsDir(argv: seq<string>): seq<string>
    requires argv != []
  {
    var rest := argv[1..];
    if rest == [] || IsOption(rest[0]) || HasFlag("--agents-dir", rest) then argv
    else [argv[0], "--agents-dir", rest[0]] + rest[1..]
  }

  /** `_inject_worker_start_dev_console`. */
  function InjectWorker(argv: seq<string>): seq<string>
    requires argv != []
  {
    var rest := argv[1..];
    if rest == [] || IsOption(rest[0]) || HasFlag("--agents-dir", rest) then argv
    else if !HasFlag("--metrics-jsonl", rest) && 1 < |rest| && !IsOption(rest[1])
    then [argv[0], "--agents-dir", rest[0], "--metrics-jsonl", rest[1]] + rest[2..]
    else [argv[0], "--agents-dir", rest[0]] + rest[1..]
  }

  /** `inject_cli_positional_paths`. */
  function Inject(argv: seq<string>): seq<string> {
    if argv == [] then argv
    else if IsWorkerCommand(argv[0]) then InjectWorker(argv)
    else if IsDirCommand(argv[0]) then InjectAgentsDir(argv)
    else argv
  }

  /** How many leading positional tokens become flag values. */
  function Rewritten(argv: seq<string>): (n: nat)
    ensures n < |argv| || (n == 0 && argv == [])
  {
    if |argv| < 2 || !(IsWorkerCommand(argv[0]) || IsDirCommand(argv[0])) then 0
    else if IsOption(argv[1]) || HasFlag("--agents-dir", argv[1..]) then 0
    else if |argv| > 2 && IsWorkerCommand(argv[0]) && !IsOption(argv[2])
      && !HasFlag("--metrics-jsonl", argv[1..]) then 2
    else 1
  }

  /** `--agents-dir` is given, apart or with an attached value. */
  ghost predicate NamesDir(args: seq<string>) {
    exists i :: 0 <= i < |args| && (args[i] == "--agents-dir" || "--agents-dir=" <= args[i])
  }

  ghost predicate NamesMetrics(args: seq<string>) {
    exists i :: 0 <= i < |args| && (args[i] == "--metrics-jsonl" || "--metrics-jsonl=" <= args[i])
  }

  /**
   The first positional of a known command becomes the value of `--agents-dir`, and of a worker
   command the second that of `--metrics-jsonl`, unless the flag is given or a `-` token is in the
   place; every other token stands where it stood.
   */
  lemma InjectShape(argv: seq<string>)
    ensures var dir := |argv| > 1 && argv[0] in ["start", "dev", "console", "list", "connect", "download-files"]
                       && !("-" <= argv[1]) && !NamesDir(argv[1..]);
            var metrics := dir && |argv| > 2 && argv[0] in ["start", "dev", "console"]
                           && !("-" <= argv[2]) && !NamesMetrics(argv[1..]);
            && Rewritten(argv) == (if metrics then 2 else if dir then 1 else 0)
            && Inject(argv) == (if metrics
                 then [argv[0], "--agents-dir", argv[1], "--metrics-jsonl", argv[2]] + argv[3..]
                                else if dir then [argv[0], "--agents-dir", argv[1]] + argv[2..] else argv)
  {
    if argv != [] {
      HasFlagExactly(argv[1..]);
    }
    hide HasFlag;
  }

  lemma HasFlagExactly(args: seq<string>)
    ensures HasFlag("--agents-dir", args) <==> NamesDir(args)
    ensures HasFlag("--metrics-jsonl", args) <==> NamesMetrics(args)
  {
    assert "--agents-dir" + "=" == "--agents-dir=" && "--metrics-jsonl" + "=" == "--metrics-jsonl=";
  }

  lemma InjectedFlags()
    ensures TakesValue("--agents-dir") && TakesValue("--metrics-jsonl")
    ensures "--agents-dir" != "--" && "--metrics-jsonl" != "--"
    ensures IsOption("--agents-dir")
  {
    var a, m := "--agents-dir", "--metrics-jsonl";
    assert |a| > 2 && |m| > 2;
    assert forall i :: 0 <= i < |a| ==> a[i] != '=';
    assert forall i :: 0 <= i < |m| ==> m[i] != '=';
  }

  lemma StripFlagAndValue(flag: string, value: string, rest: seq<string>)
    requires TakesValue(flag) && flag != "--"
    ensures Strip([flag, value] + rest) == Strip(rest)
  {
    assert ([flag, value] + rest)[2..] == rest;
  }

  /** Stripping undoes injection: LiveKit sees what it would see had the rewritten positionals never been typed. */
  lemma StripUndoesInject(argv: seq<string>)
    requires argv != []
    ensures Inject(argv) != [] && Inject(argv)[0] == argv[0]
    ensures Strip(Inject(argv)[1..]) == Strip(argv[1 + Rewritten(argv)..])
  {
    hide TakesValue, OpenRtcOnly, HasFlag, IsOption, Strip, IsWorkerCommand, IsDirCommand;
    InjectedFlags();
    var n, out := Rewritten(argv), Inject(argv);
    var tail := argv[1 + n..];
    if n == 1 {
      assert out[1..] == ["--agents-dir", argv[1]] + tail;
      StripFlagAndValue("--agents-dir", argv[1], tail);
    } else if n == 2 {
      var mid := ["--metrics-jsonl", argv[2]] + tail;
      assert out[1..] == ["--agents-dir", argv[1]] + mid;
      StripFlagAndValue("--metrics-jsonl", argv[2], tail);
      StripFlagAndValue("--agents-dir", argv[1], mid);
    }
  }

  /** Injection only adds tokens, none when nothing is rewritten, one flag for each rewritten positional. */
  lemma InjectOnlyAdds(argv: seq<string>)
    ensures |Inject(argv)| == |argv| + Rewritten(argv)
    ensures IsSubsequence(argv, Inject(argv))
  {
    hide HasFlag, IsOption, IsSubsequence;
    SubsequenceSelf(argv);
    var n := Rewritten(argv);
    if n > 0 {
      var tail := argv[1 + n..];
      var before, after := argv[..1 + n],
        if n == 1 then [argv[0], "--agents-dir", argv[1]]
          else [argv[0], "--agents-dir", argv[1], "--metrics-jsonl", argv[2]];
      assert argv == before + tail && Inject(argv) == after + tail;
      if n == 1 { DirFlagAdded(argv[0], argv[1]); } else { FlagsAdded(argv[0], argv[1], argv[2]); }
      assert before == if n == 1 then [argv[0], argv[1]] else [argv[0], argv[1], argv[2]];
      SubsequenceTail(before, after, tail);
    }
  }

  lemma DirFlagAdded(command: string, dir: string)
    ensures IsSubsequence([command, dir], [command, "--agents-dir", dir])
  {
    var one, flagged := [command], [command, "--agents-dir"];
    SubsequenceSelf(one);
    SubsequenceSkip(one, one, "--agents-dir");
    hide IsSubsequence;
    assert flagged == one + ["--agents-dir"];
    SubsequenceKeep(one, flagged, dir);
    assert flagged + [dir] == [command, "--agents-dir", dir] && one + [dir] == [command, dir];
  }

  lemma FlagsAdded(command: string, dir: string, path: string)
    ensures IsSubsequence([command, dir, path], [command, "--agents-dir", dir, "--metrics-jsonl", path])
  {
    hide IsSubsequence;
    DirFlagAdded(command, dir);
    var less, more := [command, dir], [command, "--agents-dir", dir];
    SubsequenceSkip(less, more, "--metrics-jsonl");
    var flagged := [command, "--agents-dir", dir, "--metrics-jsonl"];
    assert more + ["--metrics-jsonl"] == flagged;
    SubsequenceKeep(less, flagged, path);
    assert less + [path] == [command, dir, path]
      && flagged + [path] == [command, "--agents-dir", dir, "--metrics-jsonl", path];
  }

  lemma InjectIdempotent(argv: seq<string>)
    ensures Inject(Inject(argv)) == Inject(argv)
  {
    hide TakesValue, HasFlag, IsOption;
    InjectedFlags();
  }
}
