/**
  Restricting the command line of the Claude CLI: arguments that could widen what a run may do are
  stripped, and the denials that the caller had given are collected and put back.
*/
module ClaudeArgs {
  import opened JsText
  import opened OrderedSets
  import opened Sorting

  const SETTING_SOURCES := "--setting-sources"
  const SETTINGS := "--settings"
  const DISABLE_SLASH_COMMANDS := "--disable-slash-commands"
  const NO_CHROME := "--no-chrome"
  const STRICT_MCP_CONFIG := "--strict-mcp-config"
  const TOOLS := "--tools"
  const ALLOWED_TOOLS := "--allowedTools"
  const DISALLOWED_TOOLS := "--disallowedTools"
  const DISALLOWED_TOOLS_KEBAB := "--disallowed-tools"
  const DENY_MCP_TOOLS := "mcp__*"
  const MCP_TOOL_PREFIX := "mcp__openclaw__"
  const RESTRICTED_SETTINGS :=
    "{" + "\"disableAllHooks\":true,\"enabledPlugins\":{},\"autoMemoryEnabled\":false,\"claudeMdExcludes\":[\"**/CLAUDE.md\",\"**/CLAUDE.local.md\",\"**/.claude/rules/**\"]}"

  /** Which arguments are stripped: alone, with all the values that follow, or with one value. */
  datatype Policy = Policy(bare: set<string>, variadic: set<string>, value: set<string>)

  function Restricted(): Policy {
    Policy(
      {"--bare", "--safe-mode", DISABLE_SLASH_COMMANDS, "--chrome", NO_CHROME, STRICT_MCP_CONFIG,
       "--dangerously-skip-permissions", "--allow-dangerously-skip-permissions", "--ide"},
      {TOOLS, ALLOWED_TOOLS, "--allowed-tools", DISALLOWED_TOOLS, DISALLOWED_TOOLS_KEBAB, "--add-dir", "--file"},
      {"--permission-mode", SETTING_SOURCES, SETTINGS, "--agent", "--agents", "--managed-settings", "--plugin-dir",
       "--plugin-dir-no-mcp", "--plugin-url", "--system-prompt", "--system-prompt-file", "--append-system-prompt",
       "--append-system-prompt-file"})
  }

  /** The native tools and the OpenClaw tools that the run may use. */
  datatype Availability = Availability(native: seq<string>, openClaw: seq<string>)

  // ---- Reading arguments ----------------------------------------------------------------------

  /** `arg.indexOf("=")`. */
  function EqualsIndex(arg: string): (r: int)
    ensures -1 <= r < |arg| && (r >= 0 ==> arg[r] == '=')
    ensures forall j :: 0 <= j < (if r < 0 then |arg| else r) ==> arg[j] != '='
  {
    if arg == [] then -1
    else if arg[0] == '=' then 0
    else var r := EqualsIndex(arg[1..]); if r < 0 then -1 else r + 1
  }

  function ArgName(arg: string): string {
    if EqualsIndex(arg) > 0 then arg[..EqualsIndex(arg)] else arg
  }

  predicate IsOption(arg: string) {
    StartsWith(arg, "-")
  }

  predicate Named(policy: Policy, arg: string) {
    ArgName(arg) in policy.bare || ArgName(arg) in policy.variadic || ArgName(arg) in policy.value
  }

  function Strip(policy: Policy, args: seq<string>): seq<string>
    decreases |args|, 0
  {
    if args == [] then []
    else
      var name, plain, rest := ArgName(args[0]), EqualsIndex(args[0]) < 0, args[1..];
      if name in policy.bare then Strip(policy, rest)
      else if name in policy.variadic then if plain then StripValues(policy, rest) else Strip(policy, rest)
      else if name in policy.value then
        if plain && rest != [] && !IsOption(rest[0]) then Strip(policy, rest[1..]) else Strip(policy, rest)
      else [args[0]] + Strip(policy, rest)
  }

  /** The same, when values of a variadic option may come first. */
  function StripValues(policy: Policy, args: seq<string>): seq<string>
    decreases |args|, 1
  {
    if args == [] || IsOption(args[0]) then Strip(policy, args) else StripValues(policy, args[1..])
  }

  /** One argument of the strip, seen from the whole command line. */
  lemma StripAt(policy: Policy, args: seq<string>, i: nat)
    requires i < |args|
    ensures Strip(policy, args[i..]) ==
      var name, plain := ArgName(args[i]), EqualsIndex(args[i]) < 0;
      if name in policy.bare then Strip(policy, args[i + 1..])
      else if name in policy.variadic then
        if plain then StripValues(policy, args[i + 1..]) else Strip(policy, args[i + 1..])
      else if name in policy.value then
        if plain && i + 1 < |args| && !IsOption(args[i + 1]) then Strip(policy, args[i + 2..])
        else Strip(policy, args[i + 1..])
      else [args[i]] + Strip(policy, args[i + 1..])
  {
    assert args[i..][1..] == args[i + 1..];
    assert i + 1 < |args| ==> args[i + 1..][1..] == args[i + 2..];
  }

  lemma StripValuesAt(policy: Policy, args: seq<string>, i: nat)
    requires i <= |args|
    ensures StripValues(policy, args[i..]) ==
      if i == |args| || IsOption(args[i]) then Strip(policy, args[i..]) else StripValues(policy, args[i + 1..])
  {
    assert i < |args| ==> args[i..][1..] == args[i + 1..];
  }

  lemma StripEnds(policy: Policy)
    ensures Strip(policy, []) == []
  {
  }

  /** `stripClaudeArgs`. */
  method StripClaudeArgs(args: seq<string>, policy: Policy) returns (normalized: seq<string>)
    ensures normalized == Strip(policy, args)
  {
    hide IsOption, Strip, StripValues, EqualsIndex;
    normalized := [];
    var i := 0;
    assert args[0..] == args;
    while i < |args|
      invariant 0 <= i <= |args|
      invariant normalized + Strip(policy, args[i..]) == Strip(policy, args)
      decreases |args| - i
    {
      var arg := args[i];
      var equalsIndex := EqualsIndex(arg);
      var argName := if equalsIndex > 0 then arg[..equalsIndex] else arg;
      StripAt(policy, args, i);
      if argName in policy.bare {
      } else if argName in policy.variadic {
        if equalsIndex < 0 {
          while i + 1 < |args| && !IsOption(args[i + 1])
            invariant 0 <= i < |args|
            invariant normalized + StripValues(policy, args[i + 1..]) == Strip(policy, args)
          {
            StripValuesAt(policy, args, i + 1);
            i := i + 1;
          }
          StripValuesAt(policy, args, i + 1);
        }
      } else if argName in policy.value {
        if equalsIndex < 0 {
          if i + 1 < |args| && !IsOption(args[i + 1]) {
            i := i + 1;
          }
        }
      } else {
        normalized := normalized + [arg];
      }
      i := i + 1;
    }
    assert args[i..] == [];
    StripEnds(policy);
  }

  // ---- Denials --------------------------------------------------------------------------------

  predicate IsDenialFlag(arg: string) {
    arg == DISALLOWED_TOOLS || arg == DISALLOWED_TOOLS_KEBAB
  }

  predicate IsDenialPair(arg: string) {
    StartsWith(arg, DISALLOWED_TOOLS + "=") || StartsWith(arg, DISALLOWED_TOOLS_KEBAB + "=")
  }

  function AfterEquals(arg: string): string {
    arg[EqualsIndex(arg) + 1..]
  }

  /** The denials that a command line gives, as they are written. */
  function Scan(args: seq<string>): seq<string>
    decreases |args|, 0
  {
    if args == [] then []
    else if IsDenialFlag(args[0]) then ScanValues(args[1..])
    else if IsDenialPair(args[0]) then Split(AfterEquals(args[0]), ',') + Scan(args[1..])
    else Scan(args[1..])
  }

  /** The same, when values of a denial flag may come first. */
  function ScanValues(args: seq<string>): seq<string>
    decreases |args|, 1
  {
    if args == [] || IsOption(args[0]) then Scan(args)
    else Split(args[0], ',') + ScanValues(args[1..])
  }

  method ScanDenials(args: seq<string>) returns (denials: seq<string>)
    ensures denials == Scan(args)
  {
    hide IsDenialFlag, IsDenialPair, AfterEquals, IsOption, Split;
    denials := [];
    var i := 0;
    while i < |args|
      invariant 0 <= i <= |args|
      invariant denials + Scan(args[i..]) == Scan(args)
      decreases |args| - i
    {
      var arg := args[i];
      assert args[i..][1..] == args[i + 1..];
      if IsDenialFlag(arg) {
        while i + 1 < |args| && !IsOption(args[i + 1])
          invariant 0 <= i < |args|
          invariant denials + ScanValues(args[i + 1..]) == Scan(args)
        {
          assert args[i + 1..][1..] == args[i + 2..];
          i := i + 1;
          denials := denials + Split(args[i], ',');
        }
      } else if IsDenialPair(arg) {
        denials := denials + Split(AfterEquals(arg), ',');
      }
      i := i + 1;
    }
  }

  /** Entries trimmed, empty ones dropped. */
  function Cleaned(entries: seq<string>): seq<string> {
    if entries == [] then []
    else (if Trim(entries[0]) == "" then [] else [Trim(entries[0])]) + Cleaned(entries[1..])
  }

  function Whole(entry: string): Pair {
    Pair(entry, "")
  }

  /** The denials that are put back, given those that were read. */
  function Denials(scanned: seq<string>, availability: Availability): seq<string> {
    Sort(Dedupe(Cleaned(scanned) + (if availability.openClaw == [] then [DENY_MCP_TOOLS] else [])), Whole)
  }

  function McpNames(tools: seq<string>): (r: seq<string>)
    ensures |r| == |tools| && forall i :: 0 <= i < |tools| ==> r[i] == MCP_TOOL_PREFIX + tools[i]
  {
    seq(|tools|, i requires 0 <= i < |tools| => MCP_TOOL_PREFIX + tools[i])
  }

  /** The arguments that are always added. */
  function Fixed(availability: Availability): seq<string> {
    [SETTING_SOURCES, "", SETTINGS, RESTRICTED_SETTINGS, DISABLE_SLASH_COMMANDS, NO_CHROME, STRICT_MCP_CONFIG,
     TOOLS, Join(availability.native, ',')]
    + (if availability.openClaw == [] then [] else [ALLOWED_TOOLS, Join(McpNames(availability.openClaw), ',')])
  }

  function DenialArgs(denials: seq<string>): seq<string> {
    if denials == [] then [] else [DISALLOWED_TOOLS, Join(denials, ',')]
  }

  function Restrict(args: seq<string>, availability: Availability): seq<string> {
    Strip(Restricted(), args) + Fixed(availability) + DenialArgs(Denials(Scan(args), availability))
  }

  /** `resolveClaudeCliRestrictedExecutionArgs`. */
  method ResolveRestrictedExecutionArgs(baseArgs: seq<string>, availability: Availability)
    returns (normalized: seq<string>)
    ensures normalized == Restrict(baseArgs, availability)
  {
    var preservedDenials := ScanDenials(baseArgs);
    normalized := StripClaudeArgs(baseArgs, Restricted());
    normalized := normalized + Fixed(availability);
    var denials := Denials(preservedDenials, availability);
    if |denials| > 0 {
      normalized := normalized + [DISALLOWED_TOOLS, Join(denials, ',')];
    }
  }

  // ---- The denial list ------------------------------------------------------------------------

  lemma {:induction false} CleanedEntries(entries: seq<string>, x: string)
    ensures x in Cleaned(entries) <==> x != "" && exists e :: e in entries && Trim(e) == x
  {
    if entries != [] {
      CleanedEntries(entries[1..], x);
      assert entries == [entries[0]] + entries[1..];
    }
  }

  /** `x` is to be denied. */
  predicate Denied(scanned: seq<string>, availability: Availability, x: string) {
    x in Cleaned(scanned) || (availability.openClaw == [] && x == DENY_MCP_TOOLS)
  }

  /** The list holds exactly what is to be denied, once, in ascending order. */
  lemma DenialsListed(scanned: seq<string>, availability: Availability)
    ensures Ascending(Keys(Denials(scanned, availability), Whole))
    ensures forall x :: x in Denials(scanned, availability) <==> Denied(scanned, availability, x)
  {
    hide Cleaned, AddAll, Sort;
    var all := Cleaned(scanned) + if availability.openClaw == [] then [DENY_MCP_TOOLS] else [];
    AddAllEntries([], all);
    assert Distinct(Dedupe(all), Whole);
    SortAscends(Dedupe(all), Whole);
    forall x ensures x in Denials(scanned, availability) <==> Denied(scanned, availability, x) {
      SameElements(Dedupe(all), Whole, x);
    }
  }

  lemma SameDenials(a: seq<string>, b: seq<string>, availability: Availability)
    requires forall x :: Denied(a, availability, x) <==> Denied(b, availability, x)
    ensures Denials(a, availability) == Denials(b, availability)
  {
    DenialsListed(a, availability);
    DenialsListed(b, availability);
    hide Denials, Denied;
    var x, y := Denials(a, availability), Denials(b, availability);
    WholeKeys(x);
    WholeKeys(y);
    AscendingUnique(Keys(x, Whole), Keys(y, Whole));
    forall i | 0 <= i < |x| ensures x[i] == y[i] {
      assert Keys(x, Whole)[i] == Keys(y, Whole)[i];
    }
    assert |x| == |Keys(x, Whole)| == |Keys(y, Whole)| == |y|;
  }

  lemma WholeKeys(s: seq<string>)
    ensures forall p :: p in Keys(s, Whole) <==> p.minor == "" && p.major in s
  {
    var keys := Keys(s, Whole);
    forall p ensures p in keys <==> p.minor == "" && p.major in s {
      if p.minor == "" && p.major in s {
        var i :| 0 <= i < |s| && s[i] == p.major;
        assert keys[i] == p;
      }
    }
  }

  // ---- What denials look like -----------------------------------------------------------------

  /** An entry that survives being written and read again. */
  predicate Proper(x: string) {
    x != "" && Trimmed(x) && ',' !in x
  }

  lemma {:induction false} ScannedHasNoComma(args: seq<string>)
    ensures forall i :: 0 <= i < |Scan(args)| ==> ',' !in Scan(args)[i]
    ensures forall i :: 0 <= i < |ScanValues(args)| ==> ',' !in ScanValues(args)[i]
    decreases |args|
  {
    hide IsDenialFlag, IsDenialPair, AfterEquals, IsOption, Split;
    if args != [] {
      ScannedHasNoComma(args[1..]);
      SplitHasNoSeparator(args[0], ',');
      SplitHasNoSeparator(AfterEquals(args[0]), ',');
    }
  }

  lemma DenialsAreProper(args: seq<string>, availability: Availability)
    ensures forall x :: x in Denials(Scan(args), availability) ==> Proper(x)
  {
    hide Scan, Denials, Trim;
    DenialsListed(Scan(args), availability);
    forall x | x in Denials(Scan(args), availability) ensures Proper(x) {
      assert Denied(Scan(args), availability, x);
      if x in Cleaned(Scan(args)) {
        CleanedEntries(Scan(args), x);
        ScannedHasNoComma(args);
        var e :| e in Scan(args) && Trim(e) == x;
        TrimIsTrimmed(e);
        TrimAddsNothing(e);
      }
    }
  }

  lemma {:induction false} CleanedProper(entries: seq<string>)
    requires forall x :: x in entries ==> Proper(x)
    ensures Cleaned(entries) == entries
  {
    if entries != [] {
      assert entries[0] in entries;
      TrimmedIsFixed(entries[0]);
      CleanedProper(entries[1..]);
      assert entries == [entries[0]] + entries[1..];
    }
  }

  // ---- Reading the output again ---------------------------------------------------------------

  /** Arguments that the scan skips: neither a denial flag nor a denial pair. */
  predicate Silent(arg: string) {
    !IsDenialFlag(arg) && !IsDenialPair(arg)
  }

  lemma {:induction false} ScanSkips(silent: seq<string>, rest: seq<string>)
    requires forall i :: 0 <= i < |silent| ==> Silent(silent[i])
    ensures Scan(silent + rest) == Scan(rest)
  {
    if silent == [] {
      assert silent + rest == rest;
    } else {
      ScanSkips(silent[1..], rest);
      assert (silent + rest)[1..] == silent[1..] + rest;
    }
  }

  ghost predicate NoneNamed(policy: Policy, args: seq<string>) {
    forall i :: 0 <= i < |args| ==> !Named(policy, args[i])
  }

  /** Nothing that the policy names is kept. */
  lemma {:induction false} StripKeepsUnnamed(policy: Policy, args: seq<string>)
    ensures NoneNamed(policy, Strip(policy, args)) && NoneNamed(policy, StripValues(policy, args))
    decreases |args|
  {
    hide ArgName, EqualsIndex, IsOption;
    if args != [] {
      StripKeepsUnnamed(policy, args[1..]);
      if |args| > 1 {
        StripKeepsUnnamed(policy, args[2..]);
        assert args[1..][1..] == args[2..];
      }
    }
  }

  lemma {:induction false} StripKept(policy: Policy, kept: seq<string>, rest: seq<string>)
    requires NoneNamed(policy, kept)
    ensures Strip(policy, kept + rest) == kept + Strip(policy, rest)
  {
    hide ArgName, EqualsIndex, IsOption;
    if kept == [] {
      assert kept + rest == rest;
    } else {
      StripKept(policy, kept[1..], rest);
      assert (kept + rest)[1..] == kept[1..] + rest;
      assert kept == [kept[0]] + kept[1..];
    }
  }

  // ---- The flags ------------------------------------------------------------------------------

  lemma NamePlain(arg: string)
    requires forall j :: 0 <= j < |arg| ==> arg[j] != '='
    ensures ArgName(arg) == arg && EqualsIndex(arg) == -1
  {
  }

  lemma NamePair(arg: string, flag: string)
    requires StartsWith(arg, flag + "=") && |flag| > 0 && forall j :: 0 <= j < |flag| ==> flag[j] != '='
    ensures ArgName(arg) == flag && EqualsIndex(arg) == |flag|
  {
    assert arg[|flag|] == (flag + "=")[|flag|];
    assert forall j :: 0 <= j < |flag| ==> arg[j] == (flag + "=")[j];
    assert arg[..|flag|] == flag;
  }

  lemma DenialFlagsArePlain()
    ensures forall j :: 0 <= j < |DISALLOWED_TOOLS| ==> DISALLOWED_TOOLS[j] != '='
    ensures forall j :: 0 <= j < |DISALLOWED_TOOLS_KEBAB| ==> DISALLOWED_TOOLS_KEBAB[j] != '='
  {
  }

  /** What stripping keeps gives no denial. */
  lemma UnnamedIsSilent(arg: string)
    requires !Named(Restricted(), arg)
    ensures Silent(arg)
  {
    DenialFlagsArePlain();
    if IsDenialFlag(arg) {
      NamePlain(arg);
    }
    if StartsWith(arg, DISALLOWED_TOOLS + "=") {
      NamePair(arg, DISALLOWED_TOOLS);
    }
    if StartsWith(arg, DISALLOWED_TOOLS_KEBAB + "=") {
      NamePair(arg, DISALLOWED_TOOLS_KEBAB);
    }
  }

  const COMMON := "--disallowed"

  lemma OtherwiseSilent(arg: string, k: nat)
    requires k < |COMMON| && (k >= |arg| || arg[k] != COMMON[k])
    ensures Silent(arg)
  {
    assert COMMON <= DISALLOWED_TOOLS && COMMON <= DISALLOWED_TOOLS_KEBAB;
    assert COMMON[k] == DISALLOWED_TOOLS[k] == DISALLOWED_TOOLS_KEBAB[k];
    assert (DISALLOWED_TOOLS + "=")[k] == COMMON[k] && (DISALLOWED_TOOLS_KEBAB + "=")[k] == COMMON[k];
  }

  lemma ValueIsSilent(arg: string)
    requires !IsOption(arg)
    ensures Silent(arg)
  {
    OtherwiseSilent(arg, 0);
  }
}
