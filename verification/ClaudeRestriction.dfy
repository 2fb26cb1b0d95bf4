/** Restricting keeps the denials and, done twice, changes nothing: exactly when. */
module ClaudeRestriction {
  import opened JsText
  import opened Sorting
  import opened ClaudeArgs

  // ---- Stripping what was added ---------------------------------------------------------------

  lemma StripBare(policy: Policy, arg: string, rest: seq<string>)
    requires ArgName(arg) in policy.bare
    ensures Strip(policy, [arg] + rest) == Strip(policy, rest)
  {
    assert ([arg] + rest)[1..] == rest;
  }

  lemma StripValue(policy: Policy, arg: string, value: string, rest: seq<string>)
    requires ArgName(arg) == arg && EqualsIndex(arg) < 0
    requires arg in policy.value && arg !in policy.bare && arg !in policy.variadic && !IsOption(value)
    ensures Strip(policy, [arg, value] + rest) == Strip(policy, rest)
  {
    hide IsOption;
    assert ([arg, value] + rest)[1..] == [value] + rest;
    assert ([value] + rest)[1..] == rest;
  }

  lemma StripVariadic(policy: Policy, arg: string, value: string, rest: seq<string>)
    requires ArgName(arg) == arg && EqualsIndex(arg) < 0
    requires arg in policy.variadic && arg !in policy.bare && !IsOption(value)
    requires rest == [] || IsOption(rest[0])
    ensures Strip(policy, [arg, value] + rest) == Strip(policy, rest)
  {
    hide IsOption;
    var args := [arg, value] + rest;
    assert args[1..] == [value] + rest && args[1..][1..] == rest;
    assert StripValues(policy, args[1..]) == StripValues(policy, rest);
  }

  lemma BareLength(x: string)
    requires x in Restricted().bare
    ensures |x| in {5, 6, 8, 11, 19, 24, 30, 36}
  {
  }

  lemma VariadicLength(x: string)
    requires x in Restricted().variadic
    ensures |x| in {6, 7, 9, 14, 15, 17, 18} && (|x| == 17 ==> x[2] == 'd')
  {
  }

  lemma ValueLength(x: string)
    requires x in Restricted().value
    ensures |x| >= 7
  {
  }

  predicate Standalone(arg: string) {
    ArgName(arg) == arg && arg in Restricted().bare
  }

  lemma {:induction false} StandaloneFlag(arg: string)
    requires arg in {DISABLE_SLASH_COMMANDS, NO_CHROME, STRICT_MCP_CONFIG}
    ensures Standalone(arg)
  {
    PlainFlag(arg);
  }

  /** The flags that are added hold no equals sign. */
  lemma {:induction false} PlainFlag(arg: string)
    requires arg in {DISABLE_SLASH_COMMANDS, NO_CHROME, STRICT_MCP_CONFIG, SETTING_SOURCES, SETTINGS, TOOLS,
                     ALLOWED_TOOLS, DISALLOWED_TOOLS}
    ensures ArgName(arg) == arg && EqualsIndex(arg) < 0
  {
    if arg == DISABLE_SLASH_COMMANDS { NamePlain(DISABLE_SLASH_COMMANDS); }
    else if arg == NO_CHROME { NamePlain(NO_CHROME); }
    else if arg == STRICT_MCP_CONFIG { NamePlain(STRICT_MCP_CONFIG); }
    else if arg == SETTING_SOURCES { NamePlain(SETTING_SOURCES); }
    else if arg == SETTINGS { NamePlain(SETTINGS); }
    else if arg == TOOLS { NamePlain(TOOLS); }
    else if arg == ALLOWED_TOOLS { NamePlain(ALLOWED_TOOLS); }
    else { NamePlain(DISALLOWED_TOOLS); }
  }

  predicate TakesOne(arg: string) {
    && ArgName(arg) == arg && EqualsIndex(arg) < 0
    && arg in Restricted().value && arg !in Restricted().bare && arg !in Restricted().variadic
  }

  predicate TakesMany(arg: string) {
    && ArgName(arg) == arg && EqualsIndex(arg) < 0
    && arg in Restricted().variadic && arg !in Restricted().bare
  }

  lemma {:induction false} ValueFlag(arg: string)
    requires arg in {SETTING_SOURCES, SETTINGS}
    ensures TakesOne(arg)
  {
    PlainFlag(arg);
    if arg in Restricted().bare {
      BareLength(arg);
    }
    if arg in Restricted().variadic {
      VariadicLength(arg);
    }
  }

  lemma {:induction false} VariadicFlag(arg: string)
    requires arg in {TOOLS, ALLOWED_TOOLS, DISALLOWED_TOOLS}
    ensures TakesMany(arg)
  {
    PlainFlag(arg);
    if arg in Restricted().bare {
      BareLength(arg);
    }
  }

  lemma FixedValues()
    ensures !IsOption("") && !IsOption(RESTRICTED_SETTINGS)
  {
    assert RESTRICTED_SETTINGS[0] == '{';
  }

  /** What stripping leaves of the value of a variadic option: nothing, unless it looks like an option and is
      none that the policy names. */
  function Left(value: string): seq<string> {
    if IsOption(value) && !Named(Restricted(), value) then [value] else []
  }

  /** The native tools as they are written behind `--tools`. */
  function NativeList(availability: Availability): string {
    Join(availability.native, ',')
  }

  lemma StripNamed(policy: Policy, arg: string, rest: seq<string>)
    requires Named(policy, arg) && (rest == [] || IsOption(rest[0]))
    ensures Strip(policy, [arg] + rest) == Strip(policy, rest)
  {
    hide ArgName, EqualsIndex, IsOption;
    assert ([arg] + rest)[1..] == rest;
  }

  lemma {:induction false} StripTaken(arg: string, value: string, rest: seq<string>)
    requires TakesMany(arg) && (rest == [] || IsOption(rest[0]))
    ensures Strip(Restricted(), [arg, value] + rest) == Left(value) + Strip(Restricted(), rest)
  {
    hide Restricted, ArgName, EqualsIndex, IsOption;
    var p, args := Restricted(), [arg, value] + rest;
    if !IsOption(value) {
      StripVariadic(p, arg, value, rest);
    } else {
      assert args[1..] == [value] + rest && ([value] + rest)[1..] == rest;
      assert Strip(p, args) == StripValues(p, [value] + rest) == Strip(p, [value] + rest);
      if Named(p, value) {
        StripNamed(p, value, rest);
      }
    }
  }

  /** The fixed arguments up to `--tools`. */
  function Head(): seq<string> {
    [SETTING_SOURCES, "", SETTINGS, RESTRICTED_SETTINGS, DISABLE_SLASH_COMMANDS, NO_CHROME, STRICT_MCP_CONFIG]
  }

  function Allowed(availability: Availability): seq<string> {
    if availability.openClaw == [] then [] else [ALLOWED_TOOLS, Join(McpNames(availability.openClaw), ',')]
  }

  lemma FixedParts(availability: Availability)
    ensures Fixed(availability) == Head() + [TOOLS, NativeList(availability)] + Allowed(availability)
  {
  }

  lemma {:induction false} StripHead(rest: seq<string>)
    ensures Strip(Restricted(), Head() + rest) == Strip(Restricted(), rest)
  {
    hide Restricted, Strip, ArgName, EqualsIndex, IsOption;
    StandaloneFlag(DISABLE_SLASH_COMMANDS);
    StandaloneFlag(NO_CHROME);
    StandaloneFlag(STRICT_MCP_CONFIG);
    ValueFlag(SETTING_SOURCES);
    ValueFlag(SETTINGS);
    FixedValues();
    var p := Restricted();
    var r2 := [STRICT_MCP_CONFIG] + rest;
    var r3 := [NO_CHROME] + r2;
    var r4 := [DISABLE_SLASH_COMMANDS] + r3;
    var r5 := [SETTINGS, RESTRICTED_SETTINGS] + r4;
    var r6 := [SETTING_SOURCES, ""] + r5;
    StripBare(p, STRICT_MCP_CONFIG, rest);
    StripBare(p, NO_CHROME, r2);
    StripBare(p, DISABLE_SLASH_COMMANDS, r3);
    StripValue(p, SETTINGS, RESTRICTED_SETTINGS, r4);
    StripValue(p, SETTING_SOURCES, "", r5);
    assert Head() + rest == r6;
  }

  lemma McpListIsValue(availability: Availability)
    requires availability.openClaw != []
    ensures !IsOption(Join(McpNames(availability.openClaw), ','))
  {
    var names := McpNames(availability.openClaw);
    assert names[0][0] == MCP_TOOL_PREFIX[0];
    assert Join(names, ',')[0] == names[0][0];
  }

  lemma {:induction false} StripDenials(denials: seq<string>)
    ensures Strip(Restricted(), DenialArgs(denials)) == Left(Join(denials, ','))
  {
    hide Restricted, ArgName, EqualsIndex, Named, IsOption, Left;
    if denials == [] {
      LeftNothing();
    } else {
      VariadicFlag(DISALLOWED_TOOLS);
      StripTaken(DISALLOWED_TOOLS, Join(denials, ','), []);
      assert [DISALLOWED_TOOLS, Join(denials, ',')] + [] == DenialArgs(denials);
    }
  }

  lemma LeftNothing()
    ensures Left("") == [] && Strip(Restricted(), []) == []
  {
    hide Restricted;
  }

  lemma {:induction false} StripAllowed(availability: Availability, rest: seq<string>)
    requires rest == [] || IsOption(rest[0])
    ensures Strip(Restricted(), Allowed(availability) + rest) == Strip(Restricted(), rest)
  {
    hide Restricted, Join, ArgName, EqualsIndex, Named, IsOption, Strip;
    if availability.openClaw == [] {
      assert Allowed(availability) + rest == rest;
    } else {
      McpListIsValue(availability);
      VariadicFlag(ALLOWED_TOOLS);
      StripVariadic(Restricted(), ALLOWED_TOOLS, Join(McpNames(availability.openClaw), ','), rest);
    }
  }

  lemma AddedAreOptions(availability: Availability, denials: seq<string>)
    ensures var d := DenialArgs(denials); d == [] || IsOption(d[0])
    ensures var more := Allowed(availability) + DenialArgs(denials); more == [] || IsOption(more[0])
  {
    assert DISALLOWED_TOOLS[0] == '-' && ALLOWED_TOOLS[0] == '-';
    hide Join;
  }

  /** Whatever restricting adds, stripping removes, except a tool or denial list that looks like an option. */
  lemma {:induction false} StripAdded(availability: Availability, denials: seq<string>)
    ensures Strip(Restricted(), Fixed(availability) + DenialArgs(denials)) ==
      Left(NativeList(availability)) + Left(Join(denials, ','))
  {
    hide Restricted, IsOption, Strip, DenialArgs, Left, NativeList, Fixed;
    var d := DenialArgs(denials);
    var more := Allowed(availability) + d;
    var tools := [TOOLS, NativeList(availability)];
    AddedAreOptions(availability, denials);
    StripDenials(denials);
    StripAllowed(availability, d);
    VariadicFlag(TOOLS);
    StripTaken(TOOLS, NativeList(availability), more);
    StripHead(tools + more);
    FixedParts(availability);
    assert Fixed(availability) + d == Head() + (tools + more);
  }

  // ---- Scanning what was added ----------------------------------------------------------------

  lemma FixedFlagsAreSilent()
    ensures Silent(SETTING_SOURCES) && Silent(SETTINGS) && Silent(DISABLE_SLASH_COMMANDS) && Silent(NO_CHROME)
    ensures Silent(STRICT_MCP_CONFIG) && Silent(TOOLS) && Silent(ALLOWED_TOOLS)
  {
    hide Silent;
    OtherwiseSilent(SETTING_SOURCES, 2);
    OtherwiseSilent(SETTINGS, 2);
    OtherwiseSilent(DISABLE_SLASH_COMMANDS, 6);
    OtherwiseSilent(NO_CHROME, 2);
    OtherwiseSilent(STRICT_MCP_CONFIG, 2);
    OtherwiseSilent(TOOLS, 2);
    OtherwiseSilent(ALLOWED_TOOLS, 2);
  }

  lemma HeadIsSilent()
    ensures forall i :: 0 <= i < |Head() + [TOOLS]| ==> Silent((Head() + [TOOLS])[i])
  {
    hide Silent, IsOption;
    FixedFlagsAreSilent();
    FixedValues();
    ValueIsSilent("");
    ValueIsSilent(RESTRICTED_SETTINGS);
  }

  lemma AllowedIsSilent(availability: Availability)
    ensures forall i :: 0 <= i < |Allowed(availability)| ==> Silent(Allowed(availability)[i])
  {
    hide Silent, IsOption;
    FixedFlagsAreSilent();
    if availability.openClaw != [] {
      McpListIsValue(availability);
      ValueIsSilent(Join(McpNames(availability.openClaw), ','));
    }
  }

  /** The denials that a tool list gives when it is read as an argument of its own. */
  function NativeDenials(list: string): seq<string> {
    if IsDenialPair(list) then Split(AfterEquals(list), ',') else []
  }

  lemma {:induction false} ScanOfList(list: string, rest: seq<string>)
    requires rest == [] || IsOption(rest[0])
    ensures Scan([list] + rest) == NativeDenials(list) + Scan(rest)
  {
    if IsDenialFlag(list) {
      FlagIsNoPair(list);
    }
    hide IsDenialFlag, IsDenialPair, AfterEquals, IsOption, Split;
    assert ([list] + rest)[1..] == rest;
  }

  lemma KeptIsSilent(args: seq<string>)
    ensures forall i :: 0 <= i < |Strip(Restricted(), args)| ==> Silent(Strip(Restricted(), args)[i])
  {
    hide Silent, Strip, Restricted, Named;
    StripKeepsUnnamed(Restricted(), args);
    forall i | 0 <= i < |Strip(Restricted(), args)| ensures Silent(Strip(Restricted(), args)[i]) {
      UnnamedIsSilent(Strip(Restricted(), args)[i]);
    }
  }

  /** The scan of the output sees the tool list, should it read as a denial, and the denials at its end. */
  lemma {:induction false} ScanOfRestricted(args: seq<string>, availability: Availability)
    ensures Scan(Restrict(args, availability)) ==
      NativeDenials(NativeList(availability)) + Scan(DenialArgs(Denials(Scan(args), availability)))
  {
    hide Silent, Strip, Fixed, DenialArgs, Denials, Scan, NativeList, NativeDenials, IsOption, Head, Allowed;
    var denials := Denials(Scan(args), availability);
    var d, list := DenialArgs(denials), NativeList(availability);
    var before, more := Strip(Restricted(), args) + (Head() + [TOOLS]), Allowed(availability) + d;
    KeptIsSilent(args);
    HeadIsSilent();
    AllowedIsSilent(availability);
    AddedAreOptions(availability, denials);
    FixedParts(availability);
    ScanSkips(before, [list] + more);
    ScanOfList(list, more);
    ScanSkips(Allowed(availability), d);
    assert Restrict(args, availability) == before + ([list] + more);
  }

  /** Denial arguments are read back entry by entry unless they look like an option. */
  lemma ScanOfDenials(denials: seq<string>)
    requires forall x :: x in denials ==> Proper(x)
    requires !IsOption(Join(denials, ','))
    ensures Scan(DenialArgs(denials)) == denials
  {
    if denials != [] {
      forall i | 0 <= i < |denials| ensures ',' !in denials[i] {
        assert denials[i] in denials;
      }
      SplitJoin(denials, ',');
      var value := Join(denials, ',');
      var args := DenialArgs(denials);
      assert args[1..] == [value] && [value][1..] == [];
      hide Split, Join, IsOption;
      assert Scan([]) == [] && ScanValues([]) == [];
      assert ScanValues([value]) == Split(value, ',') + [];
      assert IsDenialFlag(args[0]);
    }
  }

  /** The list as it is written would be taken for an option: its least entry starts with a dash. */
  predicate LooksLikeOption(denials: seq<string>) {
    denials != [] && IsOption(denials[0])
  }

  lemma LooksLikeOptionIff(denials: seq<string>)
    requires forall x :: x in denials ==> Proper(x)
    ensures IsOption(Join(denials, ',')) <==> LooksLikeOption(denials)
  {
    if denials != [] {
      assert denials[0] in denials;
      assert Join(denials, ',')[0] == denials[0][0];
    }
  }

  lemma OptionScan(denials: seq<string>)
    requires IsOption(Join(denials, ',')) && denials != []
    ensures Scan(DenialArgs(denials)) ==
      var value := Join(denials, ',');
      if IsDenialPair(value) then Split(AfterEquals(value), ',') else []
  {
    hide Split, Join, AfterEquals, IsDenialPair, IsOption;
    var value := Join(denials, ',');
    var args := DenialArgs(denials);
    assert args[1..] == [value] && [value][1..] == [];
    assert IsDenialFlag(args[0]);
    assert Scan([]) == [] && ScanValues([]) == [];
    assert Scan([value]) ==
      if IsDenialFlag(value) then [] else if IsDenialPair(value) then Split(AfterEquals(value), ',') + [] else [];
    if IsDenialFlag(value) {
      FlagIsNoPair(value);
    }
  }

  lemma FlagIsNoPair(arg: string)
    requires IsDenialFlag(arg)
    ensures !IsDenialPair(arg)
  {
    assert |DISALLOWED_TOOLS + "="| == 18 && |DISALLOWED_TOOLS_KEBAB + "="| == 19;
    assert DISALLOWED_TOOLS_KEBAB[12] != (DISALLOWED_TOOLS + "=")[12];
  }

  // ---- The theorems ---------------------------------------------------------------------------

  lemma {:induction false} JoinAfterFirst(denials: seq<string>, k: nat)
    requires denials != [] && k <= |denials[0]|
    ensures Join(denials, ',')[k..] == Join([denials[0][k..]] + denials[1..], ',')
  {
    var cut := [denials[0][k..]] + denials[1..];
    assert cut[1..] == denials[1..];
  }

  /** A least denial that starts with a dash is not read back. */
  lemma DashedIsLost(denials: seq<string>, availability: Availability)
    requires LooksLikeOption(denials) && (forall y :: y in denials ==> Proper(y))
    requires Ascending(Keys(denials, Whole))
    ensures !Denied(Scan(DenialArgs(denials)), availability, denials[0])
  {
    var first, value := denials[0], Join(denials, ',');
    assert first in denials;
    LooksLikeOptionIff(denials);
    OptionScan(denials);
    assert first[0] != DENY_MCP_TOOLS[0];
    var scanned := Scan(DenialArgs(denials));
    if IsDenialPair(value) {
      DenialFlagsArePlain();
      var flag := if StartsWith(value, DISALLOWED_TOOLS + "=") then DISALLOWED_TOOLS else DISALLOWED_TOOLS_KEBAB;
      NamePair(value, flag);
      CutInFirst(denials, flag);
      NamePair(first, flag);
      JoinAfterFirst(denials, |flag| + 1);
      CutSplits(denials, |flag| + 1);
      var cut := [AfterEquals(first)] + denials[1..];
      hide Split, Join, IsDenialPair, AfterEquals, Scan, Trim, Proper;
      if first in Cleaned(scanned) {
        CleanedEntries(scanned, first);
        var e :| e in scanned && Trim(e) == first;
        CutLosesFirst(denials, e);
      }
    }
  }

  lemma CutSplits(denials: seq<string>, n: nat)
    requires denials != [] && n <= |denials[0]| && forall y :: y in denials ==> Proper(y)
    ensures var cut := [denials[0][n..]] + denials[1..]; Split(Join(cut, ','), ',') == cut
  {
    var cut := [denials[0][n..]] + denials[1..];
    forall i | 0 <= i < |cut| ensures ',' !in cut[i] {
      assert denials[i] in denials;
    }
    SplitJoin(cut, ',');
  }

  lemma CommaAfterFirst(denials: seq<string>)
    requires |denials| > 1
    ensures |Join(denials, ',')| > |denials[0]| && Join(denials, ',')[|denials[0]|] == ','
  {
  }

  /** The flag and its equals sign hold no comma, so they lie inside the first entry. */
  lemma CutInFirst(denials: seq<string>, flag: string)
    requires denials != [] && flag in {DISALLOWED_TOOLS, DISALLOWED_TOOLS_KEBAB} && StartsWith(Join(denials, ','), flag + "=")
    ensures StartsWith(denials[0], flag + "=")
  {
    var value, pair := Join(denials, ','), flag + "=";
    assert ',' !in pair by {
      assert ',' !in DISALLOWED_TOOLS && ',' !in DISALLOWED_TOOLS_KEBAB;
    }
    if |denials| > 1 && |denials[0]| < |pair| {
      CommaAfterFirst(denials);
    }
    assert value[..|pair|] == pair;
    assert denials[0][..|pair|] == value[..|pair|];
  }

  lemma CutLosesFirst(denials: seq<string>, e: string)
    requires denials != [] && Ascending(Keys(denials, Whole)) && EqualsIndex(denials[0]) >= 0
    requires e in [AfterEquals(denials[0])] + denials[1..] && forall y :: y in denials ==> Proper(y)
    ensures Trim(e) != denials[0]
  {
    if e == AfterEquals(denials[0]) {
      TrimShortens(e);
    } else {
      var i :| 1 <= i < |denials| && denials[i] == e;
      assert e in denials;
      TrimmedIsFixed(e);
      assert PairLess(Keys(denials, Whole)[0], Keys(denials, Whole)[i]);
      PairTotal(Whole(denials[0]), Whole(e));
    }
  }

  lemma TrimShortens(s: string)
    ensures |Trim(s)| <= |s|
  {
    TrimStartShortens(s);
    TrimEndShortens(TrimStart(s));
  }

  lemma {:induction false} TrimStartShortens(s: string)
    ensures |TrimStart(s)| <= |s|
  {
    if s != [] && IsSpace(s[0]) {
      TrimStartShortens(s[1..]);
    }
  }

  lemma {:induction false} TrimEndShortens(s: string)
    ensures |TrimEnd(s)| <= |s|
  {
    if s != [] && IsSpace(s[|s| - 1]) {
      TrimEndShortens(s[..|s| - 1]);
    }
  }

  lemma {:induction false} CleanedAppend(a: seq<string>, b: seq<string>)
    ensures Cleaned(a + b) == Cleaned(a) + Cleaned(b)
  {
    hide Trim;
    if a == [] {
      assert a + b == b;
    } else {
      CleanedAppend(a[1..], b);
      assert (a + b)[0] == a[0] && (a + b)[1..] == a[1..] + b;
      var head := if Trim(a[0]) == "" then [] else [Trim(a[0])];
      assert Cleaned(a + b) == head + (Cleaned(a[1..]) + Cleaned(b));
      assert head + (Cleaned(a[1..]) + Cleaned(b)) == head + Cleaned(a[1..]) + Cleaned(b);
    }
  }

  /** Reading more denials in front of a list keeps the list exactly when it holds them all. */
  lemma {:induction false} MoreDenialsIff(more: seq<string>, scanned: seq<string>, availability: Availability)
    requires forall x :: x in Denials(scanned, availability) ==> Proper(x)
    ensures var denials := Denials(scanned, availability);
      Denials(more + denials, availability) == denials <==> forall x :: x in Cleaned(more) ==> x in denials
  {
    hide Denials, Proper, Cleaned, Keys;
    var denials := Denials(scanned, availability);
    DenialsListed(scanned, availability);
    DenialsListed(more + denials, availability);
    CleanedAppend(more, denials);
    CleanedProper(denials);
    if forall x :: x in Cleaned(more) ==> x in denials {
      forall x ensures Denied(more + denials, availability, x) <==> Denied(scanned, availability, x) {
        if availability.openClaw == [] && x == DENY_MCP_TOOLS {
          assert Denied(scanned, availability, x);
        }
      }
      SameDenials(more + denials, scanned, availability);
    } else {
      var x :| x in Cleaned(more) && x !in denials;
      assert Denied(more + denials, availability, x);
    }
  }

  /** The denials survive: reading the restricted command line gives the same list. */
  predicate DenialsKept(args: seq<string>, availability: Availability) {
    Denials(Scan(Restrict(args, availability)), availability) == Denials(Scan(args), availability)
  }

  /**
    Scanning the restricted command line finds the denials of the original again, with the MCP wildcard
    where no OpenClaw tool is allowed, exactly when the least of them does not start with a dash; a native
    tool list that itself reads as denials must add none. Where both go wrong, they survive
    exactly when the two readings together give the list.
  */
  lemma {:induction false} DenialsKeptIff(args: seq<string>, availability: Availability)
    ensures var denials, list := Denials(Scan(args), availability), NativeList(availability);
      && (!IsDenialPair(list) ==> (DenialsKept(args, availability) <==> !LooksLikeOption(denials)))
      && (!LooksLikeOption(denials) ==>
            && (DenialsKept(args, availability) <==> forall x :: x in Cleaned(NativeDenials(list)) ==> x in denials)
            && Scan(Restrict(args, availability)) == NativeDenials(list) + denials)
      && (DenialsKept(args, availability) <==>
           Denials(NativeDenials(list) + Scan(DenialArgs(denials)), availability) == denials)
  {
    hide Denials, Scan, Restrict, Denied, Proper, IsOption, Cleaned, DenialArgs, Keys, NativeList, IsDenialPair;
    var denials, list := Denials(Scan(args), availability), NativeList(availability);
    ScanOfRestricted(args, availability);
    DenialsAreProper(args, availability);
    DenialsListed(Scan(args), availability);
    LooksLikeOptionIff(denials);
    if !LooksLikeOption(denials) {
      ScanOfDenials(denials);
      MoreDenialsIff(NativeDenials(list), Scan(args), availability);
      NothingCleaned();
    } else if !IsDenialPair(list) {
      DashedIsLost(denials, availability);
      assert NativeDenials(list) + Scan(DenialArgs(denials)) == Scan(DenialArgs(denials));
      DenialsListed(Scan(DenialArgs(denials)), availability);
      assert denials[0] in denials;
    }
  }

  lemma NothingCleaned()
    ensures Cleaned([]) == []
  {
  }

  /** A list that a second restriction strips again. */
  predicate StripsAway(list: string) {
    !IsOption(list) || Named(Restricted(), list)
  }

  /**
    Restricting twice is restricting once exactly when the tool list and the denial list are stripped again
    and the denials survive; for a tool list that does not read as a denial, exactly when it is stripped
    again and the least denial does not start with a dash.
  */
  lemma {:induction false} RestrictTwiceIff(args: seq<string>, availability: Availability)
    ensures var denials, list := Denials(Scan(args), availability), NativeList(availability);
      var same := Restrict(Restrict(args, availability), availability) == Restrict(args, availability);
      && (same <==> StripsAway(list) && StripsAway(Join(denials, ',')) && DenialsKept(args, availability))
      && (!IsDenialPair(list) ==> (same <==> StripsAway(list) && !LooksLikeOption(denials)))
  {
    hide Restrict, Denials, Scan, IsDenialPair, Named, IsOption, NativeList, DenialsKept, Cleaned, Proper, Strip, Fixed;
    var once := Restrict(args, availability);
    var denials, again := Denials(Scan(args), availability), Denials(Scan(once), availability);
    var list := NativeList(availability);
    DenialsKeptIff(args, availability);
    DenialsAreProper(args, availability);
    LooksLikeOptionIff(denials);
    TwiceParts(args, availability);
    assert DenialsKept(args, availability) <==> again == denials by { ReadKept(args, availability); }
    RestrictParts(args, availability);
    var kept := Strip(Restricted(), args);
    assert kept + ([] + []) == kept;
    var left := Left(list) + Left(Join(denials, ','));
    OptionLeft(list);
    OptionLeft(Join(denials, ','));
    if Restrict(once, availability) == once {
      LastOf(availability);
      DenialsAreProper(once, availability);
      WildcardListed(Scan(once), availability);
      PartsCancel(kept, left, Fixed(availability), again, denials);
    }
  }

  lemma RestrictParts(args: seq<string>, availability: Availability)
    ensures Restrict(args, availability) ==
      Strip(Restricted(), args) + Fixed(availability) + DenialArgs(Denials(Scan(args), availability))
  {
  }

  lemma ReadKept(args: seq<string>, availability: Availability)
    ensures DenialsKept(args, availability) <==>
      Denials(Scan(Restrict(args, availability)), availability) == Denials(Scan(args), availability)
  {
  }

  /** The second restriction, in parts. */
  lemma {:induction false} TwiceParts(args: seq<string>, availability: Availability)
    ensures var once, denials := Restrict(args, availability), Denials(Scan(args), availability);
      Restrict(once, availability) ==
        Strip(Restricted(), args) + (Left(NativeList(availability)) + Left(Join(denials, ',')))
        + Fixed(availability) + DenialArgs(Denials(Scan(once), availability))
  {
    var denials := Denials(Scan(args), availability);
    StripAdded(availability, denials);
    hide Restricted, Denials, Scan, Fixed, DenialArgs, Named, Left, NativeList, Strip;
    var kept := Strip(Restricted(), args);
    StripKeepsUnnamed(Restricted(), args);
    var added := Fixed(availability) + DenialArgs(denials);
    StripKept(Restricted(), kept, added);
    assert Restrict(args, availability) == kept + added;
  }

  /** If two restrictions agree, nothing was left over and the denials are the same. */
  lemma {:induction false} PartsCancel(
    kept: seq<string>, left: seq<string>, fixed: seq<string>, again: seq<string>, denials: seq<string>)
    requires kept + left + fixed + DenialArgs(again) == kept + fixed + DenialArgs(denials)
    requires fixed != [] && (again == [] ==> !IsOption(fixed[|fixed| - 1]))
    requires |left| > 1 ==> IsOption(Join(denials, ','))
    requires (forall y :: y in again ==> Proper(y)) && (forall y :: y in denials ==> Proper(y))
    ensures left == [] && again == denials
  {
    hide IsOption, Proper;
    var a, b := DenialArgs(again), DenialArgs(denials);
    assert kept + left + fixed + a == kept + (left + (fixed + a));
    assert kept + fixed + b == kept + (fixed + b);
    Cancel(kept, left + (fixed + a), fixed + b);
    LastOfSeq(left, fixed);
    if b != [] {
      LastOfSeq(fixed, b);
    }
    if a == [] {
      assert left + (fixed + a) == left + fixed;
    }
    assert left == [];
    assert [] + (fixed + a) == fixed + a;
    Cancel(fixed, a, b);
    if denials != [] {
      SplitProper(denials);
      SplitProper(again);
    }
  }

  lemma OptionLeft(value: string)
    ensures Left(value) == [] || (Left(value) == [value] && IsOption(value))
  {
    hide IsOption, Named;
  }

  lemma Cancel(a: seq<string>, b: seq<string>, c: seq<string>)
    requires a + b == a + c
    ensures b == c
  {
    assert (a + b)[|a|..] == b && (a + c)[|a|..] == c;
  }

  lemma LastOfSeq(a: seq<string>, b: seq<string>)
    requires b != []
    ensures (a + b)[|a + b| - 1] == b[|b| - 1]
  {
  }

  lemma WildcardListed(scanned: seq<string>, availability: Availability)
    ensures availability.openClaw == [] ==> Denials(scanned, availability) != []
  {
    DenialsListed(scanned, availability);
    hide Denials, Cleaned;
    if availability.openClaw == [] {
      assert Denied(scanned, availability, DENY_MCP_TOOLS);
      assert DENY_MCP_TOOLS in Denials(scanned, availability);
    }
  }

  lemma SplitProper(denials: seq<string>)
    requires denials != [] && forall y :: y in denials ==> Proper(y)
    ensures Split(Join(denials, ','), ',') == denials
  {
    forall i | 0 <= i < |denials| ensures ',' !in denials[i] {
      assert denials[i] in denials;
    }
    SplitJoin(denials, ',');
  }

  /** Where OpenClaw tools are allowed, the last fixed argument is not an option. */
  lemma LastOf(availability: Availability)
    ensures Fixed(availability) != []
    ensures availability.openClaw != [] ==> !IsOption(Fixed(availability)[|Fixed(availability)| - 1])
  {
    hide Join, IsOption;
    if availability.openClaw != [] {
      McpListIsValue(availability);
    }
  }

  /** Denying `-x` alone: the denial is lost on the second reading. */
  lemma DashedDenialIsLost()
    ensures var availability := Availability(["Read"], ["send"]);
      var args := [DISALLOWED_TOOLS + "=-x"];
      && Denials(Scan(args), availability) == ["-x"]
      && Restrict(Restrict(args, availability), availability) != Restrict(args, availability)
  {
    var availability := Availability(["Read"], ["send"]);
    var args := [DISALLOWED_TOOLS + "=-x"];
    DashedScan();
    hide Scan, Denials, Restrict, Proper;
    assert forall x :: x in ["-x"] ==> Proper(x) by { DashedIsProper(); }
    CleanedProper(["-x"]);
    DenialsListed(["-x"], availability);
    OnlyOne(Denials(["-x"], availability), "-x");
    assert Join(availability.native, ',') == "Read";
    RestrictTwiceIff(args, availability);
  }

  /** Allowing only a native tool `-x`: the second restriction takes it for an option and keeps it twice. */
  lemma {:induction false} DashedToolIsKept(args: seq<string>)
    ensures var availability := Availability(["-x"], ["send"]);
      Restrict(Restrict(args, availability), availability) != Restrict(args, availability)
  {
    var availability := Availability(["-x"], ["send"]);
    assert NativeList(availability) == "-x";
    OtherwiseSilent("-x", 2);
    DashedIsUnnamed();
    RestrictTwiceIff(args, availability);
    hide Restrict, Denials, Scan, DenialsKept, Join, IsDenialPair, Restricted;
  }

  lemma DashedIsUnnamed()
    ensures !Named(Restricted(), "-x") && IsOption("-x")
  {
    NamePlain("-x");
    if "-x" in Restricted().bare {
      BareLength("-x");
    }
    if "-x" in Restricted().variadic {
      VariadicLength("-x");
    }
    if "-x" in Restricted().value {
      ValueLength("-x");
    }
  }

  lemma DashedIsProper()
    ensures Proper("-x")
  {
  }

  lemma DashedScan()
    ensures Scan([DISALLOWED_TOOLS + "=-x"]) == ["-x"]
  {
    var arg := DISALLOWED_TOOLS + "=-x";
    DenialFlagsArePlain();
    assert StartsWith(arg, DISALLOWED_TOOLS + "=") by {
      assert arg == DISALLOWED_TOOLS + "=" + "-x";
    }
    NamePair(arg, DISALLOWED_TOOLS);
    assert AfterEquals(arg) == "-x";
    SplitPlain("-x", ',');
    assert !IsDenialFlag(arg) && [arg][1..] == [];
    assert Scan([]) == [];
    assert ["-x"] + [] == ["-x"];
  }

  lemma OnlyOne(s: seq<string>, x: string)
    requires Ascending(Keys(s, Whole)) && forall y :: y in s <==> y == x
    ensures s == [x]
  {
    assert x in s;
    if |s| > 1 {
      assert s[0] in s && s[1] in s;
      assert PairLess(Keys(s, Whole)[0], Keys(s, Whole)[1]);
      PairTotal(Whole(x), Whole(x));
    }
  }
}
