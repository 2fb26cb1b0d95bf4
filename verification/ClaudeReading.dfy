/**
  What a command line says, position by position: which denials it gives and which arguments survive
  stripping, independently of the loops that find out.
*/
module ClaudeReading {
  import opened JsText
  import opened Sorting
  import opened ClaudeArgs
  import opened ClaudeRestriction

  // ---- Comma-separated entries ----------------------------------------------------------------

  /** `e` stands in `text` between commas or ends, and holds no comma. */
  predicate EntryAt(text: string, e: string, a: nat) {
    && a + |e| <= |text| && text[a..a + |e|] == e && ',' !in e
    && (a == 0 || text[a - 1] == ',')
    && (a + |e| == |text| || text[a + |e|] == ',')
  }

  predicate IsEntry(text: string, e: string) {
    exists a :: 0 <= a <= |text| && EntryAt(text, e, a)
  }

  lemma {:induction false} EntryInTail(c: char, rest: string, e: string, a: nat)
    requires 1 <= a <= |rest| + 1
    ensures EntryAt([c] + rest, e, a) <==> EntryAt(rest, e, a - 1) && (a > 1 || c == ',')
  {
    var text := [c] + rest;
    assert a + |e| <= |text| ==> text[a..a + |e|] == rest[a - 1..a - 1 + |e|];
  }

  /** The entry in front: up to the first comma. */
  lemma {:induction false} FrontEntry(text: string, e: string)
    ensures EntryAt(text, e, 0) <==> e == Split(text, ',')[0]
  {
    if text == [] {
    } else if text[0] == ',' {
      assert 0 < |e| <= |text| ==> text[0..|e|][0] == ',';
    } else {
      var rest := text[1..];
      assert text == [text[0]] + rest;
      if e == [] {
        assert !EntryAt(text, e, 0);
      } else {
        FrontEntry(rest, e[1..]);
        assert e == [e[0]] + e[1..];
        assert |e| <= |text| ==> text[..|e|][1..] == rest[..|e| - 1];
        assert |e| <= |text| && text[..|e|] == e ==> rest[..|e| - 1] == e[1..];
        assert |e| <= |text| && rest[..|e| - 1] == e[1..] && e[0] == text[0] ==> text[..|e|] == e;
      }
    }
  }

  /** Splitting at commas finds exactly the entries. */
  lemma {:induction false} SplitEntries(text: string, e: string)
    ensures e in Split(text, ',') <==> IsEntry(text, e)
  {
    FrontEntry(text, e);
    if text != [] {
      var c, rest := text[0], text[1..];
      assert text == [c] + rest;
      SplitEntries(rest, e);
      FrontEntry(rest, e);
      forall a | 1 <= a <= |text| ensures EntryAt(text, e, a) <==> EntryAt(rest, e, a - 1) && (a > 1 || c == ',') {
        EntryInTail(c, rest, e, a);
      }
      LaterEntries(text, e);
    }
  }

  /** The entries behind the first one. */
  lemma {:induction false} LaterEntries(text: string, e: string)
    requires text != []
    requires forall a :: 1 <= a <= |text| ==>
      (EntryAt(text, e, a) <==> EntryAt(text[1..], e, a - 1) && (a > 1 || text[0] == ','))
    requires e in Split(text[1..], ',') <==> IsEntry(text[1..], e)
    requires EntryAt(text[1..], e, 0) <==> e == Split(text[1..], ',')[0]
    requires EntryAt(text, e, 0) <==> e == Split(text, ',')[0]
    ensures e in Split(text, ',') <==> IsEntry(text, e)
  {
    var c, rest := text[0], text[1..];
    var parts := Split(rest, ',');
    if c == ',' {
      assert Split(text, ',') == [""] + parts;
      if IsEntry(text, e) {
        var a :| 0 <= a <= |text| && EntryAt(text, e, a);
        if a > 0 {
          assert EntryAt(rest, e, a - 1);
        }
      }
      if IsEntry(rest, e) {
        var a :| 0 <= a <= |rest| && EntryAt(rest, e, a);
        assert EntryAt(text, e, a + 1);
      }
    } else {
      assert Split(text, ',') == [[c] + parts[0]] + parts[1..];
      EntriesBehind(rest, e);
      if IsEntry(text, e) {
        var a :| 0 <= a <= |text| && EntryAt(text, e, a);
        if a > 0 {
          assert EntryAt(rest, e, a - 1) && a - 1 > 0;
        }
      }
      if e in parts[1..] {
        var a :| 0 < a <= |rest| && EntryAt(rest, e, a);
        assert EntryAt(text, e, a + 1);
      }
    }
  }

  lemma {:induction false} EntriesBehind(text: string, e: string)
    ensures e in Split(text, ',')[1..] <==> exists a :: 0 < a <= |text| && EntryAt(text, e, a)
    decreases |text|
  {
    if text != [] {
      var c, rest := text[0], text[1..];
      assert text == [c] + rest;
      EntriesBehind(rest, e);
      FrontEntry(rest, e);
      var parts := Split(rest, ',');
      assert parts == [parts[0]] + parts[1..];
      forall a | 1 <= a <= |text| ensures EntryAt(text, e, a) <==> EntryAt(rest, e, a - 1) && (a > 1 || c == ',') {
        EntryInTail(c, rest, e, a);
      }
      if a :| 0 < a <= |text| && EntryAt(text, e, a) {
        assert EntryAt(rest, e, a - 1);
      }
      if a :| 0 < a <= |rest| && EntryAt(rest, e, a) {
        assert EntryAt(text, e, a + 1);
      }
      if c == ',' && EntryAt(rest, e, 0) {
        assert EntryAt(text, e, 1);
      }
    }
  }

  // ---- Denials --------------------------------------------------------------------------------

  predicate Dashed(arg: string) {
    |arg| > 0 && arg[0] == '-'
  }

  predicate DenialFlag(arg: string) {
    arg == "--disallowedTools" || arg == "--disallowed-tools"
  }

  /** `arg` is a denial flag, an equals sign and a list that holds `e`. */
  predicate PairGives(arg: string, e: string) {
    || ("--disallowedTools=" <= arg && IsEntry(arg[18..], e))
    || ("--disallowed-tools=" <= arg && IsEntry(arg[19..], e))
  }

  /** `e` stands in one of the values in front. */
  predicate FrontGives(args: seq<string>, e: string) {
    exists j :: 0 <= j < |args| && (forall k :: 0 <= k <= j ==> !Dashed(args[k])) && IsEntry(args[j], e)
  }

  /** The command line gives the denial `e`: in a value behind a denial flag, with no option between them, or
      behind the equals sign of one. */
  predicate Gives(args: seq<string>, e: string) {
    || (exists i :: 0 <= i < |args| && DenialFlag(args[i]) && FrontGives(args[i + 1..], e))
    || (exists i :: 0 <= i < |args| && PairGives(args[i], e))
  }

  lemma OptionIsDashed(arg: string)
    ensures IsOption(arg) <==> Dashed(arg)
  {
    assert IsOption(arg) ==> arg[0] == "-"[0];
    assert Dashed(arg) ==> arg[..1] == "-";
  }

  lemma PairParts()
    ensures |DISALLOWED_TOOLS| == 17 && |DISALLOWED_TOOLS_KEBAB| == 18
    ensures DISALLOWED_TOOLS + "=" == "--disallowedTools=" && DISALLOWED_TOOLS_KEBAB + "=" == "--disallowed-tools="
    ensures DISALLOWED_TOOLS[12] != DISALLOWED_TOOLS_KEBAB[12]
  {
  }

  lemma {:induction false} PairReads(arg: string, e: string)
    ensures PairGives(arg, e) <==> IsDenialPair(arg) && e in Split(AfterEquals(arg), ',')
  {
    PairParts();
    DenialFlagsArePlain();
    if StartsWith(arg, DISALLOWED_TOOLS + "=") {
      NamePair(arg, DISALLOWED_TOOLS);
      assert arg[12] == (DISALLOWED_TOOLS + "=")[12] == DISALLOWED_TOOLS[12];
    }
    if StartsWith(arg, DISALLOWED_TOOLS_KEBAB + "=") {
      NamePair(arg, DISALLOWED_TOOLS_KEBAB);
      assert arg[12] == (DISALLOWED_TOOLS_KEBAB + "=")[12] == DISALLOWED_TOOLS_KEBAB[12];
    }
    hide IsEntry, Split, EqualsIndex;
    if IsDenialPair(arg) {
      SplitEntries(AfterEquals(arg), e);
    }
  }

  lemma DenialsAreDashed(arg: string)
    requires IsDenialFlag(arg) || IsDenialPair(arg)
    ensures Dashed(arg)
  {
    OptionIsDashed(arg);
    if !Dashed(arg) {
      ValueIsSilent(arg);
    }
  }

  lemma FlagsAreFlags(arg: string)
    ensures DenialFlag(arg) <==> IsDenialFlag(arg)
  {
  }

  lemma {:induction false} GivesHead(a: string, rest: seq<string>, e: string)
    ensures Gives([a] + rest, e) <==> (DenialFlag(a) && FrontGives(rest, e)) || PairGives(a, e) || Gives(rest, e)
  {
    hide DenialFlag, FrontGives, PairGives;
    var args := [a] + rest;
    assert args[0] == a && args[1..] == rest;
    forall i | 1 <= i < |args| ensures args[i] == rest[i - 1] && args[i + 1..] == rest[i..] {
    }
    if i :| 0 <= i < |args| && DenialFlag(args[i]) && FrontGives(args[i + 1..], e) {
      if i > 0 {
        assert DenialFlag(rest[i - 1]) && FrontGives(rest[i - 1 + 1..], e);
      }
    }
    if i :| 0 <= i < |args| && PairGives(args[i], e) {
      if i > 0 {
        assert PairGives(rest[i - 1], e);
      }
    }
    if i :| 0 <= i < |rest| && DenialFlag(rest[i]) && FrontGives(rest[i + 1..], e) {
      assert DenialFlag(args[i + 1]) && FrontGives(args[i + 1 + 1..], e);
    }
    if i :| 0 <= i < |rest| && PairGives(rest[i], e) {
      assert PairGives(args[i + 1], e);
    }
  }

  lemma {:induction false} FrontHead(a: string, rest: seq<string>, e: string)
    ensures FrontGives([a] + rest, e) <==> !Dashed(a) && (IsEntry(a, e) || FrontGives(rest, e))
  {
    hide Dashed, IsEntry;
    var args := [a] + rest;
    if j :| 0 <= j < |args| && (forall k :: 0 <= k <= j ==> !Dashed(args[k])) && IsEntry(args[j], e) {
      assert !Dashed(args[0]);
      if j > 0 {
        forall k | 0 <= k <= j - 1 ensures !Dashed(rest[k]) {
          assert !Dashed(args[k + 1]);
        }
        assert IsEntry(rest[j - 1], e);
      }
    }
    if !Dashed(a) && IsEntry(a, e) {
      assert IsEntry(args[0], e);
    }
    if j :| 0 <= j < |rest| && (forall k :: 0 <= k <= j ==> !Dashed(rest[k])) && IsEntry(rest[j], e) {
      if !Dashed(a) {
        forall k | 0 <= k <= j + 1 ensures !Dashed(args[k]) {
        }
        assert IsEntry(args[j + 1], e);
      }
    }
  }

  /** The scan reads exactly the denials that the command line gives. */
  lemma {:induction false} ScanReads(args: seq<string>, e: string)
    ensures e in Scan(args) <==> Gives(args, e)
    ensures e in ScanValues(args) <==> Gives(args, e) || FrontGives(args, e)
    decreases |args|
  {
    hide Gives, FrontGives, PairGives, DenialFlag, IsDenialFlag, IsDenialPair, AfterEquals, Split, IsEntry, Dashed, IsOption;
    if args == [] {
      NothingGiven(e);
    } else {
      var a, rest := args[0], args[1..];
      assert args == [a] + rest;
      ScanReads(rest, e);
      GivesHead(a, rest, e);
      FrontHead(a, rest, e);
      PairReads(a, e);
      FlagsAreFlags(a);
      OptionIsDashed(a);
      SplitEntries(a, e);
      if IsDenialFlag(a) {
        FlagIsNoPair(a);
      }
      if IsDenialFlag(a) || IsDenialPair(a) {
        DenialsAreDashed(a);
      }
    }
  }

  lemma NothingGiven(e: string)
    ensures !Gives([], e) && !FrontGives([], e) && Scan([]) == [] && ScanValues([]) == []
  {
  }

  // ---- Denial keeping -------------------------------------------------------------------------

  /** The command line denies the tool `x`: an entry, trimmed and not empty. */
  ghost predicate Denies(args: seq<string>, x: string) {
    x != "" && exists e :: Gives(args, e) && Trim(e) == x
  }

  /** What a restricted run must deny: also the MCP wildcard where no OpenClaw tool is allowed. */
  ghost predicate MustDeny(args: seq<string>, availability: Availability, x: string) {
    Denies(args, x) || (availability.openClaw == [] && x == "mcp__*")
  }

  lemma {:induction false} DeniesReads(args: seq<string>, x: string)
    ensures Denies(args, x) <==> x in Cleaned(Scan(args))
  {
    hide Gives, Scan, Trim;
    CleanedEntries(Scan(args), x);
    if Denies(args, x) {
      var e :| Gives(args, e) && Trim(e) == x;
      ScanReads(args, e);
    }
    if x in Cleaned(Scan(args)) {
      var e :| e in Scan(args) && Trim(e) == x;
      ScanReads(args, e);
    }
  }

  lemma {:induction false} MustDenyReads(args: seq<string>, availability: Availability, x: string)
    ensures MustDeny(args, availability, x) <==> x in Denials(Scan(args), availability)
  {
    hide Denies, Scan, Cleaned, Denials;
    DeniesReads(args, x);
    DenialsListed(Scan(args), availability);
  }

  /** The least tool to be denied starts with a dash. */
  ghost predicate LeastIsDashed(args: seq<string>, availability: Availability) {
    exists x :: MustDeny(args, availability, x) && Dashed(x)
      && forall y :: MustDeny(args, availability, y) ==> x == y || Less(x, y)
  }

  lemma {:induction false} LeastReads(args: seq<string>, availability: Availability)
    ensures LeastIsDashed(args, availability) <==> LooksLikeOption(Denials(Scan(args), availability))
  {
    hide MustDeny, Scan, Denials, Dashed, IsOption, Keys, Less;
    var d := Denials(Scan(args), availability);
    forall x ensures MustDeny(args, availability, x) <==> x in d {
      MustDenyReads(args, availability, x);
    }
    DenialsListed(Scan(args), availability);
    if d != [] {
      OptionIsDashed(d[0]);
      forall y | y in d ensures d[0] == y || Less(d[0], y) {
        FirstIsLeast(d, y);
      }
      assert d[0] in d;
      if x :|
        && MustDeny(args, availability, x) && Dashed(x)
        && forall y :: MustDeny(args, availability, y) ==> x == y || Less(x, y)
      {
        LessTotal(x, d[0]);
      }
    }
  }

  lemma FirstIsLeast(s: seq<string>, y: string)
    requires Ascending(Keys(s, Whole)) && y in s
    ensures s[0] == y || Less(s[0], y)
  {
    var i :| 0 <= i < |s| && s[i] == y;
    if i > 0 {
      assert PairLess(Keys(s, Whole)[0], Keys(s, Whole)[i]);
      assert !Less("", "");
    }
  }

  /**
    The restricted command line denies exactly what must be denied, if and only if the least of it does not
    start with a dash, for every tool list that does not itself read as denials.
  */
  lemma {:induction false} RestrictedDeniesIff(args: seq<string>, availability: Availability)
    requires forall e :: !PairGives(NativeList(availability), e)
    ensures (forall x :: Denies(Restrict(args, availability), x) <==> MustDeny(args, availability, x))
      <==> !LeastIsDashed(args, availability)
  {
    hide Denies, MustDeny, LeastIsDashed, Scan, Denials, Cleaned, Restrict, PairGives, NativeList, Split, DenialArgs;
    hide Proper, Keys;
    var out, d := Restrict(args, availability), Denials(Scan(args), availability);
    forall x ensures Denies(out, x) <==> x in Cleaned(Scan(out)) { DeniesReads(out, x); }
    forall x ensures MustDeny(args, availability, x) <==> x in d { MustDenyReads(args, availability, x); }
    LeastReads(args, availability);
    NoPairGives(NativeList(availability));
    DenialsKeptIff(args, availability);
    DenialsAreProper(args, availability);
    if LooksLikeOption(d) {
      ScanOfRestricted(args, availability);
      assert [] + Scan(DenialArgs(d)) == Scan(DenialArgs(d));
      DenialsListed(Scan(args), availability);
      DashedIsLost(d, availability);
      assert d[0] in d;
    } else {
      assert [] + d == d;
      CleanedProper(d);
    }
  }

  /** Read as an argument of its own, a list denies the tool `x`. */
  ghost predicate PairDenies(list: string, x: string) {
    x != "" && exists e :: PairGives(list, e) && Trim(e) == x
  }

  lemma {:induction false} PairDeniesReads(list: string, x: string)
    ensures PairDenies(list, x) <==> x in Cleaned(NativeDenials(list))
  {
    hide PairGives, IsDenialPair, AfterEquals, Split, Trim;
    CleanedEntries(NativeDenials(list), x);
    if PairDenies(list, x) {
      var e :| PairGives(list, e) && Trim(e) == x;
      PairReads(list, e);
    }
    if x in Cleaned(NativeDenials(list)) {
      var e :| e in NativeDenials(list) && Trim(e) == x;
      PairReads(list, e);
    }
  }

  /**
    For all inputs: the restricted command line denies what must be denied, or what the list of it denies as an
    argument of its own where the least entry starts with a dash, and what the tool list denies as one.
  */
  lemma {:induction false} RestrictedDenials(args: seq<string>, availability: Availability, x: string)
    ensures Denies(Restrict(args, availability), x) <==>
      || PairDenies(Join(availability.native, ','), x)
      || (if LeastIsDashed(args, availability) then PairDenies(Join(Denials(Scan(args), availability), ','), x)
          else MustDeny(args, availability, x))
  {
    hide Denies, MustDeny, LeastIsDashed, Scan, Denials, Cleaned, Restrict, PairDenies, Split, DenialArgs, Join, Proper;
    hide IsOption;
    var out, d, list := Restrict(args, availability), Denials(Scan(args), availability), Join(availability.native, ',');
    DeniesReads(out, x);
    ScanOfRestricted(args, availability);
    CleanedAppend(NativeDenials(list), Scan(DenialArgs(d)));
    PairDeniesReads(list, x);
    LeastReads(args, availability);
    DenialsAreProper(args, availability);
    LooksLikeOptionIff(d);
    if LooksLikeOption(d) {
      OptionScan(d);
      PairDeniesReads(Join(d, ','), x);
    } else {
      ScanOfDenials(d);
      CleanedProper(d);
      MustDenyReads(args, availability, x);
    }
  }

  lemma {:induction false} NoPairGives(list: string)
    requires forall e :: !PairGives(list, e)
    ensures !IsDenialPair(list) && NativeDenials(list) == []
  {
    hide PairGives, IsDenialPair, AfterEquals, Split;
    if IsDenialPair(list) {
      PairReads(list, Split(AfterEquals(list), ',')[0]);
    }
  }

  // ---- Which arguments survive ----------------------------------------------------------------

  /** An option without an equals sign. */
  predicate Alone(arg: string) {
    '=' !in arg
  }

  /** The part of an argument in front of its first equals sign, if that is not its first character. */
  predicate HasName(arg: string, name: string) {
    || (arg == name && ('=' !in arg || arg[0] == '='))
    || (name != "" && '=' !in name && name + "=" <= arg)
  }

  lemma {:induction false} NameReads(arg: string)
    ensures HasName(arg, ArgName(arg)) && (Alone(arg) <==> EqualsIndex(arg) < 0)
    ensures forall name :: HasName(arg, name) ==> name == ArgName(arg)
  {
    var i := EqualsIndex(arg);
    if i > 0 {
      assert arg[..i] + "=" <= arg by {
        assert arg[..i + 1] == arg[..i] + "=";
      }
    }
    forall name | HasName(arg, name) ensures name == ArgName(arg) {
      if name != "" && '=' !in name && name + "=" <= arg {
        forall j | 0 <= j < |name| ensures name[j] != '=' {
          assert name[j] in name;
        }
        NamePair(arg, name);
      }
    }
  }

  /** `args[k]` is one of the values of an option before it that takes all that follow. */
  predicate TakenByMany(policy: Policy, args: seq<string>, k: nat)
    requires k < |args|
  {
    exists j :: 0 <= j < k && Alone(args[j]) && args[j] in policy.variadic && args[j] !in policy.bare
      && forall m :: j < m <= k ==> !Dashed(args[m])
  }

  /** `args[k]` is the value of the option just before it. */
  predicate TakenByOne(policy: Policy, args: seq<string>, k: nat)
    requires k < |args|
  {
    k > 0 && Alone(args[k - 1]) && args[k - 1] in policy.value && args[k - 1] !in policy.bare
    && args[k - 1] !in policy.variadic && !Dashed(args[k])
  }

  /** The argument is named by the policy, or is a value of one that is. */
  ghost predicate Removed(policy: Policy, args: seq<string>, k: nat)
    requires k < |args|
  {
    || (exists name :: HasName(args[k], name) && (name in policy.bare || name in policy.variadic || name in policy.value))
    || TakenByMany(policy, args, k) || TakenByOne(policy, args, k)
  }

  /** The arguments from position `k` on that are not removed. */
  ghost function Survivors(policy: Policy, args: seq<string>, k: nat): seq<string>
    requires k <= |args|
    decreases |args| - k
  {
    if k == |args| then []
    else (if Removed(policy, args, k) then [] else [args[k]]) + Survivors(policy, args, k + 1)
  }

  /** Every option of the policy starts with a dash. */
  ghost predicate NamesOptions(policy: Policy) {
    forall name :: name in policy.bare || name in policy.variadic || name in policy.value ==> Dashed(name)
  }

  predicate Free(policy: Policy, args: seq<string>, k: nat) {
    k < |args| ==> !TakenByMany(policy, args, k) && !TakenByOne(policy, args, k)
  }

  /** The position lies in a run of values of an option that takes all that follow. */
  predicate Taking(policy: Policy, args: seq<string>, k: nat) {
    exists j :: 0 <= j < k <= |args| && Alone(args[j]) && args[j] in policy.variadic && args[j] !in policy.bare
      && forall m :: j < m < k ==> !Dashed(args[m])
  }

  lemma {:induction false} RemovedReads(policy: Policy, args: seq<string>, k: nat)
    requires k < |args|
    ensures Removed(policy, args, k) <==>
      Named(policy, args[k]) || TakenByMany(policy, args, k) || TakenByOne(policy, args, k)
  {
    hide HasName, ArgName, TakenByMany, TakenByOne;
    NameReads(args[k]);
  }

  lemma {:induction false} NamedIsDashed(policy: Policy, arg: string)
    requires NamesOptions(policy) && Named(policy, arg)
    ensures Dashed(arg)
  {
    NameReads(arg);
  }

  /** A kept argument, or an option that takes nothing, leaves the next position free. */
  lemma {:induction false} NextIsFree(policy: Policy, args: seq<string>, k: nat)
    requires NamesOptions(policy) && k < |args|
    requires Dashed(args[k]) || Free(policy, args, k)
    requires !(Alone(args[k]) && args[k] in policy.variadic && args[k] !in policy.bare)
    requires !(Alone(args[k]) && args[k] in policy.value && args[k] !in policy.bare && args[k] !in policy.variadic)
    ensures Free(policy, args, k + 1)
  {
    hide Dashed, Alone;
    if k + 1 < |args| && TakenByMany(policy, args, k + 1) {
      var j :| 0 <= j < k + 1 && Alone(args[j]) && args[j] in policy.variadic && args[j] !in policy.bare
        && forall m :: j < m <= k + 1 ==> !Dashed(args[m]);
    }
  }

  /** The value that an option took leaves the position behind it free. */
  lemma {:induction false} BehindValueIsFree(policy: Policy, args: seq<string>, k: nat)
    requires NamesOptions(policy) && k + 1 < |args| && !Dashed(args[k + 1]) && Dashed(args[k])
    requires args[k] !in policy.variadic || args[k] in policy.bare || !Alone(args[k])
    ensures Free(policy, args, k + 2)
  {
    if k + 2 < |args| && TakenByMany(policy, args, k + 2) {
      var j :| 0 <= j < k + 2 && Alone(args[j]) && args[j] in policy.variadic && args[j] !in policy.bare
        && forall m :: j < m <= k + 2 ==> !Dashed(args[m]);
    }
  }

  lemma {:induction false} TakingEnds(policy: Policy, args: seq<string>, k: nat)
    requires NamesOptions(policy) && Taking(policy, args, k) && k < |args|
    ensures !Dashed(args[k]) ==> Removed(policy, args, k) && Taking(policy, args, k + 1)
    ensures Dashed(args[k]) ==> Free(policy, args, k)
  {
    var j :| 0 <= j < k <= |args| && Alone(args[j]) && args[j] in policy.variadic && args[j] !in policy.bare
      && forall m :: j < m < k ==> !Dashed(args[m]);
    if !Dashed(args[k]) {
      assert TakenByMany(policy, args, k);
      assert forall m :: j < m < k + 1 ==> !Dashed(args[m]);
    }
  }

  lemma {:induction false} StartTaking(policy: Policy, args: seq<string>, k: nat)
    requires k < |args| && Alone(args[k]) && args[k] in policy.variadic && args[k] !in policy.bare
    ensures Taking(policy, args, k + 1)
  {
  }

  /** Stripping keeps exactly the survivors, in order. */
  lemma {:induction false} StripKeepsSurvivors(policy: Policy, args: seq<string>, k: nat)
    requires NamesOptions(policy) && k <= |args|
    ensures Free(policy, args, k) ==> Strip(policy, args[k..]) == Survivors(policy, args, k)
    ensures Taking(policy, args, k) ==> StripValues(policy, args[k..]) == Survivors(policy, args, k)
    decreases |args| - k
  {
    hide Strip, StripValues, Removed, TakenByMany, TakenByOne, Taking, Free, NamesOptions, ArgName, EqualsIndex, Alone;
    hide Dashed, IsOption;
    if k == |args| {
      assert args[k..] == [];
      StripEnds(policy);
      StripValuesAt(policy, args, k);
    } else {
      StripAt(policy, args, k);
      StripValuesAt(policy, args, k);
      StripKeepsSurvivors(policy, args, k + 1);
      if k + 2 <= |args| {
        StripKeepsSurvivors(policy, args, k + 2);
      }
      OptionIsDashed(args[k]);
      if Taking(policy, args, k) {
        TakingEnds(policy, args, k);
      }
      if Free(policy, args, k) {
        OneSurvivor(policy, args, k);
      }
    }
  }

  /** What stripping does at a free position. */
  lemma {:induction false} OneSurvivor(policy: Policy, args: seq<string>, k: nat)
    requires NamesOptions(policy) && k < |args| && Free(policy, args, k)
    requires Free(policy, args, k + 1) ==> Strip(policy, args[k + 1..]) == Survivors(policy, args, k + 1)
    requires Taking(policy, args, k + 1) ==> StripValues(policy, args[k + 1..]) == Survivors(policy, args, k + 1)
    requires k + 2 <= |args| && Free(policy, args, k + 2) ==> Strip(policy, args[k + 2..]) == Survivors(policy, args, k + 2)
    ensures Strip(policy, args[k..]) == Survivors(policy, args, k)
  {
    hide Strip, StripValues, Removed, TakenByMany, Taking, NamesOptions, Dashed, IsOption, HasName, EqualsIndex;
    StripAt(policy, args, k);
    RemovedReads(policy, args, k);
    NameReads(args[k]);
    OptionIsDashed(args[k]);
    if k + 1 < |args| {
      OptionIsDashed(args[k + 1]);
    }
    var name := ArgName(args[k]);
    if Named(policy, args[k]) {
      NamedIsDashed(policy, args[k]);
    }
    AloneName(args[k]);
    if name !in policy.bare && name in policy.variadic && Alone(args[k]) {
      StartTaking(policy, args, k);
    } else if name !in policy.bare && name !in policy.variadic && name in policy.value && Alone(args[k])
      && k + 1 < |args| && !Dashed(args[k + 1]) {
      BehindValueIsFree(policy, args, k);
      RemovedReads(policy, args, k + 1);
      assert TakenByOne(policy, args, k + 1);
    } else if
      && k + 1 < |args|
      && !(name !in policy.bare && name !in policy.variadic && name in policy.value && Alone(args[k]))
    {
      NextIsFree(policy, args, k);
    } else if k + 1 < |args| {
      DashedIsFree(policy, args, k + 1);
    }
  }

  lemma {:induction false} AloneName(arg: string)
    ensures Alone(arg) ==> ArgName(arg) == arg
    ensures !Alone(arg) ==> EqualsIndex(arg) >= 0
  {
    NameReads(arg);
  }

  lemma {:induction false} DashedIsFree(policy: Policy, args: seq<string>, k: nat)
    requires k < |args| && Dashed(args[k])
    ensures Free(policy, args, k)
  {
    hide Dashed;
  }

  /** `stripClaudeArgs` keeps the arguments that the policy does not name and that are no value of one it names. */
  lemma {:induction false} StripIsSurvivors(policy: Policy, args: seq<string>)
    requires NamesOptions(policy)
    ensures Strip(policy, args) == Survivors(policy, args, 0)
  {
    assert args[0..] == args;
    StripKeepsSurvivors(policy, args, 0);
  }

  lemma RestrictedNamesOptions()
    ensures NamesOptions(Restricted())
  {
  }

  /** The command line of a restricted run: what survives of the caller's, then the arguments that close it. */
  lemma {:induction false} RestrictedArguments(args: seq<string>, availability: Availability)
    ensures Restrict(args, availability) ==
      Survivors(Restricted(), args, 0)
      + ["--setting-sources", "", "--settings", RESTRICTED_SETTINGS, "--disable-slash-commands", "--no-chrome",
         "--strict-mcp-config", "--tools", Join(availability.native, ',')]
      + (if |availability.openClaw| == 0 then []
         else ["--allowedTools", Join(seq(|availability.openClaw|, i requires 0 <= i < |availability.openClaw| =>
                 "mcp__openclaw__" + availability.openClaw[i]), ',')])
      + (if Denials(Scan(args), availability) == [] then []
         else ["--disallowedTools", Join(Denials(Scan(args), availability), ',')])
  {
    RestrictedNamesOptions();
    StripIsSurvivors(Restricted(), args);
    hide Strip, Survivors, Restricted, Join, Denials, Scan;
    assert McpNames(availability.openClaw) ==
      seq(|availability.openClaw|,
          i requires 0 <= i < |availability.openClaw| => "mcp__openclaw__" + availability.openClaw[i]);
  }
}
