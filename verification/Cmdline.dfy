/** The command line options of the board (cmdline.c, cmdline_common.c): a table that grows as drivers register
    their options, and the matcher that finds the option of an argument. */
module Cmdline {
  import opened Sequences

  const ARGS_ALLOC_CHUNK_SIZE: nat := 20

  /** An entry of an options table; End is the end marker, whose name is NULL. */
  datatype Entry = End | Opt(name: string, manual: bool, isSwitch: bool, kind: char, stored: bool)

  // ----- the table

  /** The entries before the first end marker. */
  function Options(args: seq<Entry>): (r: seq<Entry>)
    ensures End !in r && |r| <= |args|
    ensures End in args ==> |r| < |args| && args[|r|] == End
    ensures args[..|r|] == r
  {
    if args == [] || args[0] == End then [] else [args[0]] + Options(args[1..])
  }

  function AllOptions(lists: seq<seq<Entry>>): seq<Entry> {
    if lists == [] then [] else AllOptions(Front(lists)) + Options(Last(lists))
  }

  lemma NoOptions(lists: seq<seq<Entry>>, before: seq<Entry>)
    ensures before + AllOptions(lists[..0]) == before
  {
  }

  lemma MoreOptions(lists: seq<seq<Entry>>, before: seq<Entry>, i: nat)
    requires i < |lists|
    ensures before + AllOptions(lists[..i]) + Options(lists[i]) == before + AllOptions(lists[..i + 1])
  {
    assert Front(lists[..i + 1]) == lists[..i];
  }

  class OptionTable {
    var argsStruct: array<Entry>
    var usedArgs: nat
    var argsAval: nat

    /** The options registered, followed by one end marker within the capacity (once any were registered). */
    ghost predicate Valid()
      reads this, argsStruct
    {
      && argsAval == argsStruct.Length
      && usedArgs <= argsAval
      && (forall i :: 0 <= i < usedArgs ==> argsStruct[i] != End)
      && (argsAval > 0 ==> usedArgs < argsAval && argsStruct[usedArgs] == End)
    }

    ghost function Contents(): seq<Entry>
      reads this, argsStruct
      requires usedArgs <= argsStruct.Length
    {
      argsStruct[..usedArgs]
    }

    constructor ()
      ensures Valid() && fresh(argsStruct) && Contents() == [] && argsAval == 0
    {
      argsStruct := new Entry[0];
      usedArgs, argsAval := 0, 0;
    }

    /** native_add_command_line_opts: `args` is a list with an end marker. */
    method AddCommandLineOpts(args: seq<Entry>)
      requires Valid() && End in args
      modifies this, argsStruct
      ensures Valid() && (argsStruct == old(argsStruct) || fresh(argsStruct))
      ensures argsAval > 0 && Contents() == old(Contents()) + Options(args)
      ensures argsAval == if |old(Contents())| + |Options(args)| + 1 < old(argsAval) then old(argsAval)
                          else old(argsAval) + Max(|Options(args)| + 1, ARGS_ALLOC_CHUNK_SIZE)
    {
      var count := 0;
      while args[count] != End
        invariant count <= |Options(args)|
        decreases |args| - count
      {
        assert args[count] in args[..count + 1];
        count := count + 1;
      }
      assert count == |Options(args)|;
      count := count + 1;
      ghost var before := Contents();
      EnsureCapacity(count);
      ghost var used := usedArgs;
      CopyInto(argsStruct, usedArgs, args[..count]);
      usedArgs := usedArgs + count - 1;
      Copied(argsStruct[..], used, before, args);
    }

    /** The registrations of all drivers, in order: the table is the concatenation of their options, followed
        by one end marker. */
    method AddAll(lists: seq<seq<Entry>>)
      requires Valid() && forall l :: l in lists ==> End in l
      modifies this, argsStruct
      ensures Valid() && Contents() == old(Contents()) + AllOptions(lists)
    {
      hide AllOptions, Options;
      ghost var before := Contents();
      ghost var first := argsStruct;
      NoOptions(lists, before);
      for i := 0 to |lists|
        invariant Valid() && Contents() == before + AllOptions(lists[..i])
        invariant argsStruct == first || fresh(argsStruct)
      {
        assert lists[i] in lists;
        AddCommandLineOpts(lists[i]);
        MoreOptions(lists, before, i);
      }
      assert lists[..|lists|] == lists;
    }

    /** Room for `count` entries more, of which the last overwrites nothing but the end marker. */
    method EnsureCapacity(count: nat)
      requires Valid()
      modifies this`argsStruct, this`argsAval
      ensures argsStruct == old(argsStruct) || fresh(argsStruct)
      ensures argsAval == argsStruct.Length && usedArgs + count <= argsAval
      ensures argsStruct[..usedArgs] == old(argsStruct[..usedArgs])
      ensures argsAval == if usedArgs + count < old(argsAval) then old(argsAval)
                          else old(argsAval) + Max(count, ARGS_ALLOC_CHUNK_SIZE)
    {
      if usedArgs + count >= argsAval {
        var growby := count;
        if growby < ARGS_ALLOC_CHUNK_SIZE {
          growby := ARGS_ALLOC_CHUNK_SIZE;
        }
        var newArgsStruct := Realloc(argsStruct, argsAval + growby);
        assert newArgsStruct[..usedArgs] == newArgsStruct[..argsStruct.Length][..usedArgs];
        argsAval := argsAval + growby;
        argsStruct := newArgsStruct;
      }
    }
  }

  lemma Copied(a: seq<Entry>, used: nat, before: seq<Entry>, args: seq<Entry>)
    requires End in args && used == |before|
    requires used + |Options(args)| + 1 <= |a| && a[..used] == before
    requires a[used..used + |Options(args)| + 1] == args[..|Options(args)| + 1]
    ensures a[..used + |Options(args)|] == before + Options(args) && a[used + |Options(args)|] == End
  {
    hide Options;
    var n := |Options(args)|;
    var copied := a[used..used + n + 1];
    assert args[..n + 1] == Options(args) + [End];
    assert copied[..n] == Options(args) && copied[n] == End;
    assert a[used + n] == copied[n];
    assert a[..used + n] == a[..used] + copied[..n];
  }

  function Max(a: nat, b: nat): nat {
    if a < b then b else a
  }

  /** realloc to a larger size; what lies beyond the old contents is arbitrary. */
  method Realloc(a: array<Entry>, size: nat) returns (b: array<Entry>)
    requires a.Length <= size
    ensures fresh(b) && b.Length == size && b[..a.Length] == a[..]
  {
    b := new Entry[size];
    for i := 0 to a.Length
      invariant b[..i] == a[..i]
    {
      b[i] := a[i];
    }
  }

  /** memcpy(&a[at], s, ...) */
  method CopyInto(a: array<Entry>, at: nat, s: seq<Entry>)
    requires at + |s| <= a.Length
    modifies a
    ensures a[..at] == old(a[..at]) && a[at..at + |s|] == s
  {
    for i := 0 to |s|
      invariant a[..at] == old(a[..at]) && a[at..at + i] == s[..i]
    {
      a[at + i] := s[i];
    }
  }

  // ----- the matcher

  /** What cmd_is_option answers: 0, a positive offset, or that the process exits because a value is
      missing. */
  datatype Match = No | Yes(offset: nat) | MissingValue

  /** arg[i] of a C string. */
  function At(arg: string, i: nat): char {
    if i < |arg| then arg[i] else '\0'
  }

  predicate NoNul(s: string) {
    forall i :: 0 <= i < |s| ==> s[i] != '\0'
  }

  predicate Separator(c: char) {
    c == ':' || c == '='
  }

  /** How many leading dashes are skipped. */
  function Dashes(arg: string): (n: nat)
    ensures n <= |arg| && n <= 2
  {
    if At(arg, 0) != '-' then 0 else if At(arg, 1) != '-' then 1 else 2
  }

  /** What cmd_is_option answers: up to two dashes are skipped, and the option's name has to follow; a number of
      characters gone through that is 0 reads as no match. */
  function IsOption(arg: string, option: string, withValue: bool): (m: Match)
    ensures m.Yes? ==> m.offset <= |arg|
  {
    var rest := arg[Dashes(arg)..];
    if !withValue then
      if rest == option && |arg| > 0 then Yes(|arg|) else No
    else if option <= rest && (|rest| == |option| || (|rest| == |option| + 1 && Separator(rest[|option|]))) then
      MissingValue
    else if option <= rest && Separator(rest[|option|]) then
      Yes(Dashes(arg) + |option| + 1)
    else
      No
  }

  lemma NotPrefix(s: string, t: string, i: nat)
    requires i < |s| && (i < |t| ==> s[i] != t[i])
    ensures !(s <= t)
  {
  }

  method CmdIsOption(arg: string, option: string, withValue: bool) returns (m: Match)
    requires NoNul(arg) && NoNul(option)
    ensures m == IsOption(arg, option, withValue)
    ensures !DashFirst(option) && (withValue || arg != "" || option != "") ==> Documented(arg, option, withValue, m)
  {
    if !DashFirst(option) && (withValue || arg != "" || option != "") {
      MeetsSyntax(arg, option, withValue);
    }
    var of := 0;
    if At(arg, of) == '-' {
      of := of + 1;
    }
    if At(arg, of) == '-' {
      of := of + 1;
    }
    ghost var dashes := Dashes(arg);
    ghost var rest := arg[dashes..];
    assert of == dashes;
    if !withValue {
      if arg[of..] != option {
        return No;
      }
      var n := of + |option|;
      return if n == 0 then No else Yes(n);
    }
    var o := 0;
    while !(At(arg, of) == '\0' && o == |option|)
      invariant of == dashes + o && o <= |option| && of <= |arg| && option[..o] == rest[..o]
      invariant of < |arg| ==> arg[of] != '\0'
      decreases |option| - o
    {
      if o == |option| {
        if Separator(At(arg, of)) {
          of := of + 1;
          break;
        }
        assert option <= rest ==> rest[|option|] == At(arg, of);
        return No;
      }
      if At(arg, of) != option[o] {
        NotPrefix(option, rest, o);
        return No;
      }
      of := of + 1;
      o := o + 1;
    }
    if At(arg, of) == '\0' {
      return MissingValue;
    }
    return Yes(of);
  }

  // ----- the documented syntax

  /** The dashes an option may be written with. */
  predicate DashPrefix(d: string) {
    d == "" || d == "-" || d == "--"
  }

  /** [-[-]]<option> */
  predicate SwitchSyntax(arg: string, option: string) {
    arg == option || arg == "-" + option || arg == "--" + option
  }

  /** [-[-]]<option>{:|=}<value>, where the value may be missing. */
  ghost predicate ValueSyntax(arg: string, option: string, value: string) {
    exists d, sep :: DashPrefix(d) && Separator(sep) && arg == d + (option + [sep] + value)
  }

  /** `m` is the documented answer: the number of characters gone through to find the end of the option, its separator
      included; or that there is no value; or that the argument is not this option. */
  ghost predicate Documented(arg: string, option: string, withValue: bool, m: Match) {
    if !withValue then
      if SwitchSyntax(arg, option) then m == Yes(|arg|) else m == No
    else
      match m
      case Yes(offset) => 0 < offset < |arg| && ValueSyntax(arg, option, arg[offset..])
      case MissingValue => SwitchSyntax(arg, option) || ValueSyntax(arg, option, "")
      case No => !SwitchSyntax(arg, option) && forall value :: !ValueSyntax(arg, option, value)
  }

  predicate DashFirst(option: string) {
    option != "" && option[0] == '-'
  }

  /** For options whose name does not start with a dash the answer is the documented one, the empty argument for the
      empty switch aside. */
  lemma MeetsSyntax(arg: string, option: string, withValue: bool)
    requires !DashFirst(option) && (withValue || arg != "" || option != "")
    ensures Documented(arg, option, withValue, IsOption(arg, option, withValue))
  {
    DashesOfSwitch(arg, option);
    if withValue {
      var rest, n := arg[Dashes(arg)..], |option|;
      assert option <= rest && |rest| == n ==> rest == option;
      forall value ensures ValueSyntax(arg, option, value) <==> ValueAfter(rest, option, value) {
        DashesOfValue(arg, option, value);
      }
      if option <= rest && |rest| > n && Separator(rest[n]) {
        assert ValueAfter(rest, option, rest[n + 1..]);
        assert rest[n + 1..] == arg[Dashes(arg) + n + 1..];
      }
    }
  }

  /** The argument without its dashes is the option, a separator and the value. */
  predicate ValueAfter(rest: string, option: string, value: string) {
    option <= rest && |rest| > |option| && Separator(rest[|option|]) && rest[|option| + 1..] == value
  }

  /** Skipping the dashes leaves the option. */
  lemma DashesOfSwitch(arg: string, option: string)
    requires !DashFirst(option)
    ensures SwitchSyntax(arg, option) <==> arg[Dashes(arg)..] == option
  {
    var d := arg[..Dashes(arg)];
    assert arg == d + arg[Dashes(arg)..];
    RestOf("", option);
    RestOf("-", option);
    RestOf("--", option);
    assert "" + option == option;
  }

  lemma DashesOfValue(arg: string, option: string, value: string)
    requires !DashFirst(option)
    ensures ValueSyntax(arg, option, value) <==> ValueAfter(arg[Dashes(arg)..], option, value)
  {
    var d, rest := arg[..Dashes(arg)], arg[Dashes(arg)..];
    if ValueSyntax(arg, option, value) {
      var e, sep :| DashPrefix(e) && Separator(sep) && arg == e + (option + [sep] + value);
      RestOf(e, option + [sep] + value);
    }
    if ValueAfter(rest, option, value) {
      assert rest == option + [rest[|option|]] + value;
      assert DashPrefix(d) && Separator(rest[|option|]) && arg == d + (option + [rest[|option|]] + value);
    }
  }

  /** An option whose name starts with a dash is not found under its own name: the dashes are skipped. */
  lemma DashOptionIsMissed(option: string, withValue: bool)
    requires DashFirst(option)
    ensures var arg := if withValue then option + "=1" else option;
      IsOption(arg, option, withValue) == No && !Documented(arg, option, withValue, No)
  {
    if withValue {
      var arg := option + "=1";
      assert DashPrefix("") && Separator('=') && arg == "" + (option + ['='] + "1");
      assert ValueSyntax(arg, option, "1");
      if option <= arg[Dashes(arg)..] {
        AllDashes(option, arg, |option| - Dashes(arg));
      }
    }
  }

  /** Only dashes equal themselves moved on by the dashes skipped. */
  lemma {:induction false} AllDashes(option: string, arg: string, i: nat)
    requires DashFirst(option) && arg == option + "=1" && option <= arg[Dashes(arg)..] && i < |option|
    ensures option[i] == '-' == arg[Dashes(arg) + i]
  {
    if i >= Dashes(arg) {
      AllDashes(option, arg, i - Dashes(arg));
    }
    assert arg[Dashes(arg)..][i] == arg[Dashes(arg) + i];
  }

  /** The empty argument is the empty switch, but the number of characters gone through is 0. */
  lemma EmptySwitchIsMissed()
    ensures IsOption("", "", false) == No && !Documented("", "", false, No) && Documented("", "", false, Yes(0))
  {
  }

  /** The matcher keeps to the documented syntax, for every argument, exactly if the option's name does not start with a
      dash and is not that of an empty switch. */
  lemma MeetsSyntaxIff(option: string, withValue: bool)
    ensures !DashFirst(option) && (withValue || option != "")
       <==> forall arg: string :: Documented(arg, option, withValue, IsOption(arg, option, withValue))
  {
    if DashFirst(option) {
      DashOptionIsMissed(option, withValue);
      var arg := if withValue then option + "=1" else option;
      assert !Documented(arg, option, withValue, IsOption(arg, option, withValue));
    } else if !withValue && option == "" {
      EmptySwitchIsMissed();
      assert !Documented("", option, withValue, IsOption("", option, withValue));
    } else {
      forall arg: string ensures Documented(arg, option, withValue, IsOption(arg, option, withValue)) {
        MeetsSyntax(arg, option, withValue);
      }
    }
  }

  // ----- help

  function Lower(c: char): char {
    if 'A' <= c <= 'Z' then 'a' + (c - 'A') else c
  }

  /** strcasecmp(a, b) == 0 */
  predicate SameIgnoringCase(a: string, b: string) {
    |a| == |b| && forall i :: 0 <= i < |a| ==> Lower(a[i]) == Lower(b[i])
  }

  /** cmd_is_help_option */
  predicate IsHelp(arg: string) {
    var rest := arg[Dashes(arg)..];
    SameIgnoringCase(rest, "?") || SameIgnoringCase(rest, "h") || SameIgnoringCase(rest, "help")
  }

  // ----- parsing one argument

  datatype Parse = NotFound | Found(index: nat, offset: nat) | Help | NoValue | NotABool

  /** An option that arguments are matched with. */
  predicate Listed(e: Entry) {
    e.Opt? && !e.manual
  }

  /** How an argument that matched an entry is handled: only a boolean switch can be stored. */
  function Handle(e: Entry, index: nat, offset: nat): Parse
    requires e.Opt?
  {
    if e.stored && e.isSwitch && e.kind != 'b' then NotABool else Found(index, offset)
  }

  /** The first entry from `i` on that is not manual and matches decides. */
  function ParseFrom(table: seq<Entry>, arg: string, i: nat): (r: Parse)
    requires End !in table && i <= |table|
    ensures r.Found? ==>
      && r.index < |table| && Listed(table[r.index])
      && IsOption(arg, table[r.index].name, !table[r.index].isSwitch) == Yes(r.offset)
    decreases |table| - i
  {
    if i == |table| then NotFound
    else
      var e := table[i];
      assert e in table;
      if e.manual then ParseFrom(table, arg, i + 1)
      else
        match IsOption(arg, e.name, !e.isSwitch)
        case No => ParseFrom(table, arg, i + 1)
        case Yes(offset) => Handle(e, i, offset)
        case MissingValue => NoValue
  }

  function ParseArg(table: seq<Entry>, arg: string): (r: Parse)
    requires End !in table
    ensures r.Found? ==> r.index < |table| && Listed(table[r.index]) && r.offset <= |arg|
  {
    if IsHelp(arg) then Help else ParseFrom(table, arg, 0)
  }

  // ----- what the first decisions of parsing mean

  /** "?", or "h" or "help" in any case. */
  predicate HelpWord(w: string) {
    || w == "?"
    || (|w| == 1 && (w[0] == 'h' || w[0] == 'H'))
    || (|w| == 4 && (w[0] == 'h' || w[0] == 'H') && (w[1] == 'e' || w[1] == 'E') && (w[2] == 'l' || w[2] == 'L')
        && (w[3] == 'p' || w[3] == 'P'))
  }

  lemma LowerIs(c: char)
    ensures Lower(c) == Lower('h') <==> c == 'h' || c == 'H'
    ensures Lower(c) == Lower('e') <==> c == 'e' || c == 'E'
    ensures Lower(c) == Lower('l') <==> c == 'l' || c == 'L'
    ensures Lower(c) == Lower('p') <==> c == 'p' || c == 'P'
    ensures Lower(c) == Lower('?') <==> c == '?'
  {
  }

  lemma HelpWordIff(w: string)
    ensures HelpWord(w) <==> SameIgnoringCase(w, "?") || SameIgnoringCase(w, "h") || SameIgnoringCase(w, "help")
  {
    hide Lower;
    if |w| == 1 {
      LowerIs(w[0]);
      assert w == [w[0]];
    } else if |w| == 4 {
      LowerIs(w[0]);
      LowerIs(w[1]);
      LowerIs(w[2]);
      LowerIs(w[3]);
      assert "help"[0] == 'h' && "help"[1] == 'e' && "help"[2] == 'l' && "help"[3] == 'p';
    }
  }

  /** Which arguments ask for help, in whatever table: a help word after no dash, one or two. */
  lemma HelpIff(table: seq<Entry>, arg: string)
    requires End !in table
    ensures ParseArg(table, arg) == Help <==> exists d, w :: DashPrefix(d) && HelpWord(w) && arg == d + w
  {
    hide HelpWord, SameIgnoringCase, ParseFrom;
    var d, w := arg[..Dashes(arg)], arg[Dashes(arg)..];
    HelpWordIff(w);
    FromIsNoHelp(table, arg, 0);
    if IsHelp(arg) {
      assert DashPrefix(d) && HelpWord(w) && arg == d + w;
    }
    if e, v :| DashPrefix(e) && HelpWord(v) && arg == e + v {
      HelpWordStart(v);
      RestOf(e, v);
    }
  }

  lemma HelpWordStart(w: string)
    requires HelpWord(w)
    ensures w != "" && w[0] != '-'
  {
  }

  lemma {:induction false} FromIsNoHelp(table: seq<Entry>, arg: string, i: nat)
    requires End !in table && i <= |table|
    ensures ParseFrom(table, arg, i) != Help
    decreases |table| - i
  {
    if i < |table| {
      assert table[i] in table;
      FromIsNoHelp(table, arg, i + 1);
    }
  }

  /** The answer of the matcher for a table entry. */
  function Answer(arg: string, e: Entry): Match
    requires e.Opt?
  {
    IsOption(arg, e.name, !e.isSwitch)
  }

  /** The first listed entry that the argument is an option of decides: a missing value ends the process, and so does a
      switch that is to be stored and is not boolean; otherwise the entry is found. */
  lemma FirstMatchDecides(table: seq<Entry>, arg: string, i: nat)
    requires End !in table && !IsHelp(arg) && i < |table| && Listed(table[i]) && Answer(arg, table[i]) != No
    requires forall j :: 0 <= j < i && Listed(table[j]) ==> Answer(arg, table[j]) == No
    ensures ParseArg(table, arg)
         == if Answer(arg, table[i]) == MissingValue then NoValue
            else if !table[i].isSwitch || !table[i].stored || table[i].kind == 'b'
            then Found(i, Answer(arg, table[i]).offset)
            else NotABool
  {
    SkipTo(table, arg, i, 0);
  }

  /** An argument is unknown exactly if it asks for no help and is no option of any listed entry. */
  lemma {:induction false} UnknownIff(table: seq<Entry>, arg: string, i: nat)
    requires End !in table && i <= |table|
    ensures ParseFrom(table, arg, i) == NotFound
       <==> forall j :: i <= j < |table| && Listed(table[j]) ==> Answer(arg, table[j]) == No
    decreases |table| - i
  {
    if i < |table| {
      assert table[i] in table;
      UnknownIff(table, arg, i + 1);
    }
  }

  predicate NoNuls(table: seq<Entry>) {
    forall e :: e in table && e.Opt? ==> NoNul(e.name)
  }

  /** What the stored options are set to after an argument: "true" for a switch, and a value as it was
      written. */
  function Stored(e: Entry, index: nat, arg: string, offset: nat, dests: map<nat, string>): map<nat, string>
    requires e.Opt? && offset <= |arg|
  {
    if !e.stored then dests else dests[index := if e.isSwitch then "true" else arg[offset..]]
  }

  /** cmd_parse_one_arg */
  method CmdParseOneArg(arg: string, argsStruct: seq<Entry>, dests: map<nat, string>)
    returns (r: Parse, newDests: map<nat, string>)
    requires NoNul(arg) && NoNuls(argsStruct) && End in argsStruct
    ensures r == ParseArg(Options(argsStruct), arg)
    ensures newDests == if r.Found? then Stored(Options(argsStruct)[r.index], r.index, arg, r.offset, dests) else dests
  {
    if IsHelp(arg) {
      return Help, dests;
    }
    ghost var table := Options(argsStruct);
    var count := 0;
    while argsStruct[count] != End
      invariant count <= |table|
      invariant ParseFrom(table, arg, 0) == ParseFrom(table, arg, count)
      decreases |argsStruct| - count
    {
      var e := argsStruct[count];
      assert argsStruct[..count + 1][count] == e;
      assert e == table[count] && e in argsStruct;
      if !e.manual {
        var m := CmdIsOption(arg, e.name, !e.isSwitch);
        if m.MissingValue? {
          return NoValue, dests;
        }
        if m.Yes? {
          newDests := dests;
          if e.stored {
            if e.isSwitch {
              if e.kind != 'b' {
                return NotABool, dests;
              }
              newDests := dests[count := "true"];
            } else {
              newDests := dests[count := arg[m.offset..]];
            }
          }
          return Found(count, m.offset), newDests;
        }
      }
      count := count + 1;
    }
    return NotFound, dests;
  }

  // ----- every argument finds its own option

  /** A name no argument can be mistaken in: no separator in it, and no dash in front. */
  predicate CleanName(name: string) {
    (forall i :: 0 <= i < |name| ==> !Separator(name[i])) && (name != "" ==> name[0] != '-')
  }

  /** A table of distinct clean names, manual options aside. */
  predicate CleanTable(table: seq<Entry>) {
    && End !in table
    && (forall i :: 0 <= i < |table| && Listed(table[i]) ==> CleanName(table[i].name))
    && (forall i, j :: 0 <= i < j < |table| && Listed(table[i]) && Listed(table[j]) ==>
          table[i].name != table[j].name)
  }

  lemma RestOf(d: string, text: string)
    requires DashPrefix(d) && (text != "" ==> text[0] != '-')
    ensures Dashes(d + text) == |d| && (d + text)[|d|..] == text
  {
  }

  /** `[-[-]]name{:|=}value` is an option of another clean name in no way. */
  lemma ValuedMatches(d: string, name: string, sep: char, value: string, other: string, withValue: bool)
    requires DashPrefix(d) && CleanName(name) && CleanName(other) && Separator(sep) && value != ""
    ensures IsOption(d + (name + [sep] + value), other, withValue)
         == if other == name && withValue then Yes(|d| + |name| + 1) else No
  {
    var text := name + [sep] + value;
    assert text[|name|] == sep;
    RestOf(d, text);
    if |other| < |name| {
      assert text[|other|] == name[|other|];
    } else if |other| == |name| {
      PrefixesEqual(other, name, text);
    } else {
      assert !Separator(other[|name|]);
    }
  }

  lemma PrefixesEqual(a: string, b: string, t: string)
    requires |a| == |b| && b <= t
    ensures a <= t ==> a == b
  {
  }

  /** `[-[-]]name` is an option of another clean name in no way. */
  lemma SwitchMatches(d: string, name: string, other: string, withValue: bool)
    requires DashPrefix(d) && CleanName(name) && CleanName(other) && name != "" && other != name
    ensures IsOption(d + name, other, withValue) == No
    ensures IsOption(d + name, name, false) == Yes(|d| + |name|)
  {
    RestOf(d, name);
    if |other| < |name| {
      assert !Separator(name[|other|]);
    } else if |other| == |name| {
      PrefixesEqual(other, name, name);
    }
  }

  lemma SeparatorIsNoHelp(d: string, text: string, i: nat)
    requires DashPrefix(d) && (text != "" ==> text[0] != '-') && i < |text| && Separator(text[i])
    ensures !IsHelp(d + text)
  {
    RestOf(d, text);
    assert Lower(text[i]) == text[i];
  }

  /** With distinct clean names, an argument `[-[-]]name{:|=}value` finds exactly its own option, wherever that
      is in the table, and the value is what follows the offset found. */
  lemma ValueFindsItsOption(table: seq<Entry>, i: nat, d: string, sep: char, value: string)
    requires CleanTable(table) && i < |table| && Listed(table[i]) && !table[i].isSwitch
    requires DashPrefix(d) && Separator(sep) && value != ""
    ensures var arg := d + (table[i].name + [sep] + value);
      && ParseArg(table, arg) == Found(i, |d| + |table[i].name| + 1)
      && arg[|d| + |table[i].name| + 1..] == value
  {
    var name := table[i].name;
    var text := name + [sep] + value;
    assert text[|name|] == sep;
    SeparatorIsNoHelp(d, text, |name|);
    ValuedMatches(d, name, sep, value, name, true);
    forall j | 0 <= j < |table| && Listed(table[j]) && j != i
      ensures IsOption(d + text, table[j].name, !table[j].isSwitch) == No
    {
      ValuedMatches(d, name, sep, value, table[j].name, !table[j].isSwitch);
    }
    SkipTo(table, d + text, i, 0);
  }

  lemma {:induction false} SkipTo(table: seq<Entry>, arg: string, i: nat, from: nat)
    requires End !in table && from <= i < |table|
    requires forall j :: from <= j < i && Listed(table[j]) ==> IsOption(arg, table[j].name, !table[j].isSwitch) == No
    ensures ParseFrom(table, arg, from) == ParseFrom(table, arg, i)
    decreases i - from
  {
    if from < i {
      assert table[from] in table;
      SkipTo(table, arg, i, from + 1);
    }
  }

  /** A switch finds exactly its own option, unless its name asks for help. */
  lemma SwitchFindsItsOption(table: seq<Entry>, i: nat, d: string)
    requires CleanTable(table) && i < |table| && Listed(table[i]) && table[i].isSwitch && table[i].name != ""
    requires DashPrefix(d)
    ensures ParseArg(table, d + table[i].name)
         == if IsHelp(table[i].name) then Help
            else if !table[i].stored || table[i].kind == 'b' then Found(i, |d| + |table[i].name|)
            else NotABool
  {
    var name := table[i].name;
    RestOf(d, name);
    RestOf("", name);
    assert "" + name == name;
    forall j | 0 <= j < |table| && Listed(table[j]) && j != i
      ensures IsOption(d + name, table[j].name, !table[j].isSwitch) == No
    {
      SwitchMatches(d, name, table[j].name, !table[j].isSwitch);
    }
    assert IsOption(d + name, name, false) == Yes(|d| + |name|);
    SkipTo(table, d + name, i, 0);
  }

  /** An option without its value ends the process, whether or not its separator is there. */
  lemma ValueMissing(table: seq<Entry>, i: nat, d: string, tail: string)
    requires CleanTable(table) && i < |table| && Listed(table[i]) && !table[i].isSwitch && table[i].name != ""
    requires DashPrefix(d) && (tail == "" || tail == ":" || tail == "=") && !IsHelp(table[i].name + tail)
    ensures ParseArg(table, d + (table[i].name + tail)) == NoValue
  {
    var name := table[i].name;
    var text := name + tail;
    RestOf(d, text);
    RestOf("", text);
    assert "" + text == text;
    assert IsOption(d + text, name, true) == MissingValue;
    forall j | 0 <= j < |table| && Listed(table[j]) && j != i ensures Answer(d + text, table[j]) == No {
      OtherMissing(d, name, tail, table[j].name, !table[j].isSwitch);
    }
    FirstMatchDecides(table, d + text, i);
  }

  lemma OtherMissing(d: string, name: string, tail: string, other: string, withValue: bool)
    requires DashPrefix(d) && CleanName(name) && CleanName(other) && name != "" && other != name
    requires tail == "" || tail == ":" || tail == "="
    ensures IsOption(d + (name + tail), other, withValue) == No
  {
    var text := name + tail;
    RestOf(d, text);
    if tail == "" {
      assert text == name;
      SwitchMatches(d, name, other, withValue);
    } else if |other| < |name| {
      assert text[|other|] == name[|other|];
    } else if |other| == |name| {
      PrefixesEqual(other, name, text);
    } else {
      assert !Separator(other[|name|]);
      assert text[|name|] == tail[0];
    }
  }

  /** The order in which options were registered does not matter. */
  lemma OrderDoesNotMatter(table: seq<Entry>, other: seq<Entry>, e: Entry, d: string, sep: char, value: string)
    requires CleanTable(table) && CleanTable(other) && e in table && e in other
    requires Listed(e) && !e.isSwitch && DashPrefix(d) && Separator(sep) && value != ""
    ensures var arg := d + (e.name + [sep] + value); var r, s := ParseArg(table, arg), ParseArg(other, arg);
      r.Found? && s.Found? && table[r.index] == e == other[s.index] && r.offset == s.offset
  {
    var i :| 0 <= i < |table| && table[i] == e;
    var j :| 0 <= j < |other| && other[j] == e;
    ValueFindsItsOption(table, i, d, sep, value);
    ValueFindsItsOption(other, j, d, sep, value);
  }

  // ----- the whole command line

  predicate StartsTestArgs(arg: string) {
    IsOption(arg, "testargs", false) != No
  }

  /** Which argument starts them: "testargs", after no dash, one or two. */
  lemma TestArgsIff(arg: string)
    ensures StartsTestArgs(arg) <==> arg == "testargs" || arg == "-testargs" || arg == "--testargs"
  {
    MeetsSyntax(arg, "testargs", false);
    assert "-" + "testargs" == "-testargs" && "--" + "testargs" == "--testargs";
  }

  /** An argument that does not start the test's arguments was found to be `p`. */
  predicate ParsedAs(arg: string, table: seq<Entry>, p: Parse)
    requires End !in table
  {
    !StartsTestArgs(arg) && p == ParseArg(table, arg) && p.Found?
  }

  /** The arguments after the program's name have been parsed, in order, up to the number of `parsed`. */
  predicate AllParsed(argv: seq<string>, table: seq<Entry>, parsed: seq<Parse>)
    requires |parsed| < |argv| && End !in table
  {
    forall k :: 0 <= k < |parsed| ==> ParsedAs(argv[k + 1], table, parsed[k])
  }

  /** What is stored after the parsed arguments, in order. */
  function StoredBy(table: seq<Entry>, argv: seq<string>, parsed: seq<Parse>): map<nat, string>
    requires |parsed| < |argv| && End !in table && AllParsed(argv, table, parsed)
  {
    if parsed == [] then map[]
    else
      var p, arg := Last(parsed), argv[|parsed|];
      assert ParsedAs(argv[|parsed| - 1 + 1], table, parsed[|parsed| - 1]);
      Stored(table[p.index], p.index, arg, p.offset, StoredBy(table, argv, Front(parsed)))
  }

  lemma ParsedNext(table: seq<Entry>, argv: seq<string>, parsed: seq<Parse>, p: Parse)
    requires |parsed| + 1 < |argv| && End !in table && AllParsed(argv, table, parsed)
    requires ParsedAs(argv[|parsed| + 1], table, p)
    ensures AllParsed(argv, table, parsed + [p])
  {
  }

  lemma StoredNext(table: seq<Entry>, argv: seq<string>, parsed: seq<Parse>, p: Parse)
    requires |parsed| + 1 < |argv| && End !in table && AllParsed(argv, table, parsed)
    requires ParsedAs(argv[|parsed| + 1], table, p)
    ensures AllParsed(argv, table, parsed + [p])
    ensures StoredBy(table, argv, parsed + [p])
         == Stored(table[p.index], p.index, argv[|parsed| + 1], p.offset, StoredBy(table, argv, parsed))
  {
    hide AllParsed, ParsedAs, Stored;
    ParsedNext(table, argv, parsed, p);
    FrontLast(parsed, p);
  }

  /** Entry i was last given by argument n. */
  predicate LastGiven(parsed: seq<Parse>, i: nat, n: nat) {
    && 0 < n <= |parsed| && parsed[n - 1].Found? && parsed[n - 1].index == i
    && forall k :: n <= k < |parsed| && parsed[k].Found? ==> parsed[k].index != i
  }

  /** An option given more than once keeps its last value. */
  lemma {:induction false} LastValueStored(table: seq<Entry>, argv: seq<string>, parsed: seq<Parse>, n: nat)
    requires |parsed| < |argv| && End !in table && AllParsed(argv, table, parsed)
    requires 0 < n <= |parsed| && parsed[n - 1].Found? && LastGiven(parsed, parsed[n - 1].index, n)
    ensures var p, dests := parsed[n - 1], StoredBy(table, argv, parsed);
      && p.index < |table| && table[p.index].Opt? && p.offset <= |argv[n]|
      && (table[p.index].stored ==>
            p.index in dests && dests[p.index] == if table[p.index].isSwitch then "true" else argv[n][p.offset..])
  {
    assert ParsedAs(argv[n - 1 + 1], table, parsed[n - 1]);
    if n < |parsed| {
      assert ParsedAs(argv[|parsed| - 1 + 1], table, parsed[|parsed| - 1]);
      LastValueStored(table, argv, Front(parsed), n);
    }
  }

  /** An option not given stays unset. */
  lemma {:induction false} NotGivenNotStored(table: seq<Entry>, argv: seq<string>, parsed: seq<Parse>, i: nat)
    requires |parsed| < |argv| && End !in table && AllParsed(argv, table, parsed)
    requires forall p :: p in parsed && p.Found? ==> p.index != i
    ensures i !in StoredBy(table, argv, parsed)
  {
    if parsed != [] {
      assert ParsedAs(argv[|parsed| - 1 + 1], table, parsed[|parsed| - 1]);
      assert Last(parsed) in parsed && forall p :: p in Front(parsed) ==> p in parsed;
      NotGivenNotStored(table, argv, Front(parsed), i);
    }
  }

  lemma NothingStored(table: seq<Entry>, argv: seq<string>)
    requires argv != [] && End !in table
    ensures StoredBy(table, argv, []) == map[]
  {
  }

  lemma FoundParsed(arg: string, table: seq<Entry>, p: Parse)
    requires End !in table && !StartsTestArgs(arg) && p == ParseArg(table, arg) && p.Found?
    ensures ParsedAs(arg, table, p)
  {
  }

  /** native_handle_cmd_line, after the options were registered: the arguments up to "testargs" are parsed in
      order, and those after it are left for the test.  `bad` is the argument that ended the process. */
  method NativeHandleCmdLine(argv: seq<string>, argsStruct: seq<Entry>)
    returns (parsed: seq<Parse>, dests: map<nat, string>, testArgs: seq<string>, bad: bool)
    requires argv != [] && NoNuls(argsStruct) && End in argsStruct
    requires forall a :: a in argv ==> NoNul(a)
    ensures |parsed| < |argv| && AllParsed(argv, Options(argsStruct), parsed)
    ensures var n := |parsed| + 1;
      if bad then n < |argv| && !StartsTestArgs(argv[n]) && !ParseArg(Options(argsStruct), argv[n]).Found?
      else if n < |argv| then StartsTestArgs(argv[n]) && testArgs == argv[n + 1..]
      else testArgs == []
    ensures dests == StoredBy(Options(argsStruct), argv, parsed)
  {
    hide IsOption, ParsedAs, StoredBy;
    parsed, dests, testArgs, bad := [], map[], [], false;
    NothingStored(Options(argsStruct), argv);
    var i := 1;
    while i < |argv|
      invariant 1 <= i <= |argv| && |parsed| == i - 1 && AllParsed(argv, Options(argsStruct), parsed)
      invariant dests == StoredBy(Options(argsStruct), argv, parsed)
    {
      assert argv[i] in argv;
      var m := CmdIsOption(argv[i], "testargs", false);
      if m != No {
        testArgs := argv[i + 1..];
        return;
      }
      var r;
      r, dests := CmdParseOneArg(argv[i], argsStruct, dests);
      if !r.Found? {
        bad := true;
        return;
      }
      FoundParsed(argv[i], Options(argsStruct), r);
      StoredNext(Options(argsStruct), argv, parsed, r);
      parsed := parsed + [r];
      i := i + 1;
    }
  }
}
