/**
  The rewriting of a compile command for clang: target and sysroot flags are dropped, relative paths are
  resolved against the directory of the command.

  The loop walks over the arguments by index.  It is proved to cut them into tokens, from which it can
  be said what is dropped, what is kept, and what a second rewriting does.
 */
module CompileCommand {

  // ----- Flags -----

  const WARNING_OFF: string := "-Wno-reserved-user-defined-literal"

  predicate HasRemovedPrefix(arg: string) {
    || "-mcpu=" <= arg || "-mfloat-abi=" <= arg || "-mfpu=" <= arg || "-march=" <= arg || "-mtune=" <= arg
    || "--target=" <= arg || "-target=" <= arg || "--sysroot=" <= arg || "-isysroot" <= arg
    || "-Wreserved-user-defined-literal" <= arg
  }

  predicate RemovedAlone(arg: string) {
    arg == "-Werror" || HasRemovedPrefix(arg)
  }

  /** The flags dropped together with the argument after them. */
  predicate RemovedWithValue(arg: string) {
    || arg == "--target" || arg == "-target" || arg == "--sysroot" || arg == "-isysroot"
    || arg == "-gcc-toolchain" || arg == "--gcc-toolchain"
  }

  predicate Removed(arg: string) {
    RemovedAlone(arg) || RemovedWithValue(arg)
  }

  /** The options whose next argument is a path. */
  predicate PathOption(arg: string) {
    arg == "-I" || arg == "-isystem" || arg == "-iquote" || arg == "-include" || arg == "-o"
  }

  /** The option a path is glued to, if any; `-iquote` needs at least two more characters. */
  function GluedOption(arg: string): string {
    if "-I" <= arg && |arg| > 2 then "-I"
    else if "-isystem" <= arg && |arg| > 8 then "-isystem"
    else if "-iquote" <= arg && |arg| > 8 then "-iquote"
    else ""
  }

  /** What is left of an argument when the option is taken off. */
  function Unglued(arg: string): string {
    if |GluedOption(arg)| <= |arg| then arg[|GluedOption(arg)|..] else arg
  }

  predicate EndsWith(text: string, suffix: string) {
    |suffix| <= |text| && text[|text| - |suffix|..] == suffix
  }

  predicate SourceLike(arg: string, source: string) {
    || arg == source
    || (!("-" <= arg) &&
        (EndsWith(arg, ".c") || EndsWith(arg, ".cc") || EndsWith(arg, ".cpp") || EndsWith(arg, ".cxx")))
  }

  // ----- Paths -----

  predicate Rooted(path: string) {
    "/" <= path
  }

  function Join(directory: string, path: string): string {
    if directory == "" || EndsWith(directory, "/") then directory + path else directory + "/" + path
  }

  /** `normalize` is the path normalisation of the platform, which keeps rooted paths rooted. */
  ghost predicate Normalizes(normalize: string -> string) {
    forall path | Rooted(path) :: Rooted(normalize(path))
  }

  function AbsolutePath(normalize: string -> string, directory: string, path: string): string {
    if Rooted(path) then path else normalize(Join(directory, path))
  }

  lemma AbsoluteIsRooted(normalize: string -> string, directory: string, path: string)
    requires Normalizes(normalize) && Rooted(directory)
    ensures Rooted(AbsolutePath(normalize, directory, path))
  {
    if !Rooted(path) {
      assert Join(directory, path)[0] == directory[0];
      assert Rooted(Join(directory, path));
    }
  }

  /** Where paths are resolved: a directory and the normalisation. */
  datatype Place = Place(normalize: string -> string, directory: string)
  {
    ghost predicate Valid() {
      Normalizes(normalize) && Rooted(directory)
    }

    function Resolve(path: string): string {
      AbsolutePath(normalize, directory, path)
    }
  }

  // ----- Tokens -----

  datatype Token =
    | Dropped(flag: string)
    | DroppedPair(flag: string, value: string)
    | OptionPath(option: string, path: string)
    | GluedPath(option: string, path: string)
    | Source(path: string)
    | Kept(arg: string)

  /** What the loop makes of the arguments at its index. */
  function FirstToken(args: seq<string>, source: string): Token
    requires args != []
  {
    var arg := args[0];
    if RemovedAlone(arg) then Dropped(arg)
    else if RemovedWithValue(arg) then (if |args| > 1 then DroppedPair(arg, args[1]) else Dropped(arg))
    else if PathOption(arg) && |args| > 1 then OptionPath(arg, args[1])
    else if GluedOption(arg) != "" then GluedPath(GluedOption(arg), Unglued(arg))
    else if SourceLike(arg, source) then Source(arg)
    else Kept(arg)
  }

  /** The arguments a token was cut from. */
  function Spelling(token: Token): seq<string> {
    match token
    case Dropped(flag) => [flag]
    case DroppedPair(flag, value) => [flag, value]
    case OptionPath(option, path) => [option, path]
    case GluedPath(option, path) => [option + path]
    case Source(path) => [path]
    case Kept(arg) => [arg]
  }

  lemma GluedOptionIsPrefix(arg: string)
    ensures |GluedOption(arg)| <= |arg| && GluedOption(arg) + arg[|GluedOption(arg)|..] == arg
  {
  }

  lemma FirstTokenSpells(args: seq<string>, source: string)
    requires args != []
    ensures var n := |Spelling(FirstToken(args, source))|;
            0 < n <= |args| && Spelling(FirstToken(args, source)) == args[..n]
  {
    GluedOptionIsPrefix(args[0]);
    assert args[..1] == [args[0]];
    if |args| > 1 {
      assert args[..2] == [args[0], args[1]];
    }
  }

  function Tokens(args: seq<string>, source: string): seq<Token>
  {
    if args == [] then []
    else
      FirstTokenSpells(args, source);
      var token := FirstToken(args, source);
      [token] + Tokens(args[|Spelling(token)|..], source)
  }

  function SpellAll(tokens: seq<Token>): seq<string> {
    if tokens == [] then [] else Spelling(tokens[0]) + SpellAll(tokens[1..])
  }

  /** Cutting into tokens loses nothing. */
  lemma {:induction false} TokensSpellArguments(args: seq<string>, source: string)
    ensures SpellAll(Tokens(args, source)) == args
  {
    if args != [] {
      FirstTokenSpells(args, source);
      var token := FirstToken(args, source);
      TokensSpellArguments(args[|Spelling(token)|..], source);
      assert Tokens(args, source)[1..] == Tokens(args[|Spelling(token)|..], source);
    }
  }

  /** What becomes of a token. */
  function Rendered(place: Place, token: Token): seq<string> {
    match token
    case Dropped(_) => []
    case DroppedPair(_, _) => []
    case OptionPath(option, path) => [option, place.Resolve(path)]
    case GluedPath(option, path) => [option + place.Resolve(path)]
    case Source(path) => [place.Resolve(path)]
    case Kept(arg) => [arg]
  }

  function RenderAll(place: Place, tokens: seq<Token>): seq<string> {
    if tokens == [] then [] else Rendered(place, tokens[0]) + RenderAll(place, tokens[1..])
  }

  /** The rewritten arguments, after the compiler and the warning switch. */
  function Rewritten(place: Place, source: string, args: seq<string>): seq<string> {
    RenderAll(place, Tokens(args, source))
  }

  function Tail(args: seq<string>, index: nat): seq<string> {
    if index < |args| then args[index..] else []
  }

  /** The whole new command: the compiler, the warning switch and the rewritten arguments. */
  function Sanitized(place: Place, source: string, clang: string, args: seq<string>): seq<string> {
    [clang, WARNING_OFF] + Rewritten(place, source, Tail(args, 1))
  }

  lemma RewrittenStep(place: Place, source: string, args: seq<string>)
    requires args != []
    ensures var token := FirstToken(args, source);
            && |Spelling(token)| <= |args|
            && Rewritten(place, source, args) ==
               Rendered(place, token) + Rewritten(place, source, args[|Spelling(token)|..])
  {
    FirstTokenSpells(args, source);
    var token := FirstToken(args, source);
    assert Tokens(args, source)[1..] == Tokens(args[|Spelling(token)|..], source);
  }

  // ----- The code -----

  lemma OneArgumentOn(place: Place, source: string, done: seq<string>, args: seq<string>, index: nat,
                      appended: seq<string>, next: nat)
    requires index < |args|
    requires appended == Rendered(place, FirstToken(args[index..], source))
    requires Tail(args, next) == Tail(args[index..], |Spelling(FirstToken(args[index..], source))|)
    ensures done + Rewritten(place, source, Tail(args, index)) ==
            (done + appended) + Rewritten(place, source, Tail(args, next))
  {
    var rest := args[index..];
    RewrittenStep(place, source, rest);
    assert rest[|Spelling(FirstToken(rest, source))|..] == Tail(args, next);
  }

  method ResolveGlued(place: Place, arg: string) returns (glued: string)
    requires ("-isystem" <= arg || "-iquote" <= arg) && |arg| > |"-isystem"|
    ensures GluedOption(arg) != "" && glued == GluedOption(arg) + place.Resolve(Unglued(arg))
  {
    assert arg[1] == 'i';
    var option := if "-isystem" <= arg then "-isystem" else "-iquote";
    glued := option + place.Resolve(arg[|option|..]);
  }

  /** Handles an argument that stands for itself. */
  method TakeSingle(arg: string, place: Place, source: string) returns (single: string)
    requires GluedOption(arg) != "-I"
    ensures single == if GluedOption(arg) != "" then GluedOption(arg) + place.Resolve(Unglued(arg))
                      else if SourceLike(arg, source) then place.Resolve(arg) else arg
  {
    if ("-isystem" <= arg || "-iquote" <= arg) && |arg| > |"-isystem"| {
      single := ResolveGlued(place, arg);
    } else if SourceLike(arg, source) {
      single := place.Resolve(arg);
    } else {
      single := arg;
    }
  }

  /** Handles the argument at `index`: what to append, and where to go on. */
  method TakeArgument(args: seq<string>, index: nat, place: Place, source: string)
    returns (appended: seq<string>, next: nat)
    requires index < |args|
    ensures var token := FirstToken(args[index..], source);
            && appended == Rendered(place, token)
            && index < next && Tail(args, next) == Tail(args[index..], |Spelling(token)|)
  {
    var arg := args[index];
    ghost var rest := args[index..];
    assert rest[0] == arg && (|rest| > 1 ==> rest[1] == args[index + 1]);
    next := index + 1;
    if arg == "-Werror" || HasRemovedPrefix(arg) {
      appended := [];
    } else if RemovedWithValue(arg) {
      appended, next := [], index + 2;
    } else if arg == "-I" && index + 1 < |args| {
      appended, next := [arg, place.Resolve(args[index + 1])], index + 2;
    } else if "-I" <= arg && |arg| > 2 {
      assert arg[1] == 'I';
      appended := ["-I" + place.Resolve(arg[2..])];
    } else if (arg == "-isystem" || arg == "-iquote" || arg == "-include" || arg == "-o") && index + 1 < |args| {
      appended, next := [arg, place.Resolve(args[index + 1])], index + 2;
    } else {
      var single := TakeSingle(arg, place, source);
      appended := [single];
    }
  }

  /** The new list is the compiler, the warning switch and the rewritten arguments. */
  method SanitizeCompileCommand(args: seq<string>, place: Place, source: string, clang: string)
    returns (sanitized: seq<string>)
    ensures sanitized == Sanitized(place, source, clang, args)
  {
    sanitized := [clang, WARNING_OFF];
    var index := 1;
    while index < |args|
      invariant 1 <= index
      invariant sanitized + Rewritten(place, source, Tail(args, index)) == Sanitized(place, source, clang, args)
    {
      var appended, next := TakeArgument(args, index, place, source);
      OneArgumentOn(place, source, sanitized, args, index, appended, next);
      sanitized := sanitized + appended;
      index := next;
    }
  }

  // ----- Nothing that is dropped survives -----

  /** What tells a flag that is dropped from every other argument. */
  lemma RemovedShape(arg: string)
    requires Removed(arg)
    ensures |arg| >= 5 && arg[0] == '-'
    ensures || arg[1] == 'm' || arg[1] == '-' || arg[1] == 't' || arg[1] == 'g'
            || (arg[1] == 'W' && arg[2] != 'n') || (arg[1] == 'i' && |arg| >= 9 && arg[5] == 'r')
  {
  }

  lemma RootedIsNoFlag(path: string)
    requires Rooted(path)
    ensures !Removed(path) && !PathOption(path) && GluedOption(path) == ""
  {
    assert path[0] == '/';
  }

  lemma OptionSurvives(option: string)
    requires PathOption(option)
    ensures !Removed(option)
  {
    if Removed(option) {
      RemovedShape(option);
      assert false;
    }
  }

  lemma GluedSurvives(option: string, path: string)
    requires option == "-I" || option == "-isystem" || option == "-iquote"
    requires Rooted(path)
    ensures !Removed(option + path) && !PathOption(option + path)
    ensures GluedOption(option + path) == if option == "-iquote" && path == "/" then "" else option
  {
    var glued := option + path;
    assert glued[|option|] == '/';
    assert |path| == 1 ==> path == "/";
    assert option <= glued;
    assert glued[1] == option[1];
    if option == "-I" {
      assert glued[1] == 'I';
    } else {
      assert glued[2] == option[2] && glued[5] == option[5];
    }
    if Removed(glued) {
      RemovedShape(glued);
      assert false;
    }
  }

  lemma GluedOptions(arg: string)
    ensures var option := GluedOption(arg);
            option == "" || option == "-I" || option == "-isystem" || option == "-iquote"
  {
  }

  lemma TokenLeavesNoFlag(place: Place, source: string, args: seq<string>)
    requires place.Valid() && args != []
    ensures forall element <- Rendered(place, FirstToken(args, source)) :: !Removed(element)
  {
    match FirstToken(args, source)
    case Dropped(_) =>
    case DroppedPair(_, _) =>
    case OptionPath(option, path) =>
      OptionSurvives(option);
      AbsoluteIsRooted(place.normalize, place.directory, path);
      RootedIsNoFlag(place.Resolve(path));
    case GluedPath(option, path) =>
      GluedOptions(args[0]);
      AbsoluteIsRooted(place.normalize, place.directory, path);
      GluedSurvives(option, place.Resolve(path));
    case Source(path) =>
      AbsoluteIsRooted(place.normalize, place.directory, path);
      RootedIsNoFlag(place.Resolve(path));
    case Kept(_) =>
  }

  /** No element of the new command after the compiler is a flag that is to be dropped. */
  lemma {:induction false} NoFlagSurvives(place: Place, source: string, args: seq<string>)
    requires place.Valid()
    ensures forall element <- Rewritten(place, source, args) :: !Removed(element)
  {
    if args != [] {
      RewrittenStep(place, source, args);
      TokenLeavesNoFlag(place, source, args);
      NoFlagSurvives(place, source, args[|Spelling(FirstToken(args, source))|..]);
    }
  }

  lemma SwitchSurvives()
    ensures !Removed(WARNING_OFF) && !PathOption(WARNING_OFF) && GluedOption(WARNING_OFF) == ""
  {
    assert WARNING_OFF[1] == 'W' && WARNING_OFF[2] == 'n';
    if Removed(WARNING_OFF) {
      RemovedShape(WARNING_OFF);
      assert false;
    }
  }

  lemma SanitizedIsClean(place: Place, source: string, clang: string, args: seq<string>)
    requires place.Valid()
    ensures forall i :: 0 < i < |Sanitized(place, source, clang, args)| ==> !Removed(Sanitized(place, source, clang, args)[i])
  {
    var rewritten := Rewritten(place, source, Tail(args, 1));
    NoFlagSurvives(place, source, Tail(args, 1));
    SwitchSurvives();
    forall i | 0 < i < |Sanitized(place, source, clang, args)|
      ensures !Removed(Sanitized(place, source, clang, args)[i])
    {
      if i > 1 {
        assert Sanitized(place, source, clang, args)[i] == rewritten[i - 2];
      }
    }
  }

  /** Of the flags that are to go with their value, the prefix test takes one alone before its turn comes. */
  lemma OnlyIsysrootGoesAlone(flag: string)
    requires RemovedWithValue(flag)
    ensures RemovedAlone(flag) <==> flag == "-isysroot"
  {
    if flag != "-isysroot" {
      assert flag[0] == '-' && (flag[1] == '-' || flag[1] == 't' || flag[1] == 'g');
      assert flag[1] == 't' ==> |flag| < |"-target="|;
      assert flag[1] == '-' ==> flag[2] == 't' || flag[2] == 's' || flag[2] == 'g';
      assert flag[1] == '-' && flag[2] == 't' ==> |flag| < |"--target="|;
      assert flag[1] == '-' && flag[2] == 's' ==> |flag| < |"--sysroot="|;
    }
  }

  /** What becomes of the argument after each of these flags. */
  lemma FlagAndValue(place: Place, source: string, flag: string, value: string, rest: seq<string>)
    requires RemovedWithValue(flag)
    ensures Rewritten(place, source, [flag, value] + rest) ==
            if flag == "-isysroot" then Rewritten(place, source, [value] + rest) else Rewritten(place, source, rest)
  {
    var args := [flag, value] + rest;
    OnlyIsysrootGoesAlone(flag);
    RewrittenStep(place, source, args);
    assert args[0] == flag && args[1] == value;
    assert args[1..] == [value] + rest && args[2..] == rest;
  }

  lemma PlainArgumentStays(place: Place, source: string)
    ensures Rewritten(place, source, ["x"]) != []
  {
    RewrittenStep(place, source, ["x"]);
    var arg := "x";
    assert |arg| == 1 && arg[0] == 'x';
    if Removed(arg) {
      RemovedShape(arg);
      assert false;
    }
  }

  /** The value always goes with its flag, whatever it is and whatever follows, if and only if the flag is not `-isysroot`. */
  lemma ValueGoesIffNotIsysroot(place: Place, source: string, flag: string)
    requires RemovedWithValue(flag)
    ensures (forall value, rest :: Rewritten(place, source, [flag, value] + rest) == Rewritten(place, source, rest)) <==>
            flag != "-isysroot"
  {
    if flag == "-isysroot" {
      FlagAndValue(place, source, flag, "x", []);
      PlainArgumentStays(place, source);
      assert ["x"] + [] == ["x"];
      assert Rewritten(place, source, [flag, "x"] + []) != Rewritten(place, source, []);
    } else {
      forall value, rest
        ensures Rewritten(place, source, [flag, value] + rest) == Rewritten(place, source, rest)
      {
        FlagAndValue(place, source, flag, value, rest);
      }
    }
  }

  // ----- Rewriting twice -----

  const BARE_QUOTE: string := "-iquote/"

  /** What a second rewriting does to an element of the result of the first. */
  function Again(place: Place, source: string, element: string): string {
    if element == source && (element == WARNING_OFF || element == BARE_QUOTE) then place.Resolve(element) else element
  }

  function AllAgain(place: Place, source: string, elements: seq<string>): seq<string> {
    seq(|elements|, i requires 0 <= i < |elements| => Again(place, source, elements[i]))
  }

  lemma RootedAgain(place: Place, source: string, path: string)
    requires place.Valid()
    ensures Rooted(place.Resolve(path)) && place.Resolve(place.Resolve(path)) == place.Resolve(path)
    ensures Again(place, source, place.Resolve(path)) == place.Resolve(path)
  {
    AbsoluteIsRooted(place.normalize, place.directory, path);
    assert place.Resolve(path)[0] == '/';
  }

  lemma GluedAgain(place: Place, source: string, option: string, path: string, rest: seq<string>)
    requires place.Valid() && (option == "-I" || option == "-isystem" || option == "-iquote")
    ensures var glued := option + place.Resolve(path);
            var token := FirstToken([glued] + rest, source);
            |Spelling(token)| == 1 && Rendered(place, token) == [Again(place, source, glued)]
  {
    RootedAgain(place, source, path);
    var resolved := place.Resolve(path);
    var glued := option + resolved;
    GluedSurvives(option, resolved);
    assert ([glued] + rest)[0] == glued;
    assert glued[0] == '-' && glued[1] == option[1];
    assert glued[|option|..] == resolved;
    if option == "-iquote" && resolved == "/" {
      assert glued == BARE_QUOTE;
    } else {
      NotAgain(option, resolved);
    }
  }

  lemma NotAgain(option: string, path: string)
    requires (option == "-I" || option == "-isystem" || option == "-iquote") && Rooted(path)
    requires !(option == "-iquote" && path == "/")
    ensures option + path != BARE_QUOTE && option + path != WARNING_OFF
  {
    var glued := option + path;
    assert glued[1] == option[1];
    assert WARNING_OFF[1] == 'W' && BARE_QUOTE[1] == 'i' && BARE_QUOTE[2] == 'q';
    assert |path| == 1 ==> path == "/";
    if option == "-isystem" {
      assert glued[2] == 's';
    }
  }

  lemma TokenAgain(place: Place, source: string, args: seq<string>, rest: seq<string>)
    requires place.Valid() && args != []
    requires |args| == 1 ==> rest == []
    ensures var rendered := Rendered(place, FirstToken(args, source));
            rendered != [] ==>
              var token := FirstToken(rendered + rest, source);
              |Spelling(token)| == |rendered| && Rendered(place, token) == AllAgain(place, source, rendered)
  {
    match FirstToken(args, source)
    case Dropped(_) =>
    case DroppedPair(_, _) =>
    case OptionPath(option, path) =>
      OptionSurvives(option);
      RootedAgain(place, source, path);
      assert ([option, place.Resolve(path)] + rest)[1] == place.Resolve(path);
    case GluedPath(option, path) =>
      GluedOptions(args[0]);
      GluedAgain(place, source, option, path, rest);
    case Source(path) =>
      RootedAgain(place, source, path);
      RootedIsNoFlag(place.Resolve(path));
    case Kept(arg) =>
      assert ([arg] + rest)[0] == arg;
  }

  lemma AllAgainConcat(place: Place, source: string, left: seq<string>, right: seq<string>)
    ensures AllAgain(place, source, left + right) == AllAgain(place, source, left) + AllAgain(place, source, right)
  {
  }

  lemma {:induction false} RewritingTwice(place: Place, source: string, args: seq<string>)
    requires place.Valid()
    ensures Rewritten(place, source, Rewritten(place, source, args)) ==
            AllAgain(place, source, Rewritten(place, source, args))
  {
    if args != [] {
      RewrittenStep(place, source, args);
      FirstTokenSpells(args, source);
      var token := FirstToken(args, source);
      var rendered := Rendered(place, token);
      var rest := Rewritten(place, source, args[|Spelling(token)|..]);
      RewritingTwice(place, source, args[|Spelling(token)|..]);
      TokenAgain(place, source, args, rest);
      AllAgainConcat(place, source, rendered, rest);
      if rendered == [] {
        assert rendered + rest == rest;
      } else {
        RewrittenStep(place, source, rendered + rest);
        assert (rendered + rest)[|rendered|..] == rest;
      }
    }
  }

  lemma SwitchAgain(place: Place, source: string, rest: seq<string>)
    ensures Rewritten(place, source, [WARNING_OFF] + rest) ==
            [Again(place, source, WARNING_OFF)] + Rewritten(place, source, rest)
  {
    SwitchSurvives();
    RewrittenStep(place, source, [WARNING_OFF] + rest);
    assert ([WARNING_OFF] + rest)[1..] == rest;
    assert WARNING_OFF[0] == '-';
  }

  lemma SanitizedAgain(place: Place, source: string, clang: string, args: seq<string>)
    requires place.Valid()
    ensures Sanitized(place, source, clang, Sanitized(place, source, clang, args)) ==
            [clang, WARNING_OFF] + AllAgain(place, source, [WARNING_OFF] + Rewritten(place, source, Tail(args, 1)))
  {
    var rewritten := Rewritten(place, source, Tail(args, 1));
    assert Tail(Sanitized(place, source, clang, args), 1) == [WARNING_OFF] + rewritten;
    SwitchAgain(place, source, rewritten);
    RewritingTwice(place, source, Tail(args, 1));
    AllAgainConcat(place, source, [WARNING_OFF], rewritten);
    assert AllAgain(place, source, [WARNING_OFF]) == [Again(place, source, WARNING_OFF)];
  }

  lemma AgainIsSame(place: Place, source: string, elements: seq<string>)
    requires place.Valid()
    ensures AllAgain(place, source, elements) == elements <==>
            !((source == WARNING_OFF || source == BARE_QUOTE) && source in elements)
  {
    AbsoluteIsRooted(place.normalize, place.directory, source);
    assert place.Resolve(source)[0] == '/';
    if (source == WARNING_OFF || source == BARE_QUOTE) && source in elements {
      var i :| 0 <= i < |elements| && elements[i] == source;
      assert AllAgain(place, source, elements)[i] == place.Resolve(source);
      assert source[0] == '-';
    }
  }

  /** Some `-iquote` argument names the root directory, in whatever way. */
  ghost predicate QuotesRoot(place: Place, source: string, args: seq<string>) {
    exists token <- Tokens(args, source) :: token.GluedPath? && token.option == "-iquote" && place.Resolve(token.path) == "/"
  }

  lemma TokenGivesBareQuote(place: Place, source: string, args: seq<string>)
    requires place.Valid() && source == BARE_QUOTE && args != []
    ensures var token := FirstToken(args, source);
            BARE_QUOTE in Rendered(place, token) <==>
            token.GluedPath? && token.option == "-iquote" && place.Resolve(token.path) == "/"
  {
    assert |BARE_QUOTE| == 8 && BARE_QUOTE[0] == '-' && BARE_QUOTE[1] == 'i' && BARE_QUOTE[2] == 'q' && BARE_QUOTE[7] == '/';
    match FirstToken(args, source)
    case Dropped(_) =>
    case DroppedPair(_, _) =>
    case OptionPath(option, path) =>
      AbsoluteIsRooted(place.normalize, place.directory, path);
      assert option != BARE_QUOTE;
      assert place.Resolve(path)[0] == '/';
    case GluedPath(option, path) =>
      GluedOptions(args[0]);
      AbsoluteIsRooted(place.normalize, place.directory, path);
      GluedIsBareQuote(option, place.Resolve(path));
    case Source(path) =>
      AbsoluteIsRooted(place.normalize, place.directory, path);
      assert place.Resolve(path)[0] == '/';
    case Kept(arg) =>
      assert arg != source;
  }

  lemma GluedIsBareQuote(option: string, path: string)
    requires (option == "-I" || option == "-isystem" || option == "-iquote") && Rooted(path)
    ensures option + path == BARE_QUOTE <==> option == "-iquote" && path == "/"
  {
    if !(option == "-iquote" && path == "/") {
      NotAgain(option, path);
    }
  }

  lemma {:induction false} BareQuoteComesFromRoot(place: Place, source: string, args: seq<string>)
    requires place.Valid() && source == BARE_QUOTE
    ensures BARE_QUOTE in Rewritten(place, source, args) <==> QuotesRoot(place, source, args)
  {
    if args != [] {
      RewrittenStep(place, source, args);
      FirstTokenSpells(args, source);
      TokenGivesBareQuote(place, source, args);
      var token := FirstToken(args, source);
      var rest := args[|Spelling(token)|..];
      BareQuoteComesFromRoot(place, source, rest);
      assert Tokens(args, source) == [token] + Tokens(rest, source);
    }
  }

  /**
    Rewriting the new command once more only adds one more copy of the warning switch, except when the
    source is named like that switch, or is named `-iquote/` and some `-iquote` argument names the root.
   */
  lemma SanitizingTwice(place: Place, source: string, clang: string, args: seq<string>)
    requires place.Valid()
    ensures Sanitized(place, source, clang, Sanitized(place, source, clang, args)) ==
            [clang, WARNING_OFF] + ([WARNING_OFF] + Rewritten(place, source, Tail(args, 1))) <==>
            source != WARNING_OFF && !(source == BARE_QUOTE && QuotesRoot(place, source, Tail(args, 1)))
  {
    var elements := [WARNING_OFF] + Rewritten(place, source, Tail(args, 1));
    SanitizedAgain(place, source, clang, args);
    AgainIsSame(place, source, elements);
    var twice := [clang, WARNING_OFF] + AllAgain(place, source, elements);
    assert twice[2..] == AllAgain(place, source, elements);
    assert ([clang, WARNING_OFF] + elements)[2..] == elements;
    assert elements[0] == WARNING_OFF;
    assert WARNING_OFF != BARE_QUOTE;
    if source == BARE_QUOTE {
      BareQuoteComesFromRoot(place, source, Tail(args, 1));
    }
  }

  /** In particular for every source whose name does not start with a dash. */
  lemma SanitizingTwiceAddsTheSwitch(place: Place, source: string, clang: string, args: seq<string>)
    requires place.Valid() && !("-" <= source)
    ensures Sanitized(place, source, clang, Sanitized(place, source, clang, args)) ==
            [clang, WARNING_OFF] + ([WARNING_OFF] + Rewritten(place, source, Tail(args, 1)))
  {
    SanitizingTwice(place, source, clang, args);
    assert WARNING_OFF[0] == '-' && BARE_QUOTE[0] == '-';
  }
}
