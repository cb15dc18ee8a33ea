/**
  The rewriting of a compile command argument by argument, in terms of the listed flags and prefixes alone: what
  each sort of argument turns into, whatever follows it.
 */
module CompileFlags {
  import opened CompileCommand

  const DROPPED_PREFIXES: seq<string> :=
    ["-mcpu=", "-mfloat-abi=", "-mfpu=", "-march=", "-mtune=", "--target=", "-target=", "--sysroot=", "-isysroot",
     "-Wreserved-user-defined-literal"]

  const DROPPED_WITH_VALUE: seq<string> :=
    ["--target", "-target", "--sysroot", "-isysroot", "-gcc-toolchain", "--gcc-toolchain"]

  const WITH_PATH: seq<string> := ["-I", "-isystem", "-iquote", "-include", "-o"]

  ghost predicate DroppedAlone(arg: string) {
    arg == "-Werror" || exists i :: 0 <= i < |DROPPED_PREFIXES| && DROPPED_PREFIXES[i] <= arg
  }

  lemma DroppedAloneIffListed(arg: string)
    ensures RemovedAlone(arg) <==> DroppedAlone(arg)
  {
    if HasRemovedPrefix(arg) {
      assert DROPPED_PREFIXES[0] <= arg || DROPPED_PREFIXES[1] <= arg || DROPPED_PREFIXES[2] <= arg ||
             DROPPED_PREFIXES[3] <= arg || DROPPED_PREFIXES[4] <= arg || DROPPED_PREFIXES[5] <= arg ||
             DROPPED_PREFIXES[6] <= arg || DROPPED_PREFIXES[7] <= arg || DROPPED_PREFIXES[8] <= arg ||
             DROPPED_PREFIXES[9] <= arg;
    }
  }

  lemma DroppedWithValueIffListed(arg: string)
    ensures RemovedWithValue(arg) <==> arg in DROPPED_WITH_VALUE
  {
  }

  /** No element after the compiler is a listed flag or starts with a listed prefix. */
  lemma NoneListed(place: Place, source: string, clang: string, args: seq<string>, i: nat)
    requires place.Valid() && 0 < i < |Sanitized(place, source, clang, args)|
    ensures Sanitized(place, source, clang, args)[i] !in DROPPED_WITH_VALUE
    ensures !DroppedAlone(Sanitized(place, source, clang, args)[i])
  {
    SanitizedIsClean(place, source, clang, args);
    DroppedAloneIffListed(Sanitized(place, source, clang, args)[i]);
    DroppedWithValueIffListed(Sanitized(place, source, clang, args)[i]);
  }

  /** Where the command starts. */
  lemma StartsWith(place: Place, source: string, clang: string, args: seq<string>)
    ensures |Sanitized(place, source, clang, args)| >= 2
    ensures Sanitized(place, source, clang, args)[..2] == [clang, "-Wno-reserved-user-defined-literal"]
    ensures Sanitized(place, source, clang, args)[2..] == Rewritten(place, source, if |args| > 0 then args[1..] else [])
  {
  }

  /** A relative path is looked up in the directory; one from the root stays. */
  lemma Resolves(place: Place, path: string)
    ensures "/" <= path ==> place.Resolve(path) == path
    ensures !("/" <= path) && place.directory != "" && place.directory[|place.directory| - 1] != '/' ==>
              place.Resolve(path) == place.normalize(place.directory + "/" + path)
    ensures !("/" <= path) && (place.directory == "" || place.directory[|place.directory| - 1] == '/') ==>
              place.Resolve(path) == place.normalize(place.directory + path)
  {
    if place.directory != "" {
      assert place.directory[|place.directory| - 1..] == [place.directory[|place.directory| - 1]];
    }
  }

  // ----- One argument at a time -----

  lemma FirstOf(place: Place, source: string, arg: string, rest: seq<string>)
    ensures var token := FirstToken([arg] + rest, source);
            && |Spelling(token)| <= 1 + |rest|
            && Rewritten(place, source, [arg] + rest) ==
               Rendered(place, token) + Rewritten(place, source, ([arg] + rest)[|Spelling(token)|..])
  {
    RewrittenStep(place, source, [arg] + rest);
  }

  lemma Nothing(place: Place, source: string)
    ensures Rewritten(place, source, []) == []
  {
  }

  lemma ListedGoes(place: Place, source: string, arg: string, rest: seq<string>)
    requires DroppedAlone(arg)
    ensures Rewritten(place, source, [arg] + rest) == Rewritten(place, source, rest)
  {
    DroppedAloneIffListed(arg);
    FirstOf(place, source, arg, rest);
    assert ([arg] + rest)[1..] == rest;
  }

  /** A flag at the very end goes without a value. */
  lemma LastFlagGoes(place: Place, source: string, flag: string)
    requires flag in DROPPED_WITH_VALUE
    ensures Rewritten(place, source, [flag]) == []
  {
    assert [flag] + [] == [flag];
    FirstOf(place, source, flag, []);
    Nothing(place, source);
  }

  lemma PathIsResolved(place: Place, source: string, option: string, path: string, rest: seq<string>)
    requires option in WITH_PATH
    ensures Rewritten(place, source, [option, path] + rest) ==
            [option, place.Resolve(path)] + Rewritten(place, source, rest)
  {
    OptionSurvives(option);
    assert [option, path] + rest == [option] + ([path] + rest);
    FirstOf(place, source, option, [path] + rest);
    assert ([option] + ([path] + rest))[1] == path;
    assert ([option] + ([path] + rest))[2..] == rest;
  }

  /** What may be glued to which option; a single character after `-iquote` is not taken for a path. */
  predicate Glues(option: string, path: string) {
    ((option == "-I" || option == "-isystem") && path != "") || (option == "-iquote" && |path| > 1)
  }

  lemma GluedShape(option: string, path: string)
    requires Glues(option, path)
    ensures GluedOption(option + path) == option && Unglued(option + path) == path
    ensures !Removed(option + path) && !PathOption(option + path)
  {
    var glued := option + path;
    assert option <= glued && glued[1] == option[1];
    if option == "-I" {
      assert glued[1] == 'I';
    } else {
      assert glued[2] == option[2] && glued[5] == option[5];
    }
    if Removed(glued) {
      RemovedShape(glued);
      assert false;
    }
    assert glued[|option|..] == path;
  }

  lemma GluedIsResolved(place: Place, source: string, option: string, path: string, rest: seq<string>)
    requires Glues(option, path)
    ensures Rewritten(place, source, [option + path] + rest) ==
            [option + place.Resolve(path)] + Rewritten(place, source, rest)
  {
    GluedShape(option, path);
    FirstOf(place, source, option + path, rest);
    assert ([option + path] + rest)[1..] == rest;
  }

  lemma OptionAlone(option: string)
    requires option in WITH_PATH
    ensures !Removed(option) && GluedOption(option) == "" && "-" <= option
  {
    OptionSurvives(option);
    assert |option| <= 8 && option[0] == '-';
    assert option != "-I" ==> option[1] != 'I';
  }

  /** An option at the very end has no path to resolve. */
  lemma LastOptionStays(place: Place, source: string, option: string)
    requires option in WITH_PATH && option != source
    ensures Rewritten(place, source, [option]) == [option]
  {
    OptionAlone(option);
    assert [option] + [] == [option];
    FirstOf(place, source, option, []);
    Nothing(place, source);
  }

  /** An argument that is none of the flags above. */
  ghost predicate Unlisted(arg: string) {
    && !DroppedAlone(arg) && arg !in DROPPED_WITH_VALUE && arg !in WITH_PATH
    && !("-I" <= arg) && !("-isystem" <= arg && |arg| > 8) && !("-iquote" <= arg && |arg| > 8)
  }

  /** A text that is the name of a C or C++ source, or the source itself. */
  predicate NamesSource(arg: string, source: string) {
    arg == source ||
    (!("-" <= arg) && (Ends(arg, ".c") || Ends(arg, ".cc") || Ends(arg, ".cpp") || Ends(arg, ".cxx")))
  }

  predicate Ends(text: string, suffix: string) {
    |text| >= |suffix| && forall i :: 0 <= i < |suffix| ==> text[|text| - |suffix| + i] == suffix[i]
  }

  lemma EndsIff(text: string, suffix: string)
    ensures EndsWith(text, suffix) <==> Ends(text, suffix)
  {
    if Ends(text, suffix) {
      assert text[|text| - |suffix|..] == suffix;
    }
  }

  lemma NamesSourceIff(arg: string, source: string)
    ensures SourceLike(arg, source) <==> NamesSource(arg, source)
  {
    EndsIff(arg, ".c");
    EndsIff(arg, ".cc");
    EndsIff(arg, ".cpp");
    EndsIff(arg, ".cxx");
  }

  /** A source is resolved, and every other argument that is not listed stays as it is. */
  lemma OthersStay(place: Place, source: string, arg: string, rest: seq<string>)
    requires Unlisted(arg)
    ensures Rewritten(place, source, [arg] + rest) ==
            [if NamesSource(arg, source) then place.Resolve(arg) else arg] + Rewritten(place, source, rest)
  {
    DroppedAloneIffListed(arg);
    NamesSourceIff(arg, source);
    FirstOf(place, source, arg, rest);
    assert ([arg] + rest)[1..] == rest;
  }
}
