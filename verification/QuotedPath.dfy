/**
  Finding the quoted literal at a position of a script.  The two loops are proved against a grammar of
  quoted literals; the grammar is unambiguous, so the literal found is the only one there is.
 */
module QuotedPath {
  import opened Wrappers

  // ----- The grammar -----

  /** White space, as the standard library of Python has it. */
  predicate Space(c: char) {
    var code := c as int;
    || 9 <= code <= 13 || 28 <= code <= 32 || code == 0x85 || code == 0xA0 || code == 0x1680
    || 0x2000 <= code <= 0x200A || code == 0x2028 || code == 0x2029 || code == 0x202F || code == 0x205F
    || code == 0x3000
  }

  predicate Quote(c: char) {
    c == '\'' || c == '"' || c == '`'
  }

  /** What may stand between two quotes: a backslash takes the next character with it, and no bare quote. */
  predicate Body(s: string, quote: char) {
    if s == "" then true
    else if s[0] == '\\' then |s| > 1 && Body(s[2..], quote)
    else s[0] != quote && Body(s[1..], quote)
  }

  ghost predicate Blank(s: string) {
    forall c <- s :: Space(c)
  }

  /** At `start`, after white space, the text has the literal `value` in quotes, which ends before `next`. */
  ghost predicate Quoted(text: string, start: nat, value: string, next: nat) {
    exists open: nat ::
      && start <= open && open + |value| + 2 == next && next <= |text|
      && Blank(text[start..open]) && Quote(text[open])
      && text[open + 1..next - 1] == value && Body(value, text[open]) && text[next - 1] == text[open]
  }

  // ----- Bodies -----

  lemma {:induction false} BodyThenChar(s: string, quote: char, c: char)
    requires Body(s, quote) && c != '\\' && c != quote
    ensures Body(s + [c], quote)
  {
    if s == "" {
      assert (s + [c])[1..] == "";
    } else {
      var n := if s[0] == '\\' then 2 else 1;
      assert (s + [c])[n..] == s[n..] + [c];
      BodyThenChar(s[n..], quote, c);
    }
  }

  lemma {:induction false} BodyThenEscape(s: string, quote: char, c: char)
    requires Body(s, quote)
    ensures Body(s + ['\\', c], quote)
  {
    if s == "" {
      assert (s + ['\\', c])[2..] == "";
    } else {
      var n := if s[0] == '\\' then 2 else 1;
      assert (s + ['\\', c])[n..] == s[n..] + ['\\', c];
      BodyThenEscape(s[n..], quote, c);
    }
  }

  /** Inside a body no shorter literal closes; neither does one before a last backslash. */
  lemma {:induction false} NothingClosesInside(s: string, quote: char, k: nat)
    requires quote != '\\' && k < |s|
    requires Body(s, quote) || (s[|s| - 1] == '\\' && Body(s[..|s| - 1], quote))
    ensures !(Body(s[..k], quote) && s[k] == quote)
  {
    var n := if s[0] == '\\' then 2 else 1;
    if k >= n {
      assert s[..k][n..] == s[n..][..k - n];
      assert !Body(s, quote) ==> s[..|s| - 1][n..] == s[n..][..|s[n..]| - 1];
      NothingClosesInside(s[n..], quote, k - n);
    } else if k == 1 {
      assert !Body(s[..k], quote);
    }
  }

  /** There is at most one literal at a position. */
  lemma QuotedUnique(text: string, start: nat, left: string, leftNext: nat, right: string, rightNext: nat)
    requires Quoted(text, start, left, leftNext) && Quoted(text, start, right, rightNext)
    ensures left == right && leftNext == rightNext
  {
    var i: nat :| start <= i && i + |left| + 2 == leftNext && leftNext <= |text|
      && Blank(text[start..i]) && Quote(text[i])
      && text[i + 1..leftNext - 1] == left && Body(left, text[i]) && text[leftNext - 1] == text[i];
    var j: nat :| start <= j && j + |right| + 2 == rightNext && rightNext <= |text|
      && Blank(text[start..j]) && Quote(text[j])
      && text[j + 1..rightNext - 1] == right && Body(right, text[j]) && text[rightNext - 1] == text[j];
    SameOpening(text, start, i, j);
    SameClosing(text, i, left, right);
    SameClosing(text, i, right, left);
  }

  lemma BlankAt(text: string, start: nat, end: nat, k: nat)
    requires start <= k < end <= |text| && Blank(text[start..end])
    ensures Space(text[k]) && !Quote(text[k])
  {
    assert text[start..end][k - start] == text[k];
  }

  lemma SameOpening(text: string, start: nat, i: nat, j: nat)
    requires start <= i < |text| && start <= j < |text|
    requires Blank(text[start..i]) && Quote(text[i]) && Blank(text[start..j]) && Quote(text[j])
    ensures i == j
  {
    if i < j {
      BlankAt(text, start, j, i);
    } else if j < i {
      BlankAt(text, start, i, j);
    }
  }

  lemma SameClosing(text: string, open: nat, left: string, right: string)
    requires open < |text| && Quote(text[open])
    requires open + 1 + |left| < |text| && text[open + 1..open + 1 + |left|] == left
    requires open + 1 + |right| < |text| && text[open + 1..open + 1 + |right|] == right
    requires Body(left, text[open]) && Body(right, text[open]) && text[open + 1 + |left|] == text[open]
    ensures |left| >= |right|
  {
    if |left| < |right| {
      assert right[..|left|] == left;
      NothingClosesInside(right, text[open], |left|);
    }
  }

  // ----- The code -----

  method SkipSpaces(text: string, start: nat) returns (index: nat)
    ensures start <= index && (start <= |text| ==> index <= |text| && Blank(text[start..index]))
    ensures index < |text| ==> !Space(text[index])
  {
    index := start;
    while index < |text| && Space(text[index])
      invariant start <= index && (start <= |text| ==> index <= |text| && Blank(text[start..index]))
    {
      assert text[start..index + 1] == text[start..index] + [text[index]];
      index := index + 1;
    }
  }

  /** Reads up to the closing quote; the index returned is that of the character after it. */
  method ReadBody(text: string, open: nat) returns (result: Option<(string, nat)>)
    requires open < |text| && Quote(text[open])
    ensures result.Some? ==>
              var (value, next) := result.value;
              && open + |value| + 2 == next && next <= |text|
              && text[open + 1..next - 1] == value && Body(value, text[open]) && text[next - 1] == text[open]
    ensures result.None? ==>
              forall k :: open < k < |text| && text[k] == text[open] ==> !Body(text[open + 1..k], text[open])
  {
    var quote := text[open];
    var index := open + 1;
    var escaped := false;
    while index < |text|
      invariant open < index <= |text|
      invariant !escaped ==> Body(text[open + 1..index], quote)
      invariant escaped ==> open + 1 < index && text[index - 1] == '\\' && Body(text[open + 1..index - 1], quote)
    {
      var c := text[index];
      if escaped {
        escaped := false;
        BodyThenEscape(text[open + 1..index - 1], quote, c);
        assert text[open + 1..index + 1] == text[open + 1..index - 1] + ['\\', c];
      } else if c == '\\' {
        escaped := true;
      } else if c == quote {
        return Some((text[open + 1..index], index + 1));
      } else {
        BodyThenChar(text[open + 1..index], quote, c);
        assert text[open + 1..index + 1] == text[open + 1..index] + [c];
      }
      index := index + 1;
    }
    ghost var s := text[open + 1..];
    assert s == text[open + 1..|text|];
    assert escaped ==> s[..|s| - 1] == text[open + 1..|text| - 1];
    forall k | open < k < |text| && text[k] == quote
      ensures !Body(text[open + 1..k], quote)
    {
      assert s[..k - open - 1] == text[open + 1..k] && s[k - open - 1] == text[k];
      NothingClosesInside(s, quote, k - open - 1);
    }
    return None;
  }

  /** The literal at `start`, with the position after it, if there is one. */
  method ExtractQuotedPath(text: string, start: nat) returns (result: Option<(string, nat)>)
    ensures result.Some? ==> Quoted(text, start, result.value.0, result.value.1)
    ensures result.None? ==> forall value, next :: !Quoted(text, start, value, next)
  {
    var index := SkipSpaces(text, start);
    if index >= |text| || !Quote(text[index]) {
      NoOpening(text, start, index);
      return None;
    }
    result := ReadBody(text, index);
    if result.None? {
      NoClosing(text, start, index);
    }
  }

  lemma NoOpening(text: string, start: nat, index: nat)
    requires start <= index && (start <= |text| ==> index <= |text| && Blank(text[start..index]))
    requires index < |text| ==> !Space(text[index]) && !Quote(text[index])
    ensures forall value, next :: !Quoted(text, start, value, next)
  {
    forall value, next: nat | Quoted(text, start, value, next)
      ensures false
    {
      var open: nat :| start <= open && open + |value| + 2 == next && next <= |text|
        && Blank(text[start..open]) && Quote(text[open]);
      if index < open {
        BlankAt(text, start, open, index);
      } else if open < index {
        BlankAt(text, start, index, open);
      }
    }
  }

  lemma NoClosing(text: string, start: nat, index: nat)
    requires start <= index < |text| && Blank(text[start..index]) && Quote(text[index])
    requires forall k :: index < k < |text| && text[k] == text[index] ==> !Body(text[index + 1..k], text[index])
    ensures forall value, next :: !Quoted(text, start, value, next)
  {
    forall value, next: nat | Quoted(text, start, value, next)
      ensures false
    {
      var open: nat :| start <= open && open + |value| + 2 == next && next <= |text|
        && Blank(text[start..open]) && Quote(text[open])
        && text[open + 1..next - 1] == value && Body(value, text[open]) && text[next - 1] == text[open];
      SameOpening(text, start, open, index);
    }
  }

  // ----- Writing a literal and finding it -----

  /** Backslashes and quotes get a backslash in front. */
  function Escape(value: string, quote: char): string {
    if value == "" then ""
    else if value[0] == '\\' || value[0] == quote then ['\\', value[0]] + Escape(value[1..], quote)
    else [value[0]] + Escape(value[1..], quote)
  }

  function Unescape(body: string): string {
    if body == "" then ""
    else if body[0] == '\\' && |body| > 1 then [body[1]] + Unescape(body[2..])
    else [body[0]] + Unescape(body[1..])
  }

  lemma {:induction false} EscapedIsBody(value: string, quote: char)
    ensures Body(Escape(value, quote), quote) && Unescape(Escape(value, quote)) == value
  {
    if value != "" {
      EscapedIsBody(value[1..], quote);
      var escaped := Escape(value, quote);
      var n := if value[0] == '\\' || value[0] == quote then 2 else 1;
      assert escaped[n..] == Escape(value[1..], quote);
      assert [value[0]] + value[1..] == value;
    }
  }

  /** Any value, escaped and quoted after white space, is found again, whatever follows it. */
  lemma EscapedIsFound(before: string, blank: string, value: string, quote: char, rest: string)
    requires Blank(blank) && Quote(quote)
    ensures Quoted(before + blank + [quote] + Escape(value, quote) + [quote] + rest, |before|, Escape(value, quote),
                   |before| + |blank| + |Escape(value, quote)| + 2)
  {
    var body := Escape(value, quote);
    var text := before + blank + [quote] + body + [quote] + rest;
    var open := |before| + |blank|;
    var next := open + |body| + 2;
    EscapedIsBody(value, quote);
    assert text[|before|..open] == blank;
    assert text[open] == quote && text[next - 1] == quote;
    assert text[open + 1..next - 1] == body;
  }

  // ----- The grammar in other words -----

  /** The code points of white space. */
  const WHITE_SPACE: seq<int> :=
    [9, 10, 11, 12, 13, 28, 29, 30, 31, 32, 133, 160, 5760, 8192, 8193, 8194, 8195, 8196, 8197, 8198, 8199, 8200, 8201,
     8202, 8232, 8233, 8239, 8287, 12288]

  lemma WhiteSpace(c: char)
    ensures Space(c) <==> c as int in WHITE_SPACE
  {
  }

  lemma ThreeQuotes(c: char)
    ensures Quote(c) <==> c in "'\"`"
  {
  }

  /** The number of backslashes right before position `k`. */
  function Backslashes(s: string, k: nat): nat
    requires k <= |s|
  {
    if k == 0 || s[k - 1] != '\\' then 0 else 1 + Backslashes(s, k - 1)
  }

  /** A quote counts only after an even number of backslashes, and so does the end. */
  predicate NothingBare(s: string, quote: char) {
    && (forall k :: 0 <= k < |s| && s[k] == quote ==> Backslashes(s, k) % 2 == 1)
    && Backslashes(s, |s|) % 2 == 0
  }

  /** The backslashes before a position, with `n` characters taken off the front: one that is none, or a pair. */
  lemma {:induction false} BackslashesShift(s: string, n: nat, k: nat)
    requires n <= k <= |s|
    requires (n == 1 && s[0] != '\\') || (n == 2 && s[0] == '\\')
    ensures Backslashes(s, k) % 2 == Backslashes(s[n..], k - n) % 2
    decreases k
  {
    if k > n {
      assert s[n..][k - n - 1] == s[k - 1];
      if s[k - 1] == '\\' {
        BackslashesShift(s, n, k - 1);
      }
    } else if n == 2 {
      assert Backslashes(s, 1) == 1;
    }
  }

  /** What may stand between two quotes, by counting backslashes. */
  lemma {:induction false} BodyIffNothingBare(s: string, quote: char)
    requires quote != '\\'
    ensures Body(s, quote) <==> NothingBare(s, quote)
  {
    if s != "" {
      if s[0] == '\\' && |s| == 1 {
        assert Backslashes(s, 1) == 1;
      } else {
        var n := if s[0] == '\\' then 2 else 1;
        BodyIffNothingBare(s[n..], quote);
        BareShift(s, quote, n);
      }
    }
  }

  lemma BareShift(s: string, quote: char, n: nat)
    requires quote != '\\' && n <= |s|
    requires (n == 1 && s[0] != '\\') || (n == 2 && s[0] == '\\')
    ensures NothingBare(s, quote) <==> NothingBare(s[n..], quote) && s[0] != quote
  {
    forall k | n <= k <= |s|
      ensures Backslashes(s, k) % 2 == Backslashes(s[n..], k - n) % 2
    {
      BackslashesShift(s, n, k);
    }
    assert forall k :: n <= k < |s| ==> s[k] == s[n..][k - n];
    assert Backslashes(s, 0) == 0;
    if NothingBare(s, quote) {
      forall k | 0 <= k < |s[n..]| && s[n..][k] == quote
        ensures Backslashes(s[n..], k) % 2 == 1
      {
        assert s[k + n] == quote;
      }
    }
    if NothingBare(s[n..], quote) && s[0] != quote {
      forall k | 0 <= k < |s| && s[k] == quote
        ensures Backslashes(s, k) % 2 == 1
      {
        if k >= n {
          assert s[n..][k - n] == quote;
        } else {
          assert k == 1 && Backslashes(s, 1) == 1;
        }
      }
    }
  }
}
