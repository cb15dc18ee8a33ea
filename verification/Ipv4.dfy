/**
  The dotted-quad parser: an index loop that cuts the text at its dots.  It is proved against a
  definition that never mentions indices: four groups of digits joined by dots.
 */
module Ipv4 {
  import opened Wrappers

  // ----- What a dotted quad is -----

  predicate IsDigit(c: char) {
    '0' <= c <= '9'
  }

  function DigitValue(c: char): int {
    c as int - '0' as int
  }

  /** The decimal value of a run of digits. */
  function Decimal(digits: string): int {
    if digits == [] then 0 else Decimal(digits[..|digits| - 1]) * 10 + DigitValue(digits[|digits| - 1])
  }

  predicate AllDigits(text: string) {
    forall i :: 0 <= i < |text| ==> IsDigit(text[i])
  }

  /** One to three digits, worth at most 255; leading zeros are allowed. */
  predicate IsGroup(text: string) {
    1 <= |text| <= 3 && AllDigits(text) && Decimal(text) <= 255
  }

  datatype Quad = Quad(a: string, b: string, c: string, d: string)

  function Joined(quad: Quad): string {
    quad.a + "." + quad.b + "." + quad.c + "." + quad.d
  }

  predicate Grouped(quad: Quad) {
    IsGroup(quad.a) && IsGroup(quad.b) && IsGroup(quad.c) && IsGroup(quad.d)
  }

  function Values(quad: Quad): seq<int> {
    [Decimal(quad.a), Decimal(quad.b), Decimal(quad.c), Decimal(quad.d)]
  }

  ghost predicate IsDottedQuad(ip: string) {
    exists quad: Quad :: Grouped(quad) && Joined(quad) == ip
  }

  // ----- Cutting at the dots -----

  predicate NoDot(text: string, start: nat, end: nat)
    requires start <= end <= |text|
  {
    forall i :: start <= i < end ==> text[i] != '.'
  }

  function FindDot(text: string, start: nat): (end: nat)
    requires start <= |text|
    ensures start <= end <= |text|
    ensures NoDot(text, start, end)
    ensures end < |text| ==> text[end] == '.'
    decreases |text| - start
  {
    if start == |text| || text[start] == '.' then start else FindDot(text, start + 1)
  }

  datatype List<T> = Nil | Cons(head: T, tail: List<T>)

  /** The pieces between dots, from `start` on; a dot at the very end opens no piece. */
  function Pieces(text: string, start: nat): List<string>
    decreases |text| - start
  {
    if start >= |text| then Nil
    else
      var end := FindDot(text, start);
      Cons(text[start..end], Pieces(text, end + 1))
  }

  function FourValues(pieces: List<string>): Option<seq<int>> {
    match pieces
    case Cons(a, Cons(b, Cons(c, Cons(d, Nil)))) =>
      if Grouped(Quad(a, b, c, d)) then Some(Values(Quad(a, b, c, d))) else None
    case _ => None
  }

  /** Four good pieces, and no dot at the end. */
  function ParseQuad(ip: string): Option<seq<int>> {
    if ip == "" || ip[|ip| - 1] == '.' then None else FourValues(Pieces(ip, 0))
  }

  // ----- The loop -----

  /** The digits read so far, and one more. */
  lemma OneMoreDigit(ip: string, start: nat, i: nat)
    requires start <= i < |ip| && IsDigit(ip[i]) && AllDigits(ip[start..i])
    ensures AllDigits(ip[start..i + 1])
    ensures Decimal(ip[start..i + 1]) == Decimal(ip[start..i]) * 10 + DigitValue(ip[i])
  {
    var longer := ip[start..i + 1];
    assert longer[..|longer| - 1] == ip[start..i] && longer[|longer| - 1] == ip[i];
  }

  method ReadGroup(ip: string, start: nat, end: nat) returns (ok: bool, octet: int)
    requires start <= end <= |ip|
    ensures ok == AllDigits(ip[start..end])
    ensures ok ==> octet == Decimal(ip[start..end])
  {
    octet := 0;
    for i := start to end
      invariant AllDigits(ip[start..i]) && octet == Decimal(ip[start..i])
    {
      if !IsDigit(ip[i]) {
        assert ip[start..end][i - start] == ip[i];
        return false, octet;
      }
      OneMoreDigit(ip, start, i);
      octet := octet * 10 + ip[i] as int - '0' as int;
    }
    return true, octet;
  }

  /** `all` starts with good groups worth `values`, followed by `rest`. */
  ghost predicate Progress(all: List<string>, values: seq<int>, rest: List<string>)
    decreases |values|
  {
    if values == [] then all == rest
    else all.Cons? && IsGroup(all.head) && Decimal(all.head) == values[0] && Progress(all.tail, values[1..], rest)
  }

  lemma {:induction false} ProgressByOne(all: List<string>, values: seq<int>, rest: List<string>)
    requires Progress(all, values, rest) && rest.Cons? && IsGroup(rest.head)
    ensures Progress(all, values + [Decimal(rest.head)], rest.tail)
    decreases |values|
  {
    var longer := values + [Decimal(rest.head)];
    if values == [] {
      assert longer[1..] == [];
    } else {
      ProgressByOne(all.tail, values[1..], rest);
      assert longer[1..] == values[1..] + [Decimal(rest.head)];
    }
  }

  lemma ProgressDecides(all: List<string>, values: seq<int>, rest: List<string>)
    requires Progress(all, values, rest) && |values| <= 4
    ensures rest.Cons? && (|values| == 4 || !IsGroup(rest.head)) ==> FourValues(all).None?
    ensures rest.Nil? ==> FourValues(all) == if |values| == 4 then Some(values) else None
  {
    if |values| > 0 {
      assert Progress(all.tail, values[1..], rest);
      if |values| > 1 {
        assert Progress(all.tail.tail, values[2..], rest) by { assert values[1..][1..] == values[2..]; }
        if |values| > 2 {
          assert Progress(all.tail.tail.tail, values[3..], rest) by { assert values[2..][1..] == values[3..]; }
          if |values| > 3 {
            assert Progress(all.tail.tail.tail.tail, values[4..], rest) by { assert values[3..][1..] == values[4..]; }
            assert values[4..] == [] && values == [values[0], values[1], values[2], values[3]];
            assert values[1..][0] == values[1] && values[2..][0] == values[2] && values[3..][0] == values[3];
          }
        }
      }
    }
  }

  /**
    Accepts exactly the dotted quads and stores their four values; `octets` is never indexed out of
    bounds.  What a refused text leaves in `octets` does not matter to the callers.
   */
  method ParseIpv4Octets(ip: string, octets: array<int>) returns (ok: bool)
    requires octets.Length == 4
    modifies octets
    ensures ok == ParseQuad(ip).Some?
    ensures ok ==> octets[..] == ParseQuad(ip).value
  {
    if ip == "" {
      return false;
    }
    var parsed := 0;
    var start := 0;
    while start < |ip|
      invariant 0 <= parsed <= 4 && Progress(Pieces(ip, 0), octets[..parsed], Pieces(ip, start))
      decreases |ip| - start
    {
      ghost var rest := Pieces(ip, start);
      ProgressDecides(Pieces(ip, 0), octets[..parsed], rest);
      if parsed >= 4 {
        return false;
      }
      var end := FindDot(ip, start);
      if end == start || end - start > 3 {
        return false;
      }
      var digits, octet := ReadGroup(ip, start, end);
      if !digits {
        return false;
      }
      if octet > 255 {
        return false;
      }
      ProgressByOne(Pieces(ip, 0), octets[..parsed], rest);
      ghost var before := octets[..parsed];
      octets[parsed] := octet;
      assert octets[..parsed + 1] == before + [octet];
      parsed := parsed + 1;
      start := end + 1;
    }
    ProgressDecides(Pieces(ip, 0), octets[..parsed], Nil);
    assert octets[..4] == octets[..];
    return parsed == 4 && ip[|ip| - 1] != '.';
  }

  // ----- What the loop accepts -----

  lemma {:induction false} DecimalNatural(digits: string)
    requires AllDigits(digits)
    ensures Decimal(digits) >= 0
  {
    if digits != [] {
      DecimalNatural(digits[..|digits| - 1]);
    }
  }

  lemma {:induction false} FindsDotAt(text: string, start: nat, end: nat)
    requires start <= end <= |text| && NoDot(text, start, end)
    requires end < |text| ==> text[end] == '.'
    ensures FindDot(text, start) == end
    decreases end - start
  {
    if start < end {
      FindsDotAt(text, start + 1, end);
    }
  }

  lemma PieceAt(text: string, start: nat, end: nat, group: string)
    requires start < end <= |text| && text[start..end] == group && NoDot(group, 0, |group|)
    requires end < |text| ==> text[end] == '.'
    ensures Pieces(text, start) == Cons(group, Pieces(text, end + 1))
  {
    forall i | start <= i < end
      ensures text[i] != '.'
    {
      assert text[i] == group[i - start];
    }
    FindsDotAt(text, start, end);
  }

  lemma JoinedLayout(quad: Quad, e1: nat, e2: nat, e3: nat)
    requires e1 == |quad.a| && e2 == e1 + 1 + |quad.b| && e3 == e2 + 1 + |quad.c|
    ensures var ip := Joined(quad);
            && |ip| == e3 + 1 + |quad.d| && ip[0..e1] == quad.a && ip[e1 + 1..e2] == quad.b
            && ip[e2 + 1..e3] == quad.c && ip[e3 + 1..] == quad.d && ip[e1] == '.' && ip[e2] == '.' && ip[e3] == '.'
  {
  }

  lemma LastTwoPieces(ip: string, start: nat, end: nat, c: string, d: string)
    requires start < end < |ip| - 1 && NoDot(c, 0, |c|) && NoDot(d, 0, |d|)
    requires ip[start..end] == c && ip[end] == '.' && ip[end + 1..|ip|] == d
    ensures Pieces(ip, start) == Cons(c, Cons(d, Nil))
  {
    PieceAt(ip, end + 1, |ip|, d);
    PieceAt(ip, start, end, c);
  }

  lemma LastThreePieces(ip: string, start: nat, end: nat, last: nat, b: string, c: string, d: string)
    requires start < end && end + 1 < last < |ip| - 1
    requires NoDot(b, 0, |b|) && NoDot(c, 0, |c|) && NoDot(d, 0, |d|)
    requires ip[start..end] == b && ip[end] == '.' && ip[end + 1..last] == c && ip[last] == '.' && ip[last + 1..|ip|] == d
    ensures Pieces(ip, start) == Cons(b, Cons(c, Cons(d, Nil)))
  {
    LastTwoPieces(ip, end + 1, last, c, d);
    PieceAt(ip, start, end, b);
  }

  /** Cutting undoes joining. */
  lemma JoinThenCut(quad: Quad)
    requires Grouped(quad)
    ensures Pieces(Joined(quad), 0) == Cons(quad.a, Cons(quad.b, Cons(quad.c, Cons(quad.d, Nil))))
  {
    var e1 := |quad.a|;
    var e2 := e1 + 1 + |quad.b|;
    var e3 := e2 + 1 + |quad.c|;
    var ip := Joined(quad);
    JoinedLayout(quad, e1, e2, e3);
    GroupHasNoDot(quad.a);
    GroupHasNoDot(quad.b);
    GroupHasNoDot(quad.c);
    GroupHasNoDot(quad.d);
    LastThreePieces(ip, e1 + 1, e2, e3, quad.b, quad.c, quad.d);
    PieceAt(ip, 0, e1, quad.a);
  }

  lemma GroupHasNoDot(group: string)
    requires IsGroup(group)
    ensures NoDot(group, 0, |group|) && group != ""
  {
  }

  function JoinAll(pieces: List<string>): string {
    match pieces
    case Nil => ""
    case Cons(last, Nil) => last
    case Cons(first, rest) => first + "." + JoinAll(rest)
  }

  /** Joining undoes cutting, when the text does not end in a dot. */
  lemma {:induction false} CutThenJoin(text: string, start: nat)
    requires start < |text| && text[|text| - 1] != '.'
    ensures JoinAll(Pieces(text, start)) == text[start..]
    decreases |text| - start
  {
    var end := FindDot(text, start);
    if end < |text| {
      CutThenJoin(text, end + 1);
      CutOnce(text, start);
      DotBetween(text, start, end);
      JoinFirst(text[start..end], Pieces(text, end + 1));
    } else {
      LastCut(text, start);
    }
  }

  lemma CutOnce(text: string, start: nat)
    requires start < |text|
    ensures var end := FindDot(text, start);
            Pieces(text, start) == Cons(text[start..end], Pieces(text, end + 1)) &&
            (end + 1 < |text| ==> Pieces(text, end + 1).Cons?)
  {
  }

  lemma LastCut(text: string, start: nat)
    requires start < |text| && FindDot(text, start) == |text|
    ensures JoinAll(Pieces(text, start)) == text[start..]
  {
    CutOnce(text, start);
    assert text[start..|text|] == text[start..];
  }

  lemma JoinFirst(first: string, rest: List<string>)
    requires rest.Cons?
    ensures JoinAll(Cons(first, rest)) == first + "." + JoinAll(rest)
  {
  }

  lemma DotBetween(text: string, start: nat, end: nat)
    requires start <= end < |text| && text[end] == '.'
    ensures text[start..] == text[start..end] + "." + text[end + 1..]
  {
  }

  /** A dotted quad ends in a digit. */
  lemma EndsInDigit(quad: Quad)
    requires Grouped(quad)
    ensures Joined(quad) != "" && IsDigit(Joined(quad)[|Joined(quad)| - 1])
  {
    var last := quad.d[|quad.d| - 1];
    assert Joined(quad)[|Joined(quad)| - 1] == last;
  }

  /** Every dotted quad is accepted, with the values of its groups. */
  lemma JoinedParses(quad: Quad)
    requires Grouped(quad)
    ensures ParseQuad(Joined(quad)) == Some(Values(quad))
  {
    JoinThenCut(quad);
    EndsInDigit(quad);
  }

  lemma JoinTwo(c: string, d: string)
    ensures JoinAll(Cons(c, Cons(d, Nil))) == c + "." + d
  {
    JoinFirst(c, Cons(d, Nil));
  }

  lemma JoinThree(b: string, c: string, d: string)
    ensures JoinAll(Cons(b, Cons(c, Cons(d, Nil)))) == b + "." + (c + "." + d)
  {
    JoinTwo(c, d);
    JoinFirst(b, Cons(c, Cons(d, Nil)));
  }

  lemma JoinFour(quad: Quad)
    ensures JoinAll(Cons(quad.a, Cons(quad.b, Cons(quad.c, Cons(quad.d, Nil))))) == Joined(quad)
  {
    JoinThree(quad.b, quad.c, quad.d);
    JoinFirst(quad.a, Cons(quad.b, Cons(quad.c, Cons(quad.d, Nil))));
    Regroup(quad.a, quad.b, quad.c + "." + quad.d);
  }

  lemma Regroup(a: string, b: string, rest: string)
    ensures a + "." + (b + "." + rest) == a + "." + b + "." + rest
  {
  }

  lemma AcceptedIsJoined(ip: string) returns (quad: Quad)
    requires ParseQuad(ip).Some?
    ensures Grouped(quad) && Joined(quad) == ip
  {
    var pieces := Pieces(ip, 0);
    quad := Quad(pieces.head, pieces.tail.head, pieces.tail.tail.head, pieces.tail.tail.tail.head);
    assert pieces == Cons(quad.a, Cons(quad.b, Cons(quad.c, Cons(quad.d, Nil))));
    CutThenJoin(ip, 0);
    assert ip[0..] == ip;
    JoinFour(quad);
  }

  /** The parser accepts exactly the dotted quads, and its answer holds four byte values. */
  lemma ParseQuadIffDotted(ip: string)
    ensures ParseQuad(ip).Some? <==> IsDottedQuad(ip)
    ensures forall quad: Quad :: Grouped(quad) && Joined(quad) == ip ==> ParseQuad(ip) == Some(Values(quad))
    ensures ParseQuad(ip).Some? ==> |ParseQuad(ip).value| == 4 && forall v <- ParseQuad(ip).value :: 0 <= v <= 255
  {
    forall quad: Quad | Grouped(quad) && Joined(quad) == ip
      ensures ParseQuad(ip) == Some(Values(quad))
    {
      JoinedParses(quad);
    }
    if ParseQuad(ip).Some? {
      var quad := AcceptedIsJoined(ip);
      DecimalNatural(quad.a);
      DecimalNatural(quad.b);
      DecimalNatural(quad.c);
      DecimalNatural(quad.d);
    }
  }

  // ----- Printing -----

  function Digit(value: nat): (c: char)
    requires value < 10
    ensures IsDigit(c) && DigitValue(c) == value
  {
    (value + '0' as int) as char
  }

  /** The shortest decimal form of a byte. */
  function PrintByte(value: nat): string
    requires value <= 255
  {
    if value < 10 then [Digit(value)]
    else if value < 100 then [Digit(value / 10), Digit(value % 10)]
    else [Digit(value / 100), Digit(value / 10 % 10), Digit(value % 10)]
  }

  function PrintQuad(a: nat, b: nat, c: nat, d: nat): string
    requires a <= 255 && b <= 255 && c <= 255 && d <= 255
  {
    Joined(Quad(PrintByte(a), PrintByte(b), PrintByte(c), PrintByte(d)))
  }

  lemma PrintedByteIsGroup(value: nat)
    requires value <= 255
    ensures IsGroup(PrintByte(value)) && Decimal(PrintByte(value)) == value
  {
    if value < 10 {
      OneDigit(Digit(value));
    } else if value < 100 {
      TwoDigits(Digit(value / 10), Digit(value % 10));
    } else {
      ThreeDigits(Digit(value / 100), Digit(value / 10 % 10), Digit(value % 10));
    }
  }

  lemma OneDigit(a: char)
    ensures Decimal([a]) == DigitValue(a)
  {
    assert [a][..0] == [];
  }

  lemma TwoDigits(a: char, b: char)
    ensures Decimal([a, b]) == DigitValue(a) * 10 + DigitValue(b)
  {
    OneDigit(a);
    assert [a, b][..1] == [a];
  }

  lemma ThreeDigits(a: char, b: char, c: char)
    ensures Decimal([a, b, c]) == (DigitValue(a) * 10 + DigitValue(b)) * 10 + DigitValue(c)
  {
    TwoDigits(a, b);
    assert [a, b, c][..2] == [a, b];
  }

  /** Any four bytes survive printing and parsing. */
  lemma PrintParse(a: nat, b: nat, c: nat, d: nat)
    requires a <= 255 && b <= 255 && c <= 255 && d <= 255
    ensures ParseQuad(PrintQuad(a, b, c, d)) == Some([a, b, c, d])
  {
    PrintedByteIsGroup(a);
    PrintedByteIsGroup(b);
    PrintedByteIsGroup(c);
    PrintedByteIsGroup(d);
    JoinedParses(Quad(PrintByte(a), PrintByte(b), PrintByte(c), PrintByte(d)));
  }
}
