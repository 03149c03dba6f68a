/** `Explode` and the IPv4 parser built on it. */
module StringUtility {
  import opened Common

  // ---------------------------------------------------------------------------------------------
  // Explode
  // ---------------------------------------------------------------------------------------------

  predicate Matches(s: string, sep: string, i: nat) {
    i + |sep| <= |s| && forall k :: 0 <= k < |sep| ==> s[i + k] == sep[k]
  }

  /** std::string::find: the first place of `sep` at or after i. */
  function Find(s: string, sep: string, i: nat): (r: Option<nat>)
    ensures r.Some? ==> i <= r.value && Matches(s, sep, r.value)
    ensures forall j: nat :: i <= j && Matches(s, sep, j) ==> r.Some? && r.value <= j
    decreases |s| - i
  {
    if i + |sep| > |s| then None
    else if Matches(s, sep, i) then Some(i)
    else Find(s, sep, i + 1)
  }

  /** What is left to split is what follows the separator just found. */
  function Pieces(s: string, sep: string): (r: seq<string>)
    requires sep != ""
    ensures r != []
    decreases |s|
  {
    match Find(s, sep, 0)
    case Some(i) => [s[..i]] + Pieces(s[i + |sep|..], sep)
    case None => [s]
  }

  function Join(pieces: seq<string>, sep: string): string
    requires pieces != []
  {
    if |pieces| == 1 then pieces[0] else pieces[0] + sep + Join(pieces[1..], sep)
  }

  /** The loop of Explode, which erases each piece and its separator from the subject. */
  method Explode(value: string, sep: string) returns (result: seq<string>)
    requires sep != ""
    ensures result == Pieces(value, sep)
  {
    result := [];
    var subject := value;
    while true
      invariant result + Pieces(subject, sep) == Pieces(value, sep)
      decreases |subject|
    {
      var pos := Find(subject, sep, 0);
      if pos.None? { break; }
      var token := subject[..pos.value];
      ghost var before := result;
      result := result + [token];
      subject := subject[pos.value + |sep|..];
      Regroup(before, [token], Pieces(subject, sep));
    }
    result := result + [subject];
  }

  /** Nothing is lost: the pieces with the separator between them are the string. */
  lemma {:induction false} PiecesJoin(s: string, sep: string)
    requires sep != ""
    ensures Join(Pieces(s, sep), sep) == s
    decreases |s|
  {
    var at := Find(s, sep, 0);
    if at.Some? {
      var i, rest := at.value, s[at.value + |sep|..];
      PiecesJoin(rest, sep);
      assert Pieces(s, sep)[1..] == Pieces(rest, sep);
      assert s[i..i + |sep|] == sep;
      assert s == s[..i] + s[i..i + |sep|] + rest;
    }
  }

  ghost predicate Contains(s: string, sep: string) {
    exists i: nat :: Matches(s, sep, i)
  }

  lemma PrefixMatches(s: string, i: nat, sep: string, j: nat)
    requires i <= |s|
    ensures Matches(s[..i], sep, j) ==> Matches(s, sep, j) && j + |sep| <= i
  {
    if Matches(s[..i], sep, j) {
      forall k | 0 <= k < |sep| ensures s[j + k] == sep[k] {
        assert s[..i][j + k] == sep[k];
      }
    }
  }

  /** Nothing is left to split: no piece contains the separator. */
  lemma {:induction false} PiecesContainNoSeparator(s: string, sep: string, k: nat)
    requires sep != "" && k < |Pieces(s, sep)|
    ensures !Contains(Pieces(s, sep)[k], sep)
    decreases |s|
  {
    var at := Find(s, sep, 0);
    if at.Some? {
      var i := at.value;
      if k == 0 {
        forall j: nat ensures !Matches(s[..i], sep, j) {
          PrefixMatches(s, i, sep, j);
        }
      } else {
        PiecesContainNoSeparator(s[i + |sep|..], sep, k - 1);
      }
    }
  }

  lemma FindSeparator(first: string, c: char, rest: string)
    requires c !in first
    ensures Find(first + [c] + rest, [c], 0) == Some(|first|)
  {
    var s := first + [c] + rest;
    assert Matches(s, [c], |first|);
    forall j: nat | j < |first| ensures !Matches(s, [c], j) {
      assert s[j + 0] == first[j] != [c][0];
    }
  }

  lemma FindNoSeparator(s: string, c: char)
    requires c !in s
    ensures Find(s, [c], 0) == None
  {
    forall j: nat ensures !Matches(s, [c], j) {
      if j < |s| { assert s[j + 0] != [c][0]; }
    }
  }

  /** For a one-character separator, splitting undoes joining. */
  lemma {:induction false} JoinPieces(pieces: seq<string>, c: char)
    requires pieces != [] && forall k :: 0 <= k < |pieces| ==> c !in pieces[k]
    ensures Pieces(Join(pieces, [c]), [c]) == pieces
    decreases |pieces|
  {
    if |pieces| == 1 {
      FindNoSeparator(pieces[0], c);
    } else {
      var rest := Join(pieces[1..], [c]);
      FindSeparator(pieces[0], c, rest);
      JoinPieces(pieces[1..], c);
      var s := pieces[0] + [c] + rest;
      assert s[..|pieces[0]|] == pieces[0] && s[|pieces[0]| + 1..] == rest;
    }
  }

  // ---------------------------------------------------------------------------------------------
  // Numbers
  // ---------------------------------------------------------------------------------------------

  const INT_MIN: int := -0x8000_0000
  const INT_MAX: int := 0x7FFF_FFFF

  predicate IsDigit(c: char) {
    '0' <= c <= '9'
  }

  predicate IsSpace(c: char) {
    c == ' ' || ('\t' <= c <= '\r')
  }

  /** The digits from the i-th character on, behind the value read so far. */
  function DigitsFrom(s: string, i: nat, value: nat): nat
    decreases |s| - i
  {
    if i < |s| && IsDigit(s[i]) then DigitsFrom(s, i + 1, 10 * value + (s[i] as nat - '0' as nat)) else value
  }

  function SkipSpace(s: string, i: nat): nat
    decreases |s| - i
  {
    if i < |s| && IsSpace(s[i]) then SkipSpace(s, i + 1) else i
  }

  /** atoi: spaces, a sign, digits; zero without digits. */
  function Atoi(s: string): int {
    var i := SkipSpace(s, 0);
    if i < |s| && s[i] == '-' then -(DigitsFrom(s, i + 1, 0) as int)
    else if i < |s| && s[i] == '+' then DigitsFrom(s, i + 1, 0)
    else DigitsFrom(s, i, 0)
  }

  function Printed(n: nat): string {
    (if n < 10 then "" else Printed(n / 10)) + [('0' as int + n % 10) as char]
  }

  lemma {:induction false} PrintedDigits(n: nat)
    ensures Printed(n) != "" && forall k :: 0 <= k < |Printed(n)| ==> IsDigit(Printed(n)[k])
    decreases n
  {
    if n >= 10 {
      PrintedDigits(n / 10);
    }
  }

  lemma {:induction false} DigitsAppend(s: string, d: char, i: nat, value: nat)
    requires i <= |s| && IsDigit(d) && forall k :: 0 <= k < |s| ==> IsDigit(s[k])
    ensures DigitsFrom(s + [d], i, value) == 10 * DigitsFrom(s, i, value) + (d as nat - '0' as nat)
    decreases |s| - i
  {
    if i < |s| {
      DigitsAppend(s, d, i + 1, 10 * value + (s[i] as nat - '0' as nat));
    } else {
      assert DigitsFrom(s + [d], i, value) == DigitsFrom(s + [d], i + 1, 10 * value + (d as nat - '0' as nat));
    }
  }

  lemma {:induction false} PrintedValue(n: nat)
    ensures DigitsFrom(Printed(n), 0, 0) == n
    decreases n
  {
    var d := ('0' as int + n % 10) as char;
    var front := if n < 10 then "" else Printed(n / 10);
    if n >= 10 {
      PrintedValue(n / 10);
      PrintedDigits(n / 10);
    }
    DigitsAppend(front, d, 0, 0);
  }

  lemma AtoiPrinted(n: nat)
    ensures Atoi(Printed(n)) == n
  {
    PrintedDigits(n);
    PrintedValue(n);
    assert IsDigit(Printed(n)[0]);
  }

  predicate Digits(s: string) {
    forall k :: 0 <= k < |s| ==> IsDigit(s[k])
  }

  predicate Spaces(s: string) {
    forall k :: 0 <= k < |s| ==> IsSpace(s[k])
  }

  predicate StartsWithDigit(s: string) {
    s != "" && IsDigit(s[0])
  }

  lemma {:induction false} SkipsSpaces(spaces: string, rest: string, i: nat)
    requires i <= |spaces| && Spaces(spaces) && (rest == "" || !IsSpace(rest[0]))
    ensures SkipSpace(spaces + rest, i) == |spaces|
    decreases |spaces| - i
  {
    if i < |spaces| {
      assert (spaces + rest)[i] == spaces[i];
      SkipsSpaces(spaces, rest, i + 1);
    }
  }

  /** Digits are read up to the first character that is none. */
  lemma {:induction false} DigitsStop(front: string, digits: string, rest: string, i: nat, value: nat)
    requires i <= |digits| && Digits(digits) && !StartsWithDigit(rest)
    ensures DigitsFrom(front + digits + rest, |front| + i, value) == DigitsFrom(digits, i, value)
    decreases |digits| - i
  {
    if i < |digits| {
      assert (front + digits + rest)[|front| + i] == digits[i];
      DigitsStop(front, digits, rest, i + 1, 10 * value + (digits[i] as nat - '0' as nat));
    } else if rest != "" {
      assert (front + digits + rest)[|front| + i] == rest[0];
    }
  }

  /** What a sign does to a number; `sign` is one or none. */
  function Signed(sign: string, n: nat): int {
    if sign == "-" then -(n as int) else n
  }

  /** In front of a number spaces and then one sign are read over, behind it anything but a digit; and
      with no digits, whatever comes instead, the number is 0. */
  lemma AtoiReads(spaces: string, sign: string, digits: string, n: nat, rest: string)
    requires Spaces(spaces) && (sign == "" || sign == "-" || sign == "+") && !StartsWithDigit(rest)
    requires digits == Printed(n) || (digits == "" && n == 0)
    requires sign == "" && digits == "" && rest != "" ==> !IsSpace(rest[0]) && rest[0] != '-' && rest[0] != '+'
    ensures Atoi(spaces + sign + digits + rest) == Signed(sign, n)
  {
    PrintedDigits(n);
    PrintedValue(n);
    var s, behind := spaces + sign + digits + rest, sign + digits + rest;
    Regroup(spaces, sign, digits);
    Regroup(spaces, sign + digits, rest);
    assert s == spaces + behind;
    SkipsSpaces(spaces, behind, 0);
    if behind != "" { assert s[|spaces|] == behind[0]; }
    DigitsStop(spaces + sign, digits, rest, 0, 0);
  }

  // ---------------------------------------------------------------------------------------------
  // IPv4
  // ---------------------------------------------------------------------------------------------

  /** The bytes of a four-part address; no bytes for anything else. */
  function IPv4Bytes(address: string): (r: seq<byte>)
    ensures |r| == if |Pieces(address, ".")| == 4 then 4 else 0
  {
    var parts := Pieces(address, ".");
    if |parts| != 4 then [] else seq(4, i requires 0 <= i < 4 => Atoi(parts[i]) % 256)
  }

  /** atoi is undefined for numbers outside the range of int. */
  predicate InRange(parts: seq<string>) {
    forall i :: 0 <= i < |parts| ==> INT_MIN <= Atoi(parts[i]) <= INT_MAX
  }

  method IPv4StringToByteArray(address: string) returns (result: seq<byte>)
    requires |Pieces(address, ".")| == 4 ==> InRange(Pieces(address, "."))
    ensures result == IPv4Bytes(address)
  {
    var elements := Explode(address, ".");
    if |elements| != 4 {
      return [];
    }
    result := [];
    for i := 0 to 4
      invariant |result| == i && forall k :: 0 <= k < i ==> result[k] == Atoi(elements[k]) % 256
    {
      result := result + [Atoi(elements[i]) % 256];
    }
  }

  function Count(s: string, c: char): nat {
    if s == "" then 0 else (if s[0] == c then 1 else 0) + Count(s[1..], c)
  }

  lemma {:induction false} CountBehind(s: string, c: char, i: nat)
    requires i < |s| && s[i] == c && forall k :: 0 <= k < i ==> s[k] != c
    ensures Count(s, c) == 1 + Count(s[i + 1..], c)
  {
    if i > 0 {
      CountBehind(s[1..], c, i - 1);
      assert s[1..][i..] == s[i + 1..];
    }
  }

  lemma {:induction false} CountNone(s: string, c: char)
    requires c !in s
    ensures Count(s, c) == 0
  {
    if s != "" { CountNone(s[1..], c); }
  }

  lemma MatchesOne(s: string, c: char, i: nat)
    requires i < |s|
    ensures Matches(s, [c], i) <==> s[i] == c
  {
    if s[i] == c { assert forall k :: 0 <= k < |[c]| ==> s[i + k] == [c][k]; }
    if Matches(s, [c], i) { assert s[i + 0] == [c][0]; }
  }

  /** One piece more than there are separators. */
  lemma {:induction false} PiecesCount(s: string, c: char)
    ensures |Pieces(s, [c])| == Count(s, c) + 1
    decreases |s|
  {
    var at := Find(s, [c], 0);
    if at.Some? {
      var i := at.value;
      MatchesOne(s, c, i);
      forall k: nat | k < i ensures s[k] != c {
        MatchesOne(s, c, k);
      }
      CountBehind(s, c, i);
      PiecesCount(s[i + 1..], c);
    } else {
      forall k: nat | k < |s| ensures s[k] != c {
        MatchesOne(s, c, k);
      }
      CountNone(s, c);
    }
  }

  /** A string gives an address if and only if it has three dots, whatever is between them. */
  lemma IPv4Iff(address: string)
    ensures |IPv4Bytes(address)| == 4 <==> Count(address, '.') == 3
    ensures IPv4Bytes(address) == [] <==> Count(address, '.') != 3
  {
    PiecesCount(address, '.');
  }

  function Dotted(a: byte, b: byte, c: byte, d: byte): string {
    Printed(a) + "." + Printed(b) + "." + Printed(c) + "." + Printed(d)
  }

  /** Printing four bytes with dots between them and parsing the result gives the four bytes. */
  lemma IPv4RoundTrip(a: byte, b: byte, c: byte, d: byte)
    ensures IPv4Bytes(Dotted(a, b, c, d)) == [a, b, c, d]
  {
    var p := PrintedPart(a);
    var q := PrintedPart(b);
    var r := PrintedPart(c);
    var t := PrintedPart(d);
    FourParts(p, q, r, t);
  }

  lemma PrintedPart(n: byte) returns (part: string)
    ensures part == Printed(n) && '.' !in part && Atoi(part) % 256 == n
  {
    part := Printed(n);
    PrintedDigits(n);
    AtoiPrinted(n);
  }

  lemma BytesOfParts(address: string, parts: seq<string>)
    requires Pieces(address, ".") == parts && |parts| == 4
    ensures IPv4Bytes(address)
         == [Atoi(parts[0]) % 256, Atoi(parts[1]) % 256, Atoi(parts[2]) % 256, Atoi(parts[3]) % 256]
  {
  }

  lemma FourParts(a: string, b: string, c: string, d: string)
    requires '.' !in a && '.' !in b && '.' !in c && '.' !in d
    ensures IPv4Bytes(a + "." + b + "." + c + "." + d) == [Atoi(a) % 256, Atoi(b) % 256, Atoi(c) % 256, Atoi(d) % 256]
  {
    var parts := [a, b, c, d];
    JoinFour(a, b, c, d);
    JoinPieces(parts, '.');
    BytesOfParts(Join(parts, "."), parts);
  }

  lemma JoinFour(a: string, b: string, c: string, d: string)
    ensures Join([a, b, c, d], ".") == a + "." + b + "." + c + "." + d
  {
    assert [a, b, c, d][1..] == [b, c, d] && [b, c, d][1..] == [c, d] && [c, d][1..] == [d];
    assert Join([c, d], ".") == c + "." + d;
    assert Join([b, c, d], ".") == b + "." + (c + "." + d);
    assert a + "." + (b + "." + (c + "." + d)) == a + "." + b + "." + c + "." + d;
  }
}
