/**
 * The parts of java.lang.String and String.format that the Video record
 * relies on: String.split with a literal delimiter (including the removal of
 * trailing empty strings), String.trim, the "%s" rendering of a nullable
 * string and of a long, and joining with a delimiter.
 */
module JavaText {
  import opened Optional

  /** `d` occurs in `s` as a contiguous run of characters. */
  predicate Occurs(s: string, d: string)
    decreases |s|
  {
    |d| <= |s| && (s[..|d|] == d || Occurs(s[1..], d))
  }

  /**
   * `d` is non-empty and its first character does not occur again in it, so
   * two occurrences of `d` never overlap. (This is stronger than having no
   * border: "aab" has none, yet repeats its first character.)
   */
  predicate Unbordered(d: string) {
    |d| > 0 && d[0] !in d[1..]
  }

  /**
   * The pieces of `s` between the leftmost, non-overlapping occurrences of
   * `d`, scanning from the left, as java.util.regex.Pattern.split finds them
   * before it removes trailing empty strings.
   */
  function SplitAll(s: string, d: string): (r: seq<string>)
    requires |d| > 0
    ensures |r| >= 1
    ensures r[0] <= s
    ensures |r| == 1 ==> r[0] == s
    ensures forall p :: p in r ==> !Occurs(p, d)
    ensures !Occurs(s, d) ==> r == [s]
    decreases |s|
  {
    if |s| < |d| then
      [s]
    else if s[..|d|] == d then
      [""] + SplitAll(s[|d|..], d)
    else
      var rest := SplitAll(s[1..], d);
      var first := [s[0]] + rest[0];
      assert |d| <= |first| ==> first[..|d|] == s[..|d|] by {
        assert first <= s;
      }
      assert first[1..] == rest[0];
      assert !Occurs(s, d) ==> first == s by {
        assert [s[0]] + s[1..] == s;
      }
      [first] + rest[1..]
  }

  /** Removes the empty strings at the end of `parts`. */
  function DropTrailingEmpty(parts: seq<string>): (r: seq<string>)
    ensures r <= parts
    ensures r == [] || r[|r| - 1] != ""
    ensures forall k :: |r| <= k < |parts| ==> parts[k] == ""
  {
    if |parts| > 0 && parts[|parts| - 1] == "" then
      DropTrailingEmpty(parts[..|parts| - 1])
    else
      parts
  }

  /**
   * Java's `s.split(d)` for a delimiter without regular-expression
   * metacharacters: when `d` does not occur the result is `[s]` (even for
   * the empty string); otherwise the pieces, with trailing empty strings
   * removed.
   */
  function Split(s: string, d: string): (r: seq<string>)
    requires |d| > 0
    ensures forall p :: p in r ==> !Occurs(p, d)
    ensures !Occurs(s, d) ==> r == [s]
  {
    var raw := SplitAll(s, d);
    if |raw| == 1 then raw else DropTrailingEmpty(raw)
  }

  /** The parts joined, with `d` between neighbours. */
  function Join(parts: seq<string>, d: string): (r: string)
    requires |parts| > 0
    ensures parts[0] <= r
    ensures |parts| > 1 ==> parts[0] + d <= r
  {
    if |parts| == 1 then parts[0] else parts[0] + d + Join(parts[1..], d)
  }

  /** A non-empty piece free of `d`, followed by `d`, does not start with `d`. */
  lemma NoOccurrenceAtStart(f: string, d: string, rest: string)
    requires Unbordered(d) && !Occurs(f, d) && f != []
    ensures |d| <= |f + d + rest| && (f + d + rest)[..|d|] != d
  {
    var s := f + d + rest;
    if |f| >= |d| {
      assert s[..|d|] == f[..|d|];
    } else {
      assert s[|f|] == d[0];
    }
  }

  /** A string that starts with `d` gives an empty first piece, then the pieces of the rest. */
  lemma SplitAllAtDelimiter(d: string, rest: string)
    requires |d| > 0
    ensures SplitAll(d + rest, d) == [""] + SplitAll(rest, d)
  {
    var s := d + rest;
    assert s[..|d|] == d && s[|d|..] == rest;
  }

  /** A string that does not start with `d` extends the first piece of its tail by its first character. */
  lemma SplitAllNoDelimiterAtStart(s: string, d: string)
    requires |d| > 0 && |d| <= |s| && s[..|d|] != d
    ensures var tail := SplitAll(s[1..], d); SplitAll(s, d) == [[s[0]] + tail[0]] + tail[1..]
  {
  }

  /** A piece free of `d`, followed by `d`, is cut off as one piece. */
  lemma {:induction false} SplitAllAfterPiece(f: string, d: string, rest: string)
    requires Unbordered(d) && !Occurs(f, d)
    ensures SplitAll(f + d + rest, d) == [f] + SplitAll(rest, d)
    decreases |f|
  {
    if f == [] {
      assert f + d + rest == d + rest;
      SplitAllAtDelimiter(d, rest);
    } else {
      var s := f + d + rest;
      NoOccurrenceAtStart(f, d, rest);
      assert !Occurs(f[1..], d);
      SplitAllAfterPiece(f[1..], d, rest);
      assert s[1..] == f[1..] + d + rest;
      SplitAllNoDelimiterAtStart(s, d);
      assert [s[0]] + f[1..] == f;
    }
  }

  /** Splitting a join gives the parts back when no part contains the delimiter. */
  lemma {:induction false} SplitAllJoin(parts: seq<string>, d: string)
    requires |parts| > 0 && Unbordered(d)
    requires forall p :: p in parts ==> !Occurs(p, d)
    ensures SplitAll(Join(parts, d), d) == parts
  {
    if |parts| > 1 {
      SplitAllJoin(parts[1..], d);
      SplitAllAfterPiece(parts[0], d, Join(parts[1..], d));
      assert [parts[0]] + parts[1..] == parts;
    }
  }

  /**
   * Java's split undoes a join when no part contains the delimiter and the
   * last part is not empty.
   */
  lemma SplitJoin(parts: seq<string>, d: string)
    requires |parts| > 0 && Unbordered(d)
    requires forall p :: p in parts ==> !Occurs(p, d)
    requires parts[|parts| - 1] != ""
    ensures Split(Join(parts, d), d) == parts
  {
    SplitAllJoin(parts, d);
  }

  /**
   * With an empty last part, Java's split of the join yields fewer parts
   * than were joined: the trailing empty string is dropped.
   */
  lemma SplitJoinDropsEmptyLast(parts: seq<string>, d: string)
    requires |parts| > 1 && Unbordered(d)
    requires forall p :: p in parts ==> !Occurs(p, d)
    requires parts[|parts| - 1] == ""
    ensures |Split(Join(parts, d), d)| < |parts|
  {
    SplitAllJoin(parts, d);
  }

  /** A string without the delimiter's first character does not contain the delimiter. */
  lemma {:induction false} NoLeadCharNoOccurrence(s: string, d: string)
    requires |d| > 0 && d[0] !in s
    ensures !Occurs(s, d)
    decreases |s|
  {
    if |d| <= |s| {
      assert s[..|d|][0] == s[0];
      NoLeadCharNoOccurrence(s[1..], d);
    }
  }

  /**
   * Java's `String.format("%s", s)` for a nullable string: null prints as
   * "null", so it cannot be told apart from the text "null".
   */
  function FormatStr(s: Option<string>): (r: string)
    ensures r == "null" <==> s == None || s == Some("null")
  {
    match s
    case None => "null"
    case Some(t) => t
  }

  function DigitChar(n: nat): (c: char)
    requires n < 10
    ensures '0' <= c <= '9'
    ensures c as int - '0' as int == n
  {
    ('0' as int + n) as char
  }

  /** The decimal digits of `n`, most significant first, as Long.toString prints them. */
  function Digits(n: nat): (r: string)
    ensures |r| > 0
    ensures forall c :: c in r ==> '0' <= c <= '9'
  {
    if n < 10 then [DigitChar(n)] else Digits(n / 10) + [DigitChar(n % 10)]
  }

  /** Java's `String.format("%s", n)` for a long: a minus sign for negatives, then the digits. */
  function FormatLong(n: int): (r: string)
    ensures |r| > 0
    ensures forall c :: c in r ==> c == '-' || '0' <= c <= '9'
  {
    if n < 0 then "-" + Digits(-n) else Digits(n)
  }

  /** The number a string of decimal digits denotes, most significant digit first. */
  function DecimalValue(s: string): int
    decreases |s|
  {
    if s == [] then 0 else 10 * DecimalValue(s[..|s| - 1]) + (s[|s| - 1] as int - '0' as int)
  }

  /** The digits Long.toString prints denote the number printed. */
  lemma {:induction false} DigitsValue(n: nat)
    ensures DecimalValue(Digits(n)) == n
  {
    if n >= 10 {
      DigitsValue(n / 10);
      var s := Digits(n);
      assert s[..|s| - 1] == Digits(n / 10);
    }
  }

  /** A printed long is its digits, preceded by a minus sign exactly when it is negative. */
  lemma FormatLongValue(n: int)
    ensures n >= 0 ==> DecimalValue(FormatLong(n)) == n
    ensures n < 0 ==> FormatLong(n)[0] == '-' && DecimalValue(FormatLong(n)[1..]) == -n
  {
    if n >= 0 {
      DigitsValue(n);
    } else {
      DigitsValue(-n);
      assert FormatLong(n)[1..] == Digits(-n);
    }
  }

  /** String.trim's notion of white space: every character up to and including U+0020. */
  predicate IsTrimmed(c: char) {
    c <= ' '
  }

  /** The first index at or after `i` whose character String.trim keeps, or |s|. */
  function StartOfKept(s: string, i: nat): (k: nat)
    requires i <= |s|
    ensures i <= k <= |s|
    ensures k == |s| || !IsTrimmed(s[k])
    decreases |s| - i
  {
    if i < |s| && IsTrimmed(s[i]) then StartOfKept(s, i + 1) else i
  }

  /** Moving down from `j`, the end of the kept part: its last character is kept, or it reaches `lo`. */
  function EndOfKept(s: string, lo: nat, j: nat): (k: nat)
    requires lo <= j <= |s|
    ensures lo <= k <= j
    ensures k == lo || !IsTrimmed(s[k - 1])
  {
    if j > lo && IsTrimmed(s[j - 1]) then EndOfKept(s, lo, j - 1) else j
  }

  /**
   * Java's String.trim: skip characters up to U+0020 from the start, then
   * from the end, and keep what lies between. A string that already starts
   * and ends with other characters is returned unchanged.
   */
  function Trim(s: string): (r: string)
    ensures |r| <= |s|
    ensures r == [] || (!IsTrimmed(r[0]) && !IsTrimmed(r[|r| - 1]))
    ensures |s| > 0 && !IsTrimmed(s[0]) && !IsTrimmed(s[|s| - 1]) ==> r == s
  {
    var start := StartOfKept(s, 0);
    var end := EndOfKept(s, start, |s|);
    s[start..end]
  }

  /** Everything before the start of the kept part is white space. */
  lemma {:induction false} SkippedAtStart(s: string, i: nat, j: nat)
    requires i <= |s| && i <= j < StartOfKept(s, i)
    ensures IsTrimmed(s[j])
    decreases |s| - i
  {
    if i < j {
      SkippedAtStart(s, i + 1, j);
    }
  }

  /** Everything after the end of the kept part is white space. */
  lemma {:induction false} SkippedAtEnd(s: string, lo: nat, j: nat, m: nat)
    requires lo <= j <= |s| && EndOfKept(s, lo, j) <= m < j
    ensures IsTrimmed(s[m])
    decreases j
  {
    if m < j - 1 {
      SkippedAtEnd(s, lo, j - 1, m);
    }
  }

  /** Trim removes only characters up to U+0020, and only at the two ends. */
  lemma TrimRemovesOnlySpace(s: string) returns (start: nat)
    ensures start + |Trim(s)| <= |s| && s[start..start + |Trim(s)|] == Trim(s)
    ensures forall j :: 0 <= j < start ==> IsTrimmed(s[j])
    ensures forall j :: start + |Trim(s)| <= j < |s| ==> IsTrimmed(s[j])
  {
    start := StartOfKept(s, 0);
    var end := EndOfKept(s, start, |s|);
    forall j | 0 <= j < start
      ensures IsTrimmed(s[j])
    {
      SkippedAtStart(s, 0, j);
    }
    forall j | end <= j < |s|
      ensures IsTrimmed(s[j])
    {
      SkippedAtEnd(s, start, |s|, j);
    }
    assert s[start..start + |Trim(s)|] == Trim(s);
  }

  /** Trimming twice is trimming once. */
  lemma TrimIdempotent(s: string)
    ensures Trim(Trim(s)) == Trim(s)
  {
    var r := Trim(s);
    if r == [] {
      assert StartOfKept(r, 0) == 0 && EndOfKept(r, 0, 0) == 0;
    }
  }
}
