/** Splitting, joining, trimming and numbers, as the schedule parser and the result reader need them. */
module Text {

  datatype Option<+T> = None | Some(value: T)

  /** Rust's `char::is_whitespace`. */
  predicate IsSpace(c: char) {
    || c == ' ' || '\t' <= c <= '\r' || c == '\U{85}' || c == '\U{A0}' || c == '\U{1680}'
    || '\U{2000}' <= c <= '\U{200A}' || c == '\U{2028}' || c == '\U{2029}' || c == '\U{202F}' || c == '\U{205F}'
    || c == '\U{3000}'
  }

  predicate IsDigit(c: char) {
    '0' <= c <= '9'
  }

  predicate AllDigits(s: string) {
    forall i | 0 <= i < |s| :: IsDigit(s[i])
  }

  /** Neither whitespace nor a comma, and not empty: a name that survives being printed in a list. */
  predicate IsName(s: string) {
    s != "" && forall c | c in s :: !IsSpace(c) && c != ','
  }

  /** The pieces between separators; there is always at least one. */
  function Split(s: string, sep: char): (r: seq<string>)
    ensures r != []
  {
    if s == "" then [""]
    else if s[0] == sep then [""] + Split(s[1..], sep)
    else
      var r := Split(s[1..], sep);
      [[s[0]] + r[0]] + r[1..]
  }

  function Join(xs: seq<string>, sep: char): string {
    if xs == [] then ""
    else if |xs| == 1 then xs[0]
    else xs[0] + [sep] + Join(xs[1..], sep)
  }

  lemma {:induction false} SplitFirst(x: string, rest: string, sep: char)
    requires sep !in x
    ensures Split(x, sep) == [x]
    ensures Split(x + [sep] + rest, sep) == [x] + Split(rest, sep)
  {
    var s := x + [sep] + rest;
    if x == "" {
      assert s[1..] == rest;
    } else {
      SplitFirst(x[1..], rest, sep);
      assert s[1..] == x[1..] + [sep] + rest;
      assert [s[0]] + x[1..] == x;
    }
  }

  /** Splitting undoes joining when no piece contains the separator. */
  lemma {:induction false} SplitJoin(xs: seq<string>, sep: char)
    requires xs != [] && forall x | x in xs :: sep !in x
    ensures Split(Join(xs, sep), sep) == xs
  {
    if |xs| == 1 {
      SplitFirst(xs[0], "", sep);
    } else {
      SplitJoin(xs[1..], sep);
      SplitFirst(xs[0], Join(xs[1..], sep), sep);
    }
  }

  /** Joining undoes splitting, whatever the string, and no piece contains the separator. */
  lemma {:induction false} JoinSplit(s: string, sep: char)
    ensures Join(Split(s, sep), sep) == s
    ensures forall x | x in Split(s, sep) :: sep !in x
  {
    if s != "" {
      JoinSplit(s[1..], sep);
      var r := Split(s[1..], sep);
      if s[0] == sep {
        assert Split(s, sep)[1..] == r;
        assert "" + [sep] + s[1..] == s;
      } else {
        var t := [s[0]] + r[0];
        assert Split(s, sep) == [t] + r[1..];
        if |r| > 1 {
          assert ([t] + r[1..])[1..] == r[1..];
          assert t + [sep] + Join(r[1..], sep) == [s[0]] + (r[0] + [sep] + Join(r[1..], sep));
        }
        assert [s[0]] + s[1..] == s;
      }
    }
  }

  function TrimStart(s: string): string {
    if s != "" && IsSpace(s[0]) then TrimStart(s[1..]) else s
  }

  function TrimEnd(s: string): string {
    if s != "" && IsSpace(s[|s| - 1]) then TrimEnd(s[..|s| - 1]) else s
  }

  function Trim(s: string): string {
    TrimEnd(TrimStart(s))
  }

  lemma {:induction false} TrimStartIs(s: string) returns (i: nat)
    ensures i <= |s| && TrimStart(s) == s[i..] && (i < |s| ==> !IsSpace(s[i]))
    ensures forall k | 0 <= k < i :: IsSpace(s[k])
  {
    if s != "" && IsSpace(s[0]) {
      var j := TrimStartIs(s[1..]);
      i := j + 1;
    } else {
      i := 0;
    }
  }

  lemma {:induction false} TrimEndIs(s: string) returns (j: nat)
    ensures j <= |s| && TrimEnd(s) == s[..j] && (j > 0 ==> !IsSpace(s[j - 1]))
    ensures forall k | j <= k < |s| :: IsSpace(s[k])
    decreases |s|
  {
    if s != "" && IsSpace(s[|s| - 1]) {
      j := TrimEndIs(s[..|s| - 1]);
    } else {
      j := |s|;
    }
  }

  /** Trimming leaves the part from the first to the last character that is not whitespace. */
  lemma TrimIs(s: string) returns (i: nat, j: nat)
    ensures i <= j <= |s| && Trim(s) == s[i..j]
    ensures forall k | 0 <= k < |s| && !(i <= k < j) :: IsSpace(s[k])
    ensures i < j ==> !IsSpace(s[i]) && !IsSpace(s[j - 1])
  {
    hide IsSpace;
    i := TrimStartIs(s);
    var n := TrimEndIs(s[i..]);
    j := i + n;
    forall k | j <= k < |s| ensures IsSpace(s[k]) {
      assert s[k] == s[i..][k - i];
    }
  }

  /** The whitespace characters by their codes. */
  lemma SpaceCodes(c: char)
    ensures IsSpace(c) <==>
            9 <= c as int <= 13 || 8192 <= c as int <= 8202 ||
            c as int in {32, 133, 160, 5760, 8232, 8233, 8239, 8287, 12288}
  {
  }

  function ShowDigit(d: nat): char
    requires d < 10
  {
    ('0' as int + d) as char
  }

  /** Decimal digits, as the formatting macros print a number. */
  function Show(n: nat): (s: string)
    ensures s != "" && AllDigits(s)
  {
    if n < 10 then [ShowDigit(n)] else Show(n / 10) + [ShowDigit(n % 10)]
  }

  function Value(s: string): nat
    requires AllDigits(s)
  {
    if s == "" then 0 else 10 * Value(s[..|s| - 1]) + (s[|s| - 1] as int - '0' as int)
  }

  lemma {:induction false} ValueShow(n: nat)
    ensures Value(Show(n)) == n
  {
    if n < 10 {
      assert Show(n)[..0] == "";
    } else {
      ValueShow(n / 10);
      assert Show(n)[..|Show(n)| - 1] == Show(n / 10);
    }
  }

  /** Digits are read in base 10. */
  lemma ValueAppend(s: string, c: char)
    requires AllDigits(s) && '0' <= c <= '9'
    ensures Value("") == 0 && AllDigits(s + [c]) && Value(s + [c]) == 10 * Value(s) + (c as int - 48)
  {
    assert (s + [c])[..|s|] == s;
  }

  /** A number is printed as the digits that are read back as it, without a leading zero. */
  lemma {:induction false} ShowIsDecimal(n: nat)
    ensures |Show(n)| > 0 && (forall i | 0 <= i < |Show(n)| :: '0' <= Show(n)[i] <= '9')
    ensures Value(Show(n)) == n && (n > 0 ==> Show(n)[0] != '0') && Show(0) == "0"
  {
    ValueShow(n);
    if n >= 10 {
      ShowIsDecimal(n / 10);
    }
  }

  /** `parse::<u32>`: an optional plus sign, at least one digit, and a value that fits. */
  function ParseU32(s: string): Option<nat> {
    var t := if s != "" && s[0] == '+' then s[1..] else s;
    if t != "" && AllDigits(t) && Value(t) < 0x1_0000_0000 then Some(Value(t)) else None
  }

  lemma ParseShow(n: nat)
    requires n < 0x1_0000_0000
    ensures ParseU32(Show(n)) == Some(n)
  {
    ValueShow(n);
    assert IsDigit(Show(n)[0]);
  }

  /** Parse every piece, or fail. */
  function ParseAll(xs: seq<string>): (r: Option<seq<nat>>)
    ensures r.Some? ==> |r.value| == |xs|
  {
    if xs == [] then Some([]) else
      var front := ParseAll(xs[..|xs| - 1]);
      var last := ParseU32(xs[|xs| - 1]);
      if front.Some? && last.Some? then Some(front.value + [last.value]) else None
  }

  /** A number is read from at least one digit, after one plus sign at most, if it is below 2 to the 32nd. */
  lemma ParseU32Iff(s: string, n: nat)
    ensures ParseU32(s) == Some(n) <==>
            exists digits: string ::
              && (s == digits || s == "+" + digits)
              && digits != "" && (forall i | 0 <= i < |digits| :: '0' <= digits[i] <= '9')
              && Value(digits) == n < 4294967296
  {
    var t := if s != "" && s[0] == '+' then s[1..] else s;
    if ParseU32(s) == Some(n) {
      assert s == t || s == "+" + t;
    }
    if digits: string :|
      && (s == digits || s == "+" + digits)
      && digits != "" && (forall i | 0 <= i < |digits| :: '0' <= digits[i] <= '9')
      && Value(digits) == n < 4294967296
    {
      assert digits[0] != '+';
      assert t == digits;
    }
  }

  /** A list is read exactly when each piece is. */
  lemma {:induction false} ParseAllIff(xs: seq<string>, ns: seq<nat>)
    ensures ParseAll(xs) == Some(ns) <==> |ns| == |xs| && forall i | 0 <= i < |xs| :: ParseU32(xs[i]) == Some(ns[i])
  {
    hide ParseU32;
    if xs != [] && |ns| == |xs| {
      var n := |xs| - 1;
      ParseAllIff(xs[..n], ns[..n]);
      assert ns == ns[..n] + [ns[n]];
    }
  }

  function ShowAll(ns: seq<nat>): (r: seq<string>)
    ensures |r| == |ns|
  {
    seq(|ns|, i requires 0 <= i < |ns| => Show(ns[i]))
  }

  lemma {:induction false} ParseShowAll(ns: seq<nat>)
    requires forall i | 0 <= i < |ns| :: ns[i] < 0x1_0000_0000
    ensures ParseAll(ShowAll(ns)) == Some(ns)
  {
    hide ParseU32, Show;
    if ns != [] {
      var n := |ns| - 1;
      ParseShowAll(ns[..n]);
      ParseShow(ns[n]);
      assert ShowAll(ns)[..n] == ShowAll(ns[..n]);
      assert ns[..n] + [ns[n]] == ns;
    }
  }

  lemma ShowIsName(n: nat)
    ensures IsName(Show(n))
  {
  }

  // ---- Joined lists of names

  lemma {:induction false} JoinChars(xs: seq<string>, sep: char)
    requires forall x | x in xs :: IsName(x)
    requires !IsSpace(sep)
    ensures forall c | c in Join(xs, sep) :: !IsSpace(c)
    ensures xs != [] ==> |Join(xs, sep)| > 0
  {
    if xs != [] {
      assert IsName(xs[0]);
      JoinChars(xs[1..], sep);
    }
  }

  /** A word: what separating by spaces leaves alone. */
  predicate IsWord(s: string) {
    |s| > 0 && forall c | c in s :: !IsSpace(c)
  }

  lemma TrimWord(s: string)
    requires IsWord(s)
    ensures Trim(s) == s && s != ""
  {
    assert s[0] in s && s[|s| - 1] in s;
  }

  /** A string that neither begins nor ends with whitespace is left alone by trimming. */
  lemma TrimTight(s: string)
    requires s != "" && !IsSpace(s[0]) && !IsSpace(s[|s| - 1])
    ensures Trim(s) == s
  {
  }
}
