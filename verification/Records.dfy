/** Result lines and the records the bandwidth file is made from (v3bw.c's reader, torclient.c's writer). */
module Records {
  import opened Sequences
  import opened Text

  datatype Record = Record(fp: string, ts: int, bw: int)

  const LONG_MAX: int := 0x7FFF_FFFF_FFFF_FFFF
  const LONG_MIN: int := -0x8000_0000_0000_0000

  predicate IsCSpace(c: char) {
    c == ' ' || '\t' <= c <= '\r'
  }

  predicate IsHex(c: char) {
    !(c < '0' || ('9' < c && c < 'A') || 'F' < c)
  }

  predicate IsFp(word: string) {
    |word| == 40 && forall i | 0 <= i < |word| :: IsHex(word[i])
  }

  function SkipCSpace(s: string): string {
    if s != "" && IsCSpace(s[0]) then SkipCSpace(s[1..]) else s
  }

  function Clip(n: int): int {
    if n > LONG_MAX then LONG_MAX else if n < LONG_MIN then LONG_MIN else n
  }

  /** `as_nonnegative_long`: `strtol` in base 10 that must reach the end of the word, -1 otherwise. */
  function AsLong(word: string): int {
    var s := SkipCSpace(word);
    var negative := s != "" && s[0] == '-';
    var digits := if s != "" && (s[0] == '-' || s[0] == '+') then s[1..] else s;
    if digits == "" || !AllDigits(digits) then -1
    else
      var v: int := Value(digits);
      Clip(if negative then -v else v)
  }

  function TrimNewlines(s: string): string {
    if s != "" && s[|s| - 1] == '\n' then TrimNewlines(s[..|s| - 1]) else s
  }

  /** `g_strsplit` by spaces into at most nine words, the last of which keeps what is left. */
  function NineWords(s: string): seq<string> {
    var pieces := Split(s, ' ');
    if s == "" then []
    else if |pieces| <= 9 then pieces
    else pieces[..8] + [Join(pieces[8..], ' ')]
  }

  /** The record a line stands for, if the line is accepted. */
  function ReadRecord(line: string): Option<Record> {
    var words := NineWords(TrimNewlines(line));
    if |words| != 9 || !("650" <= words[4]) || !("SPEEDTESTING" <= words[5]) then None
    else if !IsFp(words[2]) || AsLong(words[6]) < 0 || AsLong(words[7]) < 0 then None
    else Some(Record(words[2], AsLong(words[6]), AsLong(words[7])))
  }

  /** The records of the accepted lines, in order. */
  function ReadAll(lines: seq<string>): seq<Record> {
    if lines == [] then [] else
      var r := ReadRecord(lines[|lines| - 1]);
      ReadAll(lines[..|lines| - 1]) + if r.Some? then [r.value] else []
  }

  ghost function AcceptedFlags(lines: seq<string>): (flags: seq<bool>)
    ensures |flags| == |lines|
  {
    seq(|lines|, i requires 0 <= i < |lines| => ReadRecord(lines[i]).Some?)
  }

  lemma {:induction false} ReadAllFlagged(lines: seq<string>)
    ensures var at := Flagged(AcceptedFlags(lines));
      && |at| == |ReadAll(lines)|
      && forall k | 0 <= k < |at| :: at[k] < |lines| && ReadRecord(lines[at[k]]) == Some(ReadAll(lines)[k])
  {
    hide ReadRecord;
    if lines != [] {
      var n := |lines| - 1;
      ReadAllFlagged(lines[..n]);
      assert AcceptedFlags(lines)[..n] == AcceptedFlags(lines[..n]);
    }
  }

  /** The records are those of the accepted lines, each once and in order. */
  lemma ReadAllInOrder(lines: seq<string>) returns (at: seq<nat>)
    ensures |at| == |ReadAll(lines)| && forall k, l | 0 <= k < l < |at| :: at[k] < at[l]
    ensures forall k | 0 <= k < |at| :: at[k] < |lines| && ReadRecord(lines[at[k]]) == Some(ReadAll(lines)[k])
    ensures forall i | 0 <= i < |lines| && ReadRecord(lines[i]).Some? :: i in at
  {
    hide ReadRecord, ReadAll, Flagged;
    at := Flagged(AcceptedFlags(lines));
    ReadAllFlagged(lines);
    FlaggedIs(AcceptedFlags(lines));
  }

  // ---- Which lines are accepted

  lemma {:induction false} TrimmedLine(line: string) returns (newlines: string)
    ensures line == TrimNewlines(line) + newlines && forall i | 0 <= i < |newlines| :: newlines[i] == '\n'
    ensures TrimNewlines(line) == "" || TrimNewlines(line)[|TrimNewlines(line)| - 1] != '\n'
    decreases |line|
  {
    if line != "" && line[|line| - 1] == '\n' {
      var fewer := TrimmedLine(line[..|line| - 1]);
      newlines := fewer + "\n";
    } else {
      newlines := "";
    }
  }

  lemma {:induction false} TrimsTo(t: string, newlines: string)
    requires forall i | 0 <= i < |newlines| :: newlines[i] == '\n'
    requires t == "" || t[|t| - 1] != '\n'
    ensures TrimNewlines(t + newlines) == t
    decreases |newlines|
  {
    if newlines == "" {
      assert t + newlines == t;
    } else {
      var n := |newlines| - 1;
      assert (t + newlines)[..|t + newlines| - 1] == t + newlines[..n];
      TrimsTo(t, newlines[..n]);
    }
  }

  /** Splitting gives pieces without separators back, followed by those of what comes after them. */
  lemma {:induction false} SplitLeading(xs: seq<string>, rest: string, sep: char)
    requires forall i | 0 <= i < |xs| :: sep !in xs[i]
    ensures Split(Join(xs + [rest], sep), sep) == xs + Split(rest, sep)
  {
    hide Split;
    if xs == [] {
      assert xs + [rest] == [rest];
    } else {
      SplitLeading(xs[1..], rest, sep);
      assert (xs + [rest])[1..] == xs[1..] + [rest];
      var more := Join(xs[1..] + [rest], sep);
      assert Join(xs + [rest], sep) == xs[0] + [sep] + more;
      hide Join;
      SplitFirst(xs[0], more, sep);
      assert [xs[0]] + (xs[1..] + Split(rest, sep)) == xs + Split(rest, sep);
    }
  }

  lemma OneWord(x: string)
    ensures Join([x], ' ') == x
  {
  }

  lemma EmptySplit()
    ensures Split("", ' ') == [""]
  {
  }

  lemma NineWordsAre(w: seq<string>)
    requires |w| == 9 && forall i | 0 <= i < 8 :: ' ' !in w[i]
    ensures NineWords(Join(w, ' ')) == w && Join(w, ' ') != ""
  {
    hide Join, Split;
    assert w == w[..8] + [w[8]];
    SplitLeading(w[..8], w[8], ' ');
    JoinSplit(w[8], ' ');
    var last := Split(w[8], ' ');
    assert (w[..8] + last)[..8] == w[..8] && (w[..8] + last)[8..] == last;
    if |last| == 1 {
      OneWord(last[0]);
      assert last == [last[0]] == [w[8]];
    }
    EmptySplit();
  }

  lemma {:induction false} JoinNested(xs: seq<string>, ys: seq<string>, sep: char)
    requires ys != []
    ensures Join(xs + [Join(ys, sep)], sep) == Join(xs + ys, sep)
  {
    if xs == [] {
      assert xs + [Join(ys, sep)] == [Join(ys, sep)];
      assert xs + ys == ys;
    } else {
      JoinNested(xs[1..], ys, sep);
      assert (xs + [Join(ys, sep)])[1..] == xs[1..] + [Join(ys, sep)];
      assert (xs + ys)[1..] == xs[1..] + ys;
    }
  }

  lemma NineWordsJoin(t: string)
    requires |NineWords(t)| == 9
    ensures Join(NineWords(t), ' ') == t && forall i | 0 <= i < 8 :: ' ' !in NineWords(t)[i]
  {
    hide Join, Split;
    var pieces := Split(t, ' ');
    JoinSplit(t, ' ');
    forall i | 0 <= i < |pieces| ensures ' ' !in pieces[i] {
      assert pieces[i] in pieces;
    }
    if |pieces| > 9 {
      JoinNested(pieces[..8], pieces[8..], ' ');
      assert pieces[..8] + pieces[8..] == pieces;
    }
  }

  lemma {:induction false} JoinTrail(xs: seq<string>, sep: char)
    requires xs != []
    ensures |Join(xs + [""], sep)| > 0 && Join(xs + [""], sep)[|Join(xs + [""], sep)| - 1] == sep
  {
    assert (xs + [""])[1..] == xs[1..] + [""];
    if |xs| > 1 {
      JoinTrail(xs[1..], sep);
    }
  }

  lemma {:induction false} JoinLast(xs: seq<string>, last: string, sep: char)
    requires |last| > 0
    ensures |Join(xs + [last], sep)| > 0
    ensures Join(xs + [last], sep)[|Join(xs + [last], sep)| - 1] == last[|last| - 1]
  {
    if xs == [] {
      assert xs + [last] == [last];
    } else {
      assert (xs + [last])[1..] == xs[1..] + [last];
      JoinLast(xs[1..], last, sep);
    }
  }

  lemma {:induction false} EndsLikeLast(w: seq<string>)
    requires |w| == 9
    ensures (Join(w, ' ') == "" || Join(w, ' ')[|Join(w, ' ')| - 1] != '\n') <==>
            (w[8] == "" || w[8][|w[8]| - 1] != '\n')
  {
    assert w[..8] + [w[8]] == w;
    if w[8] != "" {
      JoinLast(w[..8], w[8], ' ');
    } else {
      JoinTrail(w[..8], ' ');
    }
  }

  /**
   * A line is accepted with these values exactly when it is nine words, separated by single spaces and followed
   * by newlines, of which the third is a relay's name of 40 hexadecimal digits, the fifth and sixth begin as
   * they should, and the seventh and eighth are numbers that are not negative. The last may contain spaces.
   */
  lemma AcceptedIff(line: string, fp: string, ts: int, bw: int)
    ensures ReadRecord(line) == Some(Record(fp, ts, bw)) <==>
            exists w: seq<string>, newlines: string ::
              && |w| == 9 && line == Join(w, ' ') + newlines
              && (forall i | 0 <= i < |newlines| :: newlines[i] == '\n')
              && (w[8] == "" || w[8][|w[8]| - 1] != '\n') && (forall i | 0 <= i < 8 :: ' ' !in w[i])
              && w[2] == fp && |fp| == 40 && (forall i | 0 <= i < 40 :: '0' <= fp[i] <= '9' || 'A' <= fp[i] <= 'F')
              && "650" <= w[4] && "SPEEDTESTING" <= w[5]
              && AsLong(w[6]) == ts && ts >= 0 && AsLong(w[7]) == bw && bw >= 0
  {
    hide Join, NineWords, AsLong, TrimNewlines;
    if ReadRecord(line) == Some(Record(fp, ts, bw)) {
      var newlines := TrimmedLine(line);
      var w := NineWords(TrimNewlines(line));
      NineWordsJoin(TrimNewlines(line));
      EndsLikeLast(w);
      assert line == Join(w, ' ') + newlines;
    }
    if w: seq<string>, newlines: string :|
      && |w| == 9 && line == Join(w, ' ') + newlines
      && (forall i | 0 <= i < |newlines| :: newlines[i] == '\n')
      && (w[8] == "" || w[8][|w[8]| - 1] != '\n') && (forall i | 0 <= i < 8 :: ' ' !in w[i])
      && w[2] == fp && |fp| == 40 && (forall i | 0 <= i < 40 :: '0' <= fp[i] <= '9' || 'A' <= fp[i] <= 'F')
      && "650" <= w[4] && "SPEEDTESTING" <= w[5]
      && AsLong(w[6]) == ts && ts >= 0 && AsLong(w[7]) == bw && bw >= 0
    {
      EndsLikeLast(w);
      TrimsTo(Join(w, ' '), newlines);
      NineWordsAre(w);
    }
  }

  lemma {:induction false} SkipIs(s: string) returns (i: nat)
    ensures i <= |s| && SkipCSpace(s) == s[i..] && (i < |s| ==> !IsCSpace(s[i]))
    ensures forall k | 0 <= k < i :: IsCSpace(s[k])
  {
    if s != "" && IsCSpace(s[0]) {
      var j := SkipIs(s[1..]);
      i := j + 1;
    } else {
      i := 0;
    }
  }

  lemma {:induction false} SkipsTo(pad: string, t: string)
    requires forall k | 0 <= k < |pad| :: IsCSpace(pad[k])
    requires t == "" || !IsCSpace(t[0])
    ensures SkipCSpace(pad + t) == t
  {
    if pad == "" {
      assert pad + t == t;
    } else {
      assert (pad + t)[1..] == pad[1..] + t;
      SkipsTo(pad[1..], t);
    }
  }

  lemma LongParts(word: string, n: nat) returns (pad: string, sign: string, digits: string)
    requires AsLong(word) == n
    ensures word == pad + (sign + digits) && forall k | 0 <= k < |pad| :: pad[k] == ' ' || '\t' <= pad[k] <= '\r'
    ensures sign in ["", "+", "-"] && digits != "" && forall k | 0 <= k < |digits| :: '0' <= digits[k] <= '9'
    ensures sign == "-" ==> Value(digits) == 0
    ensures n == if Value(digits) < 0x8000_0000_0000_0000 then Value(digits) else 0x7FFF_FFFF_FFFF_FFFF
  {
    var i := SkipIs(word);
    var s := SkipCSpace(word);
    hide SkipCSpace, Value;
    pad := word[..i];
    if s != "" && (s[0] == '-' || s[0] == '+') {
      sign, digits := [s[0]], s[1..];
    } else {
      sign, digits := "", s;
    }
    assert s == sign + digits;
    assert word == word[..i] + word[i..];
  }

  lemma SignApart(sign: string, digits: string)
    requires sign in ["", "+", "-"] && digits != "" && '0' <= digits[0] <= '9'
    ensures var s := sign + digits;
      && s != "" && !IsCSpace(s[0])
      && (s[0] == '-' <==> sign == "-")
      && (if s[0] == '-' || s[0] == '+' then s[1..] else s) == digits
  {
    if sign == "" {
      assert sign + digits == digits;
    } else {
      assert (sign + digits)[0] == sign[0] && (sign + digits)[1..] == digits;
    }
  }

  lemma PartsAsLong(pad: string, sign: string, digits: string)
    requires forall k | 0 <= k < |pad| :: pad[k] == ' ' || '\t' <= pad[k] <= '\r'
    requires sign in ["", "+", "-"] && digits != "" && forall k | 0 <= k < |digits| :: '0' <= digits[k] <= '9'
    requires sign == "-" ==> Value(digits) == 0
    ensures AsLong(pad + (sign + digits)) ==
            if Value(digits) < 0x8000_0000_0000_0000 then Value(digits) else 0x7FFF_FFFF_FFFF_FFFF
  {
    hide SkipCSpace, Value;
    SignApart(sign, digits);
    SkipsTo(pad, sign + digits);
  }

  /**
   * A word is read as a number that is not negative when it is decimal digits, after whitespace and a sign at
   * most; what does not fit in 63 bits is read as the largest that does, and after a minus sign only zero is left.
   */
  lemma AsLongIff(word: string, n: nat)
    ensures AsLong(word) == n <==>
            exists pad: string, sign: string, digits: string ::
              && word == pad + (sign + digits)
              && (forall k | 0 <= k < |pad| :: pad[k] == ' ' || '\t' <= pad[k] <= '\r')
              && sign in ["", "+", "-"]
              && digits != "" && (forall k | 0 <= k < |digits| :: '0' <= digits[k] <= '9')
              && (sign == "-" ==> Value(digits) == 0)
              && n == if Value(digits) < 0x8000_0000_0000_0000 then Value(digits) else 0x7FFF_FFFF_FFFF_FFFF
  {
    hide AsLong, Value;
    if AsLong(word) == n {
      var pad, sign, digits := LongParts(word, n);
    }
    if pad: string, sign: string, digits: string :|
      && word == pad + (sign + digits)
      && (forall k | 0 <= k < |pad| :: pad[k] == ' ' || '\t' <= pad[k] <= '\r')
      && sign in ["", "+", "-"]
      && digits != "" && (forall k | 0 <= k < |digits| :: '0' <= digits[k] <= '9')
      && (sign == "-" ==> Value(digits) == 0)
      && n == if Value(digits) < 0x8000_0000_0000_0000 then Value(digits) else 0x7FFF_FFFF_FFFF_FFFF
    {
      PartsAsLong(pad, sign, digits);
    }
  }

  // ---- What is written is read back

  /** The line `tc_output_result` writes for one line of a client's reply. */
  function ResultLine(time: string, id: nat, fp: string, who: string, token: string): string {
    Join([time, Show(id), fp, who, token], ' ') + "\n"
  }

  /** A per-second result as the client reports it. */
  function Report(ts: nat, down: nat, up: nat): string {
    Join(["650", "SPEEDTESTING", Show(ts), Show(down), Show(up)], ' ')
  }

  lemma AsLongShow(n: nat)
    requires n <= LONG_MAX
    ensures AsLong(Show(n)) == n
  {
    ValueShow(n);
    assert IsDigit(Show(n)[0]);
  }

  lemma TrimOneNewline(s: string)
    requires |s| > 0 && s[|s| - 1] != '\n'
    ensures TrimNewlines(s + "\n") == s
  {
    assert (s + "\n")[..|s|] == s;
  }

  lemma PrefixSelf()
    ensures "650" <= "650" && "SPEEDTESTING" <= "SPEEDTESTING"
  {
  }

  lemma HexOnly(fp: string)
    requires IsFp(fp)
    ensures ' ' !in fp
  {
  }

  lemma DigitsOnly(n: nat)
    ensures ' ' !in Show(n) && '\n' !in Show(n) && |Show(n)| > 0
  {
  }

  /** The result written for a client's report is the record of that report. */
  lemma ReportIsRead(time: string, id: nat, fp: string, who: string, ts: nat, down: nat, up: nat)
    requires |fp| == 40 && forall i | 0 <= i < 40 :: '0' <= fp[i] <= '9' || 'A' <= fp[i] <= 'F'
    requires ts < 0x8000_0000_0000_0000 && down < 0x8000_0000_0000_0000
    requires (forall c | c in time :: c != ' ') && (forall c | c in who :: c != ' ')
    ensures ResultLine(time, id, fp, who, Report(ts, down, up)) ==
            Join([time, Show(id), fp, who, "650", "SPEEDTESTING", Show(ts), Show(down), Show(up)], ' ') + "\n"
    ensures ReadRecord(ResultLine(time, id, fp, who, Report(ts, down, up))) == Some(Record(fp, ts, down))
  {
    hide Show, AsLong, Split, Join;
    var words := [time, Show(id), fp, who, "650", "SPEEDTESTING", Show(ts), Show(down), Show(up)];
    JoinNested(words[..4], words[4..], ' ');
    assert words[..4] + words[4..] == words;
    assert words[4..] == ["650", "SPEEDTESTING", Show(ts), Show(down), Show(up)];
    assert words[..4] + [Report(ts, down, up)] == [time, Show(id), fp, who, Report(ts, down, up)];
    DigitsOnly(id);
    DigitsOnly(ts);
    DigitsOnly(down);
    DigitsOnly(up);
    forall x | x in words ensures ' ' !in x {
      HexOnly(fp);
    }
    SplitJoin(words, ' ');
    JoinLast(words[..8], Show(up), ' ');
    assert words[..8] + [Show(up)] == words;
    TrimOneNewline(Join(words, ' '));
    AsLongShow(ts);
    AsLongShow(down);
    PrefixSelf();
  }
}
