/** Reading one line of a schedule, and printing one: `Measurement::new_from_string` and the generator's format. */
module ScheduleText {
  import opened Text
  import opened Schedule
  import opened Sequences

  /** A line is skipped, read, or makes the program stop with a panic. */
  datatype ParseResult = Skip | Parsed(m: Measurement) | Panic

  /** The pieces that are left after trimming and dropping the empty ones. */
  function Words(pieces: seq<string>): (ws: seq<string>)
    ensures |ws| <= |pieces|
  {
    if pieces == [] then [] else
      var last := Trim(pieces[|pieces| - 1]);
      Words(pieces[..|pieces| - 1]) + if last == "" then [] else [last]
  }

  // A word that is missing leaves its variable at the initial value.

  function IdOf(ws: seq<string>): Option<nat> {
    if |ws| > 0 then ParseU32(ws[0]) else Some(0)
  }

  function FpOf(ws: seq<string>): string {
    if |ws| > 1 then ws[1] else ""
  }

  function DurOf(ws: seq<string>): Option<nat> {
    if |ws| > 2 then ParseU32(ws[2]) else Some(0)
  }

  function ClassesOf(ws: seq<string>): seq<string> {
    if |ws| > 3 then Split(ws[3], ',') else []
  }

  function BwsOf(ws: seq<string>): Option<seq<nat>> {
    if |ws| > 4 then ParseAll(Split(ws[4], ',')) else Some([])
  }

  function ConnsOf(ws: seq<string>): Option<seq<nat>> {
    if |ws| > 5 then ParseAll(Split(ws[5], ',')) else Some([])
  }

  function Positive(ns: seq<nat>): (r: seq<nat>)
    ensures forall i | 0 <= i < |r| :: r[i] > 0
  {
    if ns == [] then [] else
      Positive(ns[..|ns| - 1]) + if ns[|ns| - 1] > 0 then [ns[|ns| - 1]] else []
  }

  function DependsOf(ws: seq<string>): Option<seq<nat>> {
    if |ws| > 6 then
      var ns := ParseAll(Split(ws[6], ','));
      if ns.Some? then Some(Positive(ns.value)) else None
    else Some([])
  }

  function Zip(classes: seq<string>, bws: seq<nat>, conns: seq<nat>): (hosts: seq<Host>)
    requires |classes| == |bws| == |conns|
    ensures |hosts| == |classes|
  {
    seq(|classes|, i requires 0 <= i < |classes| => Host(classes[i], bws[i], conns[i]))
  }

  /** A background entry must have one connection and exactly 125000 bytes per second, and there is at most one. */
  predicate BackgroundOk(hosts: seq<Host>) {
    && (forall i | 0 <= i < |hosts| :: hosts[i].cls == "bg" ==> hosts[i].conns == 1 && hosts[i].bw == 125000)
    && (forall i, j | 0 <= i < j < |hosts| :: !(hosts[i].cls == "bg" && hosts[j].cls == "bg"))
  }

  predicate FieldsOk(id: nat, classes: seq<string>, bws: seq<nat>, conns: seq<nat>, depends: seq<nat>) {
    && id != 0 && id !in depends
    && |classes| == |bws| == |conns|
    && BackgroundOk(Zip(classes, bws, conns))
  }

  predicate Readable(ws: seq<string>) {
    && |ws| <= 7
    && IdOf(ws).Some? && DurOf(ws).Some? && BwsOf(ws).Some? && ConnsOf(ws).Some? && DependsOf(ws).Some?
  }

  function FromWords(ws: seq<string>): ParseResult {
    if
      && Readable(ws)
      && FieldsOk(IdOf(ws).value, ClassesOf(ws), BwsOf(ws).value, ConnsOf(ws).value, DependsOf(ws).value)
    then
      Parsed(Measurement(IdOf(ws).value, FpOf(ws), DurOf(ws).value, Waiting,
        Zip(ClassesOf(ws), BwsOf(ws).value, ConnsOf(ws).value), DependsOf(ws).value, [], 0))
    else Panic
  }

  function FromLine(s: string): ParseResult {
    var t := Trim(s);
    if t == "" || t[0] == '#' then Skip else FromWords(Words(Split(t, ' ')))
  }

  lemma {:induction false} WordsPrefix(pieces: seq<string>, n: nat)
    requires n <= |pieces|
    ensures Words(pieces[..n]) <= Words(pieces)
    decreases |pieces|
  {
    if n < |pieces| {
      WordsPrefix(pieces[..|pieces| - 1], n);
      assert pieces[..|pieces| - 1][..n] == pieces[..n];
    } else {
      assert pieces[..n] == pieces;
    }
  }

  lemma WordsStep(pieces: seq<string>, k: nat)
    requires k < |pieces|
    ensures Words(pieces[..k + 1]) ==
            if Trim(pieces[k]) == "" then Words(pieces[..k]) else Words(pieces[..k]) + [Trim(pieces[k])]
    ensures Words(pieces[..k + 1]) <= Words(pieces)
  {
    assert pieces[..k + 1][..k] == pieces[..k];
    WordsPrefix(pieces, k + 1);
  }

  /** Words that come later do not repair an unreadable word. */
  lemma StaysUnreadable(ws: seq<string>, more: seq<string>)
    requires ws <= more && !Readable(ws)
    ensures FromWords(more) == Panic
  {
  }

  /** The local variables of `new_from_string`. */
  datatype Fields = Fields(wordNum: nat, id: nat, fp: string, dur: nat, classes: seq<string>, bws: seq<nat>,
                           conns: seq<nat>, depends: seq<nat>)

  function FieldsOf(ws: seq<string>): Fields
    requires Readable(ws)
  {
    Fields(|ws|, IdOf(ws).value, FpOf(ws), DurOf(ws).value, ClassesOf(ws), BwsOf(ws).value, ConnsOf(ws).value,
           DependsOf(ws).value)
  }

  lemma HostsReadIff(classes: seq<string>, bws: seq<nat>, conns: seq<nat>, b: seq<string>, c: seq<string>,
                     hosts: seq<Host>)
    requires |classes| == |bws| == |conns| && ParseAll(b) == Some(bws) && ParseAll(c) == Some(conns)
    ensures Zip(classes, bws, conns) == hosts <==>
            |hosts| == |classes| && forall i | 0 <= i < |hosts| ::
              && hosts[i].cls == classes[i]
              && ParseU32(b[i]) == Some(hosts[i].bw) && ParseU32(c[i]) == Some(hosts[i].conns)
  {
    hide ParseAll, ParseU32;
    ParseAllIff(b, bws);
    ParseAllIff(c, conns);
    if |hosts| == |classes| && forall i | 0 <= i < |hosts| ::
      && hosts[i].cls == classes[i]
      && ParseU32(b[i]) == Some(hosts[i].bw) && ParseU32(c[i]) == Some(hosts[i].conns)
    {
      forall i | 0 <= i < |hosts| ensures Zip(classes, bws, conns)[i] == hosts[i] {
      }
    }
  }

  function Bws(hosts: seq<Host>): (r: seq<nat>)
    ensures |r| == |hosts|
  {
    seq(|hosts|, i requires 0 <= i < |hosts| => hosts[i].bw)
  }

  function Conns(hosts: seq<Host>): (r: seq<nat>)
    ensures |r| == |hosts|
  {
    seq(|hosts|, i requires 0 <= i < |hosts| => hosts[i].conns)
  }

  /** With its six or seven words, the host list is read when the three lists are as long as each other. */
  lemma FullHosts(ws: seq<string>, hosts: seq<Host>)
    requires |ws| > 5
    ensures (BwsOf(ws).Some? && ConnsOf(ws).Some? && |ClassesOf(ws)| == |BwsOf(ws).value| == |ConnsOf(ws).value| &&
             hosts == Zip(ClassesOf(ws), BwsOf(ws).value, ConnsOf(ws).value)) <==>
            (|Split(ws[3], ',')| == |Split(ws[4], ',')| == |Split(ws[5], ',')| == |hosts| &&
             forall i | 0 <= i < |hosts| ::
               && hosts[i].cls == Split(ws[3], ',')[i]
               && ParseU32(Split(ws[4], ',')[i]) == Some(hosts[i].bw)
               && ParseU32(Split(ws[5], ',')[i]) == Some(hosts[i].conns))
  {
    hide ParseAll, ParseU32, Split;
    var a, b, c := Split(ws[3], ','), Split(ws[4], ','), Split(ws[5], ',');
    if BwsOf(ws).Some? && ConnsOf(ws).Some? && |a| == |BwsOf(ws).value| == |ConnsOf(ws).value| {
      HostsReadIff(a, BwsOf(ws).value, ConnsOf(ws).value, b, c, hosts);
    }
    if |a| == |b| == |c| == |hosts| && forall i | 0 <= i < |hosts| ::
      && hosts[i].cls == a[i] && ParseU32(b[i]) == Some(hosts[i].bw) && ParseU32(c[i]) == Some(hosts[i].conns)
    {
      ParseAllIff(b, Bws(hosts));
      ParseAllIff(c, Conns(hosts));
    }
  }

  /**
   * Which words make which measurement: an id, then perhaps a relay, a duration, three lists of the same length,
   * and the ids it depends on. What is missing is empty or zero, and a host list can only be missing as a whole.
   */
  lemma ReadIff(ws: seq<string>, m: Measurement)
    ensures FromWords(ws) == Parsed(m) <==>
            && |ws| in {1, 2, 3, 6, 7}
            && ParseU32(ws[0]) == Some(m.id) && m.id != 0
            && m.fp == (if |ws| > 1 then ws[1] else "")
            && (if |ws| > 2 then ParseU32(ws[2]) == Some(m.dur) else m.dur == 0)
            && (if |ws| > 5 then
                  && |Split(ws[3], ',')| == |Split(ws[4], ',')| == |Split(ws[5], ',')| == |m.hosts|
                  && forall i | 0 <= i < |m.hosts| ::
                       && m.hosts[i].cls == Split(ws[3], ',')[i]
                       && ParseU32(Split(ws[4], ',')[i]) == Some(m.hosts[i].bw)
                       && ParseU32(Split(ws[5], ',')[i]) == Some(m.hosts[i].conns)
                else m.hosts == [])
            && (if |ws| > 6 then exists ns :: ParseAll(Split(ws[6], ',')) == Some(ns) && m.depends == Positive(ns)
                else m.depends == [])
            && m.id !in m.depends
            && (forall i | 0 <= i < |m.hosts| && m.hosts[i].cls == "bg" ::
                  m.hosts[i].conns == 1 && m.hosts[i].bw == 125000)
            && (forall i, j | 0 <= i < j < |m.hosts| :: m.hosts[i].cls == "bg" ==> m.hosts[j].cls != "bg")
            && m.status == Waiting && m.finished == [] && m.deadline == 0
  {
    hide ParseAll, ParseU32, Split, Positive;
    if |ws| > 5 {
      FullHosts(ws, m.hosts);
    }
  }

  ghost function WordFlags(pieces: seq<string>): (flags: seq<bool>)
    ensures |flags| == |pieces|
  {
    seq(|pieces|, i requires 0 <= i < |pieces| => Trim(pieces[i]) != "")
  }

  lemma {:induction false} WordsFlagged(pieces: seq<string>)
    ensures var at := Flagged(WordFlags(pieces));
      |at| == |Words(pieces)| && forall k | 0 <= k < |at| :: at[k] < |pieces| && Words(pieces)[k] == Trim(pieces[at[k]])
  {
    hide Trim;
    if pieces != [] {
      var n := |pieces| - 1;
      WordsFlagged(pieces[..n]);
      assert WordFlags(pieces)[..n] == WordFlags(pieces[..n]);
    }
  }

  /** The words are the pieces that are not only whitespace, trimmed, each once and in order. */
  lemma WordsInOrder(pieces: seq<string>) returns (at: seq<nat>)
    ensures |at| == |Words(pieces)| && forall k, l | 0 <= k < l < |at| :: at[k] < at[l]
    ensures forall k | 0 <= k < |at| :: at[k] < |pieces| && Words(pieces)[k] == Trim(pieces[at[k]]) != ""
    ensures forall i | 0 <= i < |pieces| && Trim(pieces[i]) != "" :: i in at
  {
    hide Trim, Words, Flagged;
    at := Flagged(WordFlags(pieces));
    WordsFlagged(pieces);
    FlaggedIs(WordFlags(pieces));
  }

  ghost function PositiveFlags(ns: seq<nat>): (flags: seq<bool>)
    ensures |flags| == |ns|
  {
    seq(|ns|, i requires 0 <= i < |ns| => ns[i] > 0)
  }

  lemma {:induction false} PositiveFlagged(ns: seq<nat>)
    ensures var at := Flagged(PositiveFlags(ns));
      |at| == |Positive(ns)| && forall k | 0 <= k < |at| :: at[k] < |ns| && Positive(ns)[k] == ns[at[k]]
  {
    if ns != [] {
      var n := |ns| - 1;
      PositiveFlagged(ns[..n]);
      assert PositiveFlags(ns)[..n] == PositiveFlags(ns[..n]);
    }
  }

  /** Zeros are dropped, and everything else is kept in order. */
  lemma PositiveInOrder(ns: seq<nat>) returns (at: seq<nat>)
    ensures |at| == |Positive(ns)| && forall k, l | 0 <= k < l < |at| :: at[k] < at[l]
    ensures forall k | 0 <= k < |at| :: at[k] < |ns| && Positive(ns)[k] == ns[at[k]] > 0
    ensures forall i | 0 <= i < |ns| && ns[i] > 0 :: i in at
  {
    hide Positive, Flagged;
    at := Flagged(PositiveFlags(ns));
    PositiveFlagged(ns);
    FlaggedIs(PositiveFlags(ns));
  }

  /** The body of the loop over the pieces, for a word that is not empty; `None` stands for a panic. */
  method TakeWord(f: Fields, sub: string, ghost ws: seq<string>) returns (r: Option<Fields>)
    requires Readable(ws) && f == FieldsOf(ws)
    ensures r.Some? <==> Readable(ws + [sub])
    ensures r.Some? ==> r.value == FieldsOf(ws + [sub])
  {
    var g := f.(wordNum := f.wordNum + 1);
    match f.wordNum {
      case 0 =>
        var v := ParseU32(sub);
        r := if v.None? then None else Some(g.(id := v.value));
      case 1 =>
        r := Some(g.(fp := sub));
      case 2 =>
        var v := ParseU32(sub);
        r := if v.None? then None else Some(g.(dur := v.value));
      case 3 =>
        r := Some(g.(classes := Split(sub, ',')));
      case 4 =>
        var v := ParseAll(Split(sub, ','));
        r := if v.None? then None else Some(g.(bws := v.value));
      case 5 =>
        var v := ParseAll(Split(sub, ','));
        r := if v.None? then None else Some(g.(conns := v.value));
      case 6 =>
        var v := ParseAll(Split(sub, ','));
        r := if v.None? then None else Some(g.(depends := Positive(v.value)));
      case _ =>
        r := None;
    }
  }

  lemma NoWords()
    ensures Words([]) == [] && Readable([]) && FieldsOf([]) == Fields(0, 0, "", 0, [], [], [], [])
  {
  }

  method CheckBackground(hosts: seq<Host>) returns (ok: bool)
    ensures ok <==> BackgroundOk(hosts)
  {
    var seen, i := 0, 0;
    while i < |hosts|
      invariant 0 <= i <= |hosts|
      invariant forall k | 0 <= k < i :: hosts[k].cls == "bg" ==> hosts[k].conns == 1 && hosts[k].bw == 125000
      invariant seen == 0 ==> forall k | 0 <= k < i :: hosts[k].cls != "bg"
      invariant seen == 1 ==>
                  exists b ::
                    0 <= b < i && hosts[b].cls == "bg" && forall k | 0 <= k < i :: hosts[k].cls == "bg" ==> k == b
      invariant seen > 1 ==> !BackgroundOk(hosts)
    {
      var h := hosts[i];
      if h.cls == "bg" && h.conns != 1 {
        return false;
      } else if h.cls == "bg" && h.bw != 125000 {
        return false;
      }
      if h.cls == "bg" {
        seen := seen + 1;
      }
      i := i + 1;
    }
    ok := seen <= 1;
  }

  lemma BackgroundMeans(classes: seq<string>, bws: seq<nat>, conns: seq<nat>)
    requires |classes| == |bws| == |conns|
    ensures BackgroundOk(Zip(classes, bws, conns)) <==>
            && (forall i | 0 <= i < |classes| && classes[i] == "bg" :: conns[i] == 1 && bws[i] == 125000)
            && (forall i, j | 0 <= i < j < |classes| :: classes[i] == "bg" ==> classes[j] != "bg")
  {
    var hosts := Zip(classes, bws, conns);
    if BackgroundOk(hosts) {
      forall i | 0 <= i < |classes| && classes[i] == "bg" ensures conns[i] == 1 && bws[i] == 125000 {
        assert hosts[i].cls == "bg";
      }
      forall i, j | 0 <= i < j < |classes| && classes[i] == "bg" ensures classes[j] != "bg" {
        assert hosts[i].cls == "bg" ==> hosts[j].cls != "bg";
      }
    }
  }

  /** The loops that build the host list and check the background entries. */
  method BuildHosts(classes: seq<string>, bws: seq<nat>, conns: seq<nat>) returns (ok: bool, hosts: seq<Host>)
    requires |classes| == |bws| == |conns|
    ensures ok <==> BackgroundOk(Zip(classes, bws, conns))
    ensures ok <==>
            && (forall i | 0 <= i < |classes| && classes[i] == "bg" :: conns[i] == 1 && bws[i] == 125000)
            && (forall i, j | 0 <= i < j < |classes| :: classes[i] == "bg" ==> classes[j] != "bg")
    ensures ok ==> hosts == Zip(classes, bws, conns)
  {
    hosts := [];
    var i := 0;
    while i < |classes|
      invariant 0 <= i <= |classes| && hosts == Zip(classes, bws, conns)[..i]
    {
      hosts := hosts + [Host(classes[i], bws[i], conns[i])];
      i := i + 1;
    }
    assert hosts == Zip(classes, bws, conns);
    ok := CheckBackground(hosts);
    BackgroundMeans(classes, bws, conns);
  }

  /** The checks after the loop, and the measurement they let through. */
  method CheckFields(f: Fields, ghost ws: seq<string>) returns (r: ParseResult)
    requires Readable(ws) && f == FieldsOf(ws)
    ensures r == FromWords(ws)
  {
    if f.id == 0 || f.id in f.depends || |f.classes| != |f.bws| || |f.classes| != |f.conns| {
      return Panic;
    }
    var ok, hosts := BuildHosts(f.classes, f.bws, f.conns);
    if !ok {
      return Panic;
    }
    r := Parsed(Measurement(f.id, f.fp, f.dur, Waiting, hosts, f.depends, [], 0));
  }

  /** A line is skipped exactly when it is whitespace or its first character that is not is '#'. */
  lemma SkippedIff(s: string)
    ensures FromLine(s).Skip? <==>
            || (forall i | 0 <= i < |s| :: IsSpace(s[i]))
            || exists i :: 0 <= i < |s| && s[i] == '#' && forall k | 0 <= k < i :: IsSpace(s[k])
  {
    var i, j := TrimIs(s);
    hide Trim, Words, Split, Readable, FieldsOk;
    if exists n :: 0 <= n < |s| && s[n] == '#' && forall k | 0 <= k < n :: IsSpace(s[k]) {
      var n :| 0 <= n < |s| && s[n] == '#' && forall k | 0 <= k < n :: IsSpace(s[k]);
      assert !IsSpace('#') && i <= n < j;
    }
  }

  /** `Measurement::new_from_string`. */
  method NewFromString(s: string) returns (r: ParseResult)
    ensures r == FromLine(s)
    ensures r.Skip? <==>
            || (forall i | 0 <= i < |s| :: IsSpace(s[i]))
            || exists i :: 0 <= i < |s| && s[i] == '#' && forall k | 0 <= k < i :: IsSpace(s[k])
    ensures !r.Skip? ==> r == FromWords(Words(Split(Trim(s), ' ')))
  {
    SkippedIff(s);
    hide Readable, FieldsOf, FromWords, Words, Trim, Split, IsSpace;
    var t := Trim(s);
    if t == "" || t[0] == '#' {
      return Skip;
    }
    var pieces := Split(t, ' ');
    var f := Fields(0, 0, "", 0, [], [], [], []);
    NoWords();
    assert pieces[..0] == [];
    var k := 0;
    while k < |pieces|
      invariant 0 <= k <= |pieces|
      invariant Readable(Words(pieces[..k])) && f == FieldsOf(Words(pieces[..k]))
    {
      WordsStep(pieces, k);
      var sub := Trim(pieces[k]);
      if sub != "" {
        var taken := TakeWord(f, sub, Words(pieces[..k]));
        if taken.None? {
          StaysUnreadable(Words(pieces[..k]) + [sub], Words(pieces));
          return Panic;
        }
        f := taken.value;
      }
      k := k + 1;
    }
    assert pieces[..k] == pieces;
    r := CheckFields(f, Words(pieces));
  }

  /** What is known of every measurement the parser lets through. */
  lemma ParsedIsSound(s: string)
    requires FromLine(s).Parsed?
    ensures var m := FromLine(s).m;
      && 0 < m.id < U32_LIMIT && m.dur < U32_LIMIT
      && m.id !in m.depends && (forall i | 0 <= i < |m.depends| :: m.depends[i] > 0)
      && BackgroundOk(m.hosts)
      && m.status == Waiting && m.finished == []
  {
  }

  // ---- Printing

  /** The first six words of a printed measurement. */
  function SixWords(m: Measurement): seq<string> {
    [Show(m.id), m.fp, Show(m.dur),
     Join(Classes(m.hosts), ','), Join(ShowAll(Bws(m.hosts)), ','), Join(ShowAll(Conns(m.hosts)), ',')]
  }

  /** The generator's format. */
  function LineText(id: nat, fp: string, dur: nat, classes: seq<string>, bws: seq<nat>, conns: seq<nat>,
                    dep: string): string
  {
    Join([Show(id), fp, Show(dur), Join(classes, ','), Join(ShowAll(bws), ','), Join(ShowAll(conns), ','), dep], ' ')
  }

  /** The generator's line for a measurement, with `dep` for the last word. */
  function Line(m: Measurement, dep: string): string {
    LineText(m.id, m.fp, m.dur, Classes(m.hosts), Bws(m.hosts), Conns(m.hosts), dep)
  }

  /** How the generator writes depends: the ids, or "0" before the first set, or nothing after an empty one. */
  predicate DependText(depends: seq<nat>, dep: string) {
    if depends == [] then dep == "0" || dep == "" else dep == Join(ShowAll(depends), ',')
  }

  /** A measurement whose names contain no separator and whose numbers fit. */
  ghost predicate Printable(m: Measurement) {
    && 0 < m.id < U32_LIMIT && m.dur < U32_LIMIT
    && IsWord(m.fp)
    && m.hosts != []
    && (forall i | 0 <= i < |m.hosts| ::
          IsName(m.hosts[i].cls) && m.hosts[i].bw < U32_LIMIT && m.hosts[i].conns < U32_LIMIT)
    && BackgroundOk(m.hosts)
    && m.id !in m.depends && (forall i | 0 <= i < |m.depends| :: 0 < m.depends[i] < U32_LIMIT)
    && m.status == Waiting && m.finished == [] && m.deadline == 0
  }

  lemma {:induction false} WordsOfWords(ws: seq<string>)
    requires forall i | 0 <= i < |ws| :: IsWord(ws[i])
    ensures Words(ws) == ws
  {
    hide IsWord, Trim;
    if ws != [] {
      var n := |ws| - 1;
      WordsOfWords(ws[..n]);
      TrimWord(ws[n]);
    }
  }

  lemma {:induction false} JoinEnds(ws: seq<string>)
    requires |ws| > 0 && IsWord(ws[0]) && forall i | 0 <= i < |ws| :: IsWord(ws[i])
    ensures |Join(ws, ' ')| > 0 && Join(ws, ' ')[0] == ws[0][0]
    ensures !IsSpace(Join(ws, ' ')[0]) && !IsSpace(Join(ws, ' ')[|Join(ws, ' ')| - 1])
  {
    assert ws[0][0] in ws[0];
    if |ws| == 1 {
      assert ws[0][|ws[0]| - 1] in ws[0];
    } else {
      JoinEnds(ws[1..]);
    }
  }

  lemma TrimTrailing(s: string)
    requires |s| > 0 && !IsSpace(s[0]) && !IsSpace(s[|s| - 1])
    ensures Trim(s) == s && Trim(s + " ") == s
  {
    TrimTight(s);
    var t := s + " ";
    assert t[..|t| - 1] == s;
    assert TrimStart(t) == t;
  }

  /** Words joined by single spaces are read back, with or without a trailing space. */
  lemma ReadJoined(ws: seq<string>)
    requires |ws| > 0 && IsWord(ws[0]) && forall i | 0 <= i < |ws| :: IsWord(ws[i])
    requires ws[0][0] != '#'
    ensures FromLine(Join(ws, ' ')) == FromWords(ws)
    ensures FromLine(Join(ws, ' ') + " ") == FromWords(ws)
  {
    hide FromWords, Join, Split, Words, Trim;
    JoinEnds(ws);
    TrimTrailing(Join(ws, ' '));
    SplitJoin(ws, ' ');
    WordsOfWords(ws);
  }

  lemma {:induction false} PositiveKeeps(ns: seq<nat>)
    requires forall i | 0 <= i < |ns| :: ns[i] > 0
    ensures Positive(ns) == ns
  {
    if ns != [] {
      PositiveKeeps(ns[..|ns| - 1]);
    }
  }

  lemma NamesOfNumbers(ns: seq<nat>)
    requires ns != [] && forall i | 0 <= i < |ns| :: ns[i] < U32_LIMIT
    ensures IsWord(Join(ShowAll(ns), ','))
    ensures ParseAll(Split(Join(ShowAll(ns), ','), ',')) == Some(ns)
  {
    forall x | x in ShowAll(ns) ensures IsName(x) {
      var i :| 0 <= i < |ns| && x == Show(ns[i]);
      ShowIsName(ns[i]);
    }
    JoinChars(ShowAll(ns), ',');
    SplitJoin(ShowAll(ns), ',');
    ParseShowAll(ns);
  }

  lemma NamesOfClasses(hosts: seq<Host>)
    requires hosts != [] && forall i | 0 <= i < |hosts| :: IsName(hosts[i].cls)
    ensures IsWord(Join(Classes(hosts), ','))
    ensures Split(Join(Classes(hosts), ','), ',') == Classes(hosts)
  {
    forall x | x in Classes(hosts) ensures IsName(x) && ',' !in x {
      var i :| 0 <= i < |hosts| && x == hosts[i].cls;
    }
    JoinChars(Classes(hosts), ',');
    SplitJoin(Classes(hosts), ',');
  }

  lemma ZipBack(hosts: seq<Host>)
    ensures Zip(Classes(hosts), Bws(hosts), Conns(hosts)) == hosts
  {
  }

  lemma SixWordsRead(m: Measurement, ws: seq<string>)
    requires Printable(m) && SixWords(m) <= ws && |ws| <= 7
    ensures forall i | 0 <= i < 6 :: IsWord(ws[i])
    ensures IdOf(ws) == Some(m.id) && FpOf(ws) == m.fp && DurOf(ws) == Some(m.dur)
    ensures ClassesOf(ws) == Classes(m.hosts) && BwsOf(ws) == Some(Bws(m.hosts)) && ConnsOf(ws) == Some(Conns(m.hosts))
  {
    hide BackgroundOk, Join, ShowAll, ParseAll, ParseU32;
    ParseShow(m.id);
    ParseShow(m.dur);
    ShowIsName(m.id);
    ShowIsName(m.dur);
    NamesOfClasses(m.hosts);
    NamesOfNumbers(Bws(m.hosts));
    NamesOfNumbers(Conns(m.hosts));
  }

  lemma ZeroText()
    ensures Join(ShowAll([0]), ',') == "0" && Positive([0]) == []
  {
    assert ShowAll([0]) == [Show(0)] == ["0"];
    assert [0][..0] == [];
  }

  lemma DependTextRead(depends: seq<nat>, dep: string)
    requires DependText(depends, dep) && dep != "" && forall i | 0 <= i < |depends| :: 0 < depends[i] < U32_LIMIT
    ensures IsWord(dep)
    ensures exists ns :: ParseAll(Split(dep, ',')) == Some(ns) && Positive(ns) == depends
  {
    hide IsWord, ParseAll, Split, Join, Show, ShowAll, Positive;
    if depends == [] {
      ZeroText();
      NamesOfNumbers([0]);
      assert ParseAll(Split(dep, ',')) == Some([0]) && Positive([0]) == depends;
    } else {
      NamesOfNumbers(depends);
      PositiveKeeps(depends);
      assert ParseAll(Split(dep, ',')) == Some(depends) && Positive(depends) == depends;
    }
  }

  lemma DependWordRead(ws: seq<string>, depends: seq<nat>, dep: string)
    requires DependText(depends, dep) && dep != "" && forall i | 0 <= i < |depends| :: 0 < depends[i] < U32_LIMIT
    requires |ws| == 7 && ws[6] == dep
    ensures IsWord(dep) && DependsOf(ws) == Some(depends)
  {
    hide IsWord, ParseAll, Split, Positive, DependText;
    DependTextRead(depends, dep);
  }

  lemma {:induction false} JoinTrailing(xs: seq<string>, sep: char)
    requires xs != []
    ensures Join(xs + [""], sep) == Join(xs, sep) + [sep]
  {
    var ys := xs + [""];
    assert ys[1..] == xs[1..] + [""];
    if |xs| > 1 {
      JoinTrailing(xs[1..], sep);
      assert xs[0] + [sep] + (Join(xs[1..], sep) + [sep]) == (xs[0] + [sep] + Join(xs[1..], sep)) + [sep];
    }
  }

  lemma LineIsJoined(m: Measurement, dep: string)
    ensures Line(m, dep) == Join(SixWords(m) + [dep], ' ')
  {
    hide Join, Show, ShowAll;
    var w := SixWords(m);
    assert w + [dep] == [w[0], w[1], w[2], w[3], w[4], w[5], dep];
  }

  lemma EmptyDepend(depends: seq<nat>)
    requires DependText(depends, "") && forall i | 0 <= i < |depends| :: 0 < depends[i] < U32_LIMIT
    ensures depends == []
  {
    if depends != [] {
      NamesOfNumbers(depends);
    }
  }

  /** A printed line is read back as the measurement it was printed for. */
  lemma ParsePrinted(m: Measurement, dep: string)
    requires Printable(m) && DependText(m.depends, dep)
    ensures FromLine(Line(m, dep)) == Parsed(m)
  {
    hide IsWord, IsName, Join, ShowAll, Split, ParseAll, ParseU32, FromLine, BackgroundOk, DependText;
    var six := SixWords(m);
    var ws := if dep == "" then six else six + [dep];
    SixWordsRead(m, ws);
    LineIsJoined(m, dep);
    ZipBack(m.hosts);
    assert Show(m.id)[0] != '#' by { assert IsDigit(Show(m.id)[0]); }
    if dep == "" {
      EmptyDepend(m.depends);
      ReadJoined(six);
      JoinTrailing(six, ' ');
    } else {
      DependWordRead(ws, m.depends, dep);
      ReadJoined(ws);
    }
  }
}
