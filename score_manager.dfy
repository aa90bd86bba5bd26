/**
 * The high-score table of score_manager.py. The score file is modelled as
 * the sequence of its lines, each line as the text that reading the file
 * line by line yields (with its line terminator). A line is `name,score`.
 */
module Scores {
  import opened Wrappers

  datatype Entry = Entry(name: string, score: int)

  /** Loading raises a ValueError on the first line that is not `name,integer`. */
  datatype LoadError = BadLine(line: string)

  // ---------------------------------------------------------------------
  // Text helpers with Python's meaning
  // ---------------------------------------------------------------------

  /**
   * The characters CircuitPython's `strip` and `int` treat as whitespace:
   * the ASCII space, tab, line feed, vertical tab, form feed and carriage
   * return.
   */
  predicate IsSpace(c: char) {
    c == ' ' || '\t' <= c <= '\r'
  }

  function LStrip(s: string): (r: string)
    ensures r != [] ==> !IsSpace(r[0])
  {
    if s != [] && IsSpace(s[0]) then LStrip(s[1..]) else s
  }

  function RStrip(s: string): (r: string)
    ensures r != [] ==> s != [] && !IsSpace(r[|r| - 1]) && r[0] == s[0]
  {
    if s != [] && IsSpace(s[|s| - 1]) then RStrip(s[..|s| - 1]) else s
  }

  /** `s.strip()`: leading and trailing whitespace removed. */
  function Strip(s: string): (r: string)
    ensures r != [] ==> !IsSpace(r[0]) && !IsSpace(r[|r| - 1])
  {
    RStrip(LStrip(s))
  }

  /** Python's `s.split(",")`: the pieces between commas, at least one. */
  function Split(s: string): (parts: seq<string>)
    ensures |parts| >= 1
    ensures forall k :: 0 <= k < |parts| ==> ',' !in parts[k]
    ensures parts[0] != [] ==> s != [] && parts[0][0] == s[0]
  {
    if s == [] then [""]
    else
      var rest := Split(s[1..]);
      if s[0] == ',' then [""] + rest
      else
        [[s[0]] + rest[0]] + rest[1..]
  }

  /** `lstrip` removes a run of leading whitespace and nothing else. */
  lemma {:induction false} LStripSlice(s: string)
    ensures var r := LStrip(s);
      |r| <= |s| && r == s[|s| - |r|..] && forall k :: 0 <= k < |s| - |r| ==> IsSpace(s[k])
  {
    if s != [] && IsSpace(s[0]) {
      LStripSlice(s[1..]);
      var r := LStrip(s[1..]);
      assert s[1..][|s| - 1 - |r|..] == s[|s| - |r|..];
      forall k | 1 <= k < |s| - |r|
        ensures IsSpace(s[k])
      {
        assert s[k] == s[1..][k - 1];
      }
    }
  }

  /** `rstrip` removes a run of trailing whitespace and nothing else. */
  lemma {:induction false} RStripSlice(s: string)
    ensures var r := RStrip(s);
      |r| <= |s| && r == s[..|r|] && forall k :: |r| <= k < |s| ==> IsSpace(s[k])
    decreases |s|
  {
    if s != [] && IsSpace(s[|s| - 1]) {
      var t := s[..|s| - 1];
      RStripSlice(t);
      var r := RStrip(t);
      assert t[..|r|] == s[..|r|];
      forall k | |r| <= k < |s| - 1
        ensures IsSpace(s[k])
      {
        assert s[k] == t[k];
      }
    }
  }

  /**
   * `strip` keeps exactly the middle of the string: what it drops on either
   * side is whitespace, and what it keeps starts and ends with a
   * non-whitespace character, so no longer middle would do.
   */
  lemma StripSlice(s: string)
    ensures var r := Strip(s);
      var i := |s| - |LStrip(s)|;
      0 <= i && i + |r| <= |s| && r == s[i..i + |r|] &&
      (forall k :: 0 <= k < i ==> IsSpace(s[k])) &&
      (forall k :: i + |r| <= k < |s| ==> IsSpace(s[k])) &&
      (r != [] ==> !IsSpace(r[0]) && !IsSpace(r[|r| - 1]))
  {
    LStripSlice(s);
    var l := LStrip(s);
    RStripSlice(l);
    var r := RStrip(l);
    var i := |s| - |l|;
    assert r == l[..|r|] == s[i..][..|r|] == s[i..i + |r|];
    forall k | i + |r| <= k < |s|
      ensures IsSpace(s[k])
    {
      assert s[k] == l[k - i];
    }
  }

  /** The pieces joined back with commas, as `",".join(parts)`. */
  function JoinComma(parts: seq<string>): string {
    if parts == [] then ""
    else if |parts| == 1 then parts[0]
    else parts[0] + "," + JoinComma(parts[1..])
  }

  /** Splitting at commas loses nothing: joining the pieces with commas gives the string back. */
  lemma {:induction false} SplitJoin(s: string)
    ensures JoinComma(Split(s)) == s
  {
    if s != [] {
      var rest := Split(s[1..]);
      SplitJoin(s[1..]);
      var parts := Split(s);
      if s[0] == ',' {
        assert parts[1..] == rest;
        assert JoinComma(parts) == "" + "," + JoinComma(rest);
        assert s == [s[0]] + s[1..];
      } else if |rest| == 1 {
        assert parts == [[s[0]] + rest[0]];
        assert s == [s[0]] + s[1..];
      } else {
        assert parts[1..] == rest[1..];
        assert JoinComma(rest) == rest[0] + "," + JoinComma(rest[1..]);
        assert JoinComma(parts) == ([s[0]] + rest[0]) + "," + JoinComma(rest[1..]);
        assert s == [s[0]] + s[1..];
      }
    }
  }

  predicate IsDigit(c: char) {
    '0' <= c <= '9'
  }

  predicate AllDigits(s: string) {
    forall k :: 0 <= k < |s| ==> IsDigit(s[k])
  }

  function DigitValue(c: char): int
    requires IsDigit(c)
  {
    c as int - '0' as int
  }

  function DigitsValue(s: string): nat
    requires AllDigits(s)
  {
    if s == [] then 0 else DigitsValue(s[..|s| - 1]) * 10 + DigitValue(s[|s| - 1])
  }

  /** Python's `int(s)` for decimal text: optional surrounding whitespace, an optional sign, then digits. */
  function ParseInt(s: string): Option<int>
  {
    var t := Strip(s);
    var negative := t != [] && t[0] == '-';
    var digits := if t != [] && (t[0] == '-' || t[0] == '+') then t[1..] else t;
    if digits == [] || !AllDigits(digits) then None
    else
      var v: int := DigitsValue(digits);
      Some(if negative then -v else v)
  }

  function Digit(d: int): char
    requires 0 <= d < 10
  {
    ('0' as int + d) as char
  }

  function NatToString(n: nat): (s: string)
    ensures s != [] && AllDigits(s)
  {
    if n < 10 then [Digit(n)] else NatToString(n / 10) + [Digit(n % 10)]
  }

  /** Python's `str(n)` for an integer. */
  function IntToString(n: int): string
  {
    if n < 0 then "-" + NatToString(-n) else NatToString(n)
  }

  lemma {:induction false} NatToStringValue(n: nat)
    ensures DigitsValue(NatToString(n)) == n
  {
    if n >= 10 {
      NatToStringValue(n / 10);
      var s := NatToString(n);
      assert s[..|s| - 1] == NatToString(n / 10);
    }
  }

  /** `int(str(n)) == n`. */
  lemma IntToStringParses(n: int)
    ensures ParseInt(IntToString(n)) == Some(n)
  {
    var s := IntToString(n);
    var digits := NatToString(if n < 0 then -n else n);
    NatToStringValue(if n < 0 then -n else n);
    assert !IsSpace(s[0]) && !IsSpace(s[|s| - 1]);
    assert LStrip(s) == s;
    assert RStrip(s) == s;
    if n < 0 {
      assert s[1..] == digits;
    }
  }

  // ---------------------------------------------------------------------
  // Loading and saving
  // ---------------------------------------------------------------------

  /** One line as `_save_scores` writes it. */
  function FormatLine(e: Entry): string {
    e.name + "," + IntToString(e.score) + "\n"
  }

  function SaveScores(entries: seq<Entry>): (lines: seq<string>)
    ensures |lines| == |entries|
  {
    seq(|entries|, k requires 0 <= k < |entries| => FormatLine(entries[k]))
  }

  /** One line of the file as `_load_scores` reads it: stripped, split at commas, unpacked into two values. */
  function ParseLine(line: string): Result<Entry, LoadError>
  {
    var parts := Split(Strip(line));
    if |parts| != 2 then Err(BadLine(line))
    else match ParseInt(parts[1])
      case None => Err(BadLine(line))
      case Some(v) => Ok(Entry(parts[0], v))
  }

  function LoadScores(lines: seq<string>): (r: Result<seq<Entry>, LoadError>)
    ensures r.Ok? ==> |r.value| == |lines|
  {
    if lines == [] then Ok([])
    else
      var head := ParseLine(lines[0]);
      var rest := LoadScores(lines[1..]);
      if head.Err? then Err(head.error)
      else if rest.Err? then Err(rest.error)
      else Ok([head.value] + rest.value)
  }

  /** A blank (or all-whitespace) line is not skipped: unpacking its one piece fails. */
  lemma {:induction false} BlankLineFails(lines: seq<string>, k: int)
    requires 0 <= k < |lines| && Strip(lines[k]) == ""
    ensures LoadScores(lines).Err?
  {
    if k == 0 {
      assert Split(Strip(lines[0])) == [""];
      assert ParseLine(lines[0]).Err?;
    } else if ParseLine(lines[0]).Ok? {
      BlankLineFails(lines[1..], k - 1);
    }
  }

  /** A name that survives a save and a load: no comma, and no leading whitespace. */
  predicate ValidName(name: string) {
    ',' !in name && (name != [] ==> !IsSpace(name[0]))
  }

  lemma {:induction false} SplitOnce(a: string, b: string)
    requires ',' !in a && ',' !in b
    ensures Split(a + "," + b) == [a, b]
  {
    var s := a + "," + b;
    if a == [] {
      assert s[1..] == b;
      SplitNoComma(b);
    } else {
      SplitOnce(a[1..], b);
      assert s[0] == a[0] && s[1..] == a[1..] + "," + b;
      assert [a[0]] + a[1..] == a;
    }
  }

  lemma {:induction false} SplitNoComma(s: string)
    requires ',' !in s
    ensures Split(s) == [s]
  {
    if s != [] {
      SplitNoComma(s[1..]);
      assert [s[0]] + s[1..] == s;
    }
  }

  lemma ParseFormatLine(e: Entry)
    requires ValidName(e.name)
    ensures ParseLine(FormatLine(e)) == Ok(e)
  {
    var score := IntToString(e.score);
    var body := e.name + "," + score;
    var line := FormatLine(e);
    assert line == body + "\n";
    assert body[|body| - 1] == score[|score| - 1];
    assert !IsSpace(body[0]) by {
      if e.name == [] { assert body[0] == ','; } else { assert body[0] == e.name[0]; }
    }
    assert LStrip(line) == line;
    assert line[..|line| - 1] == body;
    assert RStrip(body) == body;
    assert Strip(line) == body;
    assert ',' !in score;
    SplitOnce(e.name, score);
    IntToStringParses(e.score);
  }

  /**
   * Saving and loading round-trip: every list of entries whose names hold
   * no comma and start with no whitespace reads back unchanged.
   */
  lemma LoadSaveRoundTrip(entries: seq<Entry>)
    requires forall k :: 0 <= k < |entries| ==> ValidName(entries[k].name)
    ensures LoadScores(SaveScores(entries)) == Ok(entries)
  {
    var lines := SaveScores(entries);
    forall k | 0 <= k < |entries|
      ensures ParseLine(lines[k]) == Ok(entries[k])
    {
      ParseFormatLine(entries[k]);
    }
    LoadEach(lines, entries);
  }

  /** Lines that each parse load as the sequence of their entries. */
  lemma {:induction false} LoadEach(lines: seq<string>, entries: seq<Entry>)
    requires |lines| == |entries|
    requires forall k :: 0 <= k < |lines| ==> ParseLine(lines[k]) == Ok(entries[k])
    ensures LoadScores(lines) == Ok(entries)
  {
    if lines != [] {
      LoadEach(lines[1..], entries[1..]);
      LoadCons(lines, entries[0], entries[1..]);
      assert [entries[0]] + entries[1..] == entries;
    }
  }

  /** Loading a first line that parses, ahead of lines that load, gives their entries behind its entry. */
  lemma LoadCons(lines: seq<string>, e: Entry, es: seq<Entry>)
    requires lines != [] && ParseLine(lines[0]) == Ok(e) && LoadScores(lines[1..]) == Ok(es)
    ensures LoadScores(lines) == Ok([e] + es)
  {
  }

  /** Every name that loading produces is one that saving writes back faithfully. */
  lemma {:induction false} LoadedNamesValid(lines: seq<string>)
    requires LoadScores(lines).Ok?
    ensures forall k :: 0 <= k < |lines| ==> ValidName(LoadScores(lines).value[k].name)
  {
    if lines != [] {
      LoadedNamesValid(lines[1..]);
      var t := Strip(lines[0]);
      var parts := Split(t);
      var name := parts[0];
      if name != [] {
        assert name[0] == t[0];
      }
      assert ValidName(LoadScores(lines).value[0].name);
    }
  }

  // ---------------------------------------------------------------------
  // Ranking: `list.sort(key=score, reverse=True)`, modelled as a stable
  // insertion sort by descending score
  // ---------------------------------------------------------------------

  predicate SortedDesc(s: seq<Entry>) {
    forall i, j :: 0 <= i < j < |s| ==> s[i].score >= s[j].score
  }

  /** Inserts x, which came before every element of l, in front of the first element scoring no more than x. */
  function Insert(x: Entry, l: seq<Entry>): (r: seq<Entry>)
    ensures multiset(r) == multiset(l) + multiset{x} && |r| == |l| + 1
  {
    if l == [] then [x]
    else if l[0].score <= x.score then [x] + l
    else
      assert l == [l[0]] + l[1..];
      [l[0]] + Insert(x, l[1..])
  }

  lemma {:induction false} InsertSorted(x: Entry, l: seq<Entry>)
    requires SortedDesc(l)
    ensures SortedDesc(Insert(x, l))
  {
    if l != [] && l[0].score > x.score {
      var tail := l[1..];
      InsertSorted(x, tail);
      var r := Insert(x, tail);
      forall k | 0 <= k < |r|
        ensures r[k].score <= l[0].score
      {
        assert r[k] in multiset(r);
        if r[k] != x {
          assert r[k] in multiset(tail);
          var j :| 0 <= j < |tail| && tail[j] == r[k];
          assert tail[j] == l[j + 1];
        }
      }
    }
  }

  /** The entries by descending score; entries of equal score keep their order. */
  function SortDesc(s: seq<Entry>): (r: seq<Entry>)
    ensures SortedDesc(r) && multiset(r) == multiset(s) && |r| == |s|
  {
    if s == [] then []
    else
      assert s == [s[0]] + s[1..];
      InsertSorted(s[0], SortDesc(s[1..]));
      Insert(s[0], SortDesc(s[1..]))
  }

  /** Inserts n, which came after every element of l, behind every element scoring at least as much. */
  function InsertLast(n: Entry, l: seq<Entry>): seq<Entry>
  {
    if l == [] then [n]
    else if l[0].score < n.score then [n] + l
    else [l[0]] + InsertLast(n, l[1..])
  }

  lemma {:induction false} InsertCommutes(x: Entry, n: Entry, l: seq<Entry>)
    ensures Insert(x, InsertLast(n, l)) == InsertLast(n, Insert(x, l))
  {
    if l == [] {
      assert InsertLast(n, l) == [n];
      assert Insert(x, l) == [x];
    } else if l[0].score < n.score {
      assert InsertLast(n, l) == [n] + l;
      if n.score <= x.score {
        assert Insert(x, l) == [x] + l;
        assert InsertLast(n, [x] + l) == [x] + InsertLast(n, l);
      } else {
        assert ([n] + l)[1..] == l;
        assert Insert(x, [n] + l) == [n] + Insert(x, l);
      }
    } else if l[0].score <= x.score {
      assert InsertLast(n, l) == [l[0]] + InsertLast(n, l[1..]);
      assert Insert(x, l) == [x] + l;
      assert ([x] + l)[1..] == l;
    } else {
      InsertCommutes(x, n, l[1..]);
    }
  }

  /**
   * Sorting a list with one entry appended places that entry behind every
   * entry of equal or higher score: a new score that ties older ones ranks
   * after them.
   */
  lemma {:induction false} SortAppend(s: seq<Entry>, n: Entry)
    ensures SortDesc(s + [n]) == InsertLast(n, SortDesc(s))
  {
    if s != [] {
      assert (s + [n])[1..] == s[1..] + [n];
      SortAppend(s[1..], n);
      InsertCommutes(s[0], n, SortDesc(s[1..]));
    }
  }

  /** The number of entries scoring at least v. */
  function CountAtLeast(s: seq<Entry>, v: int): (c: nat)
    ensures c <= |s|
  {
    if s == [] then 0 else (if s[0].score >= v then 1 else 0) + CountAtLeast(s[1..], v)
  }

  lemma {:induction false} CountInsert(x: Entry, l: seq<Entry>, v: int)
    ensures CountAtLeast(Insert(x, l), v) == CountAtLeast(l, v) + (if x.score >= v then 1 else 0)
  {
    if l != [] && l[0].score > x.score {
      CountInsert(x, l[1..], v);
    }
  }

  lemma {:induction false} CountSort(s: seq<Entry>, v: int)
    ensures CountAtLeast(SortDesc(s), v) == CountAtLeast(s, v)
  {
    if s != [] {
      CountSort(s[1..], v);
      CountInsert(s[0], SortDesc(s[1..]), v);
    }
  }

  lemma {:induction false} InsertLastSplits(n: Entry, l: seq<Entry>)
    requires SortedDesc(l)
    ensures CountAtLeast(l, n.score) <= |l|
    ensures InsertLast(n, l) == l[..CountAtLeast(l, n.score)] + [n] + l[CountAtLeast(l, n.score)..]
  {
    if l != [] {
      InsertLastSplits(n, l[1..]);
      if l[0].score < n.score {
        CountBelow(l, n.score);
      }
    }
  }

  lemma {:induction false} CountBelow(l: seq<Entry>, v: int)
    requires SortedDesc(l) && (l != [] ==> l[0].score < v)
    ensures CountAtLeast(l, v) == 0
  {
    if l != [] {
      CountBelow(l[1..], v);
    }
  }

  function Take(s: seq<Entry>, n: nat): (r: seq<Entry>)
    ensures |r| <= n && |r| <= |s| && r == s[..|r|]
    ensures |s| >= n ==> |r| == n
  {
    if |s| <= n then s else s[..n]
  }

  const TableSize := 3

  /**
   * `add_score`: loads the table, appends the new entry, sorts, keeps the
   * first three, saves them, and reports whether the new entry is among them.
   */
  function AddScore(lines: seq<string>, character: string, score: int): Result<(bool, seq<string>), LoadError>
  {
    match LoadScores(lines)
    case Err(e) => Err(e)
    case Ok(entries) =>
      var all := SortDesc(entries + [Entry(character, score)]);
      var trimmed := Take(all, TableSize);
      Ok((Entry(character, score) in trimmed, SaveScores(trimmed)))
  }

  /**
   * The saved table holds at most three entries in non-increasing score
   * order: the first three of the old entries sorted, with the new entry
   * placed behind every entry scoring at least as much; it reloads as such.
   */
  lemma AddScoreSaves(lines: seq<string>, character: string, score: int)
    requires LoadScores(lines).Ok? && ValidName(character)
    ensures var entries := LoadScores(lines).value;
            var top := Take(InsertLast(Entry(character, score), SortDesc(entries)), TableSize);
            AddScore(lines, character, score).Ok? &&
            AddScore(lines, character, score).value.1 == SaveScores(top) &&
            |top| <= TableSize && SortedDesc(top) &&
            LoadScores(SaveScores(top)) == Ok(top)
  {
    var entries := LoadScores(lines).value;
    var n := Entry(character, score);
    SortAppend(entries, n);
    var top := Take(InsertLast(n, SortDesc(entries)), TableSize);
    assert SortedDesc(top);
    LoadedNamesValid(lines);
    assert forall k :: 0 <= k < |top| ==> top[k] in multiset(SortDesc(entries + [n]));
    forall k | 0 <= k < |top|
      ensures ValidName(top[k].name)
    {
      assert top[k] in multiset(entries + [n]);
      assert top[k] in entries + [n];
    }
    LoadSaveRoundTrip(top);
  }

  /**
   * The new-high-score answer: true iff fewer than three old entries score
   * at least as much as the new one, or an identical entry is already among
   * the first three.
   */
  lemma NewHighScoreIff(lines: seq<string>, character: string, score: int)
    requires LoadScores(lines).Ok?
    ensures var entries := LoadScores(lines).value;
            AddScore(lines, character, score).Ok? &&
            (AddScore(lines, character, score).value.0 <==>
              CountAtLeast(entries, score) < TableSize ||
              Entry(character, score) in Take(SortDesc(entries), TableSize))
  {
    var entries := LoadScores(lines).value;
    var n := Entry(character, score);
    var sorted := SortDesc(entries);
    SortAppend(entries, n);
    InsertLastSplits(n, sorted);
    CountSort(entries, score);
    var k := CountAtLeast(sorted, score);
    var all := InsertLast(n, sorted);
    assert all == sorted[..k] + [n] + sorted[k..];
    assert all[k] == n;
    if k < TableSize {
      assert Take(all, TableSize)[k] == n;
    } else {
      assert Take(all, TableSize) == Take(sorted, TableSize);
    }
  }

  // ---------------------------------------------------------------------
  // What holds for any tie order. CircuitPython's `list.sort` is not
  // stable; these facts hold for every ordering by descending score.
  // ---------------------------------------------------------------------

  /** Counting over a concatenation adds the counts of its parts. */
  lemma {:induction false} CountAppend(x: seq<Entry>, y: seq<Entry>, v: int)
    ensures CountAtLeast(x + y, v) == CountAtLeast(x, v) + CountAtLeast(y, v)
  {
    if x == [] {
      assert x + y == y;
    } else {
      assert (x + y)[1..] == x[1..] + y;
      CountAppend(x[1..], y, v);
    }
  }

  /** Removing the entry at j takes exactly that entry out of the table's multiset. */
  lemma MultisetRemoveAt(b: seq<Entry>, j: int)
    requires 0 <= j < |b|
    ensures multiset(b[..j] + b[j + 1..]) == multiset(b) - multiset{b[j]}
  {
    assert b == b[..j] + [b[j]] + b[j + 1..];
  }

  /** Removing the entry at j lowers the count by one exactly when that entry scores at least v. */
  lemma CountRemoveAt(b: seq<Entry>, j: int, v: int)
    requires 0 <= j < |b|
    ensures CountAtLeast(b, v) == CountAtLeast(b[..j] + b[j + 1..], v) + (if b[j].score >= v then 1 else 0)
  {
    var front, back := b[..j], b[j + 1..];
    var mid := [b[j]] + back;
    assert b == front + mid;
    assert mid[1..] == back;
    CountAppend(front, mid, v);
    CountAppend(front, back, v);
  }

  /** The number of entries scoring at least v depends only on which entries there are. */
  lemma {:induction false} CountPerm(a: seq<Entry>, b: seq<Entry>, v: int)
    requires multiset(a) == multiset(b)
    ensures CountAtLeast(a, v) == CountAtLeast(b, v)
    decreases |a|
  {
    if a == [] {
      assert |b| == |multiset(b)| == 0;
    } else {
      assert a[0] in multiset(b);
      var j :| 0 <= j < |b| && b[j] == a[0];
      MultisetRemoveAt(b, j);
      assert multiset(a[1..]) == multiset(a) - multiset{a[0]} by {
        assert a == [a[0]] + a[1..];
      }
      CountPerm(a[1..], b[..j] + b[j + 1..], v);
      CountRemoveAt(b, j, v);
    }
  }

  /**
   * Two orderings of the same entries by descending score have the same
   * score at every position: they can differ only among entries of equal
   * score.
   */
  lemma SortedPermScores(a: seq<Entry>, b: seq<Entry>)
    requires SortedDesc(a) && SortedDesc(b) && multiset(a) == multiset(b)
    ensures |a| == |b| && forall k :: 0 <= k < |a| ==> a[k].score == b[k].score
  {
    assert |a| == |multiset(a)| == |b|;
    forall k | 0 <= k < |a|
      ensures a[k].score == b[k].score
    {
      CountSplits(a, a[k].score);
      CountSplits(b, a[k].score);
      CountPerm(a, b, a[k].score);
      CountSplits(a, b[k].score);
      CountSplits(b, b[k].score);
      CountPerm(a, b, b[k].score);
    }
  }

  /** In a table in descending order, the entries scoring at least v are exactly the first CountAtLeast(l, v). */
  lemma {:induction false} CountSplits(l: seq<Entry>, v: int)
    requires SortedDesc(l)
    ensures forall i :: 0 <= i < |l| ==> (l[i].score >= v <==> i < CountAtLeast(l, v))
  {
    if l != [] {
      CountSplits(l[1..], v);
      if l[0].score < v {
        CountBelow(l, v);
      }
      forall i | 1 <= i < |l|
        ensures l[i].score >= v <==> i < CountAtLeast(l, v)
      {
        assert l[1..][i - 1] == l[i];
      }
    }
  }

  /**
   * Whatever order a sort gives entries of equal score, `add_score` saves
   * the same scores at the same ranks: the table it writes differs from
   * the modelled one only in which tied entries it keeps, and in their order.
   */
  lemma AnySortSavesScores(lines: seq<string>, character: string, score: int, s: seq<Entry>)
    requires LoadScores(lines).Ok?
    requires SortedDesc(s) && multiset(s) == multiset(LoadScores(lines).value + [Entry(character, score)])
    ensures var top := Take(InsertLast(Entry(character, score), SortDesc(LoadScores(lines).value)), TableSize);
            AddScore(lines, character, score).Ok? &&
            AddScore(lines, character, score).value.1 == SaveScores(top) &&
            |Take(s, TableSize)| == |top| &&
            forall k :: 0 <= k < |top| ==> Take(s, TableSize)[k].score == top[k].score
  {
    var all := LoadScores(lines).value + [Entry(character, score)];
    SortAppend(LoadScores(lines).value, Entry(character, score));
    SortedPermScores(s, SortDesc(all));
  }

  /** In a table in descending order, an entry with at most t entries scoring at least as much is among the first t. */
  lemma InTopIfFew(s: seq<Entry>, n: Entry, t: nat)
    requires SortedDesc(s) && n in s && CountAtLeast(s, n.score) <= t
    ensures n in Take(s, t)
  {
    var j :| 0 <= j < |s| && s[j] == n;
    CountSplits(s, n.score);
    assert Take(s, t)[j] == n;
  }

  /** In a table in descending order, an entry that t entries outscore is not among the first t. */
  lemma OutOfTopIfBeaten(s: seq<Entry>, n: Entry, t: nat)
    requires SortedDesc(s) && CountAtLeast(s, n.score + 1) >= t
    ensures n !in Take(s, t)
  {
    CountSplits(s, n.score + 1);
    assert forall i :: 0 <= i < |Take(s, t)| ==> Take(s, t)[i].score > n.score;
  }

  /**
   * For any tie order s of the old entries and a new entry n, n is on the
   * saved board when the old entries scoring at least as much leave it room
   * among the first three, and off it when three old entries score strictly
   * more.
   */
  lemma NewEntryRank(entries: seq<Entry>, n: Entry, s: seq<Entry>)
    requires SortedDesc(s) && multiset(s) == multiset(entries + [n])
    ensures CountAtLeast(entries, n.score) < TableSize ==> n in Take(s, TableSize)
    ensures CountAtLeast(entries, n.score + 1) >= TableSize ==> n !in Take(s, TableSize)
  {
    var all := entries + [n];
    CountPerm(s, all, n.score);
    CountPerm(s, all, n.score + 1);
    CountAppend(entries, [n], n.score);
    CountAppend(entries, [n], n.score + 1);
    if CountAtLeast(entries, n.score) < TableSize {
      assert n in multiset(s) by {
        assert all[|entries|] == n;
      }
      InTopIfFew(s, n, TableSize);
    }
    if CountAtLeast(entries, n.score + 1) >= TableSize {
      OutOfTopIfBeaten(s, n, TableSize);
    }
  }

  // ---------------------------------------------------------------------
  // Display
  // ---------------------------------------------------------------------

  /** One board line: rank from 1, name and score, separated by single spaces. */
  function RankLine(rank: int, e: Entry): string {
    IntToString(rank) + " " + e.name + " " + IntToString(e.score)
  }

  /**
   * `get_highscore_display`: "-----" alone for an empty table; otherwise one
   * ranked line per entry in descending score order, followed by "-----"
   * when there are fewer than three entries.
   */
  function HighscoreDisplay(lines: seq<string>): (r: Result<seq<string>, LoadError>)
    ensures r.Err? <==> LoadScores(lines).Err?
    ensures r.Ok? && LoadScores(lines).value == [] ==> r.value == ["-----"]
    ensures r.Ok? && LoadScores(lines).value != [] ==>
      var n := |LoadScores(lines).value|;
      |r.value| == n + (if n < TableSize then 1 else 0) &&
      (forall k :: 0 <= k < n ==> r.value[k] == RankLine(k + 1, SortDesc(LoadScores(lines).value)[k])) &&
      (n < TableSize ==> r.value[n] == "-----")
  {
    match LoadScores(lines)
    case Err(e) => Err(e)
    case Ok(entries) => Ok(DisplayLines(entries))
  }

  /** The board lines for a loaded table. */
  function DisplayLines(entries: seq<Entry>): (r: seq<string>)
    ensures var n := |entries|;
      (n == 0 ==> r == ["-----"]) &&
      (n > 0 ==> |r| == n + (if n < TableSize then 1 else 0) &&
                 (forall k :: 0 <= k < n ==> r[k] == RankLine(k + 1, SortDesc(entries)[k])) &&
                 (n < TableSize ==> r[n] == "-----"))
  {
    if |entries| == 0 then ["-----"]
    else
      var sorted := SortDesc(entries);
      RankLines(sorted) + (if |sorted| < TableSize then ["-----"] else [])
  }

  /** One rank line per entry, ranked from 1 in the given order. */
  function RankLines(sorted: seq<Entry>): (r: seq<string>)
    ensures |r| == |sorted| && forall k :: 0 <= k < |sorted| ==> r[k] == RankLine(k + 1, sorted[k])
  {
    seq(|sorted|, k requires 0 <= k < |sorted| => RankLine(k + 1, sorted[k]))
  }

  /** A table already in descending score order is left as it is by the sort. */
  lemma {:induction false} SortKeepsSorted(s: seq<Entry>)
    requires SortedDesc(s)
    ensures SortDesc(s) == s
  {
    if s != [] {
      assert SortedDesc(s[1..]);
      SortKeepsSorted(s[1..]);
      assert s == [s[0]] + s[1..];
    }
  }

  /**
   * After `add_score`, the board lists the saved table in the order it was
   * saved: line k ranks the k-th best entry, and "-----" closes a table of
   * fewer than three.
   */
  lemma BoardAfterAddScore(lines: seq<string>, character: string, score: int)
    requires LoadScores(lines).Ok? && ValidName(character)
    ensures var entries := LoadScores(lines).value;
            var top := Take(InsertLast(Entry(character, score), SortDesc(entries)), TableSize);
            var board := HighscoreDisplay(AddScore(lines, character, score).value.1);
            board.Ok? && |board.value| == |top| + (if |top| < TableSize then 1 else 0) &&
            (forall k :: 0 <= k < |top| ==> board.value[k] == RankLine(k + 1, top[k])) &&
            (|top| < TableSize ==> board.value[|top|] == "-----")
  {
    AddScoreSaves(lines, character, score);
    var entries := LoadScores(lines).value;
    var top := Take(InsertLast(Entry(character, score), SortDesc(entries)), TableSize);
    SortKeepsSorted(top);
  }
}
