/**
 ParseDuration of pkg/mikrotik/parser.go: the duration regular expression under leftmost-first
 matching, and the int64 arithmetic on its captures.
 */
module Duration {
  import opened Text

  // ------------------------------------------------------------- leftmost-first matching

  datatype Regex =
    | Empty
    | Lit(c: char)
    | Digits                       // \d+, greedy
    | Group(slot: nat, body: Regex)
    | Cat(first: Regex, second: Regex)
    | Opt(body: Regex)             // (?:body)?, greedy

  /** A way to match so far: where it ends and what the groups hold. */
  datatype Way = Way(end: nat, caps: map<nat, string>)

  /** All the ways r matches s from i, in the order a backtracking matcher tries them. */
  function Ways(r: Regex, s: string, i: nat, caps: map<nat, string>): (ws: seq<Way>)
    requires i <= |s|
    ensures forall w | w in ws :: i <= w.end <= |s|
    decreases r, 1
  {
    match r
    case Empty => [Way(i, caps)]
    case Lit(c) => if i < |s| && s[i] == c then [Way(i + 1, caps)] else []
    case Digits => DigitWays(s, i, caps)
    case Group(slot, body) => Captured(Ways(body, s, i, caps), slot, s, i)
    case Cat(first, second) => Continue(Ways(first, s, i, caps), second, s, i)
    case Opt(body) => Ways(body, s, i, caps) + [Way(i, caps)]
  }

  /** Greedy \d+: one digit, then more before stopping. */
  function DigitWays(s: string, i: nat, caps: map<nat, string>): (ws: seq<Way>)
    requires i <= |s|
    ensures forall w | w in ws :: i <= w.end <= |s|
    decreases |s| - i
  {
    if i < |s| && IsDigit(s[i]) then DigitWays(s, i + 1, caps) + [Way(i + 1, caps)] else []
  }

  function Captured(ws: seq<Way>, slot: nat, s: string, i: nat): (r: seq<Way>)
    requires i <= |s| && forall w | w in ws :: i <= w.end <= |s|
    ensures forall w | w in r :: i <= w.end <= |s|
  {
    if ws == [] then []
    else [Way(ws[0].end, ws[0].caps[slot := s[i..ws[0].end]])] + Captured(ws[1..], slot, s, i)
  }

  function Continue(ws: seq<Way>, second: Regex, s: string, i: nat): (r: seq<Way>)
    requires i <= |s| && forall w | w in ws :: i <= w.end <= |s|
    ensures forall w | w in r :: i <= w.end <= |s|
    decreases second, 2, |ws|
  {
    if ws == [] then []
    else Ways(second, s, ws[0].end, ws[0].caps) + Continue(ws[1..], second, s, i)
  }

  datatype Found = NoMatch | Match(start: nat, way: Way)

  /** FindStringSubmatch: the first way at the leftmost position that has one. */
  function Find(r: Regex, s: string, start: nat): Found
    requires start <= |s|
    decreases |s| - start
  {
    var ws := Ways(r, s, start, map[]);
    if ws != [] then Match(start, ws[0])
    else if start == |s| then NoMatch
    else Find(r, s, start + 1)
  }

  /** The unit letters w, d, h, m, s in the order of the expression. */
  function Letter(u: nat): (c: char)
    requires u < 5
    ensures !IsDigit(c)
  {
    if u == 0 then 'w' else if u == 1 then 'd' else if u == 2 then 'h' else if u == 3 then 'm' else 's'
  }

  lemma LettersDiffer(u: nat, v: nat)
    requires u < v < 5
    ensures Letter(u) != Letter(v)
  {
  }

  /** (?:(\d+)c)? for the unit in the given position. */
  function UnitRegex(u: nat): Regex
    requires u < 5
  {
    Opt(Cat(Group(u + 1, Digits), Lit(Letter(u))))
  }

  const DURATION_REGEX :=
    Cat(UnitRegex(0), Cat(UnitRegex(1), Cat(UnitRegex(2), Cat(UnitRegex(3), Cat(UnitRegex(4), Empty)))))

  // ------------------------------------------------------------- one-pass scanner

  function RunEnd(s: string, i: nat): (e: nat)
    requires i <= |s|
    ensures i <= e <= |s| && AllDigits(s[i..e])
    ensures e < |s| ==> !IsDigit(s[e])
    decreases |s| - i
  {
    if i < |s| && IsDigit(s[i]) then
      var e := RunEnd(s, i + 1);
      assert s[i..e] == [s[i]] + s[i + 1..e];
      e
    else i
  }

  /** Whether a digit run at i is followed by the letter of unit u. */
  predicate UnitAt(s: string, i: nat, u: nat)
    requires i <= |s| && u < 5
  {
    var e := RunEnd(s, i);
    i < e < |s| && s[e] == Letter(u)
  }

  /** Where the next unit is looked for after unit u has been. */
  function After(s: string, i: nat, u: nat): (j: nat)
    requires i <= |s| && u < 5
    ensures i <= j <= |s|
  {
    if UnitAt(s, i, u) then RunEnd(s, i) + 1 else i
  }

  /** The captures once unit u has been looked for. */
  function Noted(s: string, i: nat, u: nat, caps: map<nat, string>): map<nat, string>
    requires i <= |s| && u < 5
  {
    if UnitAt(s, i, u) then caps[u + 1 := s[i..RunEnd(s, i)]] else caps
  }

  /** One pass over the units from u on: each takes its digit run if its letter follows. */
  function Scan(s: string, i: nat, u: nat, caps: map<nat, string>): (w: Way)
    requires i <= |s| && u <= 5
    ensures i <= w.end <= |s|
    decreases |s| - i + 5 - u
  {
    if u == 5 then Way(i, caps) else Scan(s, After(s, i, u), u + 1, Noted(s, i, u, caps))
  }

  function Tail(u: nat): Regex
    requires u <= 5
    decreases 5 - u
  {
    if u == 5 then Empty else Cat(UnitRegex(u), Tail(u + 1))
  }

  lemma {:induction false} DigitWaysEnds(s: string, i: nat, caps: map<nat, string>)
    requires i <= |s|
    ensures var ws := DigitWays(s, i, caps); var e := RunEnd(s, i);
            && |ws| == e - i
            && forall k | 0 <= k < |ws| :: ws[k] == Way(e - k, caps)
    decreases |s| - i
  {
    if i < |s| && IsDigit(s[i]) {
      DigitWaysEnds(s, i + 1, caps);
    }
  }

  lemma {:induction false} CapturedEnds(ws: seq<Way>, slot: nat, s: string, i: nat)
    requires i <= |s| && forall w | w in ws :: i <= w.end <= |s|
    ensures var r := Captured(ws, slot, s, i);
            && |r| == |ws|
            && forall k | 0 <= k < |ws| :: r[k] == Way(ws[k].end, ws[k].caps[slot := s[i..ws[k].end]])
  {
    if ws != [] {
      CapturedEnds(ws[1..], slot, s, i);
    }
  }

  /** A literal keeps only the ways that end in front of it. */
  lemma {:induction false} ContinueLit(ws: seq<Way>, c: char, s: string, i: nat)
    requires i <= |s| && forall w | w in ws :: i <= w.end <= |s|
    requires forall k | 1 <= k < |ws| :: ws[k].end < |s| && s[ws[k].end] != c
    ensures Continue(ws, Lit(c), s, i) ==
            if ws != [] && ws[0].end < |s| && s[ws[0].end] == c then [Way(ws[0].end + 1, ws[0].caps)] else []
  {
    if ws != [] {
      var rest := ws[1..];
      assert forall k | 0 <= k < |rest| :: rest[k] == ws[k + 1];
      ContinueLit(rest, c, s, i);
    }
  }

  /** The ways to match a unit's digits: all of the run first, then shorter ones, which stop in front of a digit. */
  lemma GroupWays(s: string, i: nat, u: nat, caps: map<nat, string>) returns (ws: seq<Way>)
    requires i <= |s| && u < 5
    ensures ws == Ways(Group(u + 1, Digits), s, i, caps)
    ensures ws == [] <==> RunEnd(s, i) == i
    ensures ws != [] ==> ws[0] == Way(RunEnd(s, i), caps[u + 1 := s[i..RunEnd(s, i)]])
    ensures forall k | 1 <= k < |ws| :: ws[k].end < |s| && IsDigit(s[ws[k].end])
  {
    var e := RunEnd(s, i);
    var digits := DigitWays(s, i, caps);
    DigitWaysEnds(s, i, caps);
    CapturedEnds(digits, u + 1, s, i);
    ws := Captured(digits, u + 1, s, i);
    forall k | 1 <= k < |ws|
      ensures ws[k].end < |s| && IsDigit(s[ws[k].end])
    {
      assert s[i..e][e - k - i] == s[e - k];
    }
  }

  /** Digits followed by a unit letter match in at most one way: backtracking into the digits never helps. */
  lemma UnitMatchesOnce(s: string, i: nat, u: nat, caps: map<nat, string>)
    requires i <= |s| && u < 5
    ensures Ways(UnitRegex(u).body, s, i, caps) ==
            if UnitAt(s, i, u) then [Way(After(s, i, u), Noted(s, i, u, caps))] else []
  {
    var ws := GroupWays(s, i, u, caps);
    var c := Letter(u);
    assert forall k | 1 <= k < |ws| :: ws[k].end < |s| && s[ws[k].end] != c;
    ContinueLit(ws, c, s, i);
  }

  lemma ContinueFirst(ws: seq<Way>, r: Regex, s: string, i: nat)
    requires i <= |s| && forall w | w in ws :: i <= w.end <= |s|
    requires ws != [] && Ways(r, s, ws[0].end, ws[0].caps) != []
    ensures Continue(ws, r, s, i) != []
    ensures Continue(ws, r, s, i)[0] == Ways(r, s, ws[0].end, ws[0].caps)[0]
  {
  }

  /** An optional unit is preferred present, and can always be skipped. */
  lemma UnitFirst(s: string, i: nat, u: nat, caps: map<nat, string>) returns (ws: seq<Way>)
    requires i <= |s| && u < 5
    ensures ws == Ways(UnitRegex(u), s, i, caps) && ws != []
    ensures ws[0] == Way(After(s, i, u), Noted(s, i, u, caps))
  {
    UnitMatchesOnce(s, i, u, caps);
    ws := Ways(UnitRegex(u), s, i, caps);
    assert ws == Ways(UnitRegex(u).body, s, i, caps) + [Way(i, caps)];
  }

  /** The preferred way is the scanner's. */
  lemma {:induction false} FirstWayIsScan(s: string, i: nat, u: nat, caps: map<nat, string>)
    requires i <= |s| && u <= 5
    ensures Ways(Tail(u), s, i, caps) != []
    ensures Ways(Tail(u), s, i, caps)[0] == Scan(s, i, u, caps)
    decreases 5 - u
  {
    if u < 5 {
      var ws := UnitFirst(s, i, u, caps);
      FirstWayIsScan(s, ws[0].end, u + 1, ws[0].caps);
      ContinueFirst(ws, Tail(u + 1), s, i);
      assert Ways(Tail(u), s, i, caps) == Continue(ws, Tail(u + 1), s, i);
    }
  }

  /** The regular expression always matches at the start, with the captures of one left-to-right pass. */
  lemma RegexIsScanner(s: string)
    ensures Find(DURATION_REGEX, s, 0) == Match(0, Scan(s, 0, 0, map[]))
  {
    FirstWayIsScan(s, 0, 0, map[]);
    assert Tail(0) == DURATION_REGEX by {
      assert Tail(5) == Empty;
      assert Tail(4) == Cat(UnitRegex(4), Empty);
      assert Tail(3) == Cat(UnitRegex(3), Tail(4));
      assert Tail(2) == Cat(UnitRegex(2), Tail(3));
    }
  }
}
