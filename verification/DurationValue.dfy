/**
 What ParseDuration of pkg/mikrotik/parser.go means: the longest run of number-and-unit groups in
 week-to-second order at the start of the trimmed text, added up in wrapping int64 nanoseconds.
 */
module DurationValue {
  import opened Wrappers
  import opened Text
  import opened Int64
  import opened Duration

  // ------------------------------------------------------------- groups

  datatype Piece = Piece(digits: string, unit: nat)

  /** Non-empty digit runs whose units come strictly in the order w, d, h, m, s, from unit u on. */
  predicate Ordered(gs: seq<Piece>, u: nat) {
    gs == [] ||
    (gs[0].digits != "" && AllDigits(gs[0].digits) && u <= gs[0].unit < 5 && Ordered(gs[1..], gs[0].unit + 1))
  }

  function Print(gs: seq<Piece>): string
    requires forall g | g in gs :: g.unit < 5
  {
    if gs == [] then "" else gs[0].digits + [Letter(gs[0].unit)] + Print(gs[1..])
  }

  lemma {:induction false} OrderedUnits(gs: seq<Piece>, u: nat)
    requires Ordered(gs, u)
    ensures forall g | g in gs :: u <= g.unit < 5 && AllDigits(g.digits)
  {
    if gs != [] {
      OrderedUnits(gs[1..], gs[0].unit + 1);
    }
  }

  /** The group the scanner takes for unit u at i, if any. */
  function Taking(s: string, i: nat, u: nat): seq<Piece>
    requires i <= |s| && u < 5
  {
    if UnitAt(s, i, u) then [Piece(s[i..RunEnd(s, i)], u)] else []
  }

  /** The groups the scanner takes. */
  function Taken(s: string, i: nat, u: nat): seq<Piece>
    requires i <= |s| && u <= 5
    decreases |s| - i + 5 - u
  {
    if u == 5 then [] else Taking(s, i, u) + Taken(s, After(s, i, u), u + 1)
  }

  /** Where the scanner stops. */
  function End(s: string, i: nat, u: nat): (j: nat)
    requires i <= |s| && u <= 5
    ensures i <= j <= |s|
    decreases |s| - i + 5 - u
  {
    if u == 5 then i else End(s, After(s, i, u), u + 1)
  }

  function CapturesOf(gs: seq<Piece>): map<nat, string> {
    if gs == [] then map[] else map[gs[0].unit + 1 := gs[0].digits] + CapturesOf(gs[1..])
  }

  /** One more unit's piece in front. */
  lemma FrontOrdered(s: string, i: nat, u: nat, gs: seq<Piece>)
    requires i <= |s| && u < 5 && Ordered(gs, u + 1) && forall g | g in gs :: g.unit < 5
    ensures Ordered(Taking(s, i, u) + gs, u) && forall g | g in Taking(s, i, u) + gs :: g.unit < 5
  {
    if UnitAt(s, i, u) {
      assert (Taking(s, i, u) + gs)[1..] == gs;
    } else {
      assert Taking(s, i, u) + gs == gs;
      OrderedFromLater(gs, u);
    }
  }

  lemma FrontPrint(s: string, i: nat, u: nat, gs: seq<Piece>)
    requires i <= |s| && u < 5 && forall g | g in gs :: g.unit < 5
    requires forall g | g in Taking(s, i, u) + gs :: g.unit < 5
    ensures Print(Taking(s, i, u) + gs) == s[i..After(s, i, u)] + Print(gs)
  {
    if UnitAt(s, i, u) {
      var e := RunEnd(s, i);
      assert (Taking(s, i, u) + gs)[1..] == gs;
      SliceJoin(s, i, e, e + 1);
    } else {
      assert Taking(s, i, u) + gs == gs;
    }
  }

  lemma FrontCaptures(s: string, i: nat, u: nat, gs: seq<Piece>, caps: map<nat, string>)
    requires i <= |s| && u < 5
    ensures caps + CapturesOf(Taking(s, i, u) + gs) == Noted(s, i, u, caps) + CapturesOf(gs)
  {
    if UnitAt(s, i, u) {
      assert (Taking(s, i, u) + gs)[1..] == gs;
    } else {
      assert Taking(s, i, u) + gs == gs;
    }
  }

  lemma {:induction false} ScanTakes(s: string, i: nat, u: nat, caps: map<nat, string>)
    requires i <= |s| && u <= 5
    ensures Ordered(Taken(s, i, u), u) && forall g | g in Taken(s, i, u) :: g.unit < 5
    ensures Scan(s, i, u, caps) == Way(End(s, i, u), caps + CapturesOf(Taken(s, i, u)))
    decreases 5 - u
  {
    if u == 5 {
      assert caps + map[] == caps;
    } else {
      ScanTakes(s, After(s, i, u), u + 1, Noted(s, i, u, caps));
      FrontOrdered(s, i, u, Taken(s, After(s, i, u), u + 1));
      FrontCaptures(s, i, u, Taken(s, After(s, i, u), u + 1), caps);
    }
  }

  lemma {:induction false} TakenPrints(s: string, i: nat, u: nat)
    requires i <= |s| && u <= 5
    requires Ordered(Taken(s, i, u), u) && forall g | g in Taken(s, i, u) :: g.unit < 5
    ensures Print(Taken(s, i, u)) == s[i..End(s, i, u)]
    decreases 5 - u
  {
    if u < 5 {
      var j := After(s, i, u);
      ScanTakes(s, j, u + 1, map[]);
      TakenPrints(s, j, u + 1);
      FrontPrint(s, i, u, Taken(s, j, u + 1));
      SliceJoin(s, i, j, End(s, j, u + 1));
    }
  }

  lemma SliceJoin(s: string, i: nat, j: nat, k: nat)
    requires i <= j <= k <= |s|
    ensures s[i..k] == s[i..j] + s[j..k]
  {
  }

  lemma OrderedFromLater(gs: seq<Piece>, u: nat)
    requires Ordered(gs, u + 1)
    ensures Ordered(gs, u)
  {
  }

  lemma {:induction false} RunEndOf(s: string, i: nat, e: nat)
    requires i <= e < |s| && AllDigits(s[i..e]) && !IsDigit(s[e])
    ensures RunEnd(s, i) == e
    decreases e - i
  {
    if i < e {
      assert s[i..e][0] == s[i] && s[i..e][1..] == s[i + 1..e];
      RunEndOf(s, i + 1, e);
    }
  }

  /** A printed first piece is a digit run with its letter behind it. */
  lemma FirstPieceRun(s: string, i: nat, gs: seq<Piece>, u: nat)
    requires i <= |s| && u < 5 && gs != [] && Ordered(gs, u) && (forall g | g in gs :: g.unit < 5)
    requires Print(gs) <= s[i..]
    ensures var e := i + |gs[0].digits|;
            && e < |s| && Print(gs[1..]) <= s[e + 1..]
            && (gs[0].unit == u ==> After(s, i, u) == e + 1 && Taking(s, i, u) + gs[1..] == gs)
            && (gs[0].unit != u ==> After(s, i, u) == i && Taking(s, i, u) == [] && Ordered(gs, u + 1))
            && |Print(gs)| == |gs[0].digits| + 1 + |Print(gs[1..])|
  {
    var n := |gs[0].digits|;
    var e := i + n;
    assert s[i..e] == Print(gs)[..n] == gs[0].digits;
    assert s[e] == s[i..][n] == Print(gs)[n] == Letter(gs[0].unit);
    RunEndOf(s, i, e);
    assert Print(gs[1..]) == Print(gs)[n + 1..] <= s[i..][n + 1..] == s[e + 1..];
    if gs[0].unit == u {
      assert gs == [Piece(s[i..e], u)] + gs[1..];
    } else {
      LettersDiffer(u, gs[0].unit);
    }
  }

  /** No ordered run of groups at i reaches further than the scanner, and one that reaches the end is the scanner's. */
  lemma {:induction false} TakenIsLongest(s: string, i: nat, u: nat, gs: seq<Piece>)
    requires i <= |s| && u <= 5 && Ordered(gs, u)
    requires forall g | g in gs :: g.unit < 5
    requires Print(gs) <= s[i..]
    ensures i + |Print(gs)| <= End(s, i, u)
    ensures i + |Print(gs)| == |s| ==> Taken(s, i, u) == gs
    decreases 5 - u
  {
    if gs == [] {
      if i == |s| {
        NothingLeft(s, u);
      }
    } else if u < 5 {
      FirstPieceRun(s, i, gs, u);
      if gs[0].unit == u {
        TakenIsLongest(s, After(s, i, u), u + 1, gs[1..]);
      } else {
        TakenIsLongest(s, i, u + 1, gs);
      }
    }
  }

  lemma {:induction false} NothingLeft(s: string, u: nat)
    requires u <= 5
    ensures Taken(s, |s|, u) == [] && End(s, |s|, u) == |s|
    decreases 5 - u
  {
    if u < 5 {
      NothingLeft(s, u + 1);
    }
  }

  /**
   Leftmost-first matching of the duration expression takes exactly the longest ordered run of groups at
   the start of the text, and captures their digits.
   */
  lemma MatchIsLongestOrderedPrefix(s: string) returns (gs: seq<Piece>, way: Way)
    ensures Find(DURATION_REGEX, s, 0) == Match(0, way)
    ensures Ordered(gs, 0) && (forall g | g in gs :: g.unit < 5)
    ensures gs == Taken(s, 0, 0) && way.caps == CapturesOf(gs)
    ensures way.end <= |s| && Print(gs) == s[..way.end]
    ensures forall gs': seq<Piece> | Ordered(gs', 0) && (forall g | g in gs' :: g.unit < 5) && Print(gs') <= s
              :: |Print(gs')| <= way.end
  {
    RegexIsScanner(s);
    gs, way := ScannedPieces(s);
    NoneLonger(s);
  }

  lemma ScannedPieces(s: string) returns (gs: seq<Piece>, way: Way)
    ensures way == Scan(s, 0, 0, map[]) && way.end == End(s, 0, 0)
    ensures gs == Taken(s, 0, 0) && Ordered(gs, 0) && (forall g | g in gs :: g.unit < 5)
    ensures Print(gs) == s[..way.end] && way.caps == CapturesOf(gs)
  {
    way, gs := Scan(s, 0, 0, map[]), Taken(s, 0, 0);
    ScanTakes(s, 0, 0, map[]);
    TakenPrints(s, 0, 0);
    assert map[] + CapturesOf(gs) == CapturesOf(gs);
  }

  lemma NoneLonger(s: string)
    ensures forall gs': seq<Piece> | Ordered(gs', 0) && (forall g | g in gs' :: g.unit < 5) && Print(gs') <= s
              :: |Print(gs')| <= End(s, 0, 0)
  {
    assert s[0..] == s;
    forall gs': seq<Piece> | Ordered(gs', 0) && (forall g | g in gs' :: g.unit < 5) && Print(gs') <= s
      ensures |Print(gs')| <= End(s, 0, 0)
    {
      TakenIsLongest(s, 0, 0, gs');
    }
  }

  // ------------------------------------------------------------- nanoseconds

  const SECOND := 1_000_000_000
  const MINUTE := 60 * SECOND
  const HOUR := 60 * MINUTE

  function UnitNanos(u: nat): nat
    requires u < 5
  {
    [7 * 24 * HOUR, 24 * HOUR, HOUR, MINUTE, SECOND][u]
  }

  /** strconv.Atoi on a digit run with its error ignored: too large a number becomes the largest int. */
  function Atoi(digits: string): nat
    requires AllDigits(digits)
  {
    if Value(digits) <= MAX then Value(digits) else MAX
  }

  /** The duration the groups denote. */
  function Total(gs: seq<Piece>): nat
    requires forall g | g in gs :: g.unit < 5 && AllDigits(g.digits)
  {
    if gs == [] then 0 else Value(gs[0].digits) * UnitNanos(gs[0].unit) + Total(gs[1..])
  }

  /** The same with each number as Atoi delivers it. */
  function ClampedTotal(gs: seq<Piece>): nat
    requires forall g | g in gs :: g.unit < 5 && AllDigits(g.digits)
  {
    if gs == [] then 0 else Atoi(gs[0].digits) * UnitNanos(gs[0].unit) + ClampedTotal(gs[1..])
  }

  lemma {:induction false} ClampingMattersOnlyBeyondInt64(gs: seq<Piece>)
    requires forall g | g in gs :: g.unit < 5 && AllDigits(g.digits)
    ensures Total(gs) <= MAX ==> ClampedTotal(gs) == Total(gs)
  {
    if gs != [] {
      ClampingMattersOnlyBeyondInt64(gs[1..]);
      ProductAtLeast(Value(gs[0].digits), UnitNanos(gs[0].unit));
    }
  }

  lemma ProductAtLeast(v: nat, k: nat)
    requires 1 <= k
    ensures v <= v * k
  {
  }

  /** The factors ParseDuration multiplies by, one after the other, for each unit. */
  function Factors(u: nat): seq<nat>
    requires u < 5
  {
    [[7, 24, HOUR], [24, HOUR], [HOUR], [MINUTE], [SECOND]][u]
  }

  /** time.Duration(v) multiplied step by step, each product wrapping. */
  function WrappedProduct(v: int, factors: seq<nat>): int
    decreases factors
  {
    if factors == [] then v else WrappedProduct(Wrap(v * factors[0]), factors[1..])
  }

  predicate Positive(factors: seq<nat>) {
    forall k | 0 <= k < |factors| :: 1 <= factors[k]
  }

  function Product(factors: seq<nat>): nat {
    if factors == [] then 1 else factors[0] * Product(factors[1..])
  }

  lemma FactorsMultiply(u: nat)
    requires u < 5
    ensures Product(Factors(u)) == UnitNanos(u)
  {
    assert Product([HOUR]) == HOUR * Product([]);
    assert Product([24, HOUR]) == 24 * Product([24, HOUR][1..]) && [24, HOUR][1..] == [HOUR];
    assert Product([7, 24, HOUR]) == 7 * Product([7, 24, HOUR][1..]) && [7, 24, HOUR][1..] == [24, HOUR];
    assert Product([MINUTE]) == MINUTE * Product([]);
    assert Product([SECOND]) == SECOND * Product([]);
  }

  lemma WrapShift(x: int, q: int)
    ensures Wrap(x + q * TWO_64) == Wrap(x)
  {
    assert (x + q * TWO_64) % TWO_64 == x % TWO_64;
  }

  lemma WrapOfWrappedTimes(x: int, k: int)
    ensures Wrap(Wrap(x) * k) == Wrap(x * k)
  {
    var q := (Wrap(x) - x) / TWO_64;
    assert Wrap(x) == x + q * TWO_64;
    assert Wrap(x) * k == x * k + (q * k) * TWO_64;
    WrapShift(x * k, q * k);
  }

  lemma WrapOfWrappedPlus(x: int, y: int)
    ensures Wrap(Wrap(x) + Wrap(y)) == Wrap(x + y)
  {
    var q, p := (Wrap(x) - x) / TWO_64, (Wrap(y) - y) / TWO_64;
    assert Wrap(x) + Wrap(y) == (x + y) + (q + p) * TWO_64;
    WrapShift(x + y, q + p);
  }

  lemma {:induction false} WrappedProductIsWrap(v: int, factors: seq<nat>)
    requires factors != []
    ensures WrappedProduct(v, factors) == Wrap(v * Product(factors))
    decreases factors
  {
    var f, rest := factors[0], factors[1..];
    if rest == [] {
      assert Product(rest) == 1;
    } else {
      calc {
        WrappedProduct(v, factors);
        WrappedProduct(Wrap(v * f), rest);
        { WrappedProductIsWrap(Wrap(v * f), rest); }
        Wrap(Wrap(v * f) * Product(rest));
        { WrapOfWrappedTimes(v * f, Product(rest)); }
        Wrap(v * f * Product(rest));
        { Associate(v, f, Product(rest)); }
        Wrap(v * Product(factors));
      }
    }
  }

  lemma Associate(x: int, y: int, z: int)
    ensures x * y * z == x * (y * z)
  {
  }

  /** No product on the way to a group's nanoseconds exceeds them, so none overflows when they fit. */
  lemma {:induction false} NoProductOverflows(v: nat, factors: seq<nat>, k: nat)
    requires k <= |factors| && Positive(factors)
    requires v * Product(factors) <= MAX
    ensures v * Product(factors[..k]) <= MAX
    decreases factors
  {
    if k == 0 {
      ProductPositive(factors);
      ProductAtLeast(v, Product(factors));
    } else {
      var f, rest := factors[0], factors[1..];
      assert factors[..k][1..] == rest[..k - 1];
      Associate(v, f, Product(rest));
      NoProductOverflows(v * f, rest, k - 1);
      Associate(v, f, Product(rest[..k - 1]));
    }
  }

  lemma {:induction false} ProductPositive(factors: seq<nat>)
    requires Positive(factors)
    ensures Product(factors) >= 1
  {
    if factors != [] {
      ProductPositive(factors[1..]);
      ProductAtLeast(Product(factors[1..]), factors[0]);
    }
  }

  // ------------------------------------------------------------- ParseDuration

  /** unicode.IsSpace. */
  predicate IsSpace(c: char) {
    var n := c as int;
    || 9 <= n <= 13 || n == 0x20 || n == 0x85 || n == 0xA0 || n == 0x1680
    || 0x2000 <= n <= 0x200A || n == 0x2028 || n == 0x2029 || n == 0x202F || n == 0x205F || n == 0x3000
  }

  function TrimSpace(s: string): string {
    if s == "" then ""
    else if IsSpace(s[0]) then TrimSpace(s[1..])
    else if IsSpace(s[|s| - 1]) then TrimSpace(s[..|s| - 1])
    else s
  }

  /** matches[slot], with "" for a group that took no part. */
  function Capture(caps: map<nat, string>, slot: nat): string {
    if slot in caps then caps[slot] else ""
  }

  predicate DigitCaptures(caps: map<nat, string>) {
    forall k | k in caps :: AllDigits(caps[k])
  }

  /** What the captures from unit u on add up to. */
  function CaptureTotal(caps: map<nat, string>, u: nat): nat
    requires u <= 5 && DigitCaptures(caps)
    decreases |caps| + 5 - u
  {
    if u == 5 then 0
    else (if Capture(caps, u + 1) != "" then Atoi(caps[u + 1]) * UnitNanos(u) else 0) + CaptureTotal(caps, u + 1)
  }

  lemma {:induction false} CapturesInOrder(gs: seq<Piece>, u: nat)
    requires Ordered(gs, u) && u <= 5
    ensures DigitCaptures(CapturesOf(gs)) && forall k | k in CapturesOf(gs) :: u < k <= 5
  {
    if gs != [] {
      CapturesInOrder(gs[1..], gs[0].unit + 1);
    }
  }

  lemma {:induction false} CaptureTotalAgrees(a: map<nat, string>, b: map<nat, string>, u: nat)
    requires u <= 5 && DigitCaptures(a) && DigitCaptures(b)
    requires forall k | u < k <= 5 :: Capture(a, k) == Capture(b, k)
    ensures CaptureTotal(a, u) == CaptureTotal(b, u)
    decreases 5 - u
  {
    if u < 5 {
      CaptureTotalAgrees(a, b, u + 1);
    }
  }

  lemma {:induction false} CaptureTotalIsClampedTotal(gs: seq<Piece>, u: nat)
    requires Ordered(gs, u) && u <= 5
    requires forall g | g in gs :: g.unit < 5 && AllDigits(g.digits)
    ensures DigitCaptures(CapturesOf(gs))
    ensures CaptureTotal(CapturesOf(gs), u) == ClampedTotal(gs)
    decreases 5 - u
  {
    CapturesInOrder(gs, u);
    var caps := CapturesOf(gs);
    if u == 5 {
      assert gs == [];
    } else if gs != [] && gs[0].unit == u {
      var rest := CapturesOf(gs[1..]);
      CaptureTotalIsClampedTotal(gs[1..], u + 1);
      CapturesInOrder(gs[1..], u + 1);
      assert caps[u + 1] == gs[0].digits;
      CaptureTotalAgrees(caps, rest, u + 1);
    } else {
      assert Ordered(gs, u + 1);
      CapturesInOrder(gs, u + 1);
      CaptureTotalIsClampedTotal(gs, u + 1);
    }
  }

  /** One matched group added to what the ones before it came to. */
  function Accumulated(d: int, digits: string, u: nat): (d': int)
    requires u < 5 && AllDigits(digits)
    ensures d' == Wrap(d + Wrap(Atoi(digits) * UnitNanos(u)))
  {
    WrappedProductIsWrap(Atoi(digits), Factors(u));
    FactorsMultiply(u);
    Wrap(d + WrappedProduct(Atoi(digits), Factors(u)))
  }

  /** The groups ParseDuration takes from a text. */
  function GroupsOf(s: string): (gs: seq<Piece>)
    ensures Ordered(gs, 0) && forall g | g in gs :: g.unit < 5 && AllDigits(g.digits)
  {
    ScanTakes(TrimSpace(s), 0, 0, map[]);
    OrderedUnits(Taken(TrimSpace(s), 0, 0), 0);
    Taken(TrimSpace(s), 0, 0)
  }

  /** The int64 nanoseconds a text stands for. */
  function Nanos(text: string): int {
    Wrap(ClampedTotal(GroupsOf(text)))
  }

  /** The groups' own duration exactly when that fits int64. */
  lemma NanosExactIffFits(text: string)
    ensures Nanos(text) == Total(GroupsOf(text)) <==> Total(GroupsOf(text)) <= MAX
  {
    ClampingMattersOnlyBeyondInt64(GroupsOf(text));
  }

  method ParseDuration(text: string) returns (d: int)
    ensures d == Nanos(text)
    ensures d == Total(GroupsOf(text)) <==> Total(GroupsOf(text)) <= MAX
  {
    ghost var gs := GroupsOf(text);
    NanosExactIffFits(text);
    var s := TrimSpace(text);
    ghost var taken, way := MatchIsLongestOrderedPrefix(s);
    assert taken == gs;
    CaptureTotalIsClampedTotal(gs, 0);
    if s == "" {
      NothingLeft(s, 0);
      return 0;
    }
    var found := Find(DURATION_REGEX, s, 0);
    if found.NoMatch? {
      assert false;
      return 0;
    }
    d := AddUnits(found.way.caps);
  }

  /** d holds the units before u. */
  ghost predicate Added(d: int, matches: map<nat, string>, u: nat)
    requires u <= 5 && DigitCaptures(matches)
  {
    d == Wrap(CaptureTotal(matches, 0) - CaptureTotal(matches, u))
  }

  lemma AddedAll(d: int, matches: map<nat, string>, u: nat)
    requires u <= 5 && DigitCaptures(matches) && Added(d, matches, u)
    ensures u == 5 ==> d == Wrap(CaptureTotal(matches, 0))
  {
  }

  /** The five accumulations into d. */
  method AddUnits(matches: map<nat, string>) returns (d: int)
    requires DigitCaptures(matches)
    ensures d == Wrap(CaptureTotal(matches, 0))
  {
    d := 0;
    d := AddUnit(d, matches, 0);
    d := AddUnit(d, matches, 1);
    d := AddUnit(d, matches, 2);
    d := AddUnit(d, matches, 3);
    d := AddUnit(d, matches, 4);
    AddedAll(d, matches, 5);
  }

  /** A unit that took part adds its number of nanoseconds; one that did not adds nothing. */
  method AddUnit(d: int, matches: map<nat, string>, u: nat) returns (d': int)
    requires u < 5 && DigitCaptures(matches) && Added(d, matches, u)
    ensures Added(d', matches, u + 1)
  {
    if Capture(matches, u + 1) == "" {
      return d;
    }
    d' := Accumulated(d, matches[u + 1], u);
    WrapOfWrappedPlus(CaptureTotal(matches, 0) - CaptureTotal(matches, u), Atoi(matches[u + 1]) * UnitNanos(u));
  }

  // ------------------------------------------------------------- round trip

  lemma {:induction false} PrintEnds(gs: seq<Piece>, u: nat)
    requires Ordered(gs, u) && gs != [] && forall g | g in gs :: g.unit < 5
    ensures Print(gs) != "" && IsDigit(Print(gs)[0]) && !IsSpace(Print(gs)[|Print(gs)| - 1])
  {
    if |gs| > 1 {
      PrintEnds(gs[1..], gs[0].unit + 1);
    }
  }

  /** Printed groups are read back as themselves. */
  lemma GroupsOfPrint(gs: seq<Piece>)
    requires Ordered(gs, 0) && forall g | g in gs :: g.unit < 5
    ensures GroupsOf(Print(gs)) == gs
  {
    var s := Print(gs);
    if gs == [] {
      NothingLeft("", 0);
    } else {
      PrintEnds(gs, 0);
      assert TrimSpace(s) == s && s[0..] == s;
      TakenIsLongest(s, 0, 0, gs);
    }
  }

  function PieceOf(n: Option<nat>, u: nat): seq<Piece> {
    match n case None => [] case Some(v) => [Piece(Decimal(v), u)]
  }

  /** The given parts from unit u on. */
  function Pieces(parts: seq<Option<nat>>, u: nat): (gs: seq<Piece>)
    requires |parts| == 5 && u <= 5
    ensures forall g | g in gs :: u <= g.unit < 5
    decreases |parts| - u
  {
    if u == 5 then [] else PieceOf(parts[u], u) + Pieces(parts, u + 1)
  }

  function Amount(n: Option<nat>): nat {
    match n case None => 0 case Some(v) => v
  }

  function PartsTotal(parts: seq<Option<nat>>, u: nat): nat
    requires |parts| == 5 && u <= 5
    decreases |parts| - u
  {
    if u == 5 then 0 else Amount(parts[u]) * UnitNanos(u) + PartsTotal(parts, u + 1)
  }

  function NonZero(n: nat): Option<nat> {
    if n == 0 then None else Some(n)
  }

  /** Weeks, days, hours, minutes and seconds, without zero parts, but "0s" for nothing. */
  function PartsOf(n: nat): (parts: seq<Option<nat>>)
    ensures |parts| == 5
  {
    [NonZero(n / 604800), NonZero(n / 86400 % 7), NonZero(n / 3600 % 24), NonZero(n / 60 % 60),
     if n == 0 then Some(0) else NonZero(n % 60)]
  }

  /** RouterOS's own way to write n seconds. */
  function Canonical(n: nat): (gs: seq<Piece>)
    ensures forall g | g in gs :: g.unit < 5
  {
    Pieces(PartsOf(n), 0)
  }

  lemma PieceBefore(n: Option<nat>, u: nat, gs: seq<Piece>)
    requires u < 5 && Ordered(gs, u + 1) && forall g | g in gs :: g.unit < 5 && AllDigits(g.digits)
    ensures Ordered(PieceOf(n, u) + gs, u)
    ensures forall g | g in PieceOf(n, u) + gs :: g.unit < 5 && AllDigits(g.digits)
    ensures Total(PieceOf(n, u) + gs) == Amount(n) * UnitNanos(u) + Total(gs)
    ensures Print(PieceOf(n, u) + gs) == Part(n, [Letter(u)]) + Print(gs)
  {
    if n.None? {
      assert PieceOf(n, u) + gs == gs;
      OrderedFromLater(gs, u);
    } else {
      ValueOfDecimal(n.value);
      assert (PieceOf(n, u) + gs)[1..] == gs;
    }
  }

  lemma SecondsSplit(n: nat)
    ensures n == n / 604800 * 604800 + n / 86400 % 7 * 86400 + n / 3600 % 24 * 3600 + n / 60 % 60 * 60 + n % 60
  {
    assert n / 60 / 60 == n / 3600 && n / 3600 / 24 == n / 86400 && n / 86400 / 7 == n / 604800;
  }

  lemma {:induction false} PiecesTotal(parts: seq<Option<nat>>, u: nat)
    requires |parts| == 5 && u <= 5
    ensures Ordered(Pieces(parts, u), u)
    ensures forall g | g in Pieces(parts, u) :: g.unit < 5 && AllDigits(g.digits)
    ensures Total(Pieces(parts, u)) == PartsTotal(parts, u)
    decreases 5 - u
  {
    if u < 5 {
      PiecesTotal(parts, u + 1);
      PieceBefore(parts[u], u, Pieces(parts, u + 1));
    }
  }

  lemma PartsTotalIs(parts: seq<Option<nat>>)
    requires |parts| == 5
    ensures PartsTotal(parts, 0) ==
            (Amount(parts[0]) * 604800 + Amount(parts[1]) * 86400 + Amount(parts[2]) * 3600 + Amount(parts[3]) * 60
             + Amount(parts[4])) * 1_000_000_000
  {
    assert PartsTotal(parts, 4) == Amount(parts[4]) * SECOND + PartsTotal(parts, 5);
    assert PartsTotal(parts, 3) == Amount(parts[3]) * MINUTE + PartsTotal(parts, 4);
    assert PartsTotal(parts, 2) == Amount(parts[2]) * HOUR + PartsTotal(parts, 3);
    assert PartsTotal(parts, 1) == Amount(parts[1]) * (24 * HOUR) + PartsTotal(parts, 2);
    assert PartsTotal(parts, 0) == Amount(parts[0]) * (7 * 24 * HOUR) + PartsTotal(parts, 1);
  }

  // ------------------------------------------------------------- in letters and seconds

  /** A number and its unit, or nothing. */
  function Part(n: Option<nat>, letter: string): string {
    match n case None => "" case Some(v) => Decimal(v) + letter
  }

  lemma PiecesPrint(parts: seq<Option<nat>>)
    requires |parts| == 5
    ensures Print(Pieces(parts, 0)) ==
            Part(parts[0], "w") + (Part(parts[1], "d") + (Part(parts[2], "h")
              + (Part(parts[3], "m") + Part(parts[4], "s"))))
  {
    var s := LastPiecesPrint(parts);
    var d := PiecePrints(parts, 1, "d", s);
    var w := PiecePrints(parts, 0, "w", d);
  }

  lemma LastPiecesPrint(parts: seq<Option<nat>>) returns (text: string)
    requires |parts| == 5
    ensures text == Part(parts[2], "h") + (Part(parts[3], "m") + Part(parts[4], "s")) == Print(Pieces(parts, 2))
  {
    var s := PiecePrints(parts, 4, "s", "");
    Nothing(Part(parts[4], "s"));
    var m := PiecePrints(parts, 3, "m", Part(parts[4], "s"));
    text := PiecePrints(parts, 2, "h", m);
  }

  lemma PiecePrints(parts: seq<Option<nat>>, u: nat, letter: string, rest: string) returns (text: string)
    requires |parts| == 5 && u < 5 && letter == [Letter(u)] && rest == Print(Pieces(parts, u + 1))
    ensures text == Part(parts[u], letter) + rest == Print(Pieces(parts, u))
  {
    PiecesTotal(parts, u + 1);
    PieceBefore(parts[u], u, Pieces(parts, u + 1));
    text := Part(parts[u], letter) + rest;
  }

  lemma Nothing(s: string)
    ensures s + "" == s
  {
  }

  /**
   Weeks, days, hours, minutes and seconds, in this order, each there or left out, are read as the seconds they
   add up to exactly when those fit int64 nanoseconds.
   */
  lemma ReadsUnits(w: Option<nat>, d: Option<nat>, h: Option<nat>, m: Option<nat>, s: Option<nat>)
    ensures var text := Part(w, "w") + Part(d, "d") + Part(h, "h") + Part(m, "m") + Part(s, "s");
            var seconds := Amount(w) * 604800 + Amount(d) * 86400 + Amount(h) * 3600 + Amount(m) * 60 + Amount(s);
            Nanos(text) == seconds * 1_000_000_000 <==> seconds * 1_000_000_000 <= 0x7FFF_FFFF_FFFF_FFFF
  {
    var text := GroupsOfParts(w, d, h, m, s);
    NanosExactIffFits(text);
  }

  lemma GroupsOfParts(w: Option<nat>, d: Option<nat>, h: Option<nat>, m: Option<nat>, s: Option<nat>)
    returns (text: string)
    ensures text == Part(w, "w") + Part(d, "d") + Part(h, "h") + Part(m, "m") + Part(s, "s")
    ensures GroupsOf(text) == Pieces([w, d, h, m, s], 0)
    ensures Total(GroupsOf(text)) ==
            (Amount(w) * 604800 + Amount(d) * 86400 + Amount(h) * 3600 + Amount(m) * 60 + Amount(s)) * 1_000_000_000
  {
    var parts := [w, d, h, m, s];
    text := Part(w, "w") + Part(d, "d") + Part(h, "h") + Part(m, "m") + Part(s, "s");
    PiecesPrint(parts);
    JoinFive(Part(w, "w"), Part(d, "d"), Part(h, "h"), Part(m, "m"), Part(s, "s"));
    assert text == Print(Pieces(parts, 0));
    PiecesTotal(parts, 0);
    PartsTotalIs(parts);
    GroupsOfPrint(Pieces(parts, 0));
  }

  predicate FitsInt(n: Option<nat>) {
    Amount(n) <= MAX
  }

  /** When they do not fit, they are read modulo 2^64, as long as each number is an int. */
  lemma ReadsUnitsModulo(w: Option<nat>, d: Option<nat>, h: Option<nat>, m: Option<nat>, s: Option<nat>)
    requires FitsInt(w) && FitsInt(d) && FitsInt(h) && FitsInt(m) && FitsInt(s)
    ensures var text := Part(w, "w") + Part(d, "d") + Part(h, "h") + Part(m, "m") + Part(s, "s");
            var seconds := Amount(w) * 604800 + Amount(d) * 86400 + Amount(h) * 3600 + Amount(m) * 60 + Amount(s);
            IsModulo(Nanos(text), seconds * 1_000_000_000)
  {
    var text := GroupsOfParts(w, d, h, m, s);
    AllSmall(w, d, h, m, s);
    SmallIsUnclamped(GroupsOf(text));
    NanosModulo(text, Total(GroupsOf(text)));
  }

  predicate IsModulo(x: int, y: int) {
    (x - y) % 0x1_0000_0000_0000_0000 == 0
  }

  lemma AllSmall(w: Option<nat>, d: Option<nat>, h: Option<nat>, m: Option<nat>, s: Option<nat>)
    requires FitsInt(w) && FitsInt(d) && FitsInt(h) && FitsInt(m) && FitsInt(s)
    ensures forall g | g in Pieces([w, d, h, m, s], 0) :: AllDigits(g.digits) && Value(g.digits) <= MAX
  {
    var parts := [w, d, h, m, s];
    assert forall i | 0 <= i < 5 :: FitsInt(parts[i]);
    SmallPieces(parts, 0);
  }

  lemma NanosModulo(text: string, total: nat)
    requires ClampedTotal(GroupsOf(text)) == total
    ensures Nanos(text) == Wrap(total) && IsModulo(Nanos(text), total)
  {
  }

  lemma {:induction false} SmallPieces(parts: seq<Option<nat>>, u: nat)
    requires |parts| == 5 && u <= 5 && forall i | 0 <= i < 5 :: FitsInt(parts[i])
    ensures forall g | g in Pieces(parts, u) :: AllDigits(g.digits) && Value(g.digits) <= MAX
    decreases 5 - u
  {
    if u < 5 {
      SmallPieces(parts, u + 1);
      assert FitsInt(parts[u]);
      if parts[u].Some? {
        ValueOfDecimal(parts[u].value);
      }
    }
  }

  lemma {:induction false} SmallIsUnclamped(gs: seq<Piece>)
    requires forall g | g in gs :: g.unit < 5 && AllDigits(g.digits) && Value(g.digits) <= MAX
    ensures ClampedTotal(gs) == Total(gs)
  {
    if gs != [] {
      SmallIsUnclamped(gs[1..]);
    }
  }

  /** A number that is too large for an int counts as the largest one. */
  lemma TooLargeCountsAsLargest(v: nat)
    requires v > 0x7FFF_FFFF_FFFF_FFFF
    ensures Nanos(Decimal(v) + "s") == Nanos(Decimal(0x7FFF_FFFF_FFFF_FFFF) + "s")
  {
    SecondsAlone(v);
    SecondsAlone(MAX);
  }

  lemma SecondsAlone(v: nat)
    ensures Nanos(Decimal(v) + "s") == Wrap((if v <= MAX then v else MAX) * SECOND)
  {
    var g := Piece(Decimal(v), 4);
    ValueOfDecimal(v);
    OneGroup(g);
    PrintOne(g);
    GroupsOfPrint([g]);
    NanosModulo(Decimal(v) + "s", (if v <= MAX then v else MAX) * SECOND);
  }

  lemma PrintOne(g: Piece)
    requires g.unit == 4 && g.digits != "" && AllDigits(g.digits)
    ensures Ordered([g], 0) && Print([g]) == g.digits + "s"
  {
    assert [g][1..] == [] && g.digits + ['s'] + "" == g.digits + "s";
  }

  lemma OneGroup(g: Piece)
    requires g.unit < 5 && AllDigits(g.digits)
    ensures ClampedTotal([g]) == Atoi(g.digits) * UnitNanos(g.unit)
  {
    assert [g][1..] == [];
  }

  lemma JoinFive(a: string, b: string, c: string, d: string, e: string)
    ensures a + b + c + d + e == a + (b + (c + (d + e)))
  {
  }

  /** White space around a text makes no difference. */
  lemma {:induction false} IgnoresPadding(before: string, text: string, after: string)
    requires forall c | c in before + after :: c in " \t\n\r"
    ensures Nanos(before + text + after) == Nanos(text)
    decreases |before| + |after|
  {
    if before != "" {
      assert before[0] in before + after;
      assert (before + text + after)[1..] == before[1..] + text + after;
      IgnoresPadding(before[1..], text, after);
    } else if after != "" {
      var init, last := after[..|after| - 1], after[|after| - 1];
      assert last in before + after;
      assert before + text + after == text + init + [last];
      IgnoresPadding("", text, init);
      assert "" + text + init == text + init;
      TrimsLast(text + init, last);
    } else {
      assert before + text + after == text;
    }
  }

  lemma {:induction false} TrimsLast(s: string, last: char)
    requires IsSpace(last)
    ensures TrimSpace(s + [last]) == TrimSpace(s)
  {
    if s == "" {
      assert (s + [last])[1..] == "";
    } else if IsSpace(s[0]) {
      assert (s + [last])[1..] == s[1..] + [last];
      TrimsLast(s[1..], last);
    } else {
      assert (s + [last])[..|s|] == s;
    }
  }

  // ------------------------------------------------------------- the canonical text

  lemma CanonicalTotal(n: nat)
    ensures Ordered(Canonical(n), 0) && (forall g | g in Canonical(n) :: g.unit < 5 && AllDigits(g.digits))
    ensures Total(Canonical(n)) == n * 1_000_000_000
  {
    PiecesTotal(PartsOf(n), 0);
    PartsTotalIs(PartsOf(n));
    SecondsSplit(n);
  }

  /** Parsing the canonical text of n seconds returns n seconds exactly when they fit int64 nanoseconds. */
  lemma CanonicalRoundTrip(n: nat)
    ensures Nanos(Print(Canonical(n))) == n * 1_000_000_000 <==> n * 1_000_000_000 <= MAX
    ensures var parts := PartsOf(n);
            Print(Canonical(n)) ==
            Part(parts[0], "w") + Part(parts[1], "d") + Part(parts[2], "h") + Part(parts[3], "m") + Part(parts[4], "s")
  {
    var parts := PartsOf(n);
    CanonicalTotal(n);
    GroupsOfPrint(Canonical(n));
    NanosExactIffFits(Print(Canonical(n)));
    PiecesPrint(parts);
    JoinFive(Part(parts[0], "w"), Part(parts[1], "d"), Part(parts[2], "h"), Part(parts[3], "m"), Part(parts[4], "s"));
  }

  /** When the duration fits, no product and no sum on the way to it overflows. */
  lemma {:induction false} NothingOverflows(gs: seq<Piece>)
    requires (forall g | g in gs :: g.unit < 5 && AllDigits(g.digits)) && Total(gs) <= MAX
    ensures forall g, k | g in gs && 0 <= k <= |Factors(g.unit)| ::
              Value(g.digits) * Product(Factors(g.unit)[..k]) <= MAX
    ensures forall k | 0 <= k <= |gs| :: Total(gs[..k]) <= MAX
  {
    forall g, k | g in gs && 0 <= k <= |Factors(g.unit)|
      ensures Value(g.digits) * Product(Factors(g.unit)[..k]) <= MAX
    {
      TotalCovers(gs, g);
      FactorsMultiply(g.unit);
      NoProductOverflows(Value(g.digits), Factors(g.unit), k);
    }
    forall k | 0 <= k <= |gs| ensures Total(gs[..k]) <= MAX {
      TotalGrows(gs, k);
    }
  }

  lemma {:induction false} TotalCovers(gs: seq<Piece>, g: Piece)
    requires (forall g | g in gs :: g.unit < 5 && AllDigits(g.digits)) && g in gs
    ensures Value(g.digits) * UnitNanos(g.unit) <= Total(gs)
  {
    if g != gs[0] {
      TotalCovers(gs[1..], g);
    }
  }

  lemma {:induction false} TotalGrows(gs: seq<Piece>, k: nat)
    requires (forall g | g in gs :: g.unit < 5 && AllDigits(g.digits)) && k <= |gs|
    ensures Total(gs[..k]) <= Total(gs)
  {
    if k > 0 {
      assert gs[..k][1..] == gs[1..][..k - 1];
      TotalGrows(gs[1..], k - 1);
    }
  }
}
