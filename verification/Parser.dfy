/**
 The RouterOS value parsers of pkg/mikrotik/parser.go, apart from durations.
 strconv and strings are modelled by what they promise; errors are values.
 */
module Parser {
  import opened Text
  import Int64

  // ---------------------------------------------------------------- booleans

  /** A missing `.dead` attribute, or any value but "true" and "yes", means the entity lives. */
  predicate IsDead(pairs: map<string, string>) {
    if ".dead" !in pairs then false else
      var v := pairs[".dead"];
      v == "true" || v == "yes"
  }

  // ------------------------------------------------------------ unsigned integers

  datatype ParseError = InvalidSyntax | OutOfRange
  datatype ParseResult = Parsed(n: nat) | Failed(error: ParseError)

  /** strconv.ParseUint(s, 10, 64): no sign, no underscore, no spaces. */
  function ParseUint(s: string): ParseResult {
    if s == "" || !AllDigits(s) then Failed(InvalidSyntax)
    else if Value(s) > Int64.MAX_UINT64 then Failed(OutOfRange)
    else Parsed(Value(s))
  }

  function ParseUint64(s: string): nat {
    if s == "" then 0 else
      match ParseUint(s)
      case Parsed(n) => n
      case Failed(_) => 0
  }

  /** Every uint64 survives being printed and parsed again. */
  lemma ParseUint64InvertsDecimal(n: nat)
    requires n <= Int64.MAX_UINT64
    ensures ParseUint64(Decimal(n)) == n
  {
    ValueOfDecimal(n);
  }

  /**
   A non-zero result determines its input up to leading zeros. So every text with a non-digit in it,
   and every number of 2^64 or more, is among those that give zero.
   */
  lemma ParseUint64NonZeroExactly(s: string, n: nat)
    requires 0 < n
    ensures ParseUint64(s) == n <==> n <= Int64.MAX_UINT64 && exists k: nat :: s == Zeros(k) + Decimal(n)
  {
    if ParseUint64(s) == n {
      var k := DigitsAreZerosThenDecimal(s);
    }
    if k: nat :| n <= Int64.MAX_UINT64 && s == Zeros(k) + Decimal(n) {
      ValueOfZerosThenDigits(k, Decimal(n));
      ValueOfDecimal(n);
    }
  }

  /** The counter as it is cached: fmt's %d of the uint64. */
  function CachedCounter(n: nat): string {
    Decimal(n)
  }

  /** The same counter as a time-series field: Go's int64(n). */
  function CounterField(n: nat): int {
    Int64.Wrap(n)
  }

  /** Both stores denote the same count exactly when it is below 2^63; beyond that the field is negative. */
  lemma CacheAndFieldAgreeBelow2To63(s: string)
    ensures var n := ParseUint64(s);
            && ParseUint64(CachedCounter(n)) == n
            && (ParseUint64(CachedCounter(n)) == CounterField(n) <==> n <= Int64.MAX)
            && (n > Int64.MAX ==> CounterField(n) < 0)
  {
    ParseUint64InvertsDecimal(ParseUint64(s));
  }

  // ------------------------------------------------------------- sentences

  /** A word without its leading '='. */
  function Stripped(word: string): string {
    if word != "" && word[0] == '=' then word[1..] else word
  }

  function WordKey(word: string): (k: string)
    ensures Free('=', k)
  {
    var w := Stripped(word);
    w[..IndexOf(w, '=')]
  }

  function WordValue(word: string): string {
    var w := Stripped(word);
    var i := IndexOf(w, '=');
    if i == |w| then "" else w[i + 1..]
  }

  /** What a sentence means: later words win, empty words say nothing. */
  function Meaning(words: seq<string>): map<string, string> {
    if words == [] then map[] else
      var m := Meaning(words[..|words| - 1]);
      var word := words[|words| - 1];
      if word == "" then m else m[WordKey(word) := WordValue(word)]
  }

  lemma MeaningStep(words: seq<string>, n: nat)
    requires n < |words|
    ensures Meaning(words[..n + 1]) == if words[n] == "" then Meaning(words[..n])
                                       else Meaning(words[..n])[WordKey(words[n]) := WordValue(words[n])]
  {
    assert words[..n + 1][..n] == words[..n];
  }

  method SentenceToMap(words: seq<string>) returns (m: map<string, string>)
    ensures m == Meaning(words)
  {
    m := map[];
    for n := 0 to |words|
      invariant m == Meaning(words[..n])
    {
      var word := words[n];
      MeaningStep(words, n);
      if |word| == 0 {
        continue;
      }
      if word[0] == '=' {
        word := word[1..];
      }
      var idx := IndexOf(word, '=');
      if idx == |word| {
        m := m[word := ""];
        assert WordKey(words[n]) == word;
        continue;
      }
      m := m[word[..idx] := word[idx + 1..]];
    }
    assert words[..|words|] == words;
  }

  /** No key of a parsed sentence contains '='. */
  lemma {:induction false} MeaningKeysFree(words: seq<string>)
    ensures forall k | k in Meaning(words) :: Free('=', k)
  {
    if words != [] {
      MeaningKeysFree(words[..|words| - 1]);
    }
  }

  /** The last word of the sentence with key k. */
  ghost predicate LastFor(words: seq<string>, k: string, i: nat) {
    i < |words| && SetsKey(words[i], k) && forall j | i < j < |words| :: !SetsKey(words[j], k)
  }

  predicate SetsKey(word: string, k: string) {
    word != "" && WordKey(word) == k
  }

  /** Whether the last word counts for k decides whose last word for k is the sentence's. */
  lemma LastForFront(words: seq<string>, k: string, i: nat)
    requires words != []
    ensures LastFor(words, k, i) <==>
            if SetsKey(words[|words| - 1], k) then i == |words| - 1 else LastFor(words[..|words| - 1], k, i)
  {
    var init := words[..|words| - 1];
    assert forall j | 0 <= j < |init| :: init[j] == words[j];
  }

  lemma MeaningFront(words: seq<string>, k: string)
    requires words != []
    ensures var init, word := words[..|words| - 1], words[|words| - 1];
            if SetsKey(word, k) then k in Meaning(words) && Meaning(words)[k] == WordValue(word)
            else
              && (k in Meaning(words) <==> k in Meaning(init))
              && (k in Meaning(init) ==> Meaning(words)[k] == Meaning(init)[k])
  {
  }

  lemma LastForFronts(words: seq<string>, k: string)
    requires words != []
    ensures SetsKey(words[|words| - 1], k) ==> forall i: nat :: LastFor(words, k, i) <==> i == |words| - 1
    ensures !SetsKey(words[|words| - 1], k) ==>
              forall i: nat :: LastFor(words, k, i) <==> LastFor(words[..|words| - 1], k, i)
  {
    forall i: nat
      ensures LastFor(words, k, i) <==>
              if SetsKey(words[|words| - 1], k) then i == |words| - 1 else LastFor(words[..|words| - 1], k, i)
    {
      LastForFront(words, k, i);
    }
  }

  /** A parsed sentence holds, for each key, the value of the last word with it, and no other keys. */
  lemma {:induction false} LastWordWins(words: seq<string>, k: string)
    ensures k in Meaning(words) <==> exists i: nat :: LastFor(words, k, i)
    ensures forall i: nat | LastFor(words, k, i) :: k in Meaning(words) && Meaning(words)[k] == WordValue(words[i])
  {
    if words != [] {
      var init, n: nat := words[..|words| - 1], |words| - 1;
      LastWordWins(init, k);
      MeaningFront(words, k);
      LastForFronts(words, k);
      if SetsKey(words[n], k) {
        assert LastFor(words, k, n);
      } else {
        assert forall i: nat | LastFor(init, k, i) :: LastFor(words, k, i) && init[i] == words[i];
      }
    }
  }

  /** A sentence reports a removal iff its last `.dead` word says true or yes. */
  lemma DeadIsLastWord(words: seq<string>)
    ensures IsDead(Meaning(words)) <==>
            exists i: nat ::
              LastFor(words, ".dead", i) && (WordValue(words[i]) == "true" || WordValue(words[i]) == "yes")
  {
    LastWordWins(words, ".dead");
  }

  /** One printed `=key=value` word reads back as its key and value. */
  lemma PrintedWord(k: string, v: string)
    requires Free('=', k)
    ensures WordKey("=" + k + "=" + v) == k && WordValue("=" + k + "=" + v) == v
  {
    var w := Stripped("=" + k + "=" + v);
    assert w == k + ['='] + v;
    IndexOfFreePrefix(k, '=', v);
  }

  /** A word without a value, or without its leading equals sign. */
  lemma OtherWords(k: string, v: string)
    requires Free('=', k)
    ensures WordKey("=" + k) == k && WordValue("=" + k) == ""
    ensures k != "" ==> WordKey(k) == k && WordValue(k) == ""
    ensures k != "" ==> WordKey(k + "=" + v) == k && WordValue(k + "=" + v) == v
  {
    assert Stripped("=" + k) == k;
    NoSeparator(k, '=');
    if k != "" {
      assert k[0] != '=';
      assert Stripped(k + "=" + v) == k + ['='] + v;
      IndexOfFreePrefix(k, '=', v);
    }
  }

  lemma NoSeparator(s: string, c: char)
    requires Free(c, s)
    ensures IndexOf(s, c) == |s|
  {
  }

  // ------------------------------------------------------------- cache keys

  function FormatCacheKey(routerID: string, measurement: string, entityID: string): string {
    "roskit:" + routerID + ":" + measurement + ":" + entityID
  }

  function FormatPubSubChannel(routerID: string): string {
    "roskit:telemetry:" + routerID
  }

  lemma CacheKeyShape(r: string, m: string, e: string)
    ensures FormatCacheKey(r, m, e) == "roskit:" + (r + [':'] + (m + [':'] + e))
  {
  }

  /** The parts of a key are where they belong, one after the other. */
  lemma CacheKeyParts(r: string, m: string, e: string)
    ensures var key := FormatCacheKey(r, m, e);
            && |key| == |r| + |m| + |e| + 9
            && key[..7] == "roskit:" && key[7..7 + |r|] == r && key[7 + |r|] == ':'
            && key[8 + |r|..8 + |r| + |m|] == m && key[8 + |r| + |m|] == ':' && key[9 + |r| + |m|..] == e
    ensures var channel := FormatPubSubChannel(r);
            |channel| == 17 + |r| && channel[..17] == "roskit:telemetry:" && channel[17..] == r
  {
    assert FormatCacheKey(r, m, e) == "roskit:" + (r + (":" + (m + (":" + e))));
  }

  lemma CacheKeyInjective(r: string, m: string, e: string, r': string, m': string, e': string)
    requires Free(':', r) && Free(':', m) && Free(':', r') && Free(':', m')
    requires FormatCacheKey(r, m, e) == FormatCacheKey(r', m', e')
    ensures r == r' && m == m' && e == e'
  {
    CacheKeyShape(r, m, e);
    CacheKeyShape(r', m', e');
    SamePrefix(r + [':'] + (m + [':'] + e), r' + [':'] + (m' + [':'] + e'));
    FirstSeparatorSplits(r, m + [':'] + e, r', m' + [':'] + e', ':');
    FirstSeparatorSplits(m, e, m', e', ':');
  }

  /** A key names one entity among all colon-free router IDs and measurements iff its own are colon-free. */
  lemma CacheKeyUnambiguousIffColonFree(r: string, m: string, e: string)
    ensures (forall r', m', e' | Free(':', r') && Free(':', m') && FormatCacheKey(r', m', e') == FormatCacheKey(r, m, e)
               :: r' == r && m' == m && e' == e)
            <==> Free(':', r) && Free(':', m)
  {
    if Free(':', r) && Free(':', m) {
      forall r', m', e' | Free(':', r') && Free(':', m') && FormatCacheKey(r', m', e') == FormatCacheKey(r, m, e)
        ensures r' == r && m' == m && e' == e
      {
        CacheKeyInjective(r, m, e, r', m', e');
      }
    } else {
      var r', m', e' := ColonFreeReading(r, m, e);
    }
  }

  /** Cutting a key at its first two colons gives a colon-free reading of it. */
  lemma ColonFreeReading(r: string, m: string, e: string) returns (r': string, m': string, e': string)
    ensures Free(':', r') && Free(':', m') && FormatCacheKey(r', m', e') == FormatCacheKey(r, m, e)
  {
    CacheKeyShape(r, m, e);
    var t := r + [':'] + (m + [':'] + e);
    var i := CutAtFirst(t, ':', |r|);
    r' := t[..i];
    var u := t[i + 1..];
    assert u[|r| + |m| - i] == t[|r| + 1 + |m|] == ':';
    var j := CutAtFirst(u, ':', |r| + |m| - i);
    m', e' := u[..j], u[j + 1..];
    CacheKeyShape(r', m', e');
  }

  datatype Category = Ppp | Hotspot

  function InactiveName(category: Category): (s: string)
    ensures Free(':', s)
    ensures |s| == if category.Ppp? then 12 else 16
  {
    match category
    case Ppp => "ppp_inactive"
    case Hotspot => "hotspot_inactive"
  }

  /** The aggregator's key for one router and category. */
  function InactiveKey(routerID: string, category: Category): string {
    "roskit:" + routerID + ":" + InactiveName(category)
  }

  lemma InactiveKeyShape(r: string, c: Category)
    ensures InactiveKey(r, c) == "roskit:" + (r + [':'] + InactiveName(c))
  {
  }

  lemma InactiveKeyIs(r: string, c: Category)
    ensures InactiveKey(r, c) == "roskit:" + r + (if c == Ppp then ":ppp_inactive" else ":hotspot_inactive")
  {
    var name := InactiveName(c);
    assert ":" + name == if c == Ppp then ":ppp_inactive" else ":hotspot_inactive";
    assert "roskit:" + r + ":" + name == "roskit:" + r + (":" + name);
  }

  lemma SamePrefix(a: string, b: string)
    requires "roskit:" + a == "roskit:" + b
    ensures a == b
  {
    assert a == ("roskit:" + a)[7..] && b == ("roskit:" + b)[7..];
  }

  /** No entity key is ever an aggregator key, whatever the measurement and entity, for colon-free router IDs. */
  lemma CacheKeyIsNoInactiveKey(r: string, m: string, e: string, r': string, c: Category)
    requires Free(':', r) && Free(':', r')
    ensures FormatCacheKey(r, m, e) != InactiveKey(r', c)
  {
    CacheKeyShape(r, m, e);
    InactiveKeyShape(r', c);
    var rest := m + [':'] + e;
    assert !Free(':', rest) by {
      assert rest[|m|] == ':';
    }
    if FormatCacheKey(r, m, e) == InactiveKey(r', c) {
      SamePrefix(r + [':'] + rest, r' + [':'] + InactiveName(c));
      FirstSeparatorSplits(r, rest, r', InactiveName(c), ':');
      assert false;
    }
  }

  lemma InactiveKeyInjective(r: string, c: Category, r': string, c': Category)
    requires Free(':', r) && Free(':', r')
    requires InactiveKey(r, c) == InactiveKey(r', c')
    ensures r == r' && c == c'
  {
    InactiveKeyShape(r, c);
    InactiveKeyShape(r', c');
    SamePrefix(r + [':'] + InactiveName(c), r' + [':'] + InactiveName(c'));
    FirstSeparatorSplits(r, InactiveName(c), r', InactiveName(c'), ':');
  }
}
