/**
 The `=key=value` printer of internal/tool/executor.go and its round trip through SentenceToMap.
 A Go map is walked in any order; here each step takes any key that is left.
 */
module Executor {
  import opened Text
  import opened Parser
  import opened Orders

  predicate NoEquals(params: map<string, string>) {
    forall k | k in params :: Free('=', k)
  }

  function PrintWord(k: string, v: string): string {
    "=" + k + "=" + v
  }

  /** The words for the given keys, in that order. */
  function Words(order: seq<string>, params: map<string, string>): seq<string>
    requires forall k | k in order :: k in params
  {
    if order == [] then [] else
      var k := order[|order| - 1];
      Words(order[..|order| - 1], params) + [PrintWord(k, params[k])]
  }

  lemma WordsAppend(order: seq<string>, k: string, params: map<string, string>)
    requires k in params && forall k | k in order :: k in params
    ensures forall k' | k' in order + [k] :: k' in params
    ensures Words(order + [k], params) == Words(order, params) + ["=" + k + "=" + params[k]]
  {
    assert (order + [k])[..|order|] == order;
  }

  lemma {:induction false} WordsAt(order: seq<string>, params: map<string, string>)
    requires forall k | k in order :: k in params
    ensures |Words(order, params)| == |order|
    ensures forall i | 0 <= i < |order| :: Words(order, params)[i] == "=" + order[i] + "=" + params[order[i]]
  {
    if order != [] {
      WordsAt(order[..|order| - 1], params);
    }
  }

  /** cmd ends with a word for each parameter, from place n on, in some order. */
  ghost predicate EndsWithAll(cmd: seq<string>, n: nat, params: map<string, string>) {
    exists order :: IsOrderOf(order, params) && PrintedFrom(cmd, n, order, params)
  }

  ghost predicate PrintedFrom(cmd: seq<string>, n: nat, order: seq<string>, params: map<string, string>)
    requires IsOrderOf(order, params)
  {
    |cmd| == n + |order| && forall i | 0 <= i < |order| :: cmd[n + i] == "=" + order[i] + "=" + params[order[i]]
  }

  function Chosen(order: seq<string>, params: map<string, string>): map<string, string>
    requires forall k | k in order :: k in params
  {
    map k | k in order :: params[k]
  }

  lemma ChosenAppend(order: seq<string>, k: string, params: map<string, string>)
    requires forall k' | k' in order + [k] :: k' in params
    ensures Chosen(order + [k], params) == Chosen(order, params)[k := params[k]]
  {
    assert forall k' :: k' in order + [k] <==> k' in order || k' == k;
  }

  /** One more printed word overwrites one key of what has been read so far. */
  lemma MeaningAppend(words: seq<string>, k: string, v: string)
    requires Free('=', k)
    ensures Meaning(words + [PrintWord(k, v)]) == Meaning(words)[k := v]
  {
    PrintedWord(k, v);
    assert (words + [PrintWord(k, v)])[..|words|] == words;
  }

  /** What the router reads after the first words of a command: they are overwritten key by key. */
  lemma {:induction false} MeaningOfWords(before: seq<string>, order: seq<string>, params: map<string, string>)
    requires forall k | k in order :: k in params && Free('=', k)
    ensures Meaning(before + Words(order, params)) == Meaning(before) + Chosen(order, params)
  {
    if order == [] {
      assert before + Words(order, params) == before;
    } else {
      var init, k := order[..|order| - 1], order[|order| - 1];
      assert order == init + [k];
      calc {
        Meaning(before + Words(order, params));
        { assert before + Words(order, params) == before + Words(init, params) + [PrintWord(k, params[k])]; }
        Meaning(before + Words(init, params) + [PrintWord(k, params[k])]);
        { MeaningAppend(before + Words(init, params), k, params[k]); }
        Meaning(before + Words(init, params))[k := params[k]];
        { MeaningOfWords(before, init, params); }
        (Meaning(before) + Chosen(init, params))[k := params[k]];
        { ChosenAppend(init, k, params); }
        Meaning(before) + Chosen(order, params);
      }
    }
  }

  /**
   A command is read back as printed, in every order of the map, exactly when no key contains '='.
   `before` are the words already in the command, none of which is about a key with '='.
   */
  lemma RoundTripIffNoEquals(before: seq<string>, order: seq<string>, params: map<string, string>)
    requires IsOrderOf(order, params)
    ensures Meaning(before + Words(order, params)) == Meaning(before) + params <==> NoEquals(params)
  {
    if NoEquals(params) {
      MeaningOfWords(before, order, params);
      assert Chosen(order, params) == params;
    } else {
      var k :| k in params && !Free('=', k);
      MeaningKeysFree(before + Words(order, params));
      assert k in Meaning(before) + params;
    }
  }

  /** What a command's words after its path say, for the words already there and the walked parameters. */
  lemma CommandReads(cmd: seq<string>, head: string, before: seq<string>, order: seq<string>,
                     params: map<string, string>)
    requires IsOrderOf(order, params) && cmd == [head] + before + Words(order, params)
    ensures cmd[0] == head && cmd[1..] == before + Words(order, params)
    ensures Meaning(cmd[1..]) == Meaning(before) + params <==> NoEquals(params)
  {
    assert cmd[1..] == before + Words(order, params);
    RoundTripIffNoEquals(before, order, params);
  }

  lemma AloneRead(order: seq<string>, params: map<string, string>, none: seq<string>, nothing: map<string, string>)
    requires IsOrderOf(order, params) && none == [] && nothing == map[]
    ensures Meaning(Words(order, params)) == params <==> NoEquals(params)
  {
    RoundTripIffNoEquals(none, order, params);
    assert none + Words(order, params) == Words(order, params);
    assert Meaning(none) == nothing && nothing + params == params;
  }

  lemma AddReads(cmd: seq<string>, head: string, order: seq<string>, params: map<string, string>)
    requires IsOrderOf(order, params) && cmd == [head] + Words(order, params)
    ensures cmd[0] == head && cmd[1..] == Words(order, params)
    ensures Meaning(cmd[1..]) == params <==> NoEquals(params)
  {
    assert cmd[1..] == Words(order, params);
    AloneRead(order, params, [], map[]);
  }

  function Numbers(id: string): string {
    "=numbers=" + id
  }

  lemma NumbersRead(id: string)
    ensures Meaning([Numbers(id)]) == map["numbers" := id]
  {
    var k := "numbers";
    assert Free('=', k);
    MeaningAppend([], k, id);
    assert "=" + k + "=" == "=numbers=";
    assert Numbers(id) == PrintWord(k, id);
    assert [] + [PrintWord(k, id)] == [Numbers(id)];
  }

  /** A parameter whose word the router reads as one for `numbers`: Go's keys may contain an equals sign. */
  predicate NamesNumbers(k: string) {
    k == "numbers" || "numbers=" <= k
  }

  function NumbersValue(k: string, v: string): string
    requires NamesNumbers(k)
  {
    if k == "numbers" then v else k[8..] + "=" + v
  }

  lemma NumbersWord(k: string, v: string)
    ensures WordKey(PrintWord(k, v)) == "numbers" <==> NamesNumbers(k)
    ensures NamesNumbers(k) ==> WordValue(PrintWord(k, v)) == NumbersValue(k, v)
  {
    var w, numbers := k + "=" + v, "numbers";
    assert Stripped(PrintWord(k, v)) == w;
    assert Free('=', numbers);
    if NamesNumbers(k) {
      var rest := NumbersValue(k, v);
      assert w == numbers + ['='] + rest;
      IndexOfFreePrefix(numbers, '=', rest);
    } else if WordKey(PrintWord(k, v)) == numbers {
      assert IndexOf(w, '=') == |numbers| == 7;
      CutBefore(k, v, numbers);
    }
  }

  /** Where the first equals sign of a printed parameter is decides where its key ends. */
  lemma CutBefore(k: string, v: string, name: string)
    requires var w := k + "=" + v; IndexOf(w, '=') == |name| && w[..|name|] == name
    ensures k == name || name + "=" <= k
  {
    var w := k + "=" + v;
    assert |name| <= |k| by {
      IndexOfIsFirst(w, '=', |k|);
    }
    assert k[..|name|] == w[..|name|];
    if |name| < |k| {
      assert k[|name|] == w[|name|] == '=';
      assert k[..|name| + 1] == name + "=";
    }
  }

  predicate NumbersIs(m: map<string, string>, id: string) {
    "numbers" in m && m["numbers"] == id
  }

  /** Every parameter that is read as `numbers` is read as the id. */
  predicate KeepsNumbers(id: string, params: map<string, string>) {
    forall k | k in params && NamesNumbers(k) :: NumbersValue(k, params[k]) == id
  }

  lemma NumbersAfterWord(words: seq<string>, k: string, v: string, id: string)
    ensures NumbersIs(Meaning(words + [PrintWord(k, v)]), id) <==>
            if NamesNumbers(k) then NumbersValue(k, v) == id else NumbersIs(Meaning(words), id)
  {
    NumbersWord(k, v);
    assert (words + [PrintWord(k, v)])[..|words|] == words;
  }

  lemma {:induction false} NumbersKept(id: string, order: seq<string>, params: map<string, string>)
    requires (forall k | k in order :: k in params) && KeepsNumbers(id, params)
    ensures NumbersIs(Meaning([Numbers(id)] + Words(order, params)), id)
  {
    if order == [] {
      NumbersRead(id);
      assert [Numbers(id)] + Words(order, params) == [Numbers(id)];
    } else {
      var init, k := order[..|order| - 1], order[|order| - 1];
      NumbersKept(id, init, params);
      NumbersAfterWord([Numbers(id)] + Words(init, params), k, params[k], id);
      assert [Numbers(id)] + Words(order, params) == [Numbers(id)] + Words(init, params) + [PrintWord(k, params[k])];
    }
  }

  /**
   What Set appends is read as commanding the id, whatever the order of its parameters, exactly when each
   parameter that is read as `numbers` is read as that id.
   */
  lemma NumbersReadBackIff(id: string, params: map<string, string>)
    ensures (forall order | IsOrderOf(order, params) :: NumbersIs(Meaning([Numbers(id)] + Words(order, params)), id))
            <==> KeepsNumbers(id, params)
  {
    if KeepsNumbers(id, params) {
      forall order | IsOrderOf(order, params)
        ensures NumbersIs(Meaning([Numbers(id)] + Words(order, params)), id)
      {
        NumbersKept(id, order, params);
      }
    } else {
      var k :| k in params && NamesNumbers(k) && NumbersValue(k, params[k]) != id;
      var order := OrderEndingIn(params, k);
      var init := order[..|order| - 1];
      NumbersAfterWord([Numbers(id)] + Words(init, params), k, params[k], id);
      assert [Numbers(id)] + Words(order, params) == [Numbers(id)] + Words(init, params) + [PrintWord(k, params[k])];
    }
  }

  /** Add: the path's add command followed by every parameter once, in some order. */
  method Add(path: string, params: map<string, string>) returns (cmd: seq<string>)
    ensures |cmd| == 1 + |params| && cmd[0] == path + "/add" && EndsWithAll(cmd, 1, params)
    ensures exists order :: IsOrderOf(order, params) && cmd[1..] == Words(order, params)
    ensures Meaning(cmd[1..]) == params <==> NoEquals(params)
  {
    var head := path + "/add";
    cmd := [head];
    ghost var order;
    cmd, order := AppendParams(cmd, params);
    AddReads(cmd, head, order, params);
    WordsAt(order, params);
    assert PrintedFrom(cmd, 1, order, params);
  }

  /** Set: the id comes first, so a parameter that is read as `numbers` replaces it. */
  method Set(path: string, id: string, params: map<string, string>) returns (cmd: seq<string>)
    ensures |cmd| == 2 + |params| && cmd[0] == path + "/set" && cmd[1] == "=numbers=" + id
    ensures EndsWithAll(cmd, 2, params)
    ensures exists order :: IsOrderOf(order, params) && cmd[1..] == [Numbers(id)] + Words(order, params)
    ensures Meaning(cmd[1..]) == map["numbers" := id] + params <==> NoEquals(params)
    ensures KeepsNumbers(id, params) ==> NumbersIs(Meaning(cmd[1..]), id)
  {
    var head, numbers := path + "/set", Numbers(id);
    cmd := [head, numbers];
    ghost var order;
    cmd, order := AppendParams(cmd, params);
    assert [head, numbers] == [head] + [numbers];
    CommandReads(cmd, head, [numbers], order, params);
    NumbersRead(id);
    if KeepsNumbers(id, params) {
      NumbersKept(id, order, params);
    }
    WordsAt(order, params);
    assert PrintedFrom(cmd, 2, order, params);
  }

  /** The loop both share: every parameter is appended once. */
  method AppendParams(before: seq<string>, params: map<string, string>)
    returns (cmd: seq<string>, ghost order: seq<string>)
    ensures IsOrderOf(order, params)
    ensures cmd == before + Words(order, params)
    ensures |order| == |params| && |cmd| == |before| + |params|
  {
    cmd, order := before, [];
    var left := params.Keys;
    while left != {}
      invariant left <= params.Keys && |order| + |left| == |params|
      invariant IsWalk(order, params, left)
      invariant cmd == before + Words(order, params) && |cmd| == |before| + |order|
      decreases left
    {
      var k :| k in left;
      WalkOn(order, params, left, k);
      left := left - {k};
      cmd := cmd + ["=" + k + "=" + params[k]];
      WordsAppend(order, k, params);
      order := order + [k];
    }
  }
}
