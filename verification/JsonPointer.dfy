/** JSON Pointer (RFC 6901) and the pointers the authorization contract builds by joining the keys
    of a parameter restriction with slashes. */
module JsonPointer {
  import opened Types

  /** Section 4 of RFC 6901 allows "0" and digits without a leading zero as an array index. */
  function ArrayIndex(token: string): Option<nat> {
    if token == "" || (token[0] == '0' && |token| > 1) || exists i :: 0 <= i < |token| && !('0' <= token[i] <= '9')
    then None
    else Some(Decimal(token))
  }

  function Decimal(digits: string): nat
    requires forall i :: 0 <= i < |digits| ==> '0' <= digits[i] <= '9'
  {
    if digits == "" then 0
    else 10 * Decimal(digits[..|digits| - 1]) + (digits[|digits| - 1] as int - '0' as int)
  }

  /** One reference token applied to a value. */
  function Child(json: Json, token: string): Option<Json> {
    match json
    case JObject(members) => if token in members then Some(members[token]) else None
    case JArray(elems) =>
      var i := ArrayIndex(token);
      if i.Some? && i.value < |elems| then Some(elems[i.value]) else None
    case _ => None
  }

  /** Following the keys one by one. */
  function Walk(json: Json, keys: seq<string>): Option<Json> {
    if keys == [] then Some(json)
    else
      var child := Child(json, keys[0]);
      if child.None? then None else Walk(child.value, keys[1..])
  }

  /** The pieces between slashes. */
  function Split(s: string): (r: seq<string>)
    ensures |r| >= 1
  {
    if s == "" then [""]
    else
      var rest := Split(s[1..]);
      if s[0] == '/' then [""] + rest else [[s[0]] + rest[0]] + rest[1..]
  }

  /** Replaces every occurrence of the two characters `a`, `b` by `c`. */
  function Replace(s: string, a: char, b: char, c: char): string {
    if s == "" then ""
    else if |s| >= 2 && s[0] == a && s[1] == b then [c] + Replace(s[2..], a, b, c)
    else [s[0]] + Replace(s[1..], a, b, c)
  }

  /** Section 4 of RFC 6901: first ~1 becomes /, then ~0 becomes ~. */
  function Unescape(token: string): string {
    Replace(Replace(token, '~', '1', '/'), '~', '0', '~')
  }

  function UnescapeAll(tokens: seq<string>): (r: seq<string>)
    ensures |r| == |tokens|
  {
    if tokens == [] then [] else [Unescape(tokens[0])] + UnescapeAll(tokens[1..])
  }

  function Evaluate(json: Json, pointer: string): Option<Json> {
    if pointer == "" then Some(json)
    else if pointer[0] != '/' then None
    else Walk(json, UnescapeAll(Split(pointer)[1..]))
  }

  function Join(keys: seq<string>): string {
    if keys == [] then ""
    else if |keys| == 1 then keys[0]
    else keys[0] + "/" + Join(keys[1..])
  }

  /** The pointer the contract builds from the keys of a restriction. */
  function PointerTo(keys: seq<string>): string {
    "/" + Join(keys)
  }

  predicate HasPair(s: string, a: char, b: char) {
    exists i :: 0 <= i < |s| - 1 && s[i] == a && s[i + 1] == b
  }

  predicate PlainKey(key: string) {
    '/' !in key && !HasPair(key, '~', '0') && !HasPair(key, '~', '1')
  }

  predicate Plain(keys: seq<string>) {
    keys != [] && forall i :: 0 <= i < |keys| ==> PlainKey(keys[i])
  }

  // ----- Escapes -----

  lemma {:induction false} ReplaceShortens(s: string, a: char, b: char, c: char)
    ensures |Replace(s, a, b, c)| <= |s|
    ensures HasPair(s, a, b) ==> |Replace(s, a, b, c)| < |s|
    ensures !HasPair(s, a, b) ==> Replace(s, a, b, c) == s
  {
    if s == "" {
    } else if |s| >= 2 && s[0] == a && s[1] == b {
      ReplaceShortens(s[2..], a, b, c);
      assert HasPair(s, a, b);
    } else {
      ReplaceShortens(s[1..], a, b, c);
      if HasPair(s, a, b) {
        var i :| 0 <= i < |s| - 1 && s[i] == a && s[i + 1] == b;
        assert s[1..][i - 1] == a && s[1..][i - 1 + 1] == b;
      }
      if HasPair(s[1..], a, b) {
        var i :| 0 <= i < |s[1..]| - 1 && s[1..][i] == a && s[1..][i + 1] == b;
        assert s[i + 1] == a && s[i + 1 + 1] == b;
      }
    }
  }

  lemma UnescapeShortens(s: string)
    ensures |Unescape(s)| <= |s|
    ensures |Unescape(s)| == |s| ==> Unescape(s) == s && !HasPair(s, '~', '0') && !HasPair(s, '~', '1')
    ensures !HasPair(s, '~', '0') && !HasPair(s, '~', '1') ==> Unescape(s) == s
  {
    ReplaceShortens(s, '~', '1', '/');
    ReplaceShortens(Replace(s, '~', '1', '/'), '~', '0', '~');
  }

  // ----- Splitting and joining -----

  function Length(pieces: seq<string>): nat {
    if pieces == [] then 0 else |pieces[0]| + Length(pieces[1..])
  }

  lemma {:induction false} SplitFacts(s: string)
    ensures Length(Split(s)) + |Split(s)| == |s| + 1
    ensures forall i :: 0 <= i < |Split(s)| ==> '/' !in Split(s)[i]
  {
    if s != "" {
      SplitFacts(s[1..]);
      var rest := Split(s[1..]);
      if s[0] == '/' {
        assert ([""] + rest)[1..] == rest;
      } else {
        var r := [[s[0]] + rest[0]] + rest[1..];
        assert r[1..] == rest[1..];
      }
    }
  }

  lemma {:induction false} JoinLength(keys: seq<string>)
    requires keys != []
    ensures |Join(keys)| + 1 == Length(keys) + |keys|
  {
    if |keys| == 1 {
      assert keys[1..] == [];
    } else {
      JoinLength(keys[1..]);
    }
  }

  lemma {:induction false} SplitPrefix(a: string, rest: string)
    requires '/' !in a
    ensures Split(a + "/" + rest) == [a] + Split(rest)
    decreases |a|
  {
    var s := a + "/" + rest;
    if a == "" {
      assert s[1..] == rest;
    } else {
      assert s[1..] == a[1..] + "/" + rest;
      SplitPrefix(a[1..], rest);
      assert [a[0]] + a[1..] == a;
    }
  }

  lemma {:induction false} SplitWhole(a: string)
    requires '/' !in a
    ensures Split(a) == [a]
  {
    if a != "" {
      SplitWhole(a[1..]);
      assert [a[0]] + a[1..] == a;
    }
  }

  lemma {:induction false} SplitJoin(keys: seq<string>)
    requires keys != [] && forall i :: 0 <= i < |keys| ==> '/' !in keys[i]
    ensures Split(Join(keys)) == keys
  {
    if |keys| == 1 {
      SplitWhole(keys[0]);
    } else {
      SplitPrefix(keys[0], Join(keys[1..]));
      SplitJoin(keys[1..]);
      assert [keys[0]] + keys[1..] == keys;
    }
  }

  lemma {:induction false} UnescapeAllAt(tokens: seq<string>, i: nat)
    requires i < |tokens|
    ensures UnescapeAll(tokens)[i] == Unescape(tokens[i])
  {
    if i > 0 {
      UnescapeAllAt(tokens[1..], i - 1);
    }
  }

  /** Unescaping never lengthens a list of tokens, and leaves its length only when it does nothing. */
  lemma {:induction false} UnescapeAllShortens(tokens: seq<string>)
    ensures Length(UnescapeAll(tokens)) <= Length(tokens)
    ensures Length(UnescapeAll(tokens)) == Length(tokens) ==>
              && UnescapeAll(tokens) == tokens
              && forall i :: 0 <= i < |tokens| ==> !HasPair(tokens[i], '~', '0') && !HasPair(tokens[i], '~', '1')
  {
    hide Unescape, HasPair;
    if tokens != [] {
      UnescapeShortens(tokens[0]);
      UnescapeAllShortens(tokens[1..]);
      assert ([Unescape(tokens[0])] + UnescapeAll(tokens[1..]))[1..] == UnescapeAll(tokens[1..]);
      assert tokens == [tokens[0]] + tokens[1..];
    }
  }

  /** The reference tokens of the pointer built from `keys`. */
  function TokensOf(keys: seq<string>): seq<string> {
    UnescapeAll(Split(PointerTo(keys))[1..])
  }

  lemma TokensAre(keys: seq<string>)
    ensures TokensOf(keys) == UnescapeAll(Split(Join(keys)))
  {
    assert PointerTo(keys)[1..] == Join(keys);
    assert ([""] + Split(Join(keys)))[1..] == Split(Join(keys));
  }

  /** The pointer means the keys exactly when there is at least one and none needs escaping. */
  lemma TokensIff(keys: seq<string>)
    ensures TokensOf(keys) == keys <==> Plain(keys)
  {
    hide HasPair, Unescape, UnescapeAll, Split, Join;
    TokensAre(keys);
    var pieces := Split(Join(keys));
    if Plain(keys) {
      SplitJoin(keys);
      forall i | 0 <= i < |keys|
        ensures UnescapeAll(pieces)[i] == keys[i]
      {
        UnescapeAllAt(pieces, i);
        UnescapeShortens(keys[i]);
      }
    } else if TokensOf(keys) == keys && keys != [] {
      SplitFacts(Join(keys));
      JoinLength(keys);
      UnescapeAllShortens(pieces);
    }
  }

  // ----- The lookup -----

  /** Objects nested along the keys, with a null at the end. */
  function Nested(keys: seq<string>): Json {
    if keys == [] then JNull else JObject(map[keys[0] := Nested(keys[1..])])
  }

  lemma {:induction false} NestedWalk(keys: seq<string>, tokens: seq<string>)
    ensures Walk(Nested(keys), tokens) == Some(JNull) <==> tokens == keys
  {
    if keys == [] || tokens == [] {
    } else if keys[0] == tokens[0] {
      NestedWalk(keys[1..], tokens[1..]);
      assert tokens == [tokens[0]] + tokens[1..] && keys == [keys[0]] + keys[1..];
    }
  }

  /** Evaluating the joined pointer by RFC 6901 is the same as following the keys one by one, for
      every JSON value, exactly when there is a key and no key contains a slash or an escape. */
  lemma LookupIff(keys: seq<string>)
    ensures (forall json: Json :: Evaluate(json, PointerTo(keys)) == Walk(json, keys)) <==> Plain(keys)
  {
    hide Plain, Walk, Split, UnescapeAll, Join;
    TokensIff(keys);
    if Plain(keys) {
      forall json: Json
        ensures Evaluate(json, PointerTo(keys)) == Walk(json, keys)
      {
      }
    } else {
      NestedWalk(keys, TokensOf(keys));
      NestedWalk(keys, keys);
      assert Evaluate(Nested(keys), PointerTo(keys)) != Walk(Nested(keys), keys);
    }
  }

  // ----- What any list of keys means -----

  /** Every key is cut at its slashes, and the pieces are unescaped. */
  function Pieces(keys: seq<string>): seq<string> {
    if keys == [] then [] else UnescapeAll(Split(keys[0])) + Pieces(keys[1..])
  }

  /** What the contract reads a list of keys as; no key at all is one empty key. */
  function ReadAs(keys: seq<string>): seq<string> {
    if keys == [] then [""] else Pieces(keys)
  }

  function Prefixed(c: char, pieces: seq<string>): seq<string>
    requires pieces != []
  {
    if c == '/' then [""] + pieces else [[c] + pieces[0]] + pieces[1..]
  }

  lemma PrefixedConcat(c: char, pieces: seq<string>, more: seq<string>)
    requires pieces != []
    ensures Prefixed(c, pieces + more) == Prefixed(c, pieces) + more
  {
    assert (pieces + more)[0] == pieces[0] && (pieces + more)[1..] == pieces[1..] + more;
  }

  lemma SplitFirst(s: string)
    requires s != ""
    ensures Split(s) == Prefixed(s[0], Split(s[1..]))
  {
  }

  lemma {:induction false} SplitConcat(a: string, rest: string)
    ensures Split(a + "/" + rest) == Split(a) + Split(rest)
    decreases |a|
  {
    hide Split;
    var s := a + "/" + rest;
    SplitFirst(s);
    if a == "" {
      assert s[1..] == rest;
      EmptySplit();
    } else {
      assert s[0] == a[0] && s[1..] == a[1..] + "/" + rest;
      SplitConcat(a[1..], rest);
      SplitFirst(a);
      PrefixedConcat(a[0], Split(a[1..]), Split(rest));
    }
  }

  lemma EmptySplit()
    ensures Split("") == [""]
  {
  }

  lemma {:induction false} UnescapeConcat(a: seq<string>, b: seq<string>)
    ensures UnescapeAll(a + b) == UnescapeAll(a) + UnescapeAll(b)
  {
    hide Unescape;
    if a == [] {
      assert a + b == b;
    } else {
      assert (a + b)[1..] == a[1..] + b && (a + b)[0] == a[0];
      UnescapeConcat(a[1..], b);
    }
  }

  lemma {:induction false} PiecesAre(keys: seq<string>)
    requires keys != []
    ensures UnescapeAll(Split(Join(keys))) == Pieces(keys)
  {
    hide Split, UnescapeAll;
    if |keys| == 1 {
      assert Pieces(keys[1..]) == [];
      assert UnescapeAll(Split(keys[0])) + [] == UnescapeAll(Split(keys[0]));
    } else {
      SplitConcat(keys[0], Join(keys[1..]));
      UnescapeConcat(Split(keys[0]), Split(Join(keys[1..])));
      PiecesAre(keys[1..]);
    }
  }

  /** For any list of keys, the look-up follows the pieces of the keys one by one. */
  lemma LookupIs(keys: seq<string>, json: Json)
    ensures Evaluate(json, PointerTo(keys)) == Walk(json, ReadAs(keys))
  {
    hide Split, UnescapeAll, Walk, Join;
    TokensAre(keys);
    if keys == [] {
      EmptyPointer();
    } else {
      PiecesAre(keys);
    }
  }

  lemma EmptyPointer()
    ensures UnescapeAll(Split(Join([]))) == [""]
  {
    hide Unescape;
    UnescapeShortens("");
  }

  /** The keys are read as they are written exactly when there is one and none needs escaping. */
  lemma ReadAsWritten(keys: seq<string>)
    ensures ReadAs(keys) == keys <==> Plain(keys)
  {
    hide Split, UnescapeAll, Join, Plain, Pieces;
    TokensIff(keys);
    TokensAre(keys);
    if keys == [] {
      EmptyPointer();
    } else {
      PiecesAre(keys);
    }
  }

  lemma WalkOne(json: Json, key: string)
    ensures Walk(json, [key]) == Child(json, key)
  {
    hide Child;
    assert [key][1..] == [];
  }

  /** Without any key the JSON pointer is "/" and asks for the member named by the empty string, not
      for the whole value. */
  lemma NoKeys(json: Json)
    ensures Evaluate(json, PointerTo([])) == Child(json, "")
  {
    hide Child, Walk, Evaluate, PointerTo;
    LookupIs([], json);
    WalkOne(json, "");
  }
}
