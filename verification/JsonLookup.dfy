/** What a JSON pointer finds, said in terms of the value and the text of the pointer only: elements of
    arrays by their position in decimal, members of objects by their name, and nothing else. */
module JsonLookup {
  import opened Types
  import opened JsonPointer

  /** Section 3 of RFC 6901: in a pointer a tilde is written ~0 and a slash ~1. */
  function Escape(key: string): string {
    if key == "" then ""
    else (if key[0] == '~' then "~0" else if key[0] == '/' then "~1" else [key[0]]) + Escape(key[1..])
  }

  /** A way to write a key in a pointer: escaped, or as it is when it contains no slash and no escape. */
  predicate Writes(token: string, key: string) {
    token == Escape(key) || (token == key && PlainKey(key))
  }

  // ----- Numbers -----

  predicate AllDigits(s: string) { forall i :: 0 <= i < |s| ==> '0' <= s[i] <= '9' }

  lemma {:induction false} WrittenIs(n: nat)
    ensures Written(n) != "" && AllDigits(Written(n)) && Decimal(Written(n)) == n
    ensures Written(n)[0] == '0' ==> n == 0
  {
    var s := Written(n);
    if n < 10 {
      assert s[..0] == "";
    } else {
      WrittenIs(n / 10);
      assert s[..|s| - 1] == Written(n / 10) && s[0] == Written(n / 10)[0];
    }
  }

  lemma WrittenMore(n: nat, d: nat)
    requires n > 0 && d < 10
    ensures Written(10 * n + d) == Written(n) + [Digit(d)]
  {
    assert (10 * n + d) / 10 == n && (10 * n + d) % 10 == d;
  }

  lemma DecimalMore(digits: string, c: char)
    requires AllDigits(digits) && '0' <= c <= '9'
    ensures AllDigits(digits + [c]) && Decimal(digits + [c]) == 10 * Decimal(digits) + (c as int - '0' as int)
    ensures Digit(c as int - '0' as int) == c
  {
    assert (digits + [c])[..|digits|] == digits;
  }

  lemma {:induction false} WrittenOnce(s: string)
    requires s != "" && AllDigits(s) && (s[0] == '0' ==> |s| == 1)
    ensures s == Written(Decimal(s)) && (s[0] != '0' ==> Decimal(s) > 0)
  {
    hide Written, Decimal, Digit;
    var last, most := s[|s| - 1], s[..|s| - 1];
    var d := last as int - '0' as int;
    assert s == most + [last];
    DecimalMore(most, last);
    if most == "" {
      OneDigit(d);
    } else {
      assert most[0] == s[0];
      WrittenOnce(most);
      WrittenMore(Decimal(most), d);
    }
  }

  lemma OneDigit(d: nat)
    requires d < 10
    ensures Written(d) == [Digit(d)] && Decimal("") == 0
  {
  }

  lemma ArrayIndexIff(token: string, i: nat)
    ensures ArrayIndex(token) == Some(i) <==> token == Written(i)
  {
    WrittenIs(i);
    OneDigit(0);
    if ArrayIndex(token) == Some(i) {
      WrittenOnce(token);
    }
  }

  // ----- Keys -----

  lemma {:induction false} ReplaceConcat(x: string, s: string, a: char, b: char, c: char)
    requires |x| == 1 && (x[0] != a || s == "" || s[0] != b)
    ensures Replace(x + s, a, b, c) == x + Replace(s, a, b, c)
  {
    assert (x + s)[1..] == s;
    if s != "" { assert (x + s)[1] == s[0]; }
  }

  lemma ReplacePair(s: string, a: char, b: char, c: char)
    ensures Replace([a, b] + s, a, b, c) == [c] + Replace(s, a, b, c)
  {
    assert ([a, b] + s)[2..] == s;
  }

  /** Without the slashes: what is left to do after the first replacement. */
  function Half(key: string): string {
    if key == "" then "" else (if key[0] == '~' then "~0" else [key[0]]) + Half(key[1..])
  }

  lemma {:induction false} FirstReplacement(key: string)
    ensures Replace(Escape(key), '~', '1', '/') == Half(key)
  {
    if key != "" {
      var rest := Escape(key[1..]);
      FirstReplacement(key[1..]);
      if key[0] == '~' {
        assert "~0" + rest == "~" + ("0" + rest);
        ReplaceConcat("~", "0" + rest, '~', '1', '/');
        ReplaceConcat("0", rest, '~', '1', '/');
        assert "~" + ("0" + Half(key[1..])) == "~0" + Half(key[1..]);
      } else if key[0] == '/' {
        ReplacePair(rest, '~', '1', '/');
      } else {
        ReplaceConcat([key[0]], rest, '~', '1', '/');
      }
    }
  }

  lemma {:induction false} SecondReplacement(key: string)
    ensures Replace(Half(key), '~', '0', '~') == key
  {
    if key != "" {
      var rest := Half(key[1..]);
      SecondReplacement(key[1..]);
      if key[0] == '~' {
        ReplacePair(rest, '~', '0', '~');
      } else {
        ReplaceConcat([key[0]], rest, '~', '0', '~');
      }
      assert [key[0]] + key[1..] == key;
    }
  }

  lemma {:induction false} EscapeHasNoSlash(key: string)
    ensures '/' !in Escape(key)
  {
    if key != "" {
      EscapeHasNoSlash(key[1..]);
    }
  }

  /** A key is read back from every way to write it. */
  lemma ReadBack(token: string, key: string)
    requires Writes(token, key)
    ensures '/' !in token && Unescape(token) == key
  {
    if token == Escape(key) {
      EscapeHasNoSlash(key);
      FirstReplacement(key);
      SecondReplacement(key);
    } else {
      UnescapeShortens(key);
    }
  }

  // ----- Pointers -----

  /** The pointer to these keys, each written in some way. */
  function Pointer(tokens: seq<string>): string {
    if tokens == [] then "" else "/" + tokens[0] + Pointer(tokens[1..])
  }

  lemma {:induction false} SplitTokens(tokens: seq<string>)
    requires tokens != [] && forall i :: 0 <= i < |tokens| ==> '/' !in tokens[i]
    ensures Split(tokens[0] + Pointer(tokens[1..])) == tokens
  {
    hide Split;
    var first, rest := tokens[0], tokens[1..];
    if rest == [] {
      assert first + Pointer(rest) == first;
      SplitWhole(first);
    } else {
      var more := rest[0] + Pointer(rest[1..]);
      SplitTokens(rest);
      assert first + Pointer(rest) == first + "/" + more;
      SplitPrefix(first, more);
    }
    assert [first] + rest == tokens;
  }

  lemma {:induction false} PointerStarts(tokens: seq<string>)
    requires tokens != []
    ensures Pointer(tokens) == "" + "/" + (tokens[0] + Pointer(tokens[1..]))
  {
  }

  lemma {:induction false} SplitPointer(tokens: seq<string>)
    requires forall i :: 0 <= i < |tokens| ==> '/' !in tokens[i]
    ensures Split(Pointer(tokens)) == [""] + tokens
  {
    hide Split;
    if tokens == [] {
      SplitWhole("");
    } else {
      hide Pointer;
      SplitTokens(tokens);
      PointerStarts(tokens);
      SplitPrefix("", tokens[0] + Pointer(tokens[1..]));
    }
  }

  lemma {:induction false} UnescapeWritten(tokens: seq<string>, keys: seq<string>)
    requires |tokens| == |keys| && forall i :: 0 <= i < |keys| ==> Writes(tokens[i], keys[i])
    ensures UnescapeAll(tokens) == keys && forall i :: 0 <= i < |tokens| ==> '/' !in tokens[i]
  {
    hide Writes, Unescape;
    forall i | 0 <= i < |tokens|
      ensures '/' !in tokens[i] && UnescapeAll(tokens)[i] == keys[i]
    {
      ReadBack(tokens[i], keys[i]);
      UnescapeAllAt(tokens, i);
    }
  }

  /** Every key can be written in a pointer, and is then followed as it is. */
  lemma PointsTo(json: Json, tokens: seq<string>, keys: seq<string>)
    requires |tokens| == |keys| && forall i :: 0 <= i < |keys| ==> Writes(tokens[i], keys[i])
    ensures Evaluate(json, Pointer(tokens)) == Walk(json, keys)
  {
    hide Writes, Split, UnescapeAll, Walk;
    UnescapeWritten(tokens, keys);
    SplitPointer(tokens);
    assert ([""] + tokens)[1..] == tokens;
    if tokens == [] {
      assert Walk(json, []) == Some(json) by { WalkNothing(json); }
    } else {
      assert Pointer(tokens)[0] == '/';
    }
  }

  lemma WalkNothing(json: Json)
    ensures Walk(json, []) == Some(json)
  {
  }

  lemma OneKey(json: Json, token: string, key: string)
    requires Writes(token, key)
    ensures Evaluate(json, "/" + token) == Child(json, key)
  {
    hide Writes, Evaluate, Child;
    assert [token][1..] == [] && "/" + token + "" == "/" + token;
    assert Pointer([token]) == "/" + token;
    PointsTo(json, [token], [key]);
    assert [key][1..] == [];
  }

  // ----- What is found -----

  /** In an array, the element whose position is written; and nothing under any other key. */
  lemma ElementIs(elems: seq<Json>, token: string, key: string)
    requires Writes(token, key)
    ensures forall i: nat :: i < |elems| && key == Written(i) ==>
              Evaluate(JArray(elems), "/" + token) == Some(elems[i])
    ensures (forall i: nat :: i < |elems| ==> key != Written(i)) ==> Evaluate(JArray(elems), "/" + token) == None
  {
    hide Writes, Evaluate, Written, ArrayIndex;
    OneKey(JArray(elems), token, key);
    forall i: nat
      ensures ArrayIndex(key) == Some(i) <==> key == Written(i)
    {
      ArrayIndexIff(key, i);
    }
    if ArrayIndex(key).Some? {
      assert key == Written(ArrayIndex(key).value);
    }
  }

  /** So element `i` is found under its number. */
  lemma ElementAt(elems: seq<Json>, i: nat)
    requires i < |elems|
    ensures Evaluate(JArray(elems), "/" + Written(i)) == Some(elems[i])
  {
    hide Evaluate;
    WrittenIs(i);
    ElementIs(elems, Written(i), Written(i));
  }

  /** In an object, the member of that name; in anything else, nothing. */
  lemma MemberIs(json: Json, token: string, key: string)
    requires Writes(token, key)
    ensures json.JObject? ==>
              Evaluate(json, "/" + token) == if key in json.members then Some(json.members[key]) else None
    ensures !json.JObject? && !json.JArray? ==> Evaluate(json, "/" + token) == None
  {
    hide Writes, Evaluate;
    OneKey(json, token, key);
  }

  /** A longer pointer goes on from what its first key finds. The empty pointer finds the whole value. */
  lemma GoesOn(json: Json, tokens: seq<string>, keys: seq<string>)
    requires tokens != [] && |tokens| == |keys| && forall i :: 0 <= i < |keys| ==> Writes(tokens[i], keys[i])
    ensures var first := Evaluate(json, "/" + tokens[0]);
            Evaluate(json, Pointer(tokens)) ==
              if first.None? then None else Evaluate(first.value, Pointer(tokens[1..]))
    ensures Evaluate(json, Pointer([])) == Some(json)
  {
    hide Writes, Evaluate, Child;
    PointsTo(json, tokens, keys);
    OneKey(json, tokens[0], keys[0]);
    if Child(json, keys[0]).Some? {
      PointsTo(Child(json, keys[0]).value, tokens[1..], keys[1..]);
    }
    PointsTo(json, [], []);
  }

  lemma {:induction false} PointerJoins(keys: seq<string>)
    requires keys != []
    ensures PointerTo(keys) == Pointer(keys)
  {
    if |keys| == 1 {
      assert keys[1..] == [];
    } else {
      PointerJoins(keys[1..]);
      assert "/" + (keys[0] + "/" + Join(keys[1..])) == "/" + keys[0] + ("/" + Join(keys[1..]));
    }
  }

  /** The contract's pointer to plain keys looks up the first key, and goes on from there. */
  lemma RestrictionGoesOn(json: Json, keys: seq<string>)
    requires Plain(keys)
    ensures var first := Evaluate(json, "/" + keys[0]);
            Evaluate(json, PointerTo(keys)) ==
              if first.None? then None
              else if |keys| == 1 then first
              else Evaluate(first.value, PointerTo(keys[1..]))
  {
    hide Evaluate, PlainKey, Escape;
    PointerJoins(keys);
    GoesOn(json, keys, keys);
    if |keys| > 1 {
      PointerJoins(keys[1..]);
    } else if Evaluate(json, "/" + keys[0]).Some? {
      var found := Evaluate(json, "/" + keys[0]).value;
      GoesOn(found, keys, keys);
      assert keys[1..] == [];
    }
  }
}
