/**
  JavaScript value conventions the BoardRoom code relies on, stated once:
  optional values (null / undefined), truthiness of strings, `String.prototype.trim`
  over a small fixed whitespace set, and property lookup in an object literal used as
  a string-keyed table whose keys keep declaration order.
 */
module JsValues {

  /** A value that may be null or undefined. */
  datatype Option<+T> = None | Some(value: T)

  /** A string-typed value is truthy iff it is present and non-empty. */
  predicate Truthy(s: Option<string>) {
    s.Some? && s.value != ""
  }

  /** `a || fallback` for an optional string. */
  function OrElse(a: Option<string>, fallback: string): string {
    if Truthy(a) then a.value else fallback
  }

  /** The whitespace `trim` removes, reduced to a fixed set of characters. */
  predicate IsSpace(c: char) {
    c == ' ' || c == '\t' || c == '\n' || c == '\r' || c == '\U{000B}'
    || c == '\U{000C}' || c == '\U{00A0}' || c == '\U{FEFF}'
  }

  /** Every character is whitespace (this includes the empty string). */
  predicate Blank(s: string) {
    forall i :: 0 <= i < |s| ==> IsSpace(s[i])
  }

  /** Neither end of `s` is whitespace. */
  predicate Trimmed(s: string) {
    s == "" || (!IsSpace(s[0]) && !IsSpace(s[|s| - 1]))
  }

  /** Drops leading whitespace: the result is a suffix of `s` that starts with
      a non-space, and everything dropped was whitespace. */
  function TrimStart(s: string): (r: string)
    ensures |r| <= |s| && r == s[|s| - |r|..]
    ensures r == "" || !IsSpace(r[0])
    ensures Blank(s[..|s| - |r|])
  {
    if |s| > 0 && IsSpace(s[0]) then TrimStart(s[1..]) else s
  }

  /** Drops trailing whitespace: the result is a prefix of `s` that ends with
      a non-space, and everything dropped was whitespace. */
  function TrimEnd(s: string): (r: string)
    ensures |r| <= |s| && r == s[..|r|]
    ensures r == "" || !IsSpace(r[|r| - 1])
    ensures Blank(s[|r|..])
  {
    if |s| > 0 && IsSpace(s[|s| - 1]) then TrimEnd(s[..|s| - 1]) else s
  }

  /** `s.trim()`: the infix of `s` left after removing whitespace from both ends. */
  function Trim(s: string): (r: string)
    ensures Trimmed(r)
    ensures r == "" <==> Blank(s)
  {
    TrimSplits(s, TrimStart(s), TrimEnd(TrimStart(s)));
    TrimEnd(TrimStart(s))
  }

  /** What `trim` removes is whitespace at the two ends: the result is an infix of `s`
      with only whitespace before and after it. */
  lemma TrimIsInfix(s: string)
    ensures var r := Trim(s);
      exists i :: 0 <= i <= |s| - |r| && r == s[i..i + |r|] && Blank(s[..i]) && Blank(s[i + |r|..])
  {
    var a := SplitForTrim(s);
    InfixOfSplit(s, a, Trim(s));
  }

  /** The suffix `a` of `s` left by `TrimStart`, of which `Trim(s)` is the prefix left by `TrimEnd`. */
  lemma SplitForTrim(s: string) returns (a: string)
    ensures |a| <= |s| && a == s[|s| - |a|..] && Blank(s[..|s| - |a|])
    ensures |Trim(s)| <= |a| && Trim(s) == a[..|Trim(s)|] && Blank(a[|Trim(s)|..])
  {
    a := TrimStart(s);
    assert Trim(s) == TrimEnd(a);
  }

  /** A prefix `r` of a suffix `a` of `s`, with whitespace cut off on both sides, is an infix of `s`. */
  lemma InfixOfSplit(s: string, a: string, r: string)
    requires |a| <= |s| && a == s[|s| - |a|..] && Blank(s[..|s| - |a|])
    requires |r| <= |a| && r == a[..|r|] && Blank(a[|r|..])
    ensures exists i :: 0 <= i <= |s| - |r| && r == s[i..i + |r|] && Blank(s[..i]) && Blank(s[i + |r|..])
  {
    var i := |s| - |a|;
    assert s[i + |r|..] == a[|r|..];
    assert r == s[i..i + |r|] && Blank(s[..i]) && Blank(s[i + |r|..]);
  }

  /** How `r := TrimEnd(TrimStart(s))` sits inside `s`. */
  lemma TrimSplits(s: string, a: string, r: string)
    requires |a| <= |s| && a == s[|s| - |a|..] && Blank(s[..|s| - |a|])
    requires a == "" || !IsSpace(a[0])
    requires |r| <= |a| && r == a[..|r|] && Blank(a[|r|..])
    requires r == "" || !IsSpace(r[|r| - 1])
    ensures Trimmed(r)
    ensures r == "" <==> Blank(s)
  {
    var i := |s| - |a|;
    assert r == "" <==> Blank(s) by {
      assert s == s[..i] + a;
      assert a == r + a[|r|..];
      BlankConcat(s[..i], a);
      BlankConcat(r, a[|r|..]);
      if r != "" {
        assert r[0] == a[0];
      }
    }
    assert Trimmed(r) by {
      if r != "" {
        assert r[0] == a[0];
      }
    }
  }

  lemma BlankConcat(x: string, y: string)
    ensures Blank(x + y) <==> Blank(x) && Blank(y)
  {
    if Blank(x + y) {
      assert forall k :: 0 <= k < |x| ==> x[k] == (x + y)[k];
      assert forall k :: 0 <= k < |y| ==> y[k] == (x + y)[|x| + k];
    }
  }

  /** Trimming pads of whitespace off a trimmed string gives that string back. */
  lemma {:induction false} TrimOfPadded(pre: string, t: string, post: string)
    requires Blank(pre) && Blank(post) && Trimmed(t)
    ensures Trim(pre + t + post) == t
  {
    var s := pre + t + post;
    if t == "" {
      assert Blank(s) by {
        BlankConcat(pre, post);
        assert s == pre + post;
      }
    } else {
      assert TrimStart(s) == t + post by {
        assert s == pre + (t + post);
        TrimStartOfPadded(pre, t + post);
      }
      assert TrimEnd(t + post) == t by {
        TrimEndOfPadded(t, post);
      }
    }
  }

  lemma {:induction false} TrimStartOfPadded(pre: string, rest: string)
    requires Blank(pre) && (rest == "" || !IsSpace(rest[0]))
    ensures TrimStart(pre + rest) == rest
    decreases |pre|
  {
    if |pre| > 0 {
      assert (pre + rest)[1..] == pre[1..] + rest;
      TrimStartOfPadded(pre[1..], rest);
    } else {
      assert pre + rest == rest;
    }
  }

  lemma {:induction false} TrimEndOfPadded(rest: string, post: string)
    requires Blank(post) && (rest == "" || !IsSpace(rest[|rest| - 1]))
    ensures TrimEnd(rest + post) == rest
    decreases |post|
  {
    if |post| > 0 {
      assert (rest + post)[..|rest + post| - 1] == rest + post[..|post| - 1];
      TrimEndOfPadded(rest, post[..|post| - 1]);
    } else {
      assert rest + post == rest;
    }
  }

  /** A string with no whitespace at either end is its own trim. */
  lemma TrimOfTrimmed(t: string)
    requires Trimmed(t)
    ensures Trim(t) == t
  {
    assert "" + t + "" == t;
    assert Trim("" + t + "") == t by {
      assert Blank("");
      TrimOfPadded("", t, "");
    }
  }

  /** `trim` is idempotent. */
  lemma TrimIdempotent(s: string)
    ensures Trim(Trim(s)) == Trim(s)
  {
    TrimOfTrimmed(Trim(s));
  }

  /** The keys of a table, in declaration order (`Object.keys`). */
  function Keys<V>(table: seq<(string, V)>): (ks: seq<string>)
    ensures |ks| == |table|
    ensures forall i :: 0 <= i < |table| ==> ks[i] == table[i].0
  {
    seq(|table|, i requires 0 <= i < |table| => table[i].0)
  }

  /** `table[key]`: the value of the first entry with that key, or undefined. */
  function Lookup<V>(table: seq<(string, V)>, key: string): (r: Option<V>)
    ensures r.None? <==> key !in Keys(table)
  {
    if |table| == 0 then None
    else if table[0].0 == key then Some(table[0].1)
    else
      assert Keys(table) == [table[0].0] + Keys(table[1..]);
      Lookup(table[1..], key)
  }

  /** The lookup finds the value of the first entry with the key. */
  lemma {:induction false} LookupFirst<V>(table: seq<(string, V)>, key: string, i: nat)
    requires i < |table| && table[i].0 == key && key !in Keys(table)[..i]
    ensures Lookup(table, key) == Some(table[i].1)
    decreases i
  {
    if i > 0 {
      assert Keys(table)[0] == table[0].0;
      assert Keys(table[1..])[..i - 1] == Keys(table)[1..i];
      LookupFirst(table[1..], key, i - 1);
    }
  }

  /** `keys.indexOf(x)`: the position of the first occurrence of `x`, or -1. */
  function IndexOf(keys: seq<string>, x: string): (r: int)
    ensures -1 <= r < |keys|
    ensures r == -1 <==> x !in keys
    ensures 0 <= r ==> keys[r] == x && x !in keys[..r]
  {
    if |keys| == 0 then -1
    else if keys[0] == x then 0
    else
      var i := IndexOf(keys[1..], x);
      if i == -1 then -1
      else
        assert keys[..i + 1] == [keys[0]] + keys[1..][..i];
        i + 1
  }

  /** No key occurs twice. */
  predicate Distinct(ks: seq<string>) {
    forall i, j :: 0 <= i < j < |ks| ==> ks[i] != ks[j]
  }

  /** In a table with distinct keys, a key finds the value of its own entry. */
  lemma LookupDistinct<V>(table: seq<(string, V)>, key: string)
    requires Distinct(Keys(table))
    ensures forall i :: 0 <= i < |table| && table[i].0 == key ==> Lookup(table, key) == Some(table[i].1)
  {
    forall i | 0 <= i < |table| && table[i].0 == key
      ensures Lookup(table, key) == Some(table[i].1)
    {
      LookupFirst(table, key, i);
    }
  }

}
