/** JavaScript's `String.prototype.split(' ')` on a single space, and the
    `[1]` index both authenticate files apply to its result. */
module Strings {
  import opened Types

  /** `s.split(' ')`: the maximal space-free pieces between single spaces,
      empty pieces included; "" splits into [""]. */
  function Split(s: string): (r: seq<string>)
    ensures |r| >= 1
    ensures forall i :: 0 <= i < |r| ==> ' ' !in r[i]
  {
    if s == [] then [""]
    else
      var rest := Split(s[1..]);
      if s[0] == ' ' then [""] + rest
      else [[s[0]] + rest[0]] + rest[1..]
  }

  /** `parts.join(' ')`, the inverse of `Split`. */
  function Join(parts: seq<string>): string
    requires |parts| >= 1
  {
    if |parts| == 1 then parts[0] else parts[0] + " " + Join(parts[1..])
  }

  /** `s.split(' ')[1]`: `None` stands for JavaScript's `undefined`, which
      it is exactly when the string has no space; otherwise the second
      piece, itself space-free. */
  function TokenField(s: string): (r: Option<string>)
    ensures r.None? <==> ' ' !in s
    ensures r.Some? ==> |Split(s)| >= 2 && r.value == Split(s)[1] && ' ' !in r.value
  {
    SplitSingle(s);
    var parts := Split(s);
    if |parts| >= 2 then Some(parts[1]) else None
  }

  /** Joining the pieces gives back the string that was split. */
  lemma {:induction false} JoinSplit(s: string)
    ensures Join(Split(s)) == s
  {
    if s != [] {
      var rest := Split(s[1..]);
      JoinSplit(s[1..]);
      if s[0] == ' ' {
        assert Split(s) == [""] + rest;
        assert Split(s)[1..] == rest;
      } else {
        assert Split(s) == [[s[0]] + rest[0]] + rest[1..];
        if |rest| > 1 {
          assert Split(s)[1..] == rest[1..];
          assert Join(rest) == rest[0] + " " + Join(rest[1..]);
        }
      }
    }
  }

  /** A space-free word followed by one space splits off as a piece of its own. */
  lemma {:induction false} SplitAfterWord(a: string, b: string)
    requires ' ' !in a
    ensures Split(a + " " + b) == [a] + Split(b)
  {
    var s := a + " " + b;
    if a == [] {
      assert s == " " + b && s[1..] == b;
    } else {
      assert s[0] == a[0] && s[1..] == a[1..] + " " + b;
      SplitAfterWord(a[1..], b);
      assert [a[0]] + a[1..] == a;
    }
  }

  /** A space-free string is a single piece. */
  lemma {:induction false} SplitWord(a: string)
    requires ' ' !in a
    ensures Split(a) == [a]
  {
    if a != [] {
      SplitWord(a[1..]);
      assert [a[0]] + a[1..] == a;
    }
  }

  /** Splitting the join of space-free pieces gives the pieces back. */
  lemma {:induction false} SplitJoin(parts: seq<string>)
    requires |parts| >= 1
    requires forall i :: 0 <= i < |parts| ==> ' ' !in parts[i]
    ensures Split(Join(parts)) == parts
  {
    if |parts| == 1 {
      SplitWord(parts[0]);
    } else {
      SplitJoin(parts[1..]);
      SplitAfterWord(parts[0], Join(parts[1..]));
      assert [parts[0]] + parts[1..] == parts;
    }
  }

  /** The string has a second piece exactly when it contains a space. */
  lemma {:induction false} SplitSingle(s: string)
    ensures |Split(s)| == 1 <==> ' ' !in s
  {
    if s != [] {
      SplitSingle(s[1..]);
      assert s == [s[0]] + s[1..];
    }
  }

  /** A space-free word followed by nothing or by a space is the first piece. */
  lemma {:induction false} SplitHead(t: string, rest: string)
    requires ' ' !in t
    requires rest == [] || rest[0] == ' '
    ensures Split(t + rest)[0] == t
  {
    if t != [] {
      assert (t + rest)[1..] == t[1..] + rest;
      SplitHead(t[1..], rest);
      assert [t[0]] + t[1..] == t;
    }
  }

  /** `split(' ')[1]` is the word between the first and the second space,
      and never contains a space itself. */
  lemma TokenFieldOf(scheme: string, t: string, rest: string)
    requires ' ' !in scheme && ' ' !in t
    requires rest == [] || rest[0] == ' '
    ensures TokenField(scheme + " " + t + rest) == Some(t)
  {
    assert scheme + " " + t + rest == scheme + " " + (t + rest);
    SplitAfterWord(scheme, t + rest);
    SplitHead(t, rest);
  }

  /** The header the gateway sends upstream, `"Bearer " + token`, yields
      that token back under `split(' ')[1]`. */
  lemma BearerRoundTrip(token: string)
    requires ' ' !in token
    ensures TokenField("Bearer " + token) == Some(token)
  {
    TokenFieldOf("Bearer", token, "");
    assert "Bearer" + " " + token + "" == "Bearer " + token;
  }
}
