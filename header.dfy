/**
 * The `Authorization` header is read as `authHeader.split(" ")[1]`: the second
 * segment of the header value split at every single space. This module models
 * `String.prototype.split(" ")` and proves it is the inverse of joining with " ".
 */
module Header {
  import opened Wrappers

  /** The segments of `s` between single spaces, like JavaScript's `s.split(" ")`. */
  function Split(s: string): (parts: seq<string>)
    ensures |parts| >= 1
    ensures forall i :: 0 <= i < |parts| ==> ' ' !in parts[i]
    decreases |s|
  {
    if s == [] then [""]
    else if s[0] == ' ' then [""] + Split(s[1..])
    else
      var rest := Split(s[1..]);
      [[s[0]] + rest[0]] + rest[1..]
  }

  /** The segments glued back together with single spaces, like `parts.join(" ")`. */
  function Join(parts: seq<string>): string
    requires |parts| >= 1
    decreases |parts|
  {
    if |parts| == 1 then parts[0] else parts[0] + " " + Join(parts[1..])
  }

  /** Splitting then joining gives back the header unchanged. */
  lemma {:induction false} JoinSplit(s: string)
    ensures Join(Split(s)) == s
    decreases |s|
  {
    if s == [] {
    } else if s[0] == ' ' {
      JoinSplit(s[1..]);
      assert Split(s)[1..] == Split(s[1..]);
    } else {
      var rest := Split(s[1..]);
      JoinSplit(s[1..]);
      if |rest| == 1 {
        assert Join(Split(s)) == [s[0]] + rest[0];
      } else {
        assert Split(s)[1..] == rest[1..];
        assert Join(rest) == rest[0] + " " + Join(rest[1..]);
        assert Join(Split(s)) == [s[0]] + rest[0] + " " + Join(rest[1..]);
      }
      assert s == [s[0]] + s[1..];
    }
  }

  /** Splitting a space-free prefix `a` in front of `r` extends the first segment of `r`. */
  lemma {:induction false} SplitPrefix(a: string, r: string)
    requires ' ' !in a
    ensures Split(a + r) == [a + Split(r)[0]] + Split(r)[1..]
    decreases |a|
  {
    if a == [] {
      assert a + r == r;
      assert a + Split(r)[0] == Split(r)[0];
      assert Split(r) == [Split(r)[0]] + Split(r)[1..];
    } else {
      assert a[0] in a;
      assert (a + r)[1..] == a[1..] + r;
      assert ' ' !in a[1..] by {
        forall i | 0 <= i < |a[1..]| ensures a[1..][i] != ' ' {
          assert a[1..][i] == a[i + 1];
        }
      }
      SplitPrefix(a[1..], r);
      assert [a[0]] + (a[1..] + Split(r)[0]) == a + Split(r)[0];
    }
  }

  /** Space-free segments joined by single spaces split back into exactly those segments. */
  lemma {:induction false} SplitJoin(parts: seq<string>)
    requires |parts| >= 1
    requires forall i :: 0 <= i < |parts| ==> ' ' !in parts[i]
    ensures Split(Join(parts)) == parts
    decreases |parts|
  {
    if |parts| == 1 {
      SplitPrefix(parts[0], "");
      assert parts[0] + "" == parts[0];
    } else {
      SplitJoin(parts[1..]);
      var tail := " " + Join(parts[1..]);
      assert Split(tail) == [""] + parts[1..] by {
        assert tail[0] == ' ' && tail[1..] == Join(parts[1..]);
      }
      SplitPrefix(parts[0], tail);
      assert parts[0] + " " + Join(parts[1..]) == parts[0] + tail;
      assert parts[0] + "" == parts[0];
    }
  }

  /** The token the server hands to the identity oracle: the second segment, if any. */
  function TokenOf(header: string): (token: Option<string>)
    ensures token.Some? ==> ' ' !in token.value && token.value in Split(header)
    ensures token.Some? ==> |Split(header)| >= 2 && token.value == Split(header)[1]
  {
    var parts := Split(header);
    if |parts| >= 2 then Some(parts[1]) else None
  }

  /** A second segment exists exactly when the header contains a space. */
  lemma TokenIffSpace(header: string)
    ensures TokenOf(header).Some? <==> ' ' in header
  {
    JoinSplit(header);
    var parts := Split(header);
    if |parts| >= 2 {
      assert Join(parts) == parts[0] + " " + Join(parts[1..]);
      assert header[|parts[0]|] == ' ';
    } else {
      assert header == parts[0];
    }
  }

  /**
   * Whatever follows the second segment (nothing, or a space and more), the token is
   * the second space-separated word: `"Bearer a b"` yields `a`.
   */
  lemma {:induction false} TokenIsSecondWord(scheme: string, token: string, rest: string)
    requires ' ' !in scheme && ' ' !in token
    requires rest == [] || rest[0] == ' '
    ensures TokenOf(scheme + " " + token + rest) == Some(token)
  {
    assert Split(rest)[0] == "" by {
      if rest != [] {
        assert Split(rest) == [""] + Split(rest[1..]);
      }
    }
    SplitPrefix(token, rest);
    var tail := " " + (token + rest);
    assert tail[0] == ' ' && tail[1..] == token + rest;
    assert Split(tail) == [""] + Split(token + rest);
    SplitPrefix(scheme, tail);
    assert scheme + " " + token + rest == scheme + tail;
    assert Split(scheme + tail)[1] == Split(tail)[1] == Split(token + rest)[0] == token + "";
    assert token + "" == token;
  }

  /**
   * `<scheme> <token>` yields `token` whatever the scheme word is: the server never
   * checks that the scheme is `Bearer` (section 2.1 of RFC 6750 names that scheme).
   */
  lemma SchemeNotChecked(scheme: string, token: string)
    requires ' ' !in scheme && ' ' !in token
    ensures TokenOf(scheme + " " + token) == Some(token)
  {
    SplitJoin([scheme, token]);
    assert Join([scheme, token]) == scheme + " " + token;
  }
}
