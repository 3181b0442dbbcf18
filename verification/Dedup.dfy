/** The hook path parser and the dedup key of internal/relay/util.go. */
module Dedup {
  import opened Wrappers

  const NUL: char := '\0'

  predicate NulFree(s: string) {
    NUL !in s
  }

  /** What dedupKey feeds to the hash. */
  function Preimage(httpMethod: string, path: string, body: string): string {
    httpMethod + [NUL] + path + [NUL] + body
  }

  const DIGEST_LENGTH := 64

  /** The hexadecimal text of a SHA-256 sum. There are finitely many, so that no hash is
      injective on all texts. */
  type Digest = s: string | |s| == DIGEST_LENGTH witness seq(DIGEST_LENGTH, _ => '0')

  function DedupKey(hash: string -> Digest, httpMethod: string, path: string, body: string): string {
    hash(Preimage(httpMethod, path, body))
  }

  /** Texts before the first NUL are given by the whole. */
  lemma {:induction false} FirstNul(a: string, b: string, r: string, t: string)
    requires NulFree(a) && NulFree(b) && a + [NUL] + r == b + [NUL] + t
    ensures a == b && r == t
  {
    var s := a + [NUL] + r;
    assert s[|a|] == NUL && s[|b|] == NUL;
    assert forall i | 0 <= i < |a| :: s[i] == a[i] && a[i] in a;
    assert forall i | 0 <= i < |b| :: s[i] == b[i] && b[i] in b;
    assert |a| == |b|;
    assert a == s[..|a|] && b == s[..|b|];
    assert r == s[|a| + 1..] && t == s[|b| + 1..];
  }

  /** Equal keys mean equal deliveries, for methods and paths without NUL. */
  lemma {:induction false} PreimageInjective(m: string, p: string, b: string, m': string, p': string, b': string)
    requires NulFree(m) && NulFree(m') && NulFree(p) && NulFree(p')
    ensures Preimage(m, p, b) == Preimage(m', p', b') <==> m == m' && p == p' && b == b'
  {
    if Preimage(m, p, b) == Preimage(m', p', b') {
      var (r, r') := (p + [NUL] + b, p' + [NUL] + b');
      assert Preimage(m, p, b) == m + [NUL] + r && Preimage(m', p', b') == m' + [NUL] + r';
      FirstNul(m, m', r, r');
      FirstNul(p, p', b, b');
    }
  }

  /** Paths come percent-decoded, so one can contain NUL. Two deliveries are confused
      exactly when they are equal or one path continues the other after a NUL and the
      rest of it, a NUL and the one body are the other body. */
  lemma {:induction false} DeliveriesCollide(m: string, p: string, b: string, p': string, b': string)
    ensures Preimage(m, p, b) == Preimage(m, p', b')
            <==> || (p == p' && b == b')
                 || (exists r :: Continues(p, b, p', b', r))
                 || (exists r :: Continues(p', b', p, b, r))
  {
    if Preimage(m, p, b) == Preimage(m, p', b') {
      if |p| <= |p'| { SharedText(m, p, b, p', b'); } else { SharedText(m, p', b', p, b); }
    }
    if r :| Continues(p, b, p', b', r) { SameText(m, p, b, p', b', r); }
    if r :| Continues(p', b', p, b, r) { SameText(m, p', b', p, b, r); }
  }

  /** p' goes on with a NUL and r, and so does what follows p. */
  predicate Continues(p: string, b: string, p': string, b': string, r: string) {
    p' == p + [NUL] + r && b == r + [NUL] + b'
  }

  lemma {:induction false} SharedText(m: string, p: string, b: string, p': string, b': string)
    requires |p| <= |p'| && Preimage(m, p, b) == Preimage(m, p', b')
    ensures (p == p' && b == b') || exists r :: Continues(p, b, p', b', r)
  {
    var (s, s') := (p + [NUL] + b, p' + [NUL] + b');
    assert Preimage(m, p, b) == m + [NUL] + s && Preimage(m, p', b') == m + [NUL] + s';
    assert s == Preimage(m, p, b)[|m| + 1..] && s' == Preimage(m, p', b')[|m| + 1..];
    assert s == s';
    assert p == s[..|p|] && b == s[|p| + 1..] && p' == s[..|p'|] && b' == s[|p'| + 1..];
    if |p| < |p'| {
      assert s[|p|] == NUL && s[|p'|] == NUL;
      var r := s[|p| + 1..|p'|];
      assert p' == p + [NUL] + r && b == r + [NUL] + b';
      assert Continues(p, b, p', b', r);
    }
  }

  lemma {:induction false} SameText(m: string, p: string, b: string, p': string, b': string, r: string)
    requires Continues(p, b, p', b', r)
    ensures Preimage(m, p, b) == Preimage(m, p', b')
  {
    assert p + [NUL] + b == p' + [NUL] + b';
    assert Preimage(m, p, b) == m + [NUL] + (p + [NUL] + b) && Preimage(m, p', b') == m + [NUL] + (p' + [NUL] + b');
  }

  // ---- /hook/<token>/<path> ----

  predicate StartsWith(s: string, t: string) {
    |t| <= |s| && s[..|t|] == t
  }

  /** Where the first '/' of s is, or its length. */
  function FirstSlash(s: string): (n: nat)
    ensures n <= |s| && '/' !in s[..n] && (n < |s| ==> s[n] == '/')
  {
    if s == [] || s[0] == '/' then 0 else
      var n := 1 + FirstSlash(s[1..]);
      assert s[..n] == [s[0]] + s[1..][..n - 1];
      n
  }

  /** parseTokenPath: the token, and the path to forward with its leading '/'. */
  function ParseTokenPath(path: string, prefix: string): (r: Option<(string, string)>)
    ensures r.Some? ==> r.value.0 != "" && '/' !in r.value.0 && |r.value.1| > 0 && r.value.1[0] == '/'
  {
    var rest := if StartsWith(path, prefix) then path[|prefix|..] else path;
    if rest == path || rest == "" then None
    else
      var n := FirstSlash(rest);
      var token := rest[..n];
      var suffix := if n < |rest| then rest[n + 1..] else "";
      if token == "" then None
      else if suffix == "" then Some((token, "/")) else Some((token, "/" + suffix))
  }

  lemma {:induction false} FirstSlashUnique(token: string, rest: string)
    requires '/' !in token
    ensures FirstSlash(token) == |token| && FirstSlash(token + "/" + rest) == |token|
  {
    var s := token + "/" + rest;
    var (n, k) := (FirstSlash(s), FirstSlash(token));
    assert s[|token|] == '/';
    assert forall i | 0 <= i < |token| :: s[i] == token[i] && token[i] in token;
    assert forall i | 0 <= i < n :: s[..n][i] == s[i] && s[i] in s[..n];
    assert n == |token|;
    assert k == |token|;
  }

  /** The parser accepts exactly the paths made of the prefix, a token, and optionally
      '/' and more; it recovers the token and everything from that '/' on. */
  lemma {:induction false} ParseRecovers(prefix: string, token: string, suffix: string)
    requires prefix != "" && token != "" && '/' !in token
    ensures ParseTokenPath(prefix + token, prefix) == Some((token, "/"))
    ensures ParseTokenPath(prefix + token + "/" + suffix, prefix) == Some((token, "/" + suffix))
  {
    FirstSlashUnique(token, suffix);
    var (a, b) := (prefix + token, prefix + token + "/" + suffix);
    assert a[..|prefix|] == prefix && a[|prefix|..] == token;
    assert b[..|prefix|] == prefix && b[|prefix|..] == token + "/" + suffix;
    var rest := token + "/" + suffix;
    assert rest[..|token|] == token && rest[|token| + 1..] == suffix && token[..|token|] == token;
    assert |token| < |a| && |rest| < |b|;
    assert suffix == "" ==> "/" + suffix == "/";
  }

  /** A text cut at its first '/' and put together again. */
  lemma {:induction false} CutAtSlash(rest: string)
    ensures var n := FirstSlash(rest); rest == rest[..n] + (if n < |rest| then "/" + rest[n + 1..] else "")
  {
    var n := FirstSlash(rest);
    if n < |rest| {
      assert rest == rest[..n] + [rest[n]] + rest[n + 1..];
    }
    hide FirstSlash;
  }

  lemma {:induction false} ParseOnlyThose(path: string, prefix: string)
    requires prefix != "" && ParseTokenPath(path, prefix).Some?
    ensures var (token, forward) := ParseTokenPath(path, prefix).value;
            path == prefix + (token + forward) || (forward == "/" && path == prefix + token)
  {
    hide FirstSlash;
    var rest := path[|prefix|..];
    assert path == prefix + rest;
    CutAtSlash(rest);
    var (n, r) := (FirstSlash(rest), ParseTokenPath(path, prefix).value);
    if n < |rest| {
      assert rest == r.0 + r.1;
    } else {
      assert rest[..n] == rest;
      assert r == (rest, "/");
    }
  }
}
