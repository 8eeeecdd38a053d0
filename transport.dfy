/**
 * The base-path prefix rule of prefixRoundTripper in
 * internal/api/transport.go. The request is an object whose URL path the
 * round tripper rewrites in place before handing the same request to the
 * next round tripper, which is not modelled.
 */
module Transport {
  import opened Strings

  /** The parts of an outgoing request the round tripper can see. */
  class Request {
    var path: string
    var host: string
    var rawQuery: string
    var verb: string

    constructor(verb: string, host: string, path: string, rawQuery: string)
      ensures this.verb == verb && this.host == host && this.path == path && this.rawQuery == rawQuery
    {
      this.verb := verb;
      this.host := host;
      this.path := path;
      this.rawQuery := rawQuery;
    }
  }

  /** The rewritten path: unchanged when it already starts with the base;
      otherwise the base without trailing `/`, one `/`, and the path
      without leading `/`. */
  function Prefixed(base: string, path: string): (r: string)
    ensures HasPrefix(path, base) ==> r == path
    ensures !HasPrefix(path, base) ==>
      && HasPrefix(r, TrimRightChar(base, '/') + "/")
      && r[|TrimRightChar(base, '/')| + 1..] == TrimLeftChar(path, '/')
  {
    if HasPrefix(path, base) then path
    else
      var b := TrimRightChar(base, '/');
      assert (b + "/" + TrimLeftChar(path, '/'))[..|b| + 1] == b + "/";
      b + "/" + TrimLeftChar(path, '/')
  }

  /** The base ends in at most one `/`. */
  predicate OneTrailingSlash(base: string) {
    base == TrimRightChar(base, '/') || base == TrimRightChar(base, '/') + "/"
  }

  /** With at most one trailing `/` on the base, rewriting a rewritten path
      changes nothing: the result already starts with the base. */
  lemma PrefixedIdempotent(base: string, path: string)
    requires OneTrailingSlash(base)
    ensures HasPrefix(Prefixed(base, path), base)
    ensures Prefixed(base, Prefixed(base, path)) == Prefixed(base, path)
  {
    var r := Prefixed(base, path);
    if !HasPrefix(path, base) {
      var b := TrimRightChar(base, '/');
      assert r[..|b| + 1] == b + "/";
      if base == b {
        assert r[..|base|] == (b + "/")[..|b|];
      }
    }
  }

  /** Two trailing slashes break that: with base `/a//` the path `x` becomes
      `/a/x`, which does not start with the base and is rewritten again. */
  lemma DoubleSlashBaseNotIdempotent()
    ensures Prefixed("/a//", "x") == "/a/x"
    ensures Prefixed("/a//", Prefixed("/a//", "x")) == "/a/a/x"
  {
    var base := "/a//";
    assert !HasPrefix("x", base);
    assert TrimRightChar(base, '/') == "/a" by {
      assert TrimRightChar("/a/", '/') == TrimRightChar("/a", '/');
      assert TrimRightChar("/a", '/') == "/a";
    }
    assert TrimLeftChar("x", '/') == "x";
    assert !HasPrefix("/a/x", base) by {
      assert "/a/x"[3] != base[3];
    }
    var once := Prefixed(base, "x");
    assert once == "/a/x";
    assert TrimLeftChar(once, '/') == "a/x" by {
      assert once[1..] == "a/x";
      assert TrimLeftChar(once, '/') == TrimLeftChar("a/x", '/');
    }
    assert !HasPrefix(once, base);
    assert Prefixed(base, once) == "/a" + "/" + "a/x";
    assert "/a" + "/" + "a/x" == "/a/a/x";
  }

  /** A prefixRoundTripper with its configured base. */
  class PrefixRoundTripper {
    const base: string

    constructor(base: string)
      ensures this.base == base
    {
      this.base := base;
    }

    /** RoundTrip: rewrites the path of `r` in place and forwards `r` itself;
        nothing else of the request changes. */
    method RoundTrip(r: Request) returns (forwarded: Request)
      modifies r
      ensures forwarded == r
      ensures r.path == Prefixed(base, old(r.path))
      ensures r.host == old(r.host) && r.rawQuery == old(r.rawQuery) && r.verb == old(r.verb)
    {
      var path := r.path;
      if !HasPrefix(path, base) {
        r.path := TrimRightChar(base, '/') + "/" + TrimLeftChar(path, '/');
      }
      assert r.path == Prefixed(base, path);
      forwarded := r;
    }
  }
}
