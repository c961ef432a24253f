/**
 * Request paths of an endpoint: `formatUrl` builds "/" + prefix + "/" + endpoint and then
 * replaces every run of one or more '/' by a single '/' (the global regular expression `/\/+/`).
 */
module Paths {

  /** No two consecutive characters of `s` are both '/'. */
  predicate NoDoubleSlash(s: seq<char>) {
    forall i :: 0 <= i < |s| - 1 ==> !(s[i] == '/' && s[i + 1] == '/')
  }

  /** The characters of `s` other than '/', in their order. */
  function WithoutSlashes(s: seq<char>): seq<char> {
    if s == [] then []
    else if s[0] == '/' then WithoutSlashes(s[1..])
    else [s[0]] + WithoutSlashes(s[1..])
  }

  /**
   * Replaces each maximal run of '/' in `s` by one '/': a '/' is dropped exactly when the next
   * character is a '/' as well, so each run keeps its last separator.
   */
  function Collapse(s: seq<char>): (r: seq<char>)
    ensures |r| <= |s|
    ensures |s| > 0 ==> |r| > 0 && r[0] == s[0]
    ensures NoDoubleSlash(r)
  {
    if |s| <= 1 then s
    else if s[0] == '/' && s[1] == '/' then Collapse(s[1..])
    else [s[0]] + Collapse(s[1..])
  }

  /** The path of `endpoint` under the resource family `prefix`. */
  function FormatUrl(prefix: seq<char>, endpoint: seq<char>): (url: seq<char>)
    ensures |url| > 0 && url[0] == '/'
    ensures NoDoubleSlash(url)
  {
    Collapse("/" + prefix + "/" + endpoint)
  }

  lemma {:induction false} WithoutSlashesAppend(a: seq<char>, b: seq<char>)
    ensures WithoutSlashes(a + b) == WithoutSlashes(a) + WithoutSlashes(b)
  {
    if a != [] {
      assert (a + b)[0] == a[0] && (a + b)[1..] == a[1..] + b;
      WithoutSlashesAppend(a[1..], b);
    } else {
      assert a + b == b;
    }
  }

  /** Collapsing only removes separators: every other character is kept, in order. */
  lemma {:induction false} CollapseKeepsNonSlashes(s: seq<char>)
    ensures WithoutSlashes(Collapse(s)) == WithoutSlashes(s)
  {
    if |s| > 1 {
      CollapseKeepsNonSlashes(s[1..]);
      if !(s[0] == '/' && s[1] == '/') {
        WithoutSlashesAppend([s[0]], Collapse(s[1..]));
      }
    }
  }

  /** The strings collapsing leaves unchanged are exactly those without a doubled separator. */
  lemma {:induction false} CollapseFixesExactlyNormalForms(s: seq<char>)
    ensures Collapse(s) == s <==> NoDoubleSlash(s)
  {
    if |s| > 1 && NoDoubleSlash(s) {
      assert NoDoubleSlash(s[1..]) by {
        forall i | 0 <= i < |s[1..]| - 1 ensures !(s[1..][i] == '/' && s[1..][i + 1] == '/') {
          assert s[1..][i] == s[i + 1] && s[1..][i + 1] == s[i + 2];
        }
      }
      CollapseFixesExactlyNormalForms(s[1..]);
      assert !(s[0] == '/' && s[1] == '/');
      assert s == [s[0]] + s[1..];
    }
  }

  /** Collapsing twice gives the same string as collapsing once. */
  lemma CollapseIdempotent(s: seq<char>)
    ensures Collapse(Collapse(s)) == Collapse(s)
  {
    CollapseFixesExactlyNormalForms(Collapse(s));
  }

  /**
   * One rewriting step "//" -> "/" anywhere in the string does not change the collapsed result;
   * with CollapseFixesExactlyNormalForms this makes Collapse the normal form of that rewriting,
   * which is what replacing every run of separators by one separator means.
   */
  lemma {:induction false} CollapseStep(a: seq<char>, b: seq<char>)
    ensures Collapse(a + "//" + b) == Collapse(a + "/" + b)
  {
    if a == [] {
      assert a + "//" + b == ['/'] + (a + "/" + b);
      assert (a + "//" + b)[1..] == a + "/" + b;
    } else {
      var long, short := a + "//" + b, a + "/" + b;
      assert long[1..] == a[1..] + "//" + b;
      assert short[1..] == a[1..] + "/" + b;
      assert long[0] == short[0] == a[0];
      assert long[1] == short[1];
      CollapseStep(a[1..], b);
    }
  }

  /** The path keeps the characters of prefix and endpoint other than '/', in order. */
  lemma FormatUrlKeepsSegments(prefix: seq<char>, endpoint: seq<char>)
    ensures WithoutSlashes(FormatUrl(prefix, endpoint)) == WithoutSlashes(prefix) + WithoutSlashes(endpoint)
  {
    var raw := "/" + prefix + "/" + endpoint;
    CollapseKeepsNonSlashes(raw);
    assert raw == "/" + (prefix + ("/" + endpoint));
    WithoutSlashesAppend("/", prefix + ("/" + endpoint));
    WithoutSlashesAppend(prefix, "/" + endpoint);
    WithoutSlashesAppend("/", endpoint);
  }

  /** A path is already collapsed: collapsing it again changes nothing. */
  lemma FormatUrlIsCollapsed(prefix: seq<char>, endpoint: seq<char>)
    ensures Collapse(FormatUrl(prefix, endpoint)) == FormatUrl(prefix, endpoint)
  {
    CollapseFixesExactlyNormalForms(FormatUrl(prefix, endpoint));
  }

  /** Separators at the edges of prefix or endpoint make no difference to the path. */
  lemma FormatUrlIgnoresEdgeSlashes(prefix: seq<char>, endpoint: seq<char>)
    ensures FormatUrl(prefix, "/" + endpoint) == FormatUrl(prefix, endpoint)
    ensures FormatUrl(prefix + "/", endpoint) == FormatUrl(prefix, endpoint)
    ensures FormatUrl("/" + prefix, endpoint) == FormatUrl(prefix, endpoint)
  {
    var clean := "/" + prefix + "/" + endpoint;
    assert "/" + prefix + "/" + ("/" + endpoint) == ("/" + prefix) + "//" + endpoint;
    assert clean == ("/" + prefix) + "/" + endpoint;
    CollapseStep("/" + prefix, endpoint);
    assert "/" + (prefix + "/") + "/" + endpoint == ("/" + prefix) + "//" + endpoint;
    assert "/" + ("/" + prefix) + "/" + endpoint == [] + "//" + (prefix + "/" + endpoint);
    assert clean == [] + "/" + (prefix + "/" + endpoint);
    CollapseStep([], prefix + "/" + endpoint);
  }

  /**
   * When the prefix is a non-empty segment sequence without separators at its edges and the endpoint
   * neither starts with nor doubles a separator, the path is literally "/" + prefix + "/" + endpoint.
   */
  lemma FormatUrlOfCleanSegments(prefix: seq<char>, endpoint: seq<char>)
    requires prefix != [] && prefix[0] != '/' && prefix[|prefix| - 1] != '/' && NoDoubleSlash(prefix)
    requires endpoint == [] || endpoint[0] != '/'
    requires NoDoubleSlash(endpoint)
    ensures FormatUrl(prefix, endpoint) == "/" + prefix + "/" + endpoint
  {
    var raw := "/" + prefix + "/" + endpoint;
    var n := |prefix|;
    assert NoDoubleSlash(raw) by {
      forall i | 0 <= i < |raw| - 1 ensures !(raw[i] == '/' && raw[i + 1] == '/') {
        if i == 0 {
          assert raw[1] == prefix[0];
        } else if i < n {
          assert raw[i] == prefix[i - 1] && raw[i + 1] == prefix[i];
        } else if i == n {
          assert raw[i] == prefix[n - 1];
        } else if i == n + 1 {
          assert raw[i + 1] == endpoint[0];
        } else {
          assert raw[i] == endpoint[i - n - 2] && raw[i + 1] == endpoint[i - n - 1];
        }
      }
    }
    CollapseFixesExactlyNormalForms(raw);
  }

  /**
   * Paths of the "memory" resource family, with and without a leading separator on the endpoint,
   * and of the "plugins" upload.
   */
  lemma FormatUrlExamples()
    ensures FormatUrl("memory", "points") == "/memory/points"
    ensures FormatUrl("memory", "/points") == "/memory/points"
    ensures FormatUrl("memory", "") == "/memory/"
    ensures FormatUrl("plugins", "upload") == "/plugins/upload"
  {
    FormatUrlOfCleanSegments("memory", "points");
    FormatUrlIgnoresEdgeSlashes("memory", "points");
    assert "/points" == "/" + "points";
    FormatUrlOfCleanSegments("memory", "");
    FormatUrlOfCleanSegments("plugins", "upload");
  }
}
