/**
 * The repeated-slash redirect of `HttpUrlRedirectMiddleware` in
 * service/req_utils.py: `re.sub('//+', '/', path)` and when it applies.
 */
module SlashRedirect {

  /** The path has a run of two or more slashes (the pattern `//+` is found). */
  predicate HasDoubleSlash(s: string)
  {
    exists i :: 0 <= i < |s| - 1 && s[i] == '/' && s[i + 1] == '/'
  }

  function DropSlashes(s: string): (r: string)
    ensures |r| <= |s| && (r == [] || r[0] != '/')
    ensures NonSlash(r) == NonSlash(s)
    decreases |s|
  {
    if s != [] && s[0] == '/' then DropSlashes(s[1..]) else s
  }

  /** Every run of slashes becomes a single slash. */
  function Collapse(s: string): (r: string)
    decreases |s|
  {
    if s == [] then []
    else if s[0] == '/' then "/" + Collapse(DropSlashes(s[1..]))
    else [s[0]] + Collapse(s[1..])
  }

  /** The characters other than '/', in order. */
  function NonSlash(s: string): string
    decreases |s|
  {
    if s == [] then [] else (if s[0] == '/' then [] else [s[0]]) + NonSlash(s[1..])
  }

  /** Character `i` of `s` is a '/' straight after another '/': the pattern `//+` removes it. */
  predicate RepeatedSlashAt(s: string, i: int)
    requires 0 <= i < |s|
  {
    i > 0 && s[i - 1] == '/' && s[i] == '/'
  }

  /** Reference definition: `s[i..]` with every repeated slash (judged within the whole of `s`) left out. */
  function WithoutRepeatedSlashes(s: string, i: nat): string
    requires i <= |s|
    decreases |s| - i
  {
    if i == |s| then []
    else (if RepeatedSlashAt(s, i) then [] else [s[i]]) + WithoutRepeatedSlashes(s, i + 1)
  }

  lemma {:induction false} WithoutRepeatedSlashesFrom(s: string, i: nat)
    requires i <= |s|
    ensures (i == 0 || s[i - 1] != '/') ==> WithoutRepeatedSlashes(s, i) == Collapse(s[i..])
    ensures (i > 0 && s[i - 1] == '/') ==> WithoutRepeatedSlashes(s, i) == Collapse(DropSlashes(s[i..]))
    decreases |s| - i
  {
    if i < |s| {
      WithoutRepeatedSlashesFrom(s, i + 1);
      var rest := s[i..];
      assert rest[0] == s[i] && rest[1..] == s[i + 1..];
    }
  }

  /** The collapse is `s` with exactly those slashes removed that come straight after another slash. */
  lemma CollapseRemovesRepeatedSlashes(s: string)
    ensures Collapse(s) == WithoutRepeatedSlashes(s, 0)
  {
    WithoutRepeatedSlashesFrom(s, 0);
    assert s[0..] == s;
  }

  /** `re.sub('//+', '/', "/a//b")` is "/a/b". */
  lemma CollapseExample()
    ensures Collapse("/a//b") == "/a/b"
    ensures Collapse("//x///") == "/x/"
  {
  }

  /** Collapsing keeps the first character's kind: a path starts with '/' before iff after. */
  lemma {:induction false} CollapseHead(s: string)
    ensures |Collapse(s)| <= |s|
    ensures Collapse(s) == [] <==> s == []
    ensures s != [] ==> Collapse(s)[0] == s[0]
    decreases |s|
  {
    if s != [] {
      if s[0] == '/' { CollapseHead(DropSlashes(s[1..])); } else { CollapseHead(s[1..]); }
    }
  }

  /** The collapsed path has no "//". */
  lemma {:induction false} CollapseNoDoubleSlash(s: string)
    ensures !HasDoubleSlash(Collapse(s))
    decreases |s|
  {
    if s != [] {
      var r := Collapse(s);
      if s[0] == '/' {
        var t := DropSlashes(s[1..]);
        CollapseNoDoubleSlash(t);
        CollapseHead(t);
        assert r == "/" + Collapse(t);
        forall i | 0 <= i < |r| - 1 ensures !(r[i] == '/' && r[i + 1] == '/') {
          if i > 0 { assert r[i] == Collapse(t)[i - 1] && r[i + 1] == Collapse(t)[i]; }
        }
      } else {
        CollapseNoDoubleSlash(s[1..]);
        var c := Collapse(s[1..]);
        assert r == [s[0]] + c;
        forall i | 0 <= i < |r| - 1 ensures !(r[i] == '/' && r[i + 1] == '/') {
          if i > 0 { assert r[i] == c[i - 1] && r[i + 1] == c[i]; }
        }
      }
    }
  }

  /** Collapsing keeps every other character, in order. */
  lemma {:induction false} CollapseKeepsNonSlash(s: string)
    ensures NonSlash(Collapse(s)) == NonSlash(s)
    decreases |s|
  {
    if s != [] {
      if s[0] == '/' {
        var t := DropSlashes(s[1..]);
        CollapseKeepsNonSlash(t);
        assert ("/" + Collapse(t))[1..] == Collapse(t);
      } else {
        CollapseKeepsNonSlash(s[1..]);
        assert ([s[0]] + Collapse(s[1..]))[1..] == Collapse(s[1..]);
      }
    }
  }

  /** A path without "//" is its own collapse. */
  lemma {:induction false} CollapseFixpoint(s: string)
    requires !HasDoubleSlash(s)
    ensures Collapse(s) == s
    decreases |s|
  {
    if s != [] {
      var tail := s[1..];
      assert !HasDoubleSlash(tail) by {
        forall i | 0 <= i < |tail| - 1 ensures !(tail[i] == '/' && tail[i + 1] == '/') {
          assert tail[i] == s[i + 1] && tail[i + 1] == s[i + 2];
        }
      }
      if s[0] == '/' {
        assert tail == [] || tail[0] != '/' by {
          if tail != [] { assert s[0] == '/' && s[1] == tail[0]; }
        }
        assert DropSlashes(tail) == tail;
      }
      CollapseFixpoint(tail);
    }
  }

  /** A path with "//" gets strictly shorter. */
  lemma {:induction false} CollapseShortens(s: string)
    requires HasDoubleSlash(s)
    ensures |Collapse(s)| < |s|
    decreases |s|
  {
    var i :| 0 <= i < |s| - 1 && s[i] == '/' && s[i + 1] == '/';
    if i == 0 {
      var t := DropSlashes(s[1..]);
      assert |t| < |s[1..]| by { assert s[1..][0] == '/'; }
      CollapseHead(t);
    } else {
      var tail := s[1..];
      assert tail[i - 1] == '/' && tail[i] == '/';
      assert HasDoubleSlash(tail);
      if s[0] == '/' {
        var t := DropSlashes(tail);
        CollapseHead(t);
        if tail[0] != '/' {
          assert t == tail;
          CollapseShortens(tail);
        } else {
          assert |t| < |tail|;
        }
      } else {
        CollapseShortens(tail);
      }
    }
  }

  /** The collapse leaves a path unchanged exactly when the path has no "//". */
  lemma CollapseUnchangedIff(s: string)
    ensures Collapse(s) == s <==> !HasDoubleSlash(s)
  {
    if HasDoubleSlash(s) { CollapseShortens(s); } else { CollapseFixpoint(s); }
  }

  /** Collapsing twice is collapsing once. */
  lemma CollapseIdempotent(s: string)
    ensures Collapse(Collapse(s)) == Collapse(s)
  {
    CollapseNoDoubleSlash(s);
    CollapseFixpoint(Collapse(s));
  }

  /** What the middleware does with a request. */
  datatype Action = PassThrough | Redirect(path: string, statusCode: int)

  /** An http request whose path has "//" is redirected (307) to the collapsed path; all else passes through. */
  function Route(scopeType: string, path: string): (a: Action)
    ensures a.Redirect? <==> scopeType == "http" && HasDoubleSlash(path)
    ensures a.Redirect? ==> a.statusCode == 307 && !HasDoubleSlash(a.path) && NonSlash(a.path) == NonSlash(path)
    ensures a.Redirect? ==> a.path == Collapse(path) && a.path == WithoutRepeatedSlashes(path, 0)
  {
    if scopeType == "http" && HasDoubleSlash(path) then
      CollapseRemovesRepeatedSlashes(path);
      CollapseNoDoubleSlash(path);
      CollapseKeepsNonSlash(path);
      Redirect(Collapse(path), 307)
    else PassThrough
  }

  /** Following a redirect does not redirect again. */
  lemma RedirectTargetPassesThrough(path: string)
    requires Route("http", path).Redirect?
    ensures Route("http", Route("http", path).path) == PassThrough
  {
    CollapseNoDoubleSlash(path);
  }
}
