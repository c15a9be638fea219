/** Go's `path.Base`, which the login handler applies to the path of the
    redirect target to recognise the login endpoint itself. */
module Paths {

  /** `k` slash characters. */
  function Slashes(k: nat): (r: string)
    ensures |r| == k && forall i :: 0 <= i < k ==> r[i] == '/'
  {
    seq(k, _ => '/')
  }

  /** `p` without its trailing '/' characters. */
  function TrimTrailingSlashes(p: string): (r: string)
    ensures |r| <= |p| && r == p[..|r|]
    ensures r == "" || r[|r| - 1] != '/'
    ensures forall i :: |r| <= i < |p| ==> p[i] == '/'
  {
    if p != [] && p[|p| - 1] == '/' then TrimTrailingSlashes(p[..|p| - 1]) else p
  }

  /** The part of `p` after its last '/', or all of `p` when it has none. */
  function AfterLastSlash(p: string): (r: string)
    ensures |r| <= |p| && r == p[|p| - |r|..]
    ensures '/' !in r
    ensures |r| < |p| ==> p[|p| - |r| - 1] == '/'
  {
    if p == [] || p[|p| - 1] == '/' then [] else AfterLastSlash(p[..|p| - 1]) + [p[|p| - 1]]
  }

  /** `path.Base`: the last element of a slash-separated path, trailing
      slashes ignored; "." for the empty path and "/" for a path made of
      slashes only. */
  function Base(p: string): (r: string)
    ensures r != ""
    ensures r == "/" || '/' !in r
    ensures p != "" && '/' !in p ==> r == p
    ensures p == "" ==> r == "."
    ensures p != "" && TrimTrailingSlashes(p) == "" ==> r == "/"
  {
    if p == "" then "."
    else
      var t := TrimTrailingSlashes(p);
      if t == "" then "/" else AfterLastSlash(t)
  }

  /** Trailing slashes do not change what trimming leaves. */
  lemma {:induction false} TrimIgnoresSlashes(p: string, k: nat)
    ensures TrimTrailingSlashes(p + Slashes(k)) == TrimTrailingSlashes(p)
  {
    if k > 0 {
      var q := p + Slashes(k);
      assert q[|q| - 1] == '/';
      assert q[..|q| - 1] == p + Slashes(k - 1);
      TrimIgnoresSlashes(p, k - 1);
    } else {
      assert p + Slashes(0) == p;
    }
  }

  /** What follows the last slash of `dir + "/" + name` is `name`, when
      `name` holds no slash. */
  lemma {:induction false} AfterLastSlashOfJoin(dir: string, name: string)
    requires '/' !in name
    ensures AfterLastSlash(dir + "/" + name) == name
  {
    var p := dir + "/" + name;
    if name == [] {
      assert p[|p| - 1] == '/';
    } else {
      var last := name[|name| - 1];
      assert last in name;
      assert p[..|p| - 1] == dir + "/" + name[..|name| - 1];
      assert forall c :: c in name[..|name| - 1] ==> c in name;
      AfterLastSlashOfJoin(dir, name[..|name| - 1]);
      assert name[..|name| - 1] + [last] == name;
    }
  }

  /** The base of `dir/name/`, with any number of trailing slashes, is
      `name`: so a referer such as `https://a/b/login` or `/login/` has
      base "login". */
  lemma BaseOfJoin(dir: string, name: string, k: nat)
    requires name != "" && '/' !in name
    ensures Base(dir + "/" + name + Slashes(k)) == name
  {
    var p := dir + "/" + name;
    assert name[|name| - 1] in name;
    assert p[|p| - 1] == name[|name| - 1];
    TrimIgnoresSlashes(p, k);
    assert TrimTrailingSlashes(p) == p;
    AfterLastSlashOfJoin(dir, name);
  }

  /** A path without slashes is all after its last slash. */
  lemma AfterLastSlashOfName(p: string)
    requires '/' !in p
    ensures AfterLastSlash(p) == p
  {
    if |AfterLastSlash(p)| < |p| {
      assert false;
    }
  }

  /** The base of a relative `name/`, with any number of trailing slashes,
      is `name`: so a referer such as `login/` has base "login" too. */
  lemma BaseOfTrailing(name: string, k: nat)
    requires name != "" && '/' !in name
    ensures Base(name + Slashes(k)) == name
  {
    assert name[|name| - 1] in name;
    TrimIgnoresSlashes(name, k);
    assert TrimTrailingSlashes(name) == name;
    AfterLastSlashOfName(name);
  }
}
