/**
 Directory paths: normalisation, component-wise prefixes and rollup group keys.

 A canonical directory path is "/" followed by its components, each ended by "/".
 The program works on strings; this module proves that its string tests mean what
 they should on components.
 */
module Paths {

  // ---- the string primitives the program uses ------------------------------------

  function LeftStrip(s: string): string {
    if s != "" && s[0] == '/' then LeftStrip(s[1..]) else s
  }

  function RightStrip(s: string): string {
    if s != "" && s[|s| - 1] == '/' then RightStrip(s[..|s| - 1]) else s
  }

  // path.strip("/")
  function Strip(s: string): string { RightStrip(LeftStrip(s)) }

  function Slash(s: string): (n: nat)
    ensures n <= |s|
    ensures n < |s| ==> s[n] == '/'
    ensures forall i :: 0 <= i < n ==> s[i] != '/'
  {
    if s == "" || s[0] == '/' then 0 else 1 + Slash(s[1..])
  }

  // s.split("/")
  function Split(s: string): (parts: seq<string>)
    ensures parts != []
    decreases |s|
  {
    var n := Slash(s);
    if n == |s| then [s] else [s[..n]] + Split(s[n + 1..])
  }

  function NonEmpty(parts: seq<string>): seq<string> {
    if parts == [] then [] else (if parts[0] != "" then [parts[0]] else []) + NonEmpty(parts[1..])
  }

  function Parts(s: string): seq<string> { NonEmpty(Split(s)) }

  // "/".join(parts)
  function Join(parts: seq<string>): string {
    if parts == [] then "" else if |parts| == 1 then parts[0] else parts[0] + "/" + Join(parts[1..])
  }

  function Take<T>(s: seq<T>, n: nat): seq<T> { if n <= |s| then s[..n] else s }

  // ---- the program's path functions ------------------------------------------------

  function NormalizePrefix(path: string): string {
    var p := "/" + Strip(path);
    if p == "/" then p else p + "/"
  }

  function GroupKey(parentPath: string, prefix: string, depth: nat): string {
    var rest := if |prefix| <= |parentPath| then parentPath[|prefix|..] else "";
    var parts := Parts(rest);
    if parts == [] then "." else Join(Take(parts, depth))
  }

  function ChildPath(path: string, name: string): string { path + name + "/" }

  // ---- canonical paths -----------------------------------------------------------------

  predicate Component(c: string) { c != "" && '/' !in c }

  predicate Components(cs: seq<string>) { forall c <- cs :: Component(c) }

  function Tail(cs: seq<string>): string {
    if cs == [] then "" else cs[0] + "/" + Tail(cs[1..])
  }

  function DirPath(cs: seq<string>): string { "/" + Tail(cs) }

  // ---- splitting and joining are inverse --------------------------------------------------

  lemma SlashAt(c: string, rest: string)
    requires '/' !in c
    ensures Slash(c + "/" + rest) == |c|
    ensures Slash(c) == |c|
  {
    var s := c + "/" + rest;
    assert s[|c|] == '/';
    assert forall i :: 0 <= i < |c| ==> s[i] == c[i];
  }

  lemma SplitStep(c: string, rest: string)
    requires '/' !in c
    ensures Split(c + "/" + rest) == [c] + Split(rest)
  {
    SlashAt(c, rest);
    var s := c + "/" + rest;
    assert s[..|c|] == c && s[|c| + 1..] == rest;
  }

  lemma {:induction false} SplitPieces(s: string)
    ensures forall c <- Split(s) :: '/' !in c
    decreases |s|
  {
    var n := Slash(s);
    if n < |s| {
      SplitPieces(s[n + 1..]);
    }
  }

  lemma {:induction false} NonEmptyPieces(parts: seq<string>)
    requires forall c <- parts :: '/' !in c
    ensures Components(NonEmpty(parts))
    ensures Components(parts) ==> NonEmpty(parts) == parts
  {
    if parts != [] {
      NonEmptyPieces(parts[1..]);
      assert Components(parts) ==> Components(parts[1..]) && Component(parts[0]);
    }
  }

  lemma PartsAreComponents(s: string)
    ensures Components(Parts(s))
  {
    SplitPieces(s);
    NonEmptyPieces(Split(s));
  }

  lemma SplitNext(s: string)
    requires Slash(s) < |s|
    ensures var rest := Split(s[Slash(s) + 1..]); Split(s) == [s[..Slash(s)]] + rest && rest != []
  {
  }

  lemma JoinNext(c: string, rest: seq<string>)
    requires rest != []
    ensures Join([c] + rest) == c + "/" + Join(rest)
  {
    assert ([c] + rest)[1..] == rest;
  }

  lemma {:induction false} JoinOfSplit(s: string)
    ensures Join(Split(s)) == s
    decreases |s|
  {
    var n := Slash(s);
    if n < |s| {
      var rest := s[n + 1..];
      JoinOfSplit(rest);
      SplitNext(s);
      hide Split;
      JoinNext(s[..n], Split(rest));
      assert s == s[..n] + "/" + rest;
    }
  }

  lemma {:induction false} SplitOfJoin(cs: seq<string>)
    requires cs != [] && forall c <- cs :: '/' !in c
    ensures Split(Join(cs)) == cs
  {
    if |cs| == 1 {
      SlashAt(cs[0], "");
    } else {
      SplitOfJoin(cs[1..]);
      SplitStep(cs[0], Join(cs[1..]));
    }
  }

  lemma {:induction false} SplitOfTail(cs: seq<string>)
    requires Components(cs)
    ensures Split(Tail(cs)) == cs + [""]
  {
    if cs == [] {
      assert Split("") == [""];
    } else {
      hide Split;
      assert Component(cs[0]);
      SplitOfTail(cs[1..]);
      SplitStep(cs[0], Tail(cs[1..]));
      assert [cs[0]] + (cs[1..] + [""]) == cs + [""];
    }
  }

  lemma PartsOfTail(cs: seq<string>)
    requires Components(cs)
    ensures Parts(Tail(cs)) == cs
  {
    SplitOfTail(cs);
    NonEmptySnoc(cs);
    NonEmptyPieces(cs);
  }

  // ---- the prefix test ------------------------------------------------------------------------

  // On canonical paths, "starts with" is exactly "is an ancestor or the directory itself".
  lemma {:induction false} PrefixIsAncestor(a: seq<string>, b: seq<string>)
    requires Components(a) && Components(b)
    ensures DirPath(a) <= DirPath(b) <==> a <= b
  {
    TailPrefix(a, b);
    assert DirPath(a) <= DirPath(b) <==> Tail(a) <= Tail(b) by {
      assert DirPath(a)[1..] == Tail(a) && DirPath(b)[1..] == Tail(b);
    }
  }

  lemma TailPrefix(a: seq<string>, b: seq<string>)
    requires Components(a) && Components(b)
    ensures Tail(a) <= Tail(b) <==> a <= b
    ensures a <= b ==> Tail(b) == Tail(a) + Tail(b[|a|..])
  {
    if Tail(a) <= Tail(b) {
      PrefixOfTail(a, b);
    }
    if a <= b {
      TailConcat(a, b[|a|..]);
      assert b == a + b[|a|..];
    }
  }

  lemma {:induction false} TailConcat(a: seq<string>, b: seq<string>)
    ensures Tail(a + b) == Tail(a) + Tail(b)
  {
    if a == [] {
      assert a + b == b;
    } else {
      TailConcat(a[1..], b);
      assert (a + b)[1..] == a[1..] + b;
    }
  }

  lemma {:induction false} PrefixOfTail(a: seq<string>, b: seq<string>)
    requires Components(a) && Components(b) && Tail(a) <= Tail(b)
    ensures a <= b
  {
    if a != [] {
      assert b != [];
      assert Component(a[0]) && Component(b[0]);
      HeadsAgree(a, b);
      PrefixOfTail(a[1..], b[1..]);
      assert a == [a[0]] + a[1..] && b == [b[0]] + b[1..];
    }
  }

  lemma HeadsAgree(a: seq<string>, b: seq<string>)
    requires a != [] && b != [] && Component(a[0]) && Component(b[0]) && Tail(a) <= Tail(b)
    ensures a[0] == b[0]
    ensures Tail(a[1..]) <= Tail(b[1..])
  {
    hide Slash;
    var x, y := Tail(a[1..]), Tail(b[1..]);
    SamePlace(a[0], x, b[0], y);
    var n := |a[0]|;
    assert Tail(a)[n + 1..] == x && Tail(b)[n + 1..] == y;
  }

  // Two slash-free names, each followed by a slash, one text a prefix of the other.
  lemma SamePlace(c: string, x: string, d: string, y: string)
    requires '/' !in c && '/' !in d && c + "/" + x <= d + "/" + y
    ensures c == d
  {
    var s, t := c + "/" + x, d + "/" + y;
    assert s[|c|] == t[|c|] == '/';
    assert t[|d|] == '/';
    assert |c| == |d|;
    assert s[..|c|] == c && t[..|d|] == d;
  }

  // ---- group keys ------------------------------------------------------------------------------

  // The key of a file below a directory is its next components, at most `depth` of them, and
  // they can be read back from it; files in the directory itself get ".".
  lemma GroupKeyMeaning(prefix: seq<string>, dir: seq<string>, depth: nat)
    requires Components(prefix) && Components(dir) && prefix <= dir && depth >= 1
    ensures var key := GroupKey(DirPath(dir), DirPath(prefix), depth);
            if prefix == dir then key == "."
            else
              var rest := dir[|prefix|..];
              var names := if |rest| <= depth then rest else rest[..depth];
              key == Join(names) && Split(key) == names
  {
    TailPrefix(prefix, dir);
    var rest := dir[|prefix|..];
    assert DirPath(dir)[|DirPath(prefix)|..] == Tail(rest);
    PartsOfTail(rest);
    if prefix != dir {
      assert dir == prefix + rest;
      var names := Take(rest, depth);
      assert names == if |rest| <= depth then rest else rest[..depth];
      assert forall c <- names :: c in rest;
      SplitOfJoin(names);
    }
  }

  // Keys at a smaller depth are the truncations of keys at a larger one, for all strings.
  lemma GroupKeyTruncates(parentPath: string, prefix: string, depth: nat, less: nat)
    requires 1 <= less <= depth
    ensures GroupKey(GroupKey(parentPath, prefix, depth), "", less) == GroupKey(parentPath, prefix, less)
  {
    hide Parts, Join;
    var rest := if |prefix| <= |parentPath| then parentPath[|prefix|..] else "";
    PartsAreComponents(rest);
    var parts := Parts(rest);
    if parts == [] {
      NameIsKey(".", less);
    } else {
      PartsOfJoin(Take(parts, depth));
      var key := Join(Take(parts, depth));
      assert key[|""|..] == key;
      assert Take(Take(parts, depth), less) == Take(parts, less);
    }
  }

  // Components can be read back from the key they make.
  lemma PartsOfJoin(cs: seq<string>)
    requires Components(cs) && cs != []
    ensures Parts(Join(cs)) == cs
  {
    SplitOfJoin(cs);
    NonEmptyPieces(cs);
  }

  // A child directory's name is a key of its own: truncating it changes nothing.
  lemma NameIsKey(name: string, depth: nat)
    requires Component(name) && depth >= 1
    ensures GroupKey(name, "", depth) == name
  {
    assert name[|""|..] == name;
    SlashAt(name, "");
    assert Split(name) == [name];
    NonEmptyPieces([name]);
  }

  // ---- normalisation -----------------------------------------------------------------------------

  // No empty component inside.
  predicate Clean(s: string) {
    forall i, j :: 0 <= i < |s| && j == i + 1 && j < |s| && s[i] == '/' ==> s[j] != '/'
  }

  predicate Bare(s: string) {
    s != "" ==> s[0] != '/' && s[|s| - 1] != '/'
  }

  lemma {:induction false} LeftStripBare(s: string)
    ensures LeftStrip(s) != "" ==> LeftStrip(s)[0] != '/'
    ensures LeftStrip(s) != "" ==> s != "" && s[|s| - 1] == LeftStrip(s)[|LeftStrip(s)| - 1]
    ensures Parts(LeftStrip(s)) == Parts(s)
  {
    if s != "" && s[0] == '/' {
      LeftStripBare(s[1..]);
      assert s == "" + "/" + s[1..];
      SplitStep("", s[1..]);
      assert Split(s)[1..] == Split(s[1..]);
    }
  }

  lemma {:induction false} RightStripBare(s: string)
    ensures RightStrip(s) != "" ==> RightStrip(s)[|RightStrip(s)| - 1] != '/'
    ensures RightStrip(s) != "" ==> s != "" && s[0] == RightStrip(s)[0]
    ensures Parts(RightStrip(s)) == Parts(s)
  {
    if s != "" && s[|s| - 1] == '/' {
      var t := s[..|s| - 1];
      RightStripBare(t);
      assert s == t + "/";
      SplitTrailing(t);
    }
  }

  lemma SplitTrailing(t: string)
    ensures Parts(t + "/") == Parts(t)
  {
    SplitSlash(t);
    NonEmptySnoc(Split(t));
  }

  lemma {:induction false} SplitSlash(t: string)
    ensures Split(t + "/") == Split(t) + [""]
    decreases |t|
  {
    var n := Slash(t);
    if n == |t| {
      SplitStep(t, "");
      assert t + "/" + "" == t + "/";
      assert Split("") == [""];
    } else {
      var c, rest := t[..n], t[n + 1..];
      SplitSlash(rest);
      SplitAt(t, c, rest);
      assert t + "/" == c + "/" + (rest + "/") by {
        assert t == c + "/" + rest;
      }
      SplitAt(t + "/", c, rest + "/");
      Regroup(c, Split(rest));
    }
  }

  lemma SplitAt(s: string, c: string, rest: string)
    requires '/' !in c && s == c + "/" + rest
    ensures Split(s) == [c] + Split(rest)
  {
    SplitStep(c, rest);
  }

  lemma Regroup(c: string, parts: seq<string>)
    ensures [c] + (parts + [""]) == ([c] + parts) + [""]
  {
  }

  lemma {:induction false} NonEmptySnoc(parts: seq<string>)
    ensures NonEmpty(parts + [""]) == NonEmpty(parts)
  {
    if parts != [] {
      NonEmptySnoc(parts[1..]);
      assert (parts + [""])[1..] == parts[1..] + [""];
    }
  }

  lemma StripBare(path: string)
    ensures Bare(Strip(path)) && Parts(Strip(path)) == Parts(path)
  {
    LeftStripBare(path);
    RightStripBare(LeftStrip(path));
  }

  lemma {:induction false} BareIsStripped(s: string)
    requires Bare(s)
    ensures Strip("/" + s + "/") == s && Strip("/" + s) == s
  {
    assert ("/" + s + "/")[1..] == s + "/";
    assert ("/" + s)[1..] == s;
    if s == "" {
      assert LeftStrip("/" + s + "/") == LeftStrip(("/" + s + "/")[1..]) == LeftStrip("/") == "";
    } else {
      assert LeftStrip(s + "/") == s + "/" && LeftStrip(s) == s && RightStrip(s) == s;
      assert (s + "/")[..|s + "/"| - 1] == s;
    }
  }

  lemma {:induction false} CleanSplit(s: string)
    requires s != "" && Bare(s) && Clean(s)
    ensures Components(Split(s))
    decreases |s|
  {
    SplitPieces(s);
    var n := Slash(s);
    if n < |s| {
      var rest := s[n + 1..];
      assert rest != "" && rest[0] == s[n + 1] && rest[|rest| - 1] == s[|s| - 1];
      assert Clean(rest) by {
        forall i, j | 0 <= i < |rest| && j == i + 1 && j < |rest| && rest[i] == '/'
          ensures rest[j] != '/'
        {
          assert rest[i] == s[n + 1 + i] && rest[j] == s[n + 1 + j];
        }
      }
      CleanSplit(rest);
    }
  }

  lemma {:induction false} JoinClean(cs: seq<string>)
    requires Components(cs) && cs != []
    ensures Clean(Join(cs)) && Join(cs) != "" && Join(cs)[0] != '/'
    ensures Tail(cs) == Join(cs) + "/"
  {
    assert Component(cs[0]);
    if |cs| == 1 {
      assert cs[1..] == [];
    } else {
      JoinClean(cs[1..]);
      var rest := Join(cs[1..]);
      var s := Join(cs);
      assert s == cs[0] + "/" + rest;
      assert Tail(cs) == cs[0] + "/" + Tail(cs[1..]);
      var n := |cs[0]|;
      forall i, j | 0 <= i < |s| && j == i + 1 && j < |s| && s[i] == '/'
        ensures s[j] != '/'
      {
        assert i >= n by {
          assert forall k :: 0 <= k < n ==> s[k] == cs[0][k];
        }
        if i == n {
          assert s[j] == rest[0];
        } else {
          assert s[i] == rest[i - n - 1] && s[j] == rest[j - n - 1];
        }
      }
    }
  }

  lemma NormalizeIdempotent(path: string)
    ensures NormalizePrefix(NormalizePrefix(path)) == NormalizePrefix(path)
  {
    StripBare(path);
    var s := Strip(path);
    BareIsStripped(s);
    assert "/" + "" == "/";
  }

  // Normalising yields the canonical path of the components named, exactly when no empty
  // component is left inside: doubled slashes are removed at the ends only.
  lemma NormalizeCanonical(path: string)
    ensures NormalizePrefix(path) == DirPath(Parts(path)) <==> Clean(Strip(path))
  {
    hide Strip, Parts, Clean, Bare, Join, Tail, Split, Slash;
    StripBare(path);
    PartsAreComponents(path);
    var s, cs := Strip(path), Parts(path);
    if s == "" {
      NothingNamed();
    } else if Clean(s) {
      CleanTail(s);
    } else if Tail(cs) == s + "/" {
      CanonicalIsClean(s, cs);
      assert false;
    } else if NormalizePrefix(path) == DirPath(cs) {
      SameTail(s, cs);
    }
  }

  lemma NothingNamed()
    ensures Parts("") == [] && Tail([]) == "" && Clean("")
  {
    assert Split("") == [""];
  }

  lemma CleanTail(s: string)
    requires s != "" && Bare(s) && Clean(s)
    ensures Tail(Parts(s)) == s + "/"
  {
    CleanSplit(s);
    SplitPieces(s);
    NonEmptyPieces(Split(s));
    JoinOfSplit(s);
    JoinClean(Split(s));
  }

  lemma SameTail(s: string, cs: seq<string>)
    requires "/" + s + "/" == DirPath(cs)
    ensures Tail(cs) == s + "/"
  {
    assert ("/" + s + "/")[1..] == s + "/" && ("/" + Tail(cs))[1..] == Tail(cs);
  }

  lemma CanonicalIsClean(s: string, cs: seq<string>)
    requires Components(cs) && s != "" && Tail(cs) == s + "/"
    ensures Clean(s)
  {
    assert cs != [];
    JoinClean(cs);
    assert (s + "/")[..|s|] == s && (Join(cs) + "/")[..|Join(cs)|] == Join(cs);
  }

  // An input for which it does not: the doubled slash inside stays.
  lemma NormalizeKeepsInnerSlashes()
    ensures NormalizePrefix("a//b") == "/a//b/"
    ensures NormalizePrefix("a//b") != DirPath(Parts("a//b"))
  {
    hide Parts, DirPath;
    NormalizeCanonical("a//b");
    var s := "a//b";
    assert Strip(s) == s;
    assert s[1] == '/' && s[2] == '/';
  }

  // Canonical paths are fixed points.
  lemma NormalizeFixes(cs: seq<string>)
    requires Components(cs)
    ensures NormalizePrefix(DirPath(cs)) == DirPath(cs)
  {
    if cs == [] {
      BareIsStripped("");
      assert "/" + "" == "/";
    } else {
      JoinClean(cs);
      JoinBare(cs);
      BareIsStripped(Join(cs));
      assert DirPath(cs) == "/" + Join(cs) + "/";
    }
  }

  lemma {:induction false} JoinBare(cs: seq<string>)
    requires Components(cs)
    ensures Bare(Join(cs))
  {
    if cs != [] {
      assert Component(cs[0]);
      if |cs| > 1 {
        JoinBare(cs[1..]);
        assert Component(cs[1]);
        JoinClean(cs[1..]);
      }
    }
  }

  lemma {:induction false} ChildIsDeeper(cs: seq<string>, name: string)
    ensures ChildPath(DirPath(cs), name) == DirPath(cs + [name])
  {
    TailSnoc(cs, name);
  }

  lemma {:induction false} TailSnoc(cs: seq<string>, name: string)
    ensures Tail(cs + [name]) == Tail(cs) + name + "/"
  {
    if cs == [] {
      assert ([] + [name])[1..] == [];
    } else {
      TailSnoc(cs[1..], name);
      assert (cs + [name])[1..] == cs[1..] + [name];
    }
  }
}
