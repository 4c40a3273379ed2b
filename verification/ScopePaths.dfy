/** Repository scopes of a work contract: normalisation of paths and the string-prefix test of a path against roots. */
module ScopePaths {
  import opened Basics
  import opened Text

  function Slashed(s: string): (r: string)
    ensures |r| == |s| && forall i :: 0 <= i < |s| ==> r[i] == if s[i] == '\\' then '/' else s[i]
  {
    seq(|s|, i requires 0 <= i < |s| => if s[i] == '\\' then '/' else s[i])
  }

  function DropTrailingSlashes(s: string): (r: string)
    ensures r <= s && (r == "" || Last(r) != '/')
    ensures s != "" && Last(s) != '/' ==> r == s
    ensures s != "" && s[0] != '/' ==> r != ""
    ensures r == s || r + "/" <= s
  {
    if s != "" && Last(s) == '/' then
      var front := s[..|s| - 1];
      assert front + "/" == s;
      DropTrailingSlashes(front)
    else s
  }

  /** The slash-separated segments of a path; "a//b" has an empty one in the middle. */
  function Segments(s: string): (segments: seq<string>)
    ensures segments != []
  {
    if s == "" then [""]
    else
      var rest := Segments(s[1..]);
      if s[0] == '/' then [""] + rest else [[s[0]] + rest[0]] + rest[1..]
  }

  /** None stands for the ValueError of an empty, absolute or upward path. */
  function ValidateScope(path: string): Option<string> {
    var value := Slashed(Strip(path));
    if value == "" || value[0] == '/' || ".." in Segments(value) then None
    else Some(DropTrailingSlashes(value))
  }

  predicate Within(candidate: string, root: string) {
    candidate == root || root + "/" <= candidate
  }

  datatype Scopes = Scopes(allowed: seq<string>, forbidden: seq<string>)

  /** None when the path itself is no valid scope. */
  function PermitsPath(scopes: Scopes, path: string): Option<bool> {
    var candidate := ValidateScope(path);
    if candidate.None? then None
    else Some(
      (exists root :: root in scopes.allowed && Within(candidate.value, root)) &&
      !(exists root :: root in scopes.forbidden && Within(candidate.value, root)))
  }

  function ValidateAll(paths: seq<string>): (r: Option<seq<string>>)
    ensures r.Some? ==> |r.value| == |paths|
    ensures r.Some? ==> forall i :: 0 <= i < |paths| ==> ValidateScope(paths[i]) == Some(r.value[i])
  {
    if paths == [] then Some([])
    else
      var first, rest := ValidateScope(paths[0]), ValidateAll(paths[1..]);
      if first.None? || rest.None? then None else Some([first.value] + rest.value)
  }

  predicate Unique(paths: seq<string>) {
    forall i, j :: 0 <= i < j < |paths| ==> paths[i] != paths[j]
  }

  /** The path fields of a new contract; None stands for a validation error. */
  function MakeScopes(allowed: seq<string>, forbidden: seq<string>): Option<Scopes> {
    var a, f := ValidateAll(allowed), ValidateAll(forbidden);
    if allowed == [] || a.None? || f.None? then None
    else if !Unique(a.value) || !Unique(f.value) then None
    else Some(Scopes(a.value, f.value))
  }

  // ----- the prefix test is a test on segments -----

  lemma {:induction false} WithinIffSegmentPrefix(candidate: string, root: string)
    ensures Within(candidate, root) <==> Segments(root) <= Segments(candidate)
  {
    if root == "" {
      if candidate != "" && candidate[0] != '/' {
        assert Segments(candidate)[0][0] == candidate[0];
      }
      assert "" + "/" <= candidate <==> candidate != "" && candidate[0] == '/';
    } else if candidate != "" {
      WithinTail(candidate, root);
      WithinIffSegmentPrefix(candidate[1..], root[1..]);
      SegmentsTail(candidate, root);
    } else if root[0] != '/' {
      assert Segments(root)[0][0] == root[0];
    }
  }

  lemma WithinTail(candidate: string, root: string)
    requires candidate != "" && root != ""
    ensures Within(candidate, root) <==> candidate[0] == root[0] && Within(candidate[1..], root[1..])
  {
    assert candidate == [candidate[0]] + candidate[1..] && root == [root[0]] + root[1..];
    assert root + "/" == [root[0]] + (root[1..] + "/");
    if root + "/" <= candidate {
      assert candidate[..|root| + 1] == root + "/";
      assert candidate[1..][..|root|] == root[1..] + "/";
    }
    if candidate[0] == root[0] && root[1..] + "/" <= candidate[1..] {
      assert candidate[1..][..|root|] == root[1..] + "/";
      assert candidate[..|root| + 1] == root + "/";
    }
  }

  lemma SegmentsTail(candidate: string, root: string)
    requires candidate != "" && root != ""
    ensures Segments(root) <= Segments(candidate) <==>
            candidate[0] == root[0] && Segments(root[1..]) <= Segments(candidate[1..])
  {
    var c, r := Segments(candidate), Segments(root);
    var c', r' := Segments(candidate[1..]), Segments(root[1..]);
    if candidate[0] == '/' || root[0] == '/' {
      if candidate[0] == root[0] {
        assert c[1..] == c' && r[1..] == r';
        PrefixBehindHead(r, c);
      } else {
        assert r[0] != c[0];
      }
    } else {
      assert c[1..] == c'[1..] && r[1..] == r'[1..];
      assert c[0][0] == candidate[0] && r[0][0] == root[0] && c[0][1..] == c'[0] && r[0][1..] == r'[0];
      PrefixBehindHead(r, c);
      PrefixBehindHead(r', c');
      assert r[0] == c[0] <==> candidate[0] == root[0] && r'[0] == c'[0];
    }
  }

  lemma PrefixBehindHead(r: seq<string>, c: seq<string>)
    requires r != [] && c != []
    ensures r <= c <==> r[0] == c[0] && r[1..] <= c[1..]
  {
    if r[0] == c[0] && r[1..] <= c[1..] {
      assert r == [r[0]] + r[1..] && c == [c[0]] + c[1..];
    }
  }

  /**
   A valid path is permitted exactly when the segments of some allowed root are
   a prefix of its own and those of no forbidden root are.
   */
  lemma PermittedIffSegments(scopes: Scopes, path: string)
    requires ValidateScope(path).Some?
    ensures var own := Segments(ValidateScope(path).value);
            PermitsPath(scopes, path) == Some(
              (exists root :: root in scopes.allowed && Segments(root) <= own) &&
              !(exists root :: root in scopes.forbidden && Segments(root) <= own))
  {
    var candidate := ValidateScope(path).value;
    forall root ensures Within(candidate, root) <==> Segments(root) <= Segments(candidate) {
      WithinIffSegmentPrefix(candidate, root);
    }
  }

  /** A forbidden root shuts out itself and everything below it, whatever is allowed. */
  lemma ForbiddenExcludesDescendants(scopes: Scopes, root: string, path: string)
    requires root in scopes.forbidden && ValidateScope(path).Some?
    requires Segments(root) <= Segments(ValidateScope(path).value)
    ensures PermitsPath(scopes, path) == Some(false)
  {
    PermittedIffSegments(scopes, path);
  }

  /** Permission is inherited downwards unless a forbidden root intervenes. */
  lemma PermissionReachesDescendants(scopes: Scopes, path: string, below: string)
    requires PermitsPath(scopes, path) == Some(true) && ValidateScope(below).Some?
    requires Segments(ValidateScope(path).value) <= Segments(ValidateScope(below).value)
    ensures PermitsPath(scopes, below) == Some(true) <==>
            forall root :: root in scopes.forbidden ==> !(Segments(root) <= Segments(ValidateScope(below).value))
  {
    PermittedIffSegments(scopes, path);
    PermittedIffSegments(scopes, below);
    var own, theirs := Segments(ValidateScope(path).value), Segments(ValidateScope(below).value);
    var root :| root in scopes.allowed && Segments(root) <= own;
    assert Segments(root) <= theirs;
  }

  // ----- normalising twice -----

  // What a normalised scope looks like.
  lemma ScopeShape(path: string)
    requires ValidateScope(path).Some?
    ensures var r := ValidateScope(path).value;
            r != "" && r[0] != '/' && Last(r) != '/' && !IsSpace(r[0]) && '\\' !in r && ".." !in Segments(r)
  {
    var stripped := Strip(path);
    var value := Slashed(stripped);
    var r := DropTrailingSlashes(value);
    assert stripped[0] == LStrip(path)[0];
    assert !IsSpace('/');
    assert forall i :: 0 <= i < |r| ==> r[i] == value[i];
    WithinIffSegmentPrefix(value, r);
    assert Segments(r) <= Segments(value);
    assert forall x :: x in Segments(r) ==> x in Segments(value);
  }

  /**
   Normalising a normalised scope changes nothing exactly when it does not end
   in whitespace: trailing slashes are dropped after surrounding whitespace, and
   may uncover more of it.
   */
  lemma NormalisationStableIff(path: string)
    requires ValidateScope(path).Some?
    ensures var r := ValidateScope(path).value;
            ValidateScope(r) == Some(r) <==> !IsSpace(Last(r))
  {
    var r := ValidateScope(path).value;
    ScopeShape(path);
    assert LStrip(r) == r;
    if !IsSpace(Last(r)) {
      assert Strip(r) == r && Slashed(r) == r;
    } else {
      assert |Strip(r)| < |r|;
      var again := ValidateScope(r);
      assert again.Some? ==> |again.value| < |r|;
    }
  }

  // `i` is the position of the last character before the whitespace at the end and the slashes in front of it.
  predicate StemEndsAt(path: string, i: nat, k: nat) {
    && i < k <= |path| && path[i] !in "/\\"
    && (forall j :: i < j < k ==> path[j] in "/\\")
    && (forall j :: k <= j < |path| ==> IsSpace(path[j]))
    && (k == i + 1 ==> !IsSpace(path[i]))
  }

  lemma {:induction false} SlashesAreDropped(s: string)
    ensures |DropTrailingSlashes(s)| <= |s| && forall i :: |DropTrailingSlashes(s)| <= i < |s| ==> s[i] == '/'
  {
    if s != "" && Last(s) == '/' {
      SlashesAreDropped(s[..|s| - 1]);
    }
  }

  // The stages of normalising a path, and how each lies in the one before.
  predicate Stages(path: string, left: string, stripped: string, value: string, r: string) {
    && |left| <= |path| && left == path[|path| - |left|..]
    && stripped <= left && (forall i :: |stripped| <= i < |left| ==> IsSpace(left[i]))
    && |value| == |stripped|
    && (forall i :: 0 <= i < |value| ==> value[i] == if stripped[i] == '\\' then '/' else stripped[i])
    && r <= value && r != "" && Last(r) != '/' && (forall i :: |r| <= i < |value| ==> value[i] == '/')
    && !IsSpace(Last(stripped))
  }

  lemma StagesOf(path: string) returns (left: string, stripped: string, value: string)
    requires ValidateScope(path).Some?
    ensures Stages(path, left, stripped, value, ValidateScope(path).value)
  {
    left := LStrip(path);
    stripped := RStrip(left);
    value := Slashed(stripped);
    assert left == path[|path| - |left|..] by { LStripIsSuffix(path); }
    assert forall i :: |stripped| <= i < |left| ==> IsSpace(left[i]) by { RStripDropsSpace(left); }
    SlashesAreDropped(value);
    assert DropTrailingSlashes(value) != "" by { ScopeShape(path); }
  }

  // Where the normal form of a path ends in the path.
  lemma StemOfStages(path: string, left: string, stripped: string, value: string, r: string)
    requires Stages(path, left, stripped, value, r)
    ensures var i, k := |path| - |left| + |r| - 1, |path| - |left| + |stripped|;
            StemEndsAt(path, i, k) && path[i] == Last(r)
  {
    var offset := |path| - |left|;
    var i, k := offset + |r| - 1, offset + |stripped|;
    assert forall j :: offset <= j < |path| ==> path[j] == left[j - offset];
    assert forall j :: offset <= j < k ==> path[j] == stripped[j - offset];
    assert r[|r| - 1] == value[|r| - 1];
    forall j | i < j < k ensures path[j] in "/\\" {
      assert value[j - offset] == '/';
    }
  }

  lemma StemOfValid(path: string) returns (i: nat, k: nat)
    requires ValidateScope(path).Some?
    ensures StemEndsAt(path, i, k) && path[i] == Last(ValidateScope(path).value)
  {
    hide ValidateScope, StemEndsAt;
    var left, stripped, value := StagesOf(path);
    var r := ValidateScope(path).value;
    StemOfStages(path, left, stripped, value, r);
    i, k := |path| - |left| + |r| - 1, |path| - |left| + |stripped|;
  }

  lemma StemIsUnique(path: string, i: nat, k: nat, i': nat, k': nat)
    requires StemEndsAt(path, i, k) && StemEndsAt(path, i', k')
    ensures i == i' && k == k'
  {
    assert !IsSpace('/') && !IsSpace('\\');
    assert !IsSpace(path[k - 1]) && !IsSpace(path[k' - 1]);
  }

  /**
   On the path itself: normalising is idempotent exactly when the character in
   front of the slashes, and whitespace behind them, at its end is no whitespace.
   */
  lemma IdempotentIff(path: string)
    requires ValidateScope(path).Some?
    ensures ValidateScope(ValidateScope(path).value) == ValidateScope(path) <==>
            exists i: nat, k: nat :: StemEndsAt(path, i, k) && !IsSpace(path[i])
  {
    var i, k := StemOfValid(path);
    NormalisationStableIff(path);
    forall i': nat, k': nat | StemEndsAt(path, i', k') ensures i' == i {
      StemIsUnique(path, i, k, i', k');
    }
  }

  /** A path is its own normal form exactly when it has the shape of one and does not end in whitespace. */
  lemma NormalFormsAre(path: string)
    ensures ValidateScope(path) == Some(path) <==>
            path != "" && path[0] != '/' && Last(path) != '/' && !IsSpace(path[0]) && !IsSpace(Last(path)) &&
            '\\' !in path && ".." !in Segments(path)
  {
    if ValidateScope(path) == Some(path) {
      ScopeShape(path);
      NormalisationStableIff(path);
    } else if path != "" && !IsSpace(path[0]) && !IsSpace(Last(path)) && '\\' !in path {
      assert Strip(path) == path && Slashed(path) == path;
    }
  }

  lemma NormalisationCanMove()
    ensures ValidateScope("a /") == Some("a ") && ValidateScope("a ") == Some("a")
  {
    assert LStrip("a /") == "a /" && RStrip("a /") == "a /";
    assert Slashed("a /") == "a /";
    assert Segments("") == [""];
    assert "/"[1..] == "" && " /"[1..] == "/" && "a /"[1..] == " /";
    assert "a"[1..] == "" && " "[1..] == "" && "a "[1..] == " ";
    var tail := Segments("/");
    assert tail == ["", ""];
    assert [' '] + tail[0] == " " && tail[1..] == [""];
    var middle := Segments(" /");
    assert middle == [" ", ""];
    assert ['a'] + middle[0] == "a " && middle[1..] == [""];
    assert Segments("a /") == ["a ", ""];
    assert ['a'] + Segments("")[0] == "a" && Segments("")[1..] == [];
    assert Segments("a") == ["a"];
    assert "a /"[..2] == "a ";
    assert DropTrailingSlashes("a /") == "a ";
    assert LStrip("a ") == "a ";
    assert "a "[..1] == "a";
    assert RStrip("a ") == "a";
    assert Slashed("a") == "a";
  }

  // ----- reading a stored contract again -----

  lemma {:induction false} StableAllIff(scopes: seq<string>, paths: seq<string>)
    requires ValidateAll(paths) == Some(scopes)
    ensures ValidateAll(scopes) == Some(scopes) <==> forall r :: r in scopes ==> !IsSpace(Last(r))
    ensures forall r :: r in scopes ==> r != ""
  {
    if paths != [] {
      var first, rest := ValidateScope(paths[0]).value, ValidateAll(paths[1..]).value;
      assert scopes == [first] + rest && scopes[0] == first && scopes[1..] == rest;
      StableAllIff(rest, paths[1..]);
      ScopeShape(paths[0]);
      NormalisationStableIff(paths[0]);
    }
  }

  /**
   The scopes of a contract survive being stored and validated again exactly when
   none of them ends in whitespace; otherwise they change or are no longer valid.
   */
  lemma ReloadKeepsScopesIff(allowed: seq<string>, forbidden: seq<string>)
    requires MakeScopes(allowed, forbidden).Some?
    ensures var s := MakeScopes(allowed, forbidden).value;
            MakeScopes(s.allowed, s.forbidden) == Some(s) <==>
            forall r :: r in s.allowed || r in s.forbidden ==> r != "" && !IsSpace(Last(r))
  {
    var s := MakeScopes(allowed, forbidden).value;
    StableAllIff(s.allowed, allowed);
    StableAllIff(s.forbidden, forbidden);
  }

  /** Two scopes that are told apart once, but not when the stored contract is validated again. */
  lemma ReloadCanReject()
    ensures MakeScopes(["a", "a /"], []) == Some(Scopes(["a", "a "], []))
    ensures MakeScopes(["a", "a "], []) == None
  {
    NormalisationCanMove();
    assert ValidateScope("a") == Some("a") by {
      PlainScope();
    }
    ValidateTwo("a", "a /");
    ValidateTwo("a", "a ");
    assert |"a"| != |"a "| && ["a", "a"][0] == ["a", "a"][1];
  }

  lemma ValidateTwo(p: string, q: string)
    requires ValidateScope(p).Some? && ValidateScope(q).Some?
    ensures ValidateAll([p, q]) == Some([ValidateScope(p).value, ValidateScope(q).value])
  {
    var both, second := [p, q], [q];
    assert both[1..] == second && second[1..] == [];
    assert ValidateAll([]) == Some([]);
    assert [ValidateScope(q).value] + [] == [ValidateScope(q).value];
    assert ValidateAll(second) == Some([ValidateScope(q).value]);
    assert [ValidateScope(p).value] + [ValidateScope(q).value] == [ValidateScope(p).value, ValidateScope(q).value];
  }

  lemma PlainScope()
    ensures ValidateScope("a") == Some("a")
  {
    assert LStrip("a") == "a" && RStrip("a") == "a" && Slashed("a") == "a" && DropTrailingSlashes("a") == "a";
    assert "a"[1..] == "" && Segments("") == [""] && ['a'] + Segments("")[0] == "a" && Segments("")[1..] == [];
    assert Segments("a") == ["a"];
  }
}
