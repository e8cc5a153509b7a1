/**
 * Dotted Python import paths (src/pypath.rs): validation by the pattern
 * `^\w+(\.\w+)*$`, the ancestor/descendant relation, `parent`, the
 * internal/external classification, and conversion from a file path.
 */
module Pypaths {
  import opened Wrappers
  import opened Strings
  import opened Errors
  import FsPaths

  /** The absolute dotted path to a package, module or member. */
  datatype Pypath = Pypath(s: string)

  /** `\w` of the pattern, taken as ASCII letters, digits and underscore. */
  predicate IsWordChar(c: char)
  {
    'a' <= c <= 'z' || 'A' <= c <= 'Z' || '0' <= c <= '9' || c == '_'
  }

  /** `\w+`. */
  predicate IsWord(w: string)
  {
    |w| > 0 && forall i :: 0 <= i < |w| ==> IsWordChar(w[i])
  }

  /**
   * `^\w+(\.\w+)*$`: since '.' is not a word character, a string matches
   * exactly when every dot-separated piece is a non-empty word.
   */
  predicate MatchesPattern(s: string)
  {
    forall piece :: piece in Split(s, '.') ==> IsWord(piece)
  }

  /** `Pypath::new`: no validation. */
  function New(s: string): Pypath
  {
    Pypath(s)
  }

  /** `Pypath::from_str`. */
  function FromStr(s: string): (r: Result<Pypath, Error>)
    ensures r.Ok? ==> r.value.s == s && s == Join(Split(s, '.'), '.')
    ensures r.Err? ==> r.error == InvalidPypath
  {
    JoinSplit(s, '.');
    if MatchesPattern(s) then Ok(New(s)) else Err(InvalidPypath)
  }

  /** Dots joining one or more words always parse, to the same text. */
  lemma AcceptsJoinedWords(words: seq<string>)
    requires |words| >= 1 && forall i :: 0 <= i < |words| ==> IsWord(words[i])
    ensures FromStr(Join(words, '.')) == Ok(Pypath(Join(words, '.')))
  {
    assert SepFree(words, '.');
    SplitJoin(words, '.');
  }

  /** Anything that parses is such a join of words. */
  lemma AcceptedIsJoinedWords(s: string)
    requires FromStr(s).Ok?
    ensures var words := Split(s, '.');
      (|words| >= 1 && s == Join(words, '.') && forall i :: 0 <= i < |words| ==> IsWord(words[i]))
  {
    var words := Split(s, '.');
    assert forall i :: 0 <= i < |words| ==> words[i] in words;
  }

  /** A leading dot (a relative import) is rejected. */
  lemma RejectsLeadingDot(s: string)
    requires |s| > 0 && s[0] == '.'
    ensures FromStr(s) == Err(InvalidPypath)
  {
    assert Split(s, '.')[0] == "";
    assert "" in Split(s, '.');
  }

  /** A trailing dot is rejected. */
  lemma RejectsTrailingDot(s: string)
    requires |s| > 0 && s[|s| - 1] == '.'
    ensures FromStr(s) == Err(InvalidPypath)
  {
    var x := s[..|s| - 1];
    assert s == x + ['.'] + "";
    SplitAppend(x, "", '.');
    assert "" in Split(s, '.');
  }

  /** Two consecutive dots are rejected. */
  lemma RejectsDoubleDot(x: string, y: string)
    ensures FromStr(x + ".." + y) == Err(InvalidPypath)
  {
    assert x + ".." + y == x + ['.'] + ("" + ['.'] + y);
    SplitAppend(x, "" + ['.'] + y, '.');
    SplitAppend("", y, '.');
    assert "" in Split(x + ".." + y, '.');
  }

  /** `is_equal_to_or_ancestor_of`: equal, or the other starts with this plus a dot. */
  predicate IsEqualToOrAncestorOf(a: Pypath, b: Pypath)
  {
    a == b || a.s + "." <= b.s
  }

  /** `is_equal_to_or_descendant_of`, the converse relation. */
  predicate IsEqualToOrDescendantOf(a: Pypath, b: Pypath)
  {
    IsEqualToOrAncestorOf(b, a)
  }

  /**
   * The ancestor test agrees with comparing dotted pieces: `a` is equal to or
   * an ancestor of `b` exactly when the pieces of `a` are a prefix of the
   * pieces of `b`. So `foo.bar` is not an ancestor of `foo.barbaz`.
   */
  lemma AncestorIffPiecePrefix(a: Pypath, b: Pypath)
    ensures IsEqualToOrAncestorOf(a, b) <==> Split(a.s, '.') <= Split(b.s, '.')
  {
    var pa, pb := Split(a.s, '.'), Split(b.s, '.');
    if a == b {
    } else if a.s + "." <= b.s {
      var t := b.s[|a.s| + 1..];
      assert b.s == a.s + ['.'] + t;
      SplitAppend(a.s, t, '.');
    }
    if pa <= pb {
      JoinSplit(a.s, '.');
      JoinSplit(b.s, '.');
      if |pa| < |pb| {
        var rest := pb[|pa|..];
        assert pb == pa + rest;
        JoinAppend(pa, rest, '.');
        assert b.s == a.s + "." + Join(rest, '.');
      } else {
        assert pa == pb;
      }
    }
  }

  /** The descendant test is the ancestor test with its arguments swapped. */
  lemma DescendantIffPiecePrefix(a: Pypath, b: Pypath)
    ensures IsEqualToOrDescendantOf(a, b) <==> Split(b.s, '.') <= Split(a.s, '.')
  {
    AncestorIffPiecePrefix(b, a);
  }

  /** The ancestor relation is a partial order. */
  lemma AncestorIsPartialOrder(a: Pypath, b: Pypath, c: Pypath)
    ensures IsEqualToOrAncestorOf(a, a)
    ensures IsEqualToOrAncestorOf(a, b) && IsEqualToOrAncestorOf(b, a) ==> a == b
    ensures IsEqualToOrAncestorOf(a, b) && IsEqualToOrAncestorOf(b, c) ==> IsEqualToOrAncestorOf(a, c)
  {
    AncestorIffPiecePrefix(a, b);
    AncestorIffPiecePrefix(b, a);
    AncestorIffPiecePrefix(b, c);
    AncestorIffPiecePrefix(a, c);
    if IsEqualToOrAncestorOf(a, b) && IsEqualToOrAncestorOf(b, a) {
      JoinSplit(a.s, '.');
      JoinSplit(b.s, '.');
    }
  }

  /** `parent`: split on dots, drop the last piece, join again ("foo" gives ""). */
  function Parent(p: Pypath): Pypath
  {
    var pieces := Split(p.s, '.');
    Pypath(Join(pieces[..|pieces| - 1], '.'))
  }

  /**
   * `parent` drops exactly the last dotted piece, and the result is a proper
   * ancestor; a path without dots has the empty path as its parent.
   */
  lemma ParentDropsLastPiece(p: Pypath)
    ensures var pieces := Split(p.s, '.');
      if |pieces| >= 2 then
        Split(Parent(p).s, '.') == pieces[..|pieces| - 1]
        && p.s == Parent(p).s + "." + pieces[|pieces| - 1]
        && IsEqualToOrAncestorOf(Parent(p), p) && Parent(p) != p
      else
        Parent(p).s == ""
  {
    var pieces := Split(p.s, '.');
    if |pieces| >= 2 {
      var front := pieces[..|pieces| - 1];
      SplitSepFree(p.s, '.');
      SplitJoin(front, '.');
      JoinSplit(p.s, '.');
      DropLast(pieces);
      JoinAppend(front, [pieces[|pieces| - 1]], '.');
    }
  }

  /** The parent of a valid path with a dot is valid. */
  lemma ParentOfValidIsValid(p: Pypath)
    requires FromStr(p.s).Ok? && |Split(p.s, '.')| >= 2
    ensures FromStr(Parent(p).s) == Ok(Parent(p))
  {
    ParentDropsLastPiece(p);
    var pieces := Split(p.s, '.');
    var front := pieces[..|pieces| - 1];
    assert forall i :: 0 <= i < |front| ==> front[i] in pieces;
    AcceptsJoinedWords(front);
  }

  /** The dotted pieces of a path. */
  function Pieces(p: Pypath): seq<string>
  {
    Split(p.s, '.')
  }

  predicate HasParent(p: Pypath)
  {
    |Pieces(p)| >= 2
  }

  /**
   * `parent()` as src/package_info/grimp_compare.rs and src/imports_info/mod.rs
   * call it, returning an Option: nothing for a path without a dot.
   */
  function ParentOpt(p: Pypath): Option<Pypath>
  {
    if HasParent(p) then Some(Parent(p)) else None
  }

  /** `is_internal`: the root package's pypath is equal to or an ancestor of the path. */
  predicate IsInternal(p: Pypath, rootPypath: Pypath)
  {
    IsEqualToOrAncestorOf(rootPypath, p)
  }

  /** `is_external`. */
  predicate IsExternal(p: Pypath, rootPypath: Pypath)
  {
    !IsInternal(p, rootPypath)
  }

  /** Internal and external partition all paths; the parent of an internal non-root path is internal. */
  lemma InternalExternalPartition(p: Pypath, rootPypath: Pypath)
    ensures IsInternal(p, rootPypath) != IsExternal(p, rootPypath)
    ensures IsInternal(p, rootPypath) && p != rootPypath ==> IsInternal(Parent(p), rootPypath)
  {
    if IsInternal(p, rootPypath) && p != rootPypath {
      AncestorIffPiecePrefix(rootPypath, p);
      ParentDropsLastPiece(p);
      var pieces := Split(p.s, '.');
      var rp := Split(rootPypath.s, '.');
      if |rp| == |pieces| {
        assert rp == pieces;
        JoinSplit(p.s, '.');
        JoinSplit(rootPypath.s, '.');
        assert false;
      }
      assert rp <= pieces[..|pieces| - 1];
      AncestorIffPiecePrefix(rootPypath, Parent(p));
    }
  }

  /**
   * `Pypath::from_path`: the `path_to_pypath` conversion wrapped as a
   * Pypath without validation.
   */
  function FromPath(path: FsPaths.FsPath, rootPath: FsPaths.FsPath): (r: Result<Pypath, FsPaths.StripPrefixError>)
    requires |rootPath| >= 1
    ensures r.Ok? <==> FsPaths.PathToPypath(path, rootPath).Ok?
    ensures r.Ok? ==> r.value.s == FsPaths.PathToPypath(path, rootPath).value
  {
    match FsPaths.PathToPypath(path, rootPath)
    case Ok(s) => Ok(Pypath(s))
    case Err(e) => Err(e)
  }
}
