/** POSIX path handling as the loader uses it: `os.path.join` on strings and
    the parsing that `pathlib.Path` applies to the joined string. */
module PyPaths {

  /** A parsed `pathlib.PurePosixPath`: its root ("", "/" or "//") and its
      components, with empty and "." components removed. Two strings that
      parse to the same value name the same file. */
  datatype PurePath = PurePath(root: string, parts: seq<string>)

  predicate IsAbsolute(s: string)
  {
    |s| > 0 && s[0] == '/'
  }

  /** `os.path.join(a, b)` on POSIX: an absolute `b` replaces `a`; otherwise
      `b` is appended, with a separator unless `a` is empty or already ends
      with one. */
  function Join(a: string, b: string): string
  {
    if IsAbsolute(b) then b
    else if a == "" || a[|a| - 1] == '/' then a + b
    else a + "/" + b
  }

  /** `s.split("/")`: always at least one piece. */
  function Split(s: string): (pieces: seq<string>)
    ensures |pieces| >= 1
  {
    if s == [] then [""]
    else if s[0] == '/' then [""] + Split(s[1..])
    else
      var rest := Split(s[1..]);
      [[s[0]] + rest[0]] + rest[1..]
  }

  /** The components pathlib keeps: neither empty nor ".". */
  function Keep(pieces: seq<string>): (kept: seq<string>)
    ensures |kept| <= |pieces|
    ensures forall p | p in kept :: p in pieces && p != "" && p != "."
  {
    if pieces == [] then []
    else (if pieces[0] == "" || pieces[0] == "." then [] else [pieces[0]]) + Keep(pieces[1..])
  }

  function Parts(s: string): seq<string>
  {
    Keep(Split(s))
  }

  /** The root pathlib recognises: exactly two leading slashes are kept as
      "//", one or three and more become "/". */
  function Root(s: string): string
  {
    if !IsAbsolute(s) then ""
    else if |s| >= 2 && s[1] == '/' && !(|s| >= 3 && s[2] == '/') then "//"
    else "/"
  }

  /** `pathlib.Path(s)`. */
  function ParsePath(s: string): PurePath
  {
    PurePath(Root(s), Parts(s))
  }

  lemma {:induction false} SplitAtSeparator(a: string, b: string)
    ensures Split(a + "/" + b) == Split(a) + Split(b)
    decreases |a|
  {
    if a == [] {
      assert a + "/" + b == "/" + b;
      assert ("/" + b)[1..] == b;
    } else {
      assert (a + "/" + b)[0] == a[0];
      assert (a + "/" + b)[1..] == a[1..] + "/" + b;
      SplitAtSeparator(a[1..], b);
    }
  }

  lemma {:induction false} KeepConcat(xs: seq<string>, ys: seq<string>)
    ensures Keep(xs + ys) == Keep(xs) + Keep(ys)
  {
    if xs == [] {
      assert xs + ys == ys;
    } else {
      assert (xs + ys)[0] == xs[0];
      assert (xs + ys)[1..] == xs[1..] + ys;
      KeepConcat(xs[1..], ys);
    }
  }

  /** Joining strings concatenates their components. */
  lemma PartsAtSeparator(a: string, b: string)
    ensures Parts(a + "/" + b) == Parts(a) + Parts(b)
  {
    SplitAtSeparator(a, b);
    KeepConcat(Split(a), Split(b));
  }

  lemma PartsOfEmpty()
    ensures Parts("") == []
  {
    assert Split("") == [""];
  }

  lemma {:induction false} RootOfExtension(a: string, t: string)
    requires a != ""
    requires a[|a| - 1] == '/' ==> !IsAbsolute(t)
    ensures Root(a + t) == Root(a)
  {
    var s := a + t;
    assert s[0] == a[0];
    if |a| == 1 {
      if a[0] == '/' {
        assert |s| >= 2 ==> s[1] == t[0];
      }
    } else if |a| == 2 {
      assert s[1] == a[1];
      if a[0] == '/' && a[1] == '/' {
        assert |s| >= 3 ==> s[2] == t[0];
      }
    } else {
      assert s[1] == a[1] && s[2] == a[2];
    }
  }

  /** A trailing separator adds no component. */
  lemma PartsTrailingSeparator(prefix: string)
    ensures Parts(prefix + "/") == Parts(prefix)
  {
    PartsAtSeparator(prefix, "");
    PartsOfEmpty();
    assert prefix + "/" + "" == prefix + "/";
  }

  /** `Path(os.path.join(folder, name))`: an absolute name stands alone;
      otherwise the folder's root and components come first, followed by the
      name's components. */
  lemma JoinedPath(folder: string, name: string)
    ensures ParsePath(Join(folder, name)) ==
              if IsAbsolute(name) then ParsePath(name)
              else PurePath(Root(folder), Parts(folder) + Parts(name))
  {
    if IsAbsolute(name) {
    } else if folder == "" {
      PartsOfEmpty();
      assert Join(folder, name) == name;
    } else if folder[|folder| - 1] == '/' {
      var prefix := folder[..|folder| - 1];
      assert folder == prefix + "/";
      PartsTrailingSeparator(prefix);
      assert (prefix + "/") + name == prefix + "/" + name;
      PartsAtSeparator(prefix, name);
      RootOfExtension(folder, name);
      assert Join(folder, name) == folder + name;
    } else {
      PartsAtSeparator(folder, name);
      assert folder + "/" + name == folder + ("/" + name);
      RootOfExtension(folder, "/" + name);
      assert Join(folder, name) == folder + "/" + name;
    }
  }

  /** A string without separators splits into itself. */
  lemma {:induction false} SplitPlainName(s: string)
    requires forall c | c in s :: c != '/'
    ensures Split(s) == [s]
  {
    if s != [] {
      assert s[0] in s;
      assert forall c | c in s[1..] :: c in s;
      SplitPlainName(s[1..]);
      assert [s[0]] + s[1..] == s;
    }
  }

  /** A name without separators is one component, unless it is "" or ".". */
  lemma PartsOfPlainName(s: string)
    requires forall c | c in s :: c != '/'
    ensures Parts(s) == if s == "" || s == "." then [] else [s]
  {
    SplitPlainName(s);
  }
}
