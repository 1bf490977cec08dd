/** The extension filter and the POSIX path operations it relies on
    (`os.path.splitext`, `basename`, `join`). */
module FileUtils {
  import opened Strings
  import opened Config

  /** Index `i`, strictly between `lo` and `hi`, holds something other than
      a dot. */
  predicate HasNonDotBetween(p: string, lo: int, hi: int)
    requires -1 <= lo && hi <= |p|
  {
    exists i | lo < i < hi :: p[i] != '.'
  }

  /** `os.path.splitext(p)`: the extension starts at the last dot of the
      final component, unless that component has only dots before it. */
  function SplitExt(p: string): (r: (string, string))
    ensures r.0 + r.1 == p
    ensures r.1 == [] || (r.1[0] == '.' && forall i :: 1 <= i < |r.1| ==> r.1[i] != '.' && r.1[i] != '/')
  {
    var sep := RFind(p, '/');
    var dot := RFind(p, '.');
    if dot > sep && HasNonDotBetween(p, sep, dot) then (p[..dot], p[dot..]) else (p, [])
  }

  /** `get_file_extension`: the extension, lower-cased, dot included. */
  function GetFileExtension(filename: string): string {
    Lower(SplitExt(filename).1)
  }

  /** The extension is empty or a dot followed by neither dots nor slashes;
      it is in lower case and ends the lower-cased file name. */
  lemma ExtensionShape(filename: string)
    ensures var r := GetFileExtension(filename);
            && (r == [] || r[0] == '.')
            && (forall i :: 1 <= i < |r| ==> r[i] != '.' && r[i] != '/')
            && Lower(r) == r
            && EndsWith(Lower(filename), r)
  {
    var ext := SplitExt(filename).1;
    LowerIdempotent(ext);
    LowerDrop(filename, |filename| - |ext|);
    assert filename[|filename| - |ext|..] == ext;
  }

  /** `is_allowed_file`: the exclusion list is consulted first. */
  function IsAllowedFile(filename: string, settings: Settings): (r: bool)
    ensures r <==> GetFileExtension(filename) in settings.allowedExtensions
                   && GetFileExtension(filename) !in settings.excludedExtensions
  {
    var ext := GetFileExtension(filename);
    if ext in settings.excludedExtensions then false
    else if ext in settings.allowedExtensions then true
    else false
  }

  /** `os.path.basename`: what follows the last slash. */
  function Basename(p: string): string {
    p[RFind(p, '/') + 1..]
  }

  /** The base name is the longest suffix without a slash. */
  lemma BasenameShape(p: string)
    ensures var r := Basename(p);
            && |r| <= |p| && r == p[|p| - |r|..]
            && (forall i :: 0 <= i < |r| ==> r[i] != '/')
            && (|r| < |p| ==> p[|p| - |r| - 1] == '/')
  {
  }

  /** `os.path.join(a, b)` with two arguments. */
  function Join(a: string, b: string): (r: string)
    ensures StartsWith(b, "/") ==> r == b
    ensures !StartsWith(b, "/") ==> r == a + (if a == [] || EndsWith(a, "/") then [] else "/") + b
  {
    if StartsWith(b, "/") then b
    else if a == [] || EndsWith(a, "/") then a + b
    else a + "/" + b
  }

  /** `RFind` is determined by its contract. */
  lemma RFindUnique(s: string, c: char, r: int)
    requires -1 <= r < |s|
    requires r >= 0 ==> s[r] == c
    requires forall j :: r < j < |s| ==> s[j] != c
    ensures RFind(s, c) == r
  {
  }

  /** Searching a suffix finds the same position, shifted. */
  lemma RFindSuffix(s: string, k: nat, c: char)
    requires k <= |s|
    ensures RFind(s[k..], c) == if RFind(s, c) >= k then RFind(s, c) - k else -1
  {
    var found := RFind(s, c);
    var r := if found >= k then found - k else -1;
    forall j | r < j < |s| - k
      ensures s[k..][j] != c
    {
      assert s[k..][j] == s[k + j];
    }
    RFindUnique(s[k..], c, r);
  }

  /** Lower-casing moves neither dots nor slashes. */
  lemma RFindLower(s: string, c: char)
    requires c == '.' || c == '/'
    ensures RFind(Lower(s), c) == RFind(s, c)
  {
    RFindUnique(Lower(s), c, RFind(s, c));
  }

  /** The extension of a path is the extension of its final component. */
  lemma {:induction false} ExtensionOfBasename(p: string)
    ensures GetFileExtension(Basename(p)) == GetFileExtension(p)
  {
    var k := RFind(p, '/') + 1;
    var b := p[k..];
    RFindSuffix(p, k, '/');
    RFindSuffix(p, k, '.');
    var dot := RFind(p, '.');
    if dot > k - 1 {
      assert HasNonDotBetween(b, -1, dot - k) <==> HasNonDotBetween(p, k - 1, dot) by {
        if HasNonDotBetween(b, -1, dot - k) {
          var i :| -1 < i < dot - k && b[i] != '.';
          assert p[k + i] == b[i];
        }
        if HasNonDotBetween(p, k - 1, dot) {
          var i :| k - 1 < i < dot && p[i] != '.';
          assert b[i - k] == p[i];
        }
      }
      assert b[dot - k..] == p[dot..];
    }
  }

  /** Joining a directory and a plain file name gives back the name as the
      base name. */
  lemma BasenameOfJoin(root: string, name: string)
    requires forall i :: 0 <= i < |name| ==> name[i] != '/'
    ensures Basename(Join(root, name)) == name
  {
    var p := Join(root, name);
    assert p == p[..|p| - |name|] + name;
    if |p| > |name| {
      assert p[|p| - |name| - 1] == '/';
    }
    RFindUnique(p, '/', |p| - |name| - 1);
  }

  /** Corollary: the extension the extractor dispatch sees on a joined path
      is the one the filter saw on the bare file name. */
  lemma ExtensionOfJoin(root: string, name: string)
    requires forall i :: 0 <= i < |name| ==> name[i] != '/'
    ensures GetFileExtension(Join(root, name)) == GetFileExtension(name)
  {
    BasenameOfJoin(root, name);
    ExtensionOfBasename(Join(root, name));
  }

  /** File-name matching ignores ASCII case. */
  lemma {:induction false} ExtensionIgnoresCase(f: string, g: string)
    requires Lower(f) == Lower(g)
    ensures GetFileExtension(f) == GetFileExtension(g)
  {
    RFindLower(f, '/');
    RFindLower(f, '.');
    RFindLower(g, '/');
    RFindLower(g, '.');
    var sep := RFind(f, '/');
    var dot := RFind(f, '.');
    assert |f| == |g|;
    assert forall i :: 0 <= i < |f| ==> (f[i] == '.' <==> g[i] == '.') by {
      forall i | 0 <= i < |f| ensures f[i] == '.' <==> g[i] == '.' {
        assert Lower(f)[i] == Lower(g)[i];
      }
    }
    if dot > sep {
      assert HasNonDotBetween(f, sep, dot) <==> HasNonDotBetween(g, sep, dot);
      assert Lower(f[dot..]) == Lower(f)[dot..];
      assert Lower(g[dot..]) == Lower(g)[dot..];
    }
  }

  lemma AllowedIgnoresCase(f: string, g: string, settings: Settings)
    requires Lower(f) == Lower(g)
    ensures IsAllowedFile(f, settings) == IsAllowedFile(g, settings)
  {
    ExtensionIgnoresCase(f, g);
  }

  /** The final component of `name` has a character other than a dot. */
  predicate HasStem(name: string) {
    HasNonDotBetween(name, RFind(name, '/'), |name|)
  }

  /** Appending a dotted suffix `e` to `name` makes `e`, lower-cased, the
      extension, unless `name` ends in a component made only of dots. */
  lemma {:induction false} ExtensionOfAppended(name: string, e: string)
    requires |e| >= 1 && e[0] == '.'
    requires forall i :: 1 <= i < |e| ==> e[i] != '.' && e[i] != '/'
    ensures GetFileExtension(name + e) == if HasStem(name) then Lower(e) else []
  {
    var p := name + e;
    var sep := RFind(name, '/');
    forall j | |name| < j < |p| ensures p[j] != '/' && p[j] != '.' {
      assert p[j] == e[j - |name|];
    }
    RFindUnique(p, '.', |name|);
    forall j | sep < j < |p| ensures p[j] != '/' {
      if j < |name| {
        assert p[j] == name[j];
      }
    }
    assert sep >= 0 ==> p[sep] == '/' by {
      if sep >= 0 {
        assert p[sep] == name[sep];
      }
    }
    RFindUnique(p, '/', sep);
    assert HasNonDotBetween(p, sep, |name|) <==> HasStem(name) by {
      if HasStem(name) {
        var i :| sep < i < |name| && name[i] != '.';
        assert p[i] == name[i];
      }
      if HasNonDotBetween(p, sep, |name|) {
        var i :| sep < i < |name| && p[i] != '.';
        assert name[i] == p[i];
      }
    }
    assert p[|name|..] == e;
  }

  /** Only the last dot counts, and the extension is lower-cased. */
  lemma ExtensionOfDoubleSuffix()
    ensures GetFileExtension("a.tar.GZ") == ".gz"
  {
    var name, e := "a.tar", ".GZ";
    RFindUnique(name, '/', -1);
    assert name[0] != '.';
    assert HasStem(name);
    ExtensionOfAppended(name, e);
    assert Lower(e) == ".gz";
    assert name + e == "a.tar.GZ";
  }

  /** A name whose only dot is leading has no extension. */
  lemma ExtensionOfDotFile()
    ensures GetFileExtension(".env") == ""
  {
    ExtensionOfAppended("", ".env");
    assert "" + ".env" == ".env";
  }

  /** A dot in a directory name is not an extension. */
  lemma ExtensionOfDottedDirectory()
    ensures GetFileExtension("reports.d/notes") == ""
  {
    RFindUnique("reports.d/notes", '/', 9);
    RFindUnique("reports.d/notes", '.', 7);
  }

  /** With the default settings the five listed extensions are accepted in
      any letter case, given a file name with a stem. */
  lemma DefaultAcceptsListed(name: string, e: string)
    requires |e| >= 1 && e[0] == '.'
    requires forall i :: 1 <= i < |e| ==> e[i] != '.' && e[i] != '/'
    requires Lower(e) in [".txt", ".csv", ".xlsx", ".xls", ".docx"]
    requires HasStem(name)
    ensures IsAllowedFile(name + e, DefaultSettings)
  {
    ExtensionOfAppended(name, e);
  }

  /** With the default settings PDF and JSON files are never accepted, in any
      letter case, though an extractor exists for PDF. */
  lemma DefaultRejectsExcluded(name: string, e: string)
    requires |e| >= 1 && e[0] == '.'
    requires forall i :: 1 <= i < |e| ==> e[i] != '.' && e[i] != '/'
    requires Lower(e) in [".pdf", ".json"]
    ensures !IsAllowedFile(name + e, DefaultSettings)
  {
    ExtensionOfAppended(name, e);
  }

  /** A file without an extension is accepted only if the empty string is
      listed, which the defaults do not do. */
  lemma NoExtensionRejected(filename: string, settings: Settings)
    requires GetFileExtension(filename) == []
    requires [] !in settings.allowedExtensions
    ensures !IsAllowedFile(filename, settings)
  {
  }

  /** An extension on both lists is refused: exclusion wins. */
  lemma ExclusionWins(filename: string, settings: Settings)
    requires GetFileExtension(filename) in settings.excludedExtensions
    ensures !IsAllowedFile(filename, settings)
  {
  }
}
