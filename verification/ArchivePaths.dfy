/** ZIP entry paths of the delivery-note archive (afctools/rda_ddt.go). */
module ArchivePaths {
  import opened Text
  import opened Digits
  import opened Sets

  datatype Attachment = Attachment(purchaseOrderID: int, attachmentID: int, fileName: string)

  const MANIFEST := "documenti_non_scaricati.txt"

  /******* Safe file names *******/

  function Slashed(s: string): (r: string)
    ensures |r| == |s| && forall i :: 0 <= i < |s| ==> r[i] == if s[i] == '\\' then '/' else s[i]
  {
    seq(|s|, i requires 0 <= i < |s| => if s[i] == '\\' then '/' else s[i])
  }

  function StripSlashes(s: string): string {
    if s != "" && s[|s| - 1] == '/' then StripSlashes(s[..|s| - 1]) else s
  }

  // The part after the last slash
  function LastPart(s: string): (r: string)
    ensures '/' !in r && |r| <= |s| && r == s[|s| - |r|..]
  {
    if s == "" || s[|s| - 1] == '/' then "" else LastPart(s[..|s| - 1]) + [s[|s| - 1]]
  }

  // filepath.Base
  function BaseName(s: string): string {
    if s == "" then "."
    else
      var last := LastPart(StripSlashes(s));
      if last == "" then "/" else last
  }

  predicate IsControl(c: char) { c as int < 32 || c as int == 127 }

  function DropControls(s: string): (r: string)
    ensures forall c :: c in r <==> c in s && !IsControl(c)
  {
    if s == "" then "" else (if IsControl(s[0]) then "" else [s[0]]) + DropControls(s[1..])
  }

  // rdaDDTArchivePathPart
  function PathPart(value: string): string {
    var v := DropControls(BaseName(Slashed(TrimSpace(value))));
    if v == "" || v == "." || v == ".." || '/' in v || '\\' in v then "" else v
  }

  // safeRDADDTArchiveFilename
  function SafeFilename(name: string, fallback: string): string {
    if PathPart(name) != "" then PathPart(name)
    else if PathPart(fallback) != "" then PathPart(fallback)
    else "documento"
  }

  // One path element that stays in its directory.
  predicate IsPlainName(s: string) {
    s != "" && s != "." && s != ".." && '/' !in s && '\\' !in s && forall c :: c in s ==> !IsControl(c)
  }

  lemma {:induction false} PathPartPlain(value: string)
    ensures PathPart(value) == "" || IsPlainName(PathPart(value))
  {
    hide BaseName, Slashed, TrimSpace;
  }

  lemma {:induction false} SafeFilenamePlain(name: string, fallback: string)
    ensures IsPlainName(SafeFilename(name, fallback))
  {
    hide PathPart;
    PathPartPlain(name);
    PathPartPlain(fallback);
  }

  /******* Which name is kept *******/

  predicate IsSeparator(c: char) { c == '/' || c == '\\' }

  // A directory part: nothing, or something that ends in a separator.
  predicate IsDirectory(s: string) { s == "" || IsSeparator(s[|s| - 1]) }

  // A text split as path functions see it: directories, the last element, and separators after it.
  predicate SplitsAs(s: string, dir: string, base: string, tail: string) {
    && s == dir + base + tail && IsDirectory(dir) && (base == "" ==> dir == "")
    && (forall c :: c in base ==> !IsSeparator(c)) && (forall c :: c in tail ==> IsSeparator(c))
  }

  lemma {:induction false} LastPartAt(s: string, p: nat)
    requires p <= |s| && (p == 0 || s[p - 1] == '/') && forall i :: p <= i < |s| ==> s[i] != '/'
    ensures LastPart(s) == s[p..]
  {
    if p < |s| {
      LastPartAt(s[..|s| - 1], p);
      assert s[p..] == s[..|s| - 1][p..] + [s[|s| - 1]];
    }
  }

  lemma {:induction false} LastPartAfter(dir: string, base: string)
    requires '/' !in base && (dir == "" || dir[|dir| - 1] == '/')
    ensures LastPart(dir + base) == base
  {
    hide LastPart;
    assert forall i :: 0 <= i < |base| ==> base[i] in base;
    LastPartAt(dir + base, |dir|);
  }

  lemma {:induction false} StripTail(s: string, tail: string)
    requires forall c :: c in tail ==> c == '/'
    ensures StripSlashes(s + tail) == StripSlashes(s)
  {
    if tail == "" {
      assert s + tail == s;
    } else {
      var n := |tail| - 1;
      assert tail[n] in tail && (s + tail)[..|s + tail| - 1] == s + tail[..n];
      assert forall c :: c in tail[..n] ==> c in tail;
      StripTail(s, tail[..n]);
    }
  }

  lemma {:induction false} BaseOf(s: string, dir: string, base: string, tail: string)
    requires SplitsAs(s, dir, base, tail)
    ensures BaseName(Slashed(s)) == if base != "" then base else if s == "" then "." else "/"
  {
    var d, t := Slashed(dir), Slashed(tail);
    assert Slashed(base) == base by { assert forall i :: 0 <= i < |base| ==> base[i] in base; }
    assert Slashed(s) == d + base + t;
    assert forall i :: 0 <= i < |tail| ==> tail[i] in tail;
    assert forall c :: c in t ==> c == '/';
    StripTail(d + base, t);
    if base == "" {
      assert d + base == "" && Slashed(s) == t;
    } else {
      assert base[|base| - 1] in base && (d + base)[|d + base| - 1] == base[|base| - 1];
      assert StripSlashes(d + base) == d + base;
      assert dir != "" ==> d[|d| - 1] == '/';
      LastPartAfter(d, base);
    }
  }

  // The characters below the space and the delete character are dropped, one by one, and no others.
  lemma {:induction false} DropControlsOne(c: char)
    ensures DropControls([c]) == if c < ' ' || c == 127 as char then "" else [c]
  {
    assert [c][1..] == "";
  }

  lemma {:induction false} DropControlsJoin(a: string, b: string)
    ensures DropControls(a + b) == DropControls(a) + DropControls(b)
  {
    if a == "" {
      assert a + b == b;
    } else {
      assert (a + b)[0] == a[0] && (a + b)[1..] == a[1..] + b;
      DropControlsJoin(a[1..], b);
    }
  }

  lemma {:induction false} NoControls(s: string)
    ensures (forall c :: c in s ==> !IsControl(c)) ==> DropControls(s) == s
    ensures (forall c :: c in s ==> IsControl(c)) ==> DropControls(s) == ""
  {
    if s != "" {
      NoControls(s[1..]);
      assert s == [s[0]] + s[1..];
    }
  }

  // The name kept of an attachment's own is its last element without control characters, if that is a name.
  lemma {:induction false} PathPartIs(value: string, dir: string, base: string, tail: string)
    requires SplitsAs(TrimSpace(value), dir, base, tail)
    ensures PathPart(value) == if DropControls(base) in {"", ".", ".."} then "" else DropControls(base)
  {
    BaseOf(TrimSpace(value), dir, base, tail);
    NoControls(".");
    NoControls("/");
    assert forall c :: c in DropControls(base) ==> c in base;
  }

  lemma {:induction false} PlainPart(s: string)
    requires IsPlainName(s) && Trimmed(s)
    ensures PathPart(s) == s
  {
    TrimSpaceOfTrimmed(s);
    NoControls(s);
    assert s == "" + s + "";
    PathPartIs(s, "", s, "");
  }

  // The fallback is a name of its own.
  lemma {:induction false} FallbackPart(n: int)
    ensures PathPart("documento-" + IntStr(n)) == "documento-" + IntStr(n)
  {
    hide PathPart, IntStr, IsControl;
    var s := "documento-" + IntStr(n);
    IntStrPlain(n);
    IntStrTrimmed(n);
    DocumentoPlain();
    PlainJoin("documento-", IntStr(n));
    assert s[0] == 'd' && s[|s| - 1] == IntStr(n)[|IntStr(n)| - 1];
    PlainPart(s);
  }

  lemma {:induction false} DocumentoPlain()
    ensures forall c :: c in "documento-" ==> !IsControl(c) && c != '/' && c != '\\'
  {
  }

  lemma {:induction false} IntStrTrimmed(n: int)
    ensures IntStr(n) != "" && !IsSpace(IntStr(n)[|IntStr(n)| - 1])
  {
    var s := NatStr(if n < 0 then -n else n);
    assert IsDigit(s[|s| - 1]);
    assert IntStr(n)[|IntStr(n)| - 1] == s[|s| - 1];
  }

  // filepath.Ext of a plain name: from the last dot on
  function Ext(s: string): (r: string)
    ensures |r| <= |s| && r == s[|s| - |r|..]
  {
    if s == "" then "" else if s[|s| - 1] == '.' then "."
    else
      var e := Ext(s[..|s| - 1]);
      if e == "" then "" else e + [s[|s| - 1]]
  }

  /******* Candidates *******/

  function Folder(a: Attachment): string { "PO-" + IntStr(a.purchaseOrderID) }

  function CleanName(a: Attachment): string {
    SafeFilename(a.fileName, "documento-" + IntStr(a.attachmentID))
  }

  function Stem(a: Attachment): string {
    var name := CleanName(a);
    name[..|name| - |Ext(name)|] + "-" + IntStr(a.attachmentID)
  }

  // The file name tried k-th: as it is, with the attachment id, then with a growing suffix.
  function NameTry(a: Attachment, k: nat): string {
    if k == 0 then CleanName(a)
    else if k == 1 then Stem(a) + Ext(CleanName(a))
    else Stem(a) + "-" + NatStr(k) + Ext(CleanName(a))
  }

  function PathTry(a: Attachment, k: nat): string {
    Folder(a) + "/" + NameTry(a, k)
  }

  lemma {:induction false} PlainJoin(a: string, b: string)
    requires (forall c :: c in a ==> !IsControl(c) && c != '/' && c != '\\')
        && (forall c :: c in b ==> !IsControl(c) && c != '/' && c != '\\')
    ensures forall c :: c in a + b ==> !IsControl(c) && c != '/' && c != '\\'
  {
  }

  lemma {:induction false} IntStrPlain(n: int)
    ensures forall c :: c in IntStr(n) ==> !IsControl(c) && c != '/' && c != '\\'
  {
    var s := NatStr(if n < 0 then -n else n);
    forall c | c in s ensures IsDigit(c) {
      var i :| 0 <= i < |s| && s[i] == c;
    }
  }

  lemma {:induction false} StemPlain(a: Attachment)
    ensures forall c :: c in Stem(a) ==> !IsControl(c) && c != '/' && c != '\\'
    ensures '-' in Stem(a)
  {
    SafeFilenamePlain(a.fileName, "documento-" + IntStr(a.attachmentID));
    IntStrPlain(a.attachmentID);
    var name := CleanName(a);
    var stem := name[..|name| - |Ext(name)|];
    assert forall c :: c in stem ==> c in name;
    PlainJoin(stem, "-");
    PlainJoin(stem + "-", IntStr(a.attachmentID));
    assert '-' in stem + "-";
  }

  // Every candidate is one plain name.
  lemma {:induction false} NameTryPlain(a: Attachment, k: nat)
    ensures IsPlainName(NameTry(a, k))
  {
    SafeFilenamePlain(a.fileName, "documento-" + IntStr(a.attachmentID));
    if k > 0 {
      StemPlain(a);
      var ext := Ext(CleanName(a));
      assert forall c :: c in ext ==> c in CleanName(a);
      if k == 1 {
        PlainJoin(Stem(a), ext);
        assert '-' in NameTry(a, k);
      } else {
        IntStrPlain(k);
        PlainJoin(Stem(a), "-");
        PlainJoin(Stem(a) + "-", NatStr(k));
        PlainJoin(Stem(a) + "-" + NatStr(k), ext);
        assert '-' in NameTry(a, k);
      }
      assert '-' !in "." && '-' !in "..";
    }
  }

  lemma {:induction false} MiddleInjective(p: string, x: string, y: string, q: string)
    requires p + x + q == p + y + q
    ensures x == y
  {
    assert |x| == |y|;
    forall i | 0 <= i < |x| ensures x[i] == y[i] {
      assert (p + x + q)[|p| + i] == (p + y + q)[|p| + i];
    }
  }

  // The candidates with a suffix are all different.
  lemma {:induction false} TriesDistinct(a: Attachment, j: nat, k: nat)
    requires 1 <= j < k
    ensures PathTry(a, j) != PathTry(a, k)
  {
    hide Folder, Stem, Ext, CleanName, NatStr;
    var p, q := Folder(a) + "/" + Stem(a), Ext(CleanName(a));
    var x := if j == 1 then "" else "-" + NatStr(j);
    var y := "-" + NatStr(k);
    assert PathTry(a, j) == p + x + q && PathTry(a, k) == p + y + q;
    if p + x + q == p + y + q {
      MiddleInjective(p, x, y, q);
      if j > 1 {
        assert x[1..] == NatStr(j) && y[1..] == NatStr(k);
        NatStrInjective(j, k);
      }
      assert false;
    }
  }

  function TriesUpTo(a: Attachment, m: nat): set<string> {
    set k: nat | 1 <= k <= m :: PathTry(a, k)
  }

  lemma {:induction false} CountTries(a: Attachment, m: nat)
    ensures |TriesUpTo(a, m)| == m
  {
    hide PathTry;
    if m > 0 {
      CountTries(a, m - 1);
      forall k: nat | 1 <= k < m ensures PathTry(a, k) != PathTry(a, m) { TriesDistinct(a, k, m); }
      assert TriesUpTo(a, m) == TriesUpTo(a, m - 1) + {PathTry(a, m)};
    }
  }

  // Pigeonhole: the first m suffixed candidates cannot all be taken once m exceeds the taken paths.
  lemma {:induction false} TriesRunOut(a: Attachment, used: set<string>, m: nat)
    requires forall k :: 1 <= k <= m ==> PathTry(a, k) in used
    ensures m <= |used|
  {
    CountTries(a, m);
    SubsetCard(TriesUpTo(a, m), used);
  }

  // Main result: an attachment keeps its own name, without directories and control characters, and is named
  // after its id only when no name is left.
  lemma {:induction false} CleanNameIs(a: Attachment, dir: string, base: string, tail: string)
    requires SplitsAs(TrimSpace(a.fileName), dir, base, tail)
    ensures CleanName(a)
            == if DropControls(base) in {"", ".", ".."} then "documento-" + IntStr(a.attachmentID)
               else DropControls(base)
  {
    PathPartIs(a.fileName, dir, base, tail);
    FallbackPart(a.attachmentID);
    hide PathPart, IntStr;
  }

  // In particular a plain name is kept as it is, whatever directories stand before it.
  lemma {:induction false} PlainNameKept(a: Attachment, dir: string, name: string)
    requires TrimSpace(a.fileName) == dir + name && IsDirectory(dir) && IsPlainName(name)
    ensures CleanName(a) == name
  {
    assert dir + name == dir + name + "";
    NoControls(name);
    CleanNameIs(a, dir, name, "");
  }

  // A stem and its extension: from the last dot on, or nothing.
  predicate IsExtension(stem: string, ext: string) {
    if ext == "" then '.' !in stem else ext[0] == '.' && '.' !in ext[1..]
  }

  lemma {:induction false} NoExtension(stem: string)
    requires forall i :: 0 <= i < |stem| ==> stem[i] != '.'
    ensures Ext(stem) == ""
  {
    if stem != "" { NoExtension(stem[..|stem| - 1]); }
  }

  lemma {:induction false} ExtensionFrom(s: string, p: nat)
    requires p < |s| && s[p] == '.' && forall i :: p < i < |s| ==> s[i] != '.'
    ensures Ext(s) == s[p..]
  {
    if p < |s| - 1 {
      ExtensionFrom(s[..|s| - 1], p);
      assert s[p..] == s[..|s| - 1][p..] + [s[|s| - 1]];
    }
  }

  lemma {:induction false} ExtIs(stem: string, ext: string)
    requires IsExtension(stem, ext)
    ensures Ext(stem + ext) == ext
  {
    hide Ext;
    if ext == "" {
      assert stem + ext == stem;
      NoExtension(stem);
    } else {
      assert forall i :: 0 < i < |ext| ==> ext[i] == ext[1..][i - 1] && ext[1..][i - 1] in ext[1..];
      ExtensionFrom(stem + ext, |stem|);
    }
  }

  // The candidates in full: the name, the name with the id before its extension, and from 2 on a number too.
  lemma {:induction false} Candidates(a: Attachment, stem: string, ext: string, k: nat)
    requires CleanName(a) == stem + ext && IsExtension(stem, ext)
    ensures var folder, id := "PO-" + IntStr(a.purchaseOrderID), IntStr(a.attachmentID);
            PathTry(a, k) == folder + "/" + if k == 0 then stem + ext else if k == 1 then stem + "-" + id + ext
                                            else stem + "-" + id + "-" + NatStr(k) + ext
  {
    hide CleanName, IntStr, NatStr, Ext;
    ExtIs(stem, ext);
    assert (stem + ext)[..|stem|] == stem;
  }

  /******* The archive *******/

  // Row i gets its first candidate that no earlier row has.
  ghost predicate FirstFree(atts: seq<Attachment>, paths: seq<string>, i: nat)
    requires i < |paths| <= |atts|
  {
    exists k: nat ::
      && paths[i] == PathTry(atts[i], k) && paths[i] !in paths[..i]
      && forall j :: 0 <= j < k ==> PathTry(atts[i], j) in paths[..i]
  }

  // rdaDDTArchivePaths
  method BuildPaths(atts: seq<Attachment>) returns (paths: seq<string>)
    ensures |paths| == |atts|
    ensures forall i :: 0 <= i < |atts| ==> FirstFree(atts, paths, i)
    ensures forall i, j :: 0 <= i < j < |paths| ==> paths[i] != paths[j]
    ensures forall i :: 0 <= i < |paths| ==> InFolder(paths[i], atts[i])
    ensures MANIFEST !in paths
  {
    hide PathTry, InFolder;
    var usedPaths: set<string> := {};
    paths := [];
    var i := 0;
    while i < |atts|
      invariant 0 <= i <= |atts| && |paths| == i
      invariant usedPaths == set p | p in paths
      invariant forall j :: 0 <= j < i ==> FirstFree(atts, paths, j)
    {
      var a := atts[i];
      var path := PickPath(a, usedPaths);
      ghost var before := paths;
      usedPaths := usedPaths + {path};
      paths := paths + [path];
      i := i + 1;
      forall j | 0 <= j < i ensures FirstFree(atts, paths, j) {
        if j < i - 1 {
          assert FirstFree(atts, before, j);
          assert paths[..j] == before[..j];
        } else {
          assert paths[..j] == before;
        }
      }
    }
    PathsSafe(atts, paths);
  }

  method PickPath(a: Attachment, usedPaths: set<string>) returns (path: string)
    ensures path !in usedPaths
    ensures exists k: nat :: path == PathTry(a, k) && forall j :: 0 <= j < k ==> PathTry(a, j) in usedPaths
  {
    hide Folder, CleanName, Ext, NatStr, IntStr;
    var folder := Folder(a);
    var filename := CleanName(a);
    path := folder + "/" + filename;
    assert path == PathTry(a, 0);
    if path in usedPaths {
      var extension := Ext(filename);
      var base := filename[..|filename| - |extension|];
      path := folder + "/" + (base + "-" + IntStr(a.attachmentID) + extension);
      assert path == PathTry(a, 1);
      var suffix := 2;
      while path in usedPaths
        invariant suffix >= 2 && path == PathTry(a, suffix - 1)
        invariant forall j :: 0 <= j < suffix - 1 ==> PathTry(a, j) in usedPaths
        decreases |usedPaths| + 2 - suffix
      {
        TriesRunOut(a, usedPaths, suffix - 1);
        path := folder + "/" + (base + "-" + IntStr(a.attachmentID) + "-" + NatStr(suffix) + extension);
        assert path == PathTry(a, suffix);
        suffix := suffix + 1;
      }
      assert path == PathTry(a, suffix - 1);
    }
  }

  // The purchase order's folder and exactly one plain file name.
  ghost predicate InFolder(path: string, a: Attachment) {
    exists name :: path == Folder(a) + "/" + name && IsPlainName(name)
  }

  lemma {:induction false} PathTryShape(a: Attachment, k: nat)
    ensures InFolder(PathTry(a, k), a)
    ensures '/' in PathTry(a, k)
  {
    hide Folder, NameTry, IsPlainName;
    NameTryPlain(a, k);
    assert PathTry(a, k)[|Folder(a)|] == '/';
  }

  lemma ManifestFlat()
    ensures '/' !in MANIFEST
  {
  }

  // Main result: the paths are pairwise distinct, each is the purchase order's folder and one plain
  // file name, and none is the manifest's.
  lemma PathsSafe(atts: seq<Attachment>, paths: seq<string>)
    requires |paths| == |atts| && forall i :: 0 <= i < |atts| ==> FirstFree(atts, paths, i)
    ensures forall i, j :: 0 <= i < j < |paths| ==> paths[i] != paths[j]
    ensures forall i :: 0 <= i < |paths| ==> InFolder(paths[i], atts[i])
    ensures MANIFEST !in paths
  {
    hide PathTry, InFolder;
    ManifestFlat();
    forall i, j | 0 <= i < j < |paths| ensures paths[i] != paths[j] {
      assert FirstFree(atts, paths, j) && paths[..j][i] == paths[i];
    }
    forall i | 0 <= i < |paths|
      ensures InFolder(paths[i], atts[i]) && paths[i] != MANIFEST
    {
      assert FirstFree(atts, paths, i);
      var k: nat :| paths[i] == PathTry(atts[i], k);
      PathTryShape(atts[i], k);
    }
  }

  // The folder is the only directory on the path: it holds no slash either.
  lemma FolderPlain(a: Attachment)
    ensures '/' !in Folder(a) && '\\' !in Folder(a)
  {
    IntStrPlain(a.purchaseOrderID);
  }

  // Main result: the path is the purchase order's folder and the attachment's name when no earlier row has
  // that; otherwise the name with the attachment's id, and with the least number from 2 on when that is taken.
  lemma {:induction false} PathGiven(atts: seq<Attachment>, paths: seq<string>, i: nat, stem: string, ext: string)
    requires i < |paths| <= |atts| && FirstFree(atts, paths, i)
    requires CleanName(atts[i]) == stem + ext && IsExtension(stem, ext)
    ensures var folder, id := "PO-" + IntStr(atts[i].purchaseOrderID), IntStr(atts[i].attachmentID);
            if folder + "/" + (stem + ext) !in paths[..i] then paths[i] == folder + "/" + (stem + ext)
            else if folder + "/" + (stem + "-" + id + ext) !in paths[..i] then
              paths[i] == folder + "/" + (stem + "-" + id + ext)
            else exists k: nat ::
              && k >= 2 && paths[i] == folder + "/" + (stem + "-" + id + "-" + NatStr(k) + ext)
              && paths[i] !in paths[..i]
              && forall j: nat :: 2 <= j < k ==> folder + "/" + (stem + "-" + id + "-" + NatStr(j) + ext) in paths[..i]
  {
    hide PathTry, CleanName, IntStr, NatStr;
    forall j: nat { Candidates(atts[i], stem, ext, j); }
    var k: nat :| paths[i] == PathTry(atts[i], k) && paths[i] !in paths[..i]
        && forall j :: 0 <= j < k ==> PathTry(atts[i], j) in paths[..i];
    assert k > 0 ==> PathTry(atts[i], 0) in paths[..i];
    assert k > 1 ==> PathTry(atts[i], 1) in paths[..i];
  }
}
