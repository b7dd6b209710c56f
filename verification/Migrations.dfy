// Migration files: names, order of application, and marking an existing schema as migrated.
module Migrations {
  import opened Rows
  import opened Decimals

  // ------------------------------------------------------------------ names

  predicate IsLower(c: char) {
    'a' <= c <= 'z'
  }

  /** [a-z0-9_] */
  predicate IsNameChar(c: char) {
    IsLower(c) || IsDigit(c) || c == '_'
  }

  predicate AllNameChars(s: string) {
    forall i :: 0 <= i < |s| ==> IsNameChar(s[i])
  }

  /** NamePattern: ^[a-z0-9][a-z0-9_]*$ */
  predicate NamePattern(s: string) {
    s != [] && (IsLower(s[0]) || IsDigit(s[0])) && AllNameChars(s)
  }

  /** VersionPattern: ^\d+\.\d{2}\.\d{2}$ */
  predicate VersionPattern(s: string) {
    && |s| >= 7
    && AllDigits(Major(s)) && s[|s| - 6] == '.'
    && AllDigits(Minor(s)) && s[|s| - 3] == '.'
    && AllDigits(Patch(s))
  }

  function Major(s: string): string
    requires |s| >= 7
  {
    s[..|s| - 6]
  }

  function Minor(s: string): string
    requires |s| >= 7
  {
    s[|s| - 5..|s| - 3]
  }

  function Patch(s: string): string
    requires |s| >= 7
  {
    s[|s| - 2..]
  }

  /** unicode.ToLower, as far as its results are ASCII: the two other runes with an ASCII lower case are U+0130 and U+212A. */
  function LowerChar(c: char): char {
    if 'A' <= c <= 'Z' then c + ('a' - 'A')
    else if c == '\U{130}' then 'i'
    else if c == '\U{212A}' then 'k'
    else c
  }

  /** What SanitizeAuthor makes of one rune. */
  function SanitizeChar(c: char): string {
    var l := LowerChar(c);
    if IsLower(l) || IsDigit(l) then [l]
    else if l == '_' || l == '-' then "_"
    else ""
  }

  function Sanitized(s: string): string {
    if s == [] then "" else Sanitized(s[..|s| - 1]) + SanitizeChar(s[|s| - 1])
  }

  method SanitizeAuthor(s: string) returns (r: string)
    ensures r == Sanitized(s)
  {
    r := "";
    var i := 0;
    while i < |s|
      invariant 0 <= i <= |s|
      invariant r == Sanitized(s[..i])
    {
      assert s[..i + 1][..i] == s[..i];
      var l := LowerChar(s[i]);
      if IsLower(l) || IsDigit(l) { r := r + [l]; } else if l == '_' || l == '-' { r := r + "_"; }
      i := i + 1;
    }
    assert s[..i] == s;
  }

  /** Rune by rune: lower-case letters, digits and underscores stay, capitals become small, hyphens underscores; the rest goes. */
  lemma {:induction false} SanitizedRunes(s: string, c: char)
    ensures Sanitized(s + [c]) == Sanitized(s) +
      if 'a' <= c <= 'z' || '0' <= c <= '9' || c == '_' then [c]
      else if 'A' <= c <= 'Z' then [((c as int) + 32) as char]
      else if c == '-' then "_"
      else if c == '\U{130}' then "i"
      else if c == '\U{212A}' then "k"
      else ""
    ensures Sanitized("") == ""
  {
    assert (s + [c])[..|s|] == s;
  }

  lemma {:induction false} SanitizedClean(s: string)
    ensures AllNameChars(Sanitized(s)) && |Sanitized(s)| <= |s|
  {
    if s != [] { SanitizedClean(s[..|s| - 1]); }
  }

  /** A clean author is kept as it is, so sanitising twice is sanitising once. */
  lemma {:induction false} SanitizedFixed(s: string)
    ensures Sanitized(s) == s <==> AllNameChars(s)
  {
    SanitizedClean(s);
    if AllNameChars(s) && s != [] {
      SanitizedFixed(s[..|s| - 1]);
      assert s == s[..|s| - 1] + [s[|s| - 1]];
    }
  }

  /** A file name as CreateMigrationFile builds it. */
  function FileName(ts: string, author: string, name: string): string {
    ts + "_" + author + "_" + name + ".sql"
  }

  /** The viewer's pattern: ^\d{14}_[a-z0-9_]+\.sql$ */
  predicate ViewerPattern(s: string) {
    && |s| > 19 && AllDigits(s[..14]) && s[14] == '_'
    && AllNameChars(s[15..|s| - 4]) && s[|s| - 4..] == ".sql"
  }

  /** strings.Index(s, "_"): the first underscore, or -1. */
  function IndexUnderscore(s: string): (i: int)
    ensures -1 <= i < |s|
    ensures i >= 0 ==> s[i] == '_' && forall j :: 0 <= j < i ==> s[j] != '_'
    ensures i < 0 ==> forall j :: 0 <= j < |s| ==> s[j] != '_'
  {
    if s == [] then -1
    else if s[0] == '_' then 0
    else
      var i := IndexUnderscore(s[1..]);
      assert forall j :: 1 <= j < |s| ==> s[j] == s[1..][j - 1];
      if i < 0 then -1 else i + 1
  }

  /** The file name begins with 14 digits and an underscore. */
  predicate Stamped(filename: string) {
    |filename| > 14 && AllDigits(filename[..14]) && filename[14] == '_'
  }

  /** parseVersionID: the 14 digits before the first underscore, as a number. */
  method ParseVersionId(filename: string) returns (id: Option<nat>)
    ensures id == if Stamped(filename) then Some(Value(filename[..14])) else None
  {
    var idx := IndexUnderscore(filename);
    if idx <= 0 { return None; }
    var stamp := filename[..idx];
    if |stamp| != 14 { return None; }
    var v := 0;
    var i := 0;
    while i < |stamp|
      invariant 0 <= i <= |stamp|
      invariant AllDigits(stamp[..i]) && v == Value(stamp[..i])
    {
      if !IsDigit(stamp[i]) {
        assert filename[i] == stamp[i];
        return None;
      }
      assert stamp[..i + 1][..i] == stamp[..i];
      v := v * 10 + Digit(stamp[i]);
      i := i + 1;
    }
    assert stamp[..i] == stamp;
    id := Some(v);
  }

  /** A created name parses back to its own timestamp and is one the viewer accepts. */
  lemma CreatedNameFits(ts: string, author: string, name: string)
    requires |ts| == 14 && AllDigits(ts) && author != [] && AllNameChars(author) && NamePattern(name)
    ensures var f := FileName(ts, author, name);
      && Stamped(f) && f[..14] == ts && ViewerPattern(f)
      && Value(f[..14]) == Value(ts) < Pow10(14)
  {
    var f := FileName(ts, author, name);
    var middle := author + "_" + name;
    assert f == ts + ("_" + (middle + ".sql"));
    assert f[..14] == ts && f[14] == '_';
    assert f[15..|f| - 4] == middle && f[|f| - 4..] == ".sql";
  }

  /** Among created names, the order of the ids is the order of the timestamps. */
  lemma NamesKeepOrder(a: string, b: string)
    requires Stamped(a) && Stamped(b)
    ensures Value(a[..14]) < Value(b[..14]) <==> Less(a[..14], b[..14])
  {
    LessIsSmaller(a[..14], b[..14]);
  }

  datatype CreateError = InvalidCategory | InvalidVersion | InvalidName | AuthorRequired | NoDirectory | FileExists | NotWritten

  datatype Created = Written(dir: string, file: string) | Refused(error: CreateError)

  /** The disk: whether making the directory fails, whether Stat finds an existing file, and whether the write fails, leaving a file or not. */
  datatype Disk = Disk(mkdirFails: bool, statWorks: bool, writeFails: bool, leaves: bool)

  /** CreateMigrationFile, up to the text: `files` are the paths that exist, ts is the time in the format's 14 digits. */
  method CreateMigrationFile(category: string, version: string, name: string, author: string, ts: string, files: set<(string, string)>, disk: Disk)
    returns (r: Created, files': set<(string, string)>)
    requires |ts| == 14 && AllDigits(ts)
    ensures r.Written? ==>
      && r.dir == category + "/" + version && Stamped(r.file) && r.file[..14] == ts && ViewerPattern(r.file)
      && r.file == ts + "_" + Sanitized(author) + "_" + name + ".sql" && Sanitized(author) != ""
      && files' == files + {(r.dir, r.file)} && (disk.statWorks ==> (r.dir, r.file) !in files)
      && (category == "game" || category == "shard") && VersionPattern(version) && NamePattern(name)
    ensures r.Refused? ==> files' == files || (r.error == NotWritten && files' == files + {(category + "/" + version, FileName(ts, Sanitized(author), name))})
    ensures r == Refused(InvalidCategory) <==> category != "game" && category != "shard"
    ensures r == Refused(InvalidVersion) <==> (category == "game" || category == "shard") && !VersionPattern(version)
    ensures r == Refused(InvalidName) ==> VersionPattern(version) && !NamePattern(name)
    ensures r == Refused(AuthorRequired) ==> NamePattern(name) && Sanitized(author) == ""
    ensures r == Refused(NoDirectory) ==> disk.mkdirFails
    ensures r == Refused(FileExists) ==> disk.statWorks && (category + "/" + version, FileName(ts, Sanitized(author), name)) in files
    ensures r == Refused(NotWritten) ==> disk.writeFails
    ensures r.Written? ==> !disk.mkdirFails && !disk.writeFails
  {
    hide ViewerPattern, Stamped, Value, Pow10, VersionPattern, NamePattern, Sanitized, AllDigits, AllNameChars;
    files' := files;
    if category != "game" && category != "shard" { return Refused(InvalidCategory), files; }
    if !VersionPattern(version) { return Refused(InvalidVersion), files; }
    if !NamePattern(name) { return Refused(InvalidName), files; }
    var clean := SanitizeAuthor(author);
    if clean == "" { return Refused(AuthorRequired), files; }
    SanitizedClean(author);
    CreatedNameFits(ts, clean, name);
    var dir, file := category + "/" + version, FileName(ts, clean, name);
    if disk.mkdirFails { return Refused(NoDirectory), files; }
    if disk.statWorks && (dir, file) in files { return Refused(FileExists), files; }
    if disk.writeFails { return Refused(NotWritten), if disk.leaves then files + {(dir, file)} else files; }
    return Written(dir, file), files + {(dir, file)};
  }

  // ------------------------------------------------------------------ order of application

  datatype Entry = Entry(name: string, isDir: bool)

  datatype MigrationFile = MigrationFile(version: string, filename: string, versionId: nat)

  predicate IsSql(e: Entry) {
    !e.isDir && |e.name| >= 4 && e.name[|e.name| - 4..] == ".sql"
  }

  function FileOf(dir: string, name: string): MigrationFile
    requires Stamped(name)
  {
    MigrationFile(dir, name, Value(name[..14]))
  }

  /** Every .sql file of the directory, if all are stamped. */
  function SqlFiles(dir: string, entries: seq<Entry>): Option<seq<MigrationFile>> {
    if entries == [] then Some([])
    else
      var last := entries[|entries| - 1];
      match SqlFiles(dir, entries[..|entries| - 1])
      case None => None
      case Some(front) =>
        if !IsSql(last) then Some(front)
        else if Stamped(last.name) then Some(front + [FileOf(dir, last.name)])
        else None
  }

  /** The entry is a .sql file, and f is that file: its directory, its name, and its 14 digits as a number. */
  predicate Names(e: Entry, dir: string, f: MigrationFile) {
    IsSql(e) && Stamped(e.name) && f.version == dir && f.filename == e.name && f.versionId == Value(e.name[..14])
  }

  /** Which entries of the directory name f. */
  function Places(dir: string, entries: seq<Entry>, f: MigrationFile): set<int> {
    set i | 0 <= i < |entries| && Names(entries[i], dir, f)
  }

  /** The list exists if and only if every .sql file is stamped, and has f as often as the directory does. */
  lemma {:induction false} SqlFilesAre(dir: string, entries: seq<Entry>)
    ensures SqlFiles(dir, entries).Some? <==> forall i :: 0 <= i < |entries| && IsSql(entries[i]) ==> Stamped(entries[i].name)
    ensures SqlFiles(dir, entries).Some? ==> forall f :: multiset(SqlFiles(dir, entries).value)[f] == |Places(dir, entries, f)|
  {
    if entries != [] {
      var n := |entries| - 1;
      var front, last := entries[..n], entries[n];
      SqlFilesAre(dir, front);
      assert forall i :: 0 <= i < n ==> entries[i] == front[i];
      if SqlFiles(dir, entries).Some? {
        forall f: MigrationFile
          ensures multiset(SqlFiles(dir, entries).value)[f] == |Places(dir, entries, f)|
        {
          PlacesMore(dir, front, last, f);
          assert entries == front + [last];
          if IsSql(last) { assert Names(last, dir, f) <==> f == FileOf(dir, last.name); }
        }
      }
    }
  }

  lemma PlacesMore(dir: string, front: seq<Entry>, last: Entry, f: MigrationFile)
    ensures |Places(dir, front + [last], f)| == |Places(dir, front, f)| + if Names(last, dir, f) then 1 else 0
  {
    hide Names;
    var all, n := front + [last], |front|;
    assert all[n] == last && forall i :: 0 <= i < n ==> all[i] == front[i];
    assert Places(dir, all, f) == Places(dir, front, f) + if Names(last, dir, f) then {n} else {};
  }

  predicate SortedById(files: seq<MigrationFile>) {
    forall i, j :: 0 <= i < j < |files| ==> files[i].versionId <= files[j].versionId
  }

  /** A list with one more element at place i. */
  function Inserted<T>(s: seq<T>, i: nat, x: T): (r: seq<T>)
    requires i <= |s|
    ensures |r| == |s| + 1
    ensures forall k :: 0 <= k < |r| ==> r[k] == if k < i then s[k] else if k == i then x else s[k - 1]
  {
    s[..i] + [x] + s[i..]
  }

  lemma InsertedMultiset<T>(s: seq<T>, i: nat, x: T)
    requires i <= |s|
    ensures multiset(Inserted(s, i, x)) == multiset(s) + multiset{x}
  {
    assert s == s[..i] + s[i..];
  }

  lemma InsertedById(files: seq<MigrationFile>, i: nat, f: MigrationFile)
    requires SortedById(files) && i <= |files|
    requires forall j :: 0 <= j < i ==> files[j].versionId <= f.versionId
    requires i < |files| ==> f.versionId <= files[i].versionId
    ensures SortedById(Inserted(files, i, f))
  {
    var r := Inserted(files, i, f);
    hide Inserted;
    forall j, k | 0 <= j < k < |r|
      ensures r[j].versionId <= r[k].versionId
    {
      assert j > i ==> r[j] == files[j - 1];
      assert k > i ==> r[k] == files[k - 1];
    }
  }

  /** Where f goes in a sorted list. */
  method InsertById(files: seq<MigrationFile>, f: MigrationFile) returns (r: seq<MigrationFile>)
    requires SortedById(files)
    ensures SortedById(r) && multiset(r) == multiset(files) + multiset{f}
  {
    var i := 0;
    while i < |files| && files[i].versionId <= f.versionId
      invariant 0 <= i <= |files|
      invariant forall j :: 0 <= j < i ==> files[j].versionId <= f.versionId
    {
      i := i + 1;
    }
    r := Inserted(files, i, f);
    InsertedById(files, i, f);
    InsertedMultiset(files, i, f);
  }

  /** sort.Slice by VersionID. */
  method SortFiles(files: seq<MigrationFile>) returns (r: seq<MigrationFile>)
    ensures SortedById(r) && multiset(r) == multiset(files)
  {
    r := [];
    var i := 0;
    while i < |files|
      invariant 0 <= i <= |files|
      invariant SortedById(r) && multiset(r) == multiset(files[..i])
    {
      assert files[..i + 1] == files[..i] + [files[i]];
      r := InsertById(r, files[i]);
      i := i + 1;
    }
    assert files[..i] == files;
  }

  /** The .sql files of one directory in id order, or nothing when a name is not stamped. */
  method CollectSqlFiles(dir: string, entries: seq<Entry>) returns (files: Option<seq<MigrationFile>>)
    ensures files.Some? <==> forall i :: 0 <= i < |entries| && IsSql(entries[i]) ==> Stamped(entries[i].name)
    ensures files.Some? ==> SortedById(files.value) && forall f :: multiset(files.value)[f] == |Places(dir, entries, f)|
    ensures files.Some? <==> SqlFiles(dir, entries).Some?
    ensures files.Some? ==> multiset(files.value) == multiset(SqlFiles(dir, entries).value)
  {
    SqlFilesAre(dir, entries);
    var out: seq<MigrationFile> := [];
    var i := 0;
    while i < |entries|
      invariant 0 <= i <= |entries|
      invariant SqlFiles(dir, entries[..i]) == Some(out)
    {
      assert entries[..i + 1][..i] == entries[..i];
      var e := entries[i];
      if IsSql(e) {
        var id := ParseVersionId(e.name);
        if id.None? {
          SqlFilesStop(dir, entries, i);
          return None;
        }
        out := out + [MigrationFile(dir, e.name, id.value)];
      }
      i := i + 1;
    }
    assert entries[..i] == entries;
    var sorted := SortFiles(out);
    files := Some(sorted);
  }

  lemma {:induction false} SqlFilesStop(dir: string, entries: seq<Entry>, i: nat)
    requires i < |entries| && IsSql(entries[i]) && !Stamped(entries[i].name)
    ensures SqlFiles(dir, entries).None?
    decreases |entries|
  {
    if i < |entries| - 1 { SqlFilesStop(dir, entries[..|entries| - 1], i); }
  }

  function DirNames(entries: seq<Entry>): seq<string> {
    if entries == [] then []
    else
      var front, last := DirNames(entries[..|entries| - 1]), entries[|entries| - 1];
      if last.isDir then front + [last.name] else front
  }

  /** Which entries are a directory of this name. */
  function DirPlaces(entries: seq<Entry>, d: string): set<int> {
    set i | 0 <= i < |entries| && entries[i].isDir && entries[i].name == d
  }

  lemma {:induction false} DirNamesAre(entries: seq<Entry>, d: string)
    ensures multiset(DirNames(entries))[d] == |DirPlaces(entries, d)|
  {
    if entries != [] {
      var n := |entries| - 1;
      var front, last := entries[..n], entries[n];
      DirNamesAre(front, d);
      DirPlacesMore(front, last, d);
      assert entries == front + [last];
      hide DirPlaces;
    }
  }

  lemma DirPlacesMore(front: seq<Entry>, last: Entry, d: string)
    ensures |DirPlaces(front + [last], d)| == |DirPlaces(front, d)| + if last.isDir && last.name == d then 1 else 0
  {
    var all, n := front + [last], |front|;
    assert all[n] == last && forall i :: 0 <= i < n ==> all[i] == front[i];
    assert DirPlaces(all, d) == DirPlaces(front, d) + if last.isDir && last.name == d then {n} else {};
  }

  /** Not after, in string order. */
  predicate AtMost(a: string, b: string) {
    !Less(b, a)
  }

  predicate SortedByName(dirs: seq<string>) {
    forall i, j :: 0 <= i < j < |dirs| ==> AtMost(dirs[i], dirs[j])
  }

  lemma {:induction false} AtMostTransitive(a: string, b: string, c: string)
    requires AtMost(a, b) && AtMost(b, c)
    ensures AtMost(a, c)
    decreases |a|
  {
    if c != [] && a != [] && b != [] && a[0] == b[0] == c[0] { AtMostTransitive(a[1..], b[1..], c[1..]); }
  }

  lemma {:induction false} AtMostTotal(a: string, b: string)
    ensures AtMost(a, b) || AtMost(b, a)
    ensures AtMost(a, b) && AtMost(b, a) ==> a == b
    decreases |a|
  {
    if a != [] && b != [] && a[0] == b[0] {
      AtMostTotal(a[1..], b[1..]);
      assert a == [a[0]] + a[1..] && b == [b[0]] + b[1..];
    }
  }

  lemma InsertedByName(dirs: seq<string>, i: nat, d: string)
    requires SortedByName(dirs) && i <= |dirs|
    requires forall j :: 0 <= j < i ==> AtMost(dirs[j], d)
    requires i < |dirs| ==> AtMost(d, dirs[i])
    ensures SortedByName(Inserted(dirs, i, d))
  {
    var r := Inserted(dirs, i, d);
    hide Inserted, AtMost;
    forall j, k | 0 <= j < k < |r|
      ensures AtMost(r[j], r[k])
    {
      assert j > i ==> r[j] == dirs[j - 1];
      assert k > i ==> r[k] == dirs[k - 1];
      if j == i && i < k - 1 { AtMostTransitive(d, dirs[i], dirs[k - 1]); }
    }
  }

  method InsertByName(dirs: seq<string>, d: string) returns (r: seq<string>)
    requires SortedByName(dirs)
    ensures SortedByName(r) && multiset(r) == multiset(dirs) + multiset{d}
  {
    var i := 0;
    while i < |dirs| && AtMost(dirs[i], d)
      invariant 0 <= i <= |dirs|
      invariant forall j :: 0 <= j < i ==> AtMost(dirs[j], d)
    {
      i := i + 1;
    }
    if i < |dirs| { AtMostTotal(dirs[i], d); }
    r := Inserted(dirs, i, d);
    InsertedByName(dirs, i, d);
    InsertedMultiset(dirs, i, d);
  }

  /** The sub-directories, sorted by name. */
  method ListVersionDirs(entries: seq<Entry>) returns (dirs: seq<string>)
    ensures SortedByName(dirs) && forall d :: multiset(dirs)[d] == |DirPlaces(entries, d)|
    ensures multiset(dirs) == multiset(DirNames(entries))
  {
    forall d: string {
      DirNamesAre(entries, d);
    }
    dirs := [];
    var i := 0;
    while i < |entries|
      invariant 0 <= i <= |entries|
      invariant SortedByName(dirs) && multiset(dirs) == multiset(DirNames(entries[..i]))
    {
      assert entries[..i + 1][..i] == entries[..i];
      if entries[i].isDir { dirs := InsertByName(dirs, entries[i].name); }
      i := i + 1;
    }
    assert entries[..i] == entries;
  }

  /** The category directory and what its version directories hold. */
  datatype Tree = Tree(root: seq<Entry>, dirs: map<string, seq<Entry>>)

  predicate ValidTree(t: Tree) {
    forall d :: d in DirNames(t.root) ==> d in t.dirs
  }

  function FilesIn(t: Tree, d: string): Option<seq<MigrationFile>> {
    if d in t.dirs then SqlFiles(d, t.dirs[d]) else Some([])
  }

  /** All files of the listed directories together, if every name is stamped. */
  function AllFiles(t: Tree, dirs: seq<string>): Option<multiset<MigrationFile>> {
    if dirs == [] then Some(multiset{})
    else
      match AllFiles(t, dirs[..|dirs| - 1])
      case None => None
      case Some(front) =>
        match FilesIn(t, dirs[|dirs| - 1])
        case None => None
        case Some(more) => Some(front + multiset(more))
  }

  /** Applied before: the root, then directories by name, then ids. */
  predicate Before(a: MigrationFile, b: MigrationFile) {
    || (a.version == "" && b.version != "")
    || (a.version != "" && b.version != "" && a.version != b.version && AtMost(a.version, b.version))
    || (a.version == b.version && a.versionId <= b.versionId)
  }

  predicate InOrder(files: seq<MigrationFile>) {
    forall i, j :: 0 <= i < j < |files| ==> Before(files[i], files[j])
  }

  predicate Labelled(files: seq<MigrationFile>, dir: string) {
    forall i :: 0 <= i < |files| ==> files[i].version == dir
  }

  lemma {:induction false} SqlLabelled(dir: string, entries: seq<Entry>, f: MigrationFile)
    requires SqlFiles(dir, entries).Some? && f in SqlFiles(dir, entries).value
    ensures f.version == dir
    decreases |entries|
  {
    var front := SqlFiles(dir, entries[..|entries| - 1]).value;
    if f in front { SqlLabelled(dir, entries[..|entries| - 1], f); }
  }

  /** Appending a later directory's files keeps the order. */
  lemma AppendInOrder(out: seq<MigrationFile>, more: seq<MigrationFile>, d: string)
    requires InOrder(out) && SortedById(more) && Labelled(more, d) && d != ""
    requires forall i :: 0 <= i < |out| ==> out[i].version == "" || (out[i].version != d && AtMost(out[i].version, d))
    ensures InOrder(out + more)
  {
    var all := out + more;
    forall i, j | 0 <= i < j < |all|
      ensures Before(all[i], all[j])
    {
      if j < |out| {
        assert all[i] == out[i] && all[j] == out[j];
      } else if i < |out| {
        assert all[i] == out[i] && all[j] == more[j - |out|];
      } else {
        assert all[i] == more[i - |out|] && all[j] == more[j - |out|];
      }
    }
  }

  predicate DistinctNames(dirs: seq<string>) {
    forall i, j :: 0 <= i < j < |dirs| ==> dirs[i] != dirs[j]
  }

  lemma {:induction false} DirNamesSnoc(t: Tree, dirs: seq<string>, k: nat)
    requires k < |dirs|
    ensures AllFiles(t, dirs[..k + 1]) ==
      match AllFiles(t, dirs[..k])
      case None => None
      case Some(front) => (match FilesIn(t, dirs[k]) case None => None case Some(more) => Some(front + multiset(more)))
  {
    assert dirs[..k + 1][..k] == dirs[..k];
  }

  lemma {:induction false} AllFilesStop(t: Tree, dirs: seq<string>, k: nat)
    requires k < |dirs| && FilesIn(t, dirs[k]).None?
    ensures AllFiles(t, dirs).None?
    decreases |dirs|
  {
    if k < |dirs| - 1 { AllFilesStop(t, dirs[..|dirs| - 1], k); }
  }

  /** The entries of the directory that f says it is from. */
  function Source(t: Tree, f: MigrationFile): seq<Entry> {
    if f.version == "" then t.root
    else if DirPlaces(t.root, f.version) != {} && f.version in t.dirs then t.dirs[f.version]
    else []
  }

  /** A file comes from its own directory only, as often as it is there. */
  lemma {:induction false} AllFilesCount(t: Tree, dirs: seq<string>, f: MigrationFile)
    requires AllFiles(t, dirs).Some? && DistinctNames(dirs) && forall i :: 0 <= i < |dirs| ==> dirs[i] in t.dirs
    ensures AllFiles(t, dirs).value[f] == if f.version in dirs then |Places(f.version, t.dirs[f.version], f)| else 0
    decreases |dirs|
  {
    if dirs != [] {
      var n := |dirs| - 1;
      var front, d := dirs[..n], dirs[n];
      assert dirs == front + [d];
      AllFilesCount(t, front, f);
      SqlFilesAre(d, t.dirs[d]);
      if f.version != d { NoPlaces(d, t.dirs[d], f); }
    }
  }

  lemma NoPlaces(dir: string, entries: seq<Entry>, f: MigrationFile)
    requires f.version != dir
    ensures Places(dir, entries, f) == {}
  {
  }

  /** Every .sql file of the tree is stamped. */
  predicate AllStamped(t: Tree)
    requires ValidTree(t)
  {
    && (forall i :: 0 <= i < |t.root| && IsSql(t.root[i]) ==> Stamped(t.root[i].name))
    && (forall d, j :: d in DirNames(t.root) && 0 <= j < |t.dirs[d]| && IsSql(t.dirs[d][j]) ==> Stamped(t.dirs[d][j].name))
  }

  lemma {:induction false} AllFilesExist(t: Tree, dirs: seq<string>)
    requires forall i :: 0 <= i < |dirs| ==> dirs[i] in t.dirs
    ensures AllFiles(t, dirs).Some? <==> forall i :: 0 <= i < |dirs| ==> SqlFiles(dirs[i], t.dirs[dirs[i]]).Some?
    decreases |dirs|
  {
    if dirs != [] {
      var n := |dirs| - 1;
      AllFilesExist(t, dirs[..n]);
      assert forall i :: 0 <= i < n ==> dirs[..n][i] == dirs[i];
    }
  }

  /** Directories in any order: what the walk reads of the tree. */
  lemma WalkReads(t: Tree, dirs: seq<string>)
    requires ValidTree(t) && DistinctNames(dirs) && "" !in dirs && multiset(dirs) == multiset(DirNames(t.root))
    ensures SqlFiles("", t.root).Some? && AllFiles(t, dirs).Some? <==> AllStamped(t)
    ensures AllStamped(t) ==>
      forall f :: multiset(SqlFiles("", t.root).value)[f] + AllFiles(t, dirs).value[f] == |Places(f.version, Source(t, f), f)|
  {
    hide SqlFiles, AllFiles, DirNames, IsSql, Stamped, Places, Names;
    assert forall d :: d in dirs <==> d in DirNames(t.root) by {
      assert forall d :: d in dirs <==> d in multiset(dirs);
      assert forall d :: d in DirNames(t.root) <==> d in multiset(DirNames(t.root));
    }
    SqlFilesAre("", t.root);
    AllFilesExist(t, dirs);
    forall d | d in dirs {
      SqlFilesAre(d, t.dirs[d]);
    }
    if AllStamped(t) {
      forall f: MigrationFile
        ensures multiset(SqlFiles("", t.root).value)[f] + AllFiles(t, dirs).value[f] == |Places(f.version, Source(t, f), f)|
      {
        AllFilesCount(t, dirs, f);
        DirNamesAre(t.root, f.version);
        NothingPlaced(f);
        if f.version != "" { NoPlaces("", t.root, f); }
      }
    }
  }

  lemma NothingPlaced(f: MigrationFile)
    ensures Places(f.version, [], f) == {}
  {
  }

  /**
   * WalkMigrationFiles: every .sql file of the root and of the version directories, once, in the order
   * of application; nothing when a file is not stamped. `dirs` is the order of the directories.
   */
  method WalkMigrationFiles(t: Tree) returns (files: Option<seq<MigrationFile>>, ghost dirs: seq<string>)
    requires ValidTree(t) && DistinctNames(DirNames(t.root)) && "" !in DirNames(t.root)
    ensures SortedByName(dirs) && multiset(dirs) == multiset(DirNames(t.root))
    ensures files.Some? <==> AllStamped(t)
    ensures files.Some? ==> InOrder(files.value) && forall f :: multiset(files.value)[f] == |Places(f.version, Source(t, f), f)|
  {
    hide Places, Names, Source, AllStamped;
    var versions := ListVersionDirs(t.root);
    dirs := versions;
    SortedDistinct(versions, DirNames(t.root));
    assert "" !in versions by { assert "" !in multiset(versions); }
    WalkReads(t, versions);
    var root := CollectSqlFiles("", t.root);
    if root.None? { return None, dirs; }
    var out := root.value;
    RootInOrder(out, t.root);
    var k := 0;
    while k < |versions|
      invariant 0 <= k <= |versions|
      invariant InOrder(out) && AllFiles(t, versions[..k]).Some?
      invariant multiset(out) == multiset(SqlFiles("", t.root).value) + AllFiles(t, versions[..k]).value
      invariant forall i :: 0 <= i < |out| ==> out[i].version == "" || out[i].version in versions[..k]
    {
      var d := versions[k];
      assert d in multiset(versions) && d in DirNames(t.root);
      DirNamesSnoc(t, versions, k);
      var more := CollectSqlFiles(d, t.dirs[d]);
      if more.None? {
        AllFilesStop(t, versions, k);
        return None, dirs;
      }
      SortedLabelled(more.value, d, t.dirs[d]);
      EarlierDirs(out, versions, k);
      AppendInOrder(out, more.value, d);
      out := out + more.value;
      k := k + 1;
    }
    assert versions[..k] == versions;
    files := Some(out);
  }

  lemma SortedDistinct(versions: seq<string>, names: seq<string>)
    requires multiset(versions) == multiset(names) && DistinctNames(names)
    ensures DistinctNames(versions)
  {
    forall i, j | 0 <= i < j < |versions|
      ensures versions[i] != versions[j]
    {
      if versions[i] == versions[j] {
        var d := versions[i];
        assert versions == versions[..i] + [d] + versions[i + 1..j] + [d] + versions[j + 1..];
        assert multiset(versions)[d] >= 2;
        OnceEach(names, d);
      }
    }
  }

  lemma {:induction false} OnceEach(names: seq<string>, d: string)
    requires DistinctNames(names)
    ensures multiset(names)[d] <= 1
  {
    if names != [] {
      var n := |names| - 1;
      assert names == names[..n] + [names[n]];
      OnceEach(names[..n], d);
      if names[n] == d {
        assert forall i :: 0 <= i < n ==> names[..n][i] != d;
        assert d !in names[..n];
      }
    }
  }

  lemma RootInOrder(files: seq<MigrationFile>, entries: seq<Entry>)
    requires SqlFiles("", entries).Some? && SortedById(files) && multiset(files) == multiset(SqlFiles("", entries).value)
    ensures InOrder(files) && Labelled(files, "")
  {
    SortedLabelled(files, "", entries);
  }

  lemma SortedLabelled(files: seq<MigrationFile>, dir: string, entries: seq<Entry>)
    requires SqlFiles(dir, entries).Some? && multiset(files) == multiset(SqlFiles(dir, entries).value)
    ensures Labelled(files, dir)
  {
    forall i | 0 <= i < |files|
      ensures files[i].version == dir
    {
      assert files[i] in multiset(files);
      SqlLabelled(dir, entries, files[i]);
    }
  }

  lemma EarlierDirs(out: seq<MigrationFile>, versions: seq<string>, k: nat)
    requires k < |versions| && SortedByName(versions) && DistinctNames(versions)
    requires forall i :: 0 <= i < |out| ==> out[i].version == "" || out[i].version in versions[..k]
    ensures forall i :: 0 <= i < |out| ==> out[i].version == "" || (out[i].version != versions[k] && AtMost(out[i].version, versions[k]))
  {
    hide AtMost;
    forall i | 0 <= i < |out| && out[i].version != ""
      ensures out[i].version != versions[k] && AtMost(out[i].version, versions[k])
    {
      var j :| 0 <= j < k && versions[..k][j] == out[i].version;
      assert versions[j] == out[i].version;
    }
  }

  // ------------------------------------------------------------------ version directories in numeric order

  lemma {:induction false} LessConcat(p: string, q: string, r: string, s: string)
    requires |p| == |q|
    ensures Less(p + r, q + s) <==> Less(p, q) || (p == q && Less(r, s))
    decreases |p|
  {
    if p == [] {
      assert p + r == r && q + s == s;
    } else {
      assert (p + r)[1..] == p[1..] + r && (q + s)[1..] == q[1..] + s;
      LessConcat(p[1..], q[1..], r, s);
      assert p == [p[0]] + p[1..] && q == [q[0]] + q[1..];
    }
  }

  lemma {:induction false} ValueInjective(a: string, b: string)
    requires AllDigits(a) && AllDigits(b) && |a| == |b| && Value(a) == Value(b)
    ensures a == b
    decreases |a|
  {
    LessIsSmaller(a, b);
    LessIsSmaller(b, a);
    AtMostTotal(a, b);
  }

  /** Numeric order on (major, minor, patch). */
  predicate VersionLess(a: string, b: string)
    requires VersionPattern(a) && VersionPattern(b)
  {
    var (x, y) := (Value(Major(a)), Value(Major(b)));
    var (m, n) := (Value(Minor(a)), Value(Minor(b)));
    x < y || (x == y && (m < n || (m == n && Value(Patch(a)) < Value(Patch(b)))))
  }

  lemma PartOrder(p: string, q: string, r: string, s: string)
    requires AllDigits(p) && AllDigits(q) && |p| == |q|
    ensures Less(p + r, q + s) <==> Value(p) < Value(q) || (Value(p) == Value(q) && Less(r, s))
  {
    LessConcat(p, q, r, s);
    LessIsSmaller(p, q);
    if Value(p) == Value(q) { ValueInjective(p, q); }
  }

  /** Version directories whose majors are equally long sort by name as they sort by number. */
  lemma VersionOrder(a: string, b: string)
    requires VersionPattern(a) && VersionPattern(b) && |Major(a)| == |Major(b)|
    ensures Less(a, b) <==> VersionLess(a, b)
  {
    hide Less, Value, AllDigits;
    VersionParts(a);
    VersionParts(b);
    var (ta, tb) := (Minor(a) + ("." + Patch(a)), Minor(b) + ("." + Patch(b)));
    PartOrder(Major(a), Major(b), "." + ta, "." + tb);
    LessConcat(".", ".", ta, tb);
    PartOrder(Minor(a), Minor(b), "." + Patch(a), "." + Patch(b));
    LessConcat(".", ".", Patch(a), Patch(b));
    LessIsSmaller(Patch(a), Patch(b));
    DotNotLess();
  }

  lemma VersionParts(a: string)
    requires VersionPattern(a)
    ensures a == Major(a) + ("." + (Minor(a) + ("." + Patch(a))))
    ensures |Minor(a)| == 2 && |Patch(a)| == 2 && AllDigits(Major(a)) && AllDigits(Minor(a)) && AllDigits(Patch(a))
  {
  }

  lemma DotNotLess()
    ensures !Less(".", ".")
  {
    assert "."[1..] == "";
  }

  /** The start of b's name that stands against all of a's major. */
  function Lead(a: string, b: string): string
    requires VersionPattern(a) && VersionPattern(b) && |Major(a)| <= |Major(b)|
  {
    Major(b)[..|Major(a)|]
  }

  /** Numeric order of the minors and patches alone. */
  predicate TailLess(a: string, b: string)
    requires VersionPattern(a) && VersionPattern(b)
  {
    Value(Minor(a)) < Value(Minor(b)) || (Value(Minor(a)) == Value(Minor(b)) && Value(Patch(a)) < Value(Patch(b)))
  }

  /** A dot sorts before any digit. */
  lemma DotBeforeDigit(r: string, s: string)
    requires r != [] && s != [] && r[0] == '.' && IsDigit(s[0])
    ensures Less(r, s) && !Less(s, r)
  {
  }

  /** The lead of a numeral is at most the numeral, and less unless all of it is zero. */
  lemma {:induction false} LeadValue(s: string, k: nat)
    requires AllDigits(s) && 0 < k < |s|
    ensures Value(s[..k]) <= Value(s)
    ensures Value(s[..k]) == Value(s) ==> Value(s) == 0
    ensures s[0] != '0' ==> Pow10(k) <= Value(s)
    decreases |s|
  {
    var front := s[..|s| - 1];
    assert front[..k] == s[..k] && Value(s) == 10 * Value(front) + Digit(s[|s| - 1]);
    if k < |front| {
      LeadValue(front, k);
    } else {
      assert front == s[..k];
      if s[0] != '0' { FullValue(front); }
    }
  }

  lemma {:induction false} FullValue(s: string)
    requires AllDigits(s) && s != [] && s[0] != '0'
    ensures Pow10(|s|) <= 10 * Value(s)
  {
    if |s| == 1 {
      assert s[..0] == [];
      assert Pow10(1) == 10 * Pow10(0);
    } else {
      assert s[..|s| - 1][0] == s[0];
      FullValue(s[..|s| - 1]);
    }
  }

  /** Names whose majors differ in length: the one with the shorter major sorts first exactly if that major is at most the other's lead. */
  lemma ShorterFirst(a: string, b: string)
    requires VersionPattern(a) && VersionPattern(b) && |Major(a)| < |Major(b)|
    ensures Less(a, b) <==> Value(Major(a)) <= Value(Lead(a, b))
    ensures Less(b, a) <==> !Less(a, b)
  {
    hide Less, Value, AllDigits, Major, Minor, Patch;
    var k := |Major(a)|;
    VersionParts(a);
    VersionParts(b);
    LeadSplits(a, b);
    var (ta, tb) := (a[k..], b[k..]);
    PartOrder(Major(a), Lead(a, b), ta, tb);
    PartOrder(Lead(a, b), Major(a), tb, ta);
    DotBeforeDigit(ta, tb);
  }

  lemma LeadSplits(a: string, b: string)
    requires VersionPattern(a) && VersionPattern(b) && |Major(a)| < |Major(b)|
    ensures var k := |Major(a)|;
      && k <= |a| && k <= |b| && a == Major(a) + a[k..] && b == Lead(a, b) + b[k..]
      && a[k..] != [] && a[k..][0] == '.' && b[k..] != [] && IsDigit(b[k..][0])
      && AllDigits(Major(a)) && AllDigits(Lead(a, b))
  {
    var k := |Major(a)|;
    assert b[k] == Major(b)[k];
  }

  /**
   * When majors differ in length, the order of the names agrees with the order of the versions if and
   * only if: the shorter major is at most the other's lead and the versions are not both numbered zero in
   * the wrong order, or it exceeds the lead and its version is not the smaller one. Without a leading zero
   * in the longer major the first part alone decides.
   */
  lemma OrdersAgreeIff(a: string, b: string)
    requires VersionPattern(a) && VersionPattern(b) && |Major(a)| < |Major(b)|
    ensures var (x, y, lead) := (Value(Major(a)), Value(Major(b)), Value(Lead(a, b)));
      && ((Less(a, b) <==> VersionLess(a, b)) <==>
            if x <= lead then y > 0 || TailLess(a, b) else y < x || (y == x && !TailLess(a, b)))
      && (Major(b)[0] != '0' ==> VersionLess(a, b) && ((Less(a, b) <==> VersionLess(a, b)) <==> x <= lead))
  {
    ShorterFirst(a, b);
    VersionParts(a);
    VersionParts(b);
    hide Less, Value, Minor, Patch;
    var k := |Major(a)|;
    ShortMajor(a);
    LeadValue(Major(b), k);
  }

  lemma ShortMajor(a: string)
    requires VersionPattern(a)
    ensures |Major(a)| > 0 && Value(Major(a)) < Pow10(|Major(a)|)
  {
  }

  /** A major written without leading zeros. */
  predicate Plain(a: string)
    requires VersionPattern(a)
  {
    |Major(a)| == 1 || Major(a)[0] != '0'
  }

  /** No earlier directory holds a later version. */
  predicate InVersionOrder(dirs: seq<string>)
    requires forall i :: 0 <= i < |dirs| ==> VersionPattern(dirs[i])
  {
    forall i, j :: 0 <= i < j < |dirs| ==> !VersionLess(dirs[j], dirs[i])
  }

  /** No longer name comes before a shorter one. */
  predicate NamesLengthen(dirs: seq<string>) {
    forall i, j :: 0 <= i < j < |dirs| ==> |dirs[i]| <= |dirs[j]|
  }

  /**
   * Directories with plain majors, sorted by name, are walked in version order if and only if no longer
   * name, that is, no longer major, comes before a shorter one.
   */
  lemma WalkInVersionOrderIff(dirs: seq<string>)
    requires forall i :: 0 <= i < |dirs| ==> VersionPattern(dirs[i]) && Plain(dirs[i])
    requires SortedByName(dirs)
    ensures InVersionOrder(dirs) <==> NamesLengthen(dirs)
  {
    hide VersionLess, VersionPattern, Plain;
    forall i, j | 0 <= i < j < |dirs|
      ensures VersionLess(dirs[j], dirs[i]) <==> |dirs[j]| < |dirs[i]|
    {
      NamesApart(dirs[i], dirs[j]);
    }
  }

  lemma MajorLength(a: string)
    requires VersionPattern(a)
    ensures |Major(a)| == |a| - 6
  {
  }

  lemma NamesApart(a: string, b: string)
    requires VersionPattern(a) && VersionPattern(b) && Plain(a) && Plain(b) && AtMost(a, b)
    ensures VersionLess(b, a) <==> |b| < |a|
  {
    MajorLength(a);
    MajorLength(b);
    if |a| == |b| {
      VersionOrder(b, a);
    } else if |a| < |b| {
      ShortMajor(a);
      OrdersAgreeIff(a, b);
      NotBoth(a, b);
    } else {
      ShortMajor(b);
      OrdersAgreeIff(b, a);
    }
  }

  lemma NotBoth(a: string, b: string)
    requires VersionPattern(a) && VersionPattern(b)
    ensures !(VersionLess(a, b) && VersionLess(b, a))
  {
  }

  /** The orders may part: version 10 is applied before version 9. */
  lemma TenBeforeNine()
    ensures VersionPattern("10.00.00") && VersionPattern("9.00.00")
    ensures Less("10.00.00", "9.00.00") && VersionLess("9.00.00", "10.00.00")
  {
    assert Major("10.00.00") == "10" && Major("9.00.00") == "9" && "10"[..1] == "1" && "1"[..0] == "" && "9"[..0] == "";
    assert Value("1") == 1 && Value("10") == 10 && Value("9") == 9;
  }

  // ------------------------------------------------------------------ baseline

  datatype Mark = Mark(versionId: nat, applied: bool)

  /** goose_db_version: rows by id. */
  datatype GooseTable = GooseTable(rows: map<nat, Mark>, next: nat)

  predicate ValidGoose(t: GooseTable) {
    0 < t.next && forall k :: k in t.rows ==> 0 < k < t.next
  }

  function AppliedIds(t: GooseTable): set<nat> {
    set k | k in t.rows && t.rows[k].applied :: t.rows[k].versionId
  }

  function MarkApplied(t: GooseTable, id: nat): GooseTable {
    GooseTable(t.rows[t.next := Mark(id, true)], t.next + 1)
  }

  /** INSERT IGNORE of the row with id 1 and version 0. */
  function Seed(t: GooseTable): GooseTable {
    if 1 in t.rows then t
    else GooseTable(t.rows[1 := Mark(0, true)], if t.next > 1 then t.next else 2)
  }

  function Pending(files: seq<MigrationFile>, applied: set<nat>): nat {
    if files == [] then 0
    else Pending(files[..|files| - 1], applied) + if files[|files| - 1].versionId in applied then 0 else 1
  }

  lemma {:induction false} PendingIs(files: seq<MigrationFile>, applied: set<nat>)
    ensures Pending(files, applied) == |set i | 0 <= i < |files| && files[i].versionId !in applied|
  {
    if files != [] {
      var n := |files| - 1;
      var front := files[..n];
      PendingIs(front, applied);
      assert forall i :: 0 <= i < n ==> files[i] == front[i];
      assert (set i | 0 <= i < |files| && files[i].versionId !in applied)
          == (set i | 0 <= i < n && front[i].versionId !in applied) + if files[n].versionId in applied then {} else {n};
    }
  }

  /** CountPending counts what Status does not report as applied. */
  method CountPending(files: seq<MigrationFile>, t: GooseTable) returns (n: nat)
    ensures n == Pending(files, AppliedIds(t)) == |set i | 0 <= i < |files| && files[i].versionId !in AppliedIds(t)|
  {
    PendingIs(files, AppliedIds(t));
    n := 0;
    var i := 0;
    while i < |files|
      invariant 0 <= i <= |files| && n == Pending(files[..i], AppliedIds(t))
    {
      assert files[..i + 1][..i] == files[..i];
      if files[i].versionId !in AppliedIds(t) { n := n + 1; }
      i := i + 1;
    }
    assert files[..i] == files;
  }

  lemma MarkedIds(t: GooseTable, id: nat)
    requires ValidGoose(t)
    ensures ValidGoose(MarkApplied(t, id)) && AppliedIds(MarkApplied(t, id)) == AppliedIds(t) + {id}
  {
    var t' := MarkApplied(t, id);
    assert t'.rows[t.next] == Mark(id, true);
    forall v | v in AppliedIds(t) + {id}
      ensures v in AppliedIds(t')
    {
      if v != id {
        var k :| k in t.rows && t.rows[k].applied && t.rows[k].versionId == v;
        assert t'.rows[k] == t.rows[k];
      }
    }
  }

  lemma SeedIds(t: GooseTable)
    requires ValidGoose(t)
    ensures ValidGoose(Seed(t)) && AppliedIds(Seed(t)) == if 1 in t.rows then AppliedIds(t) else AppliedIds(t) + {0}
  {
    if 1 !in t.rows {
      var t' := Seed(t);
      assert t'.rows[1] == Mark(0, true);
      forall v | v in AppliedIds(t) + {0}
        ensures v in AppliedIds(t')
      {
        if v != 0 {
          var k :| k in t.rows && t.rows[k].applied && t.rows[k].versionId == v;
          assert t'.rows[k] == t.rows[k];
        }
      }
    }
  }

  /** The statement of Baseline that fails: creating the table, seeding it, reading it, or marking after so many marks. */
  datatype Failing = CreateTable | SeedRow | LoadApplied | MarkFile(marks: nat)

  /** Nothing fails before n files are marked. */
  predicate Passes(fails: Option<Failing>, n: nat) {
    fails.None? || (fails.value.MarkFile? && n <= fails.value.marks)
  }

  /** What was in the table is there still; the rest is one row per mark, and the seeded one if there was no row 1. */
  ghost predicate Grown(t: GooseTable, t': GooseTable, marked: nat) {
    && (forall k :: k in t.rows ==> k in t'.rows && t'.rows[k] == t.rows[k])
    && |t'.rows| == |t.rows| + marked + (if 1 in t.rows then 0 else 1)
    && 1 in t'.rows && (1 in t.rows || t'.rows[1] == Mark(0, true))
  }

  lemma SeedGrown(t: GooseTable)
    ensures Grown(t, Seed(t), 0)
  {
    if 1 !in t.rows { assert Seed(t).rows.Keys == t.rows.Keys + {1}; }
  }

  lemma MarkGrown(t: GooseTable, t1: GooseTable, marked: nat, id: nat)
    requires ValidGoose(t1) && Grown(t, t1, marked)
    ensures Grown(t, MarkApplied(t1, id), marked + 1)
  {
    assert MarkApplied(t1, id).rows.Keys == t1.rows.Keys + {t1.next};
  }

  /** One row for every file whose id is not among `applied`, in order. */
  function MarkPending(t: GooseTable, files: seq<MigrationFile>, applied: set<nat>): GooseTable {
    if files == [] then t
    else
      var front, id := MarkPending(t, files[..|files| - 1], applied), files[|files| - 1].versionId;
      if id in applied then front else MarkApplied(front, id)
  }

  lemma {:induction false} MarkPendingIs(t: GooseTable, files: seq<MigrationFile>)
    requires ValidGoose(t)
    ensures var applied := AppliedIds(Seed(t));
      var t' := MarkPending(Seed(t), files, applied);
      ValidGoose(t') && AppliedIds(t') == applied + Ids(files) && Grown(t, t', Pending(files, applied))
  {
    hide AppliedIds, Seed, MarkApplied, Grown, ValidGoose, Ids;
    var applied := AppliedIds(Seed(t));
    SeedIds(t);
    SeedGrown(t);
    if files == [] {
      NoIds(files, applied);
      assert files == files[..0];
    } else {
      var n := |files| - 1;
      var front, f := files[..n], files[n];
      MarkPendingIs(t, front);
      assert files == front + [f];
      IdsSnoc(front, f);
      UnionMore(applied, Ids(front), f.versionId);
      MarkedIds(MarkPending(Seed(t), front, applied), f.versionId);
      MarkGrown(t, MarkPending(Seed(t), front, applied), Pending(front, applied), f.versionId);
    }
  }

  lemma MarkPendingSnoc(t: GooseTable, files: seq<MigrationFile>, applied: set<nat>, i: nat)
    requires i < |files|
    ensures var front, id := MarkPending(t, files[..i], applied), files[i].versionId;
      MarkPending(t, files[..i + 1], applied) == if id in applied then front else MarkApplied(front, id)
    ensures Pending(files[..i + 1], applied) == Pending(files[..i], applied) + if files[i].versionId in applied then 0 else 1
  {
    assert files[..i + 1][..i] == files[..i];
  }

  /** How far a Baseline that failed had come: the pending ones of the first k files are marked. */
  ghost predicate MarkedFirst(files: seq<MigrationFile>, k: nat, t: GooseTable, t': GooseTable, marked: nat) {
    var applied := AppliedIds(Seed(t));
    && k < |files| && files[k].versionId !in applied && AppliedIds(t') == applied + Ids(files[..k])
    && Grown(t, t', marked) && marked == Pending(files[..k], applied)
  }

  lemma StoppedAt(files: seq<MigrationFile>, i: nat, t: GooseTable)
    requires ValidGoose(t) && i < |files| && files[i].versionId !in AppliedIds(Seed(t))
    ensures var applied := AppliedIds(Seed(t));
      var (t', marked) := (MarkPending(Seed(t), files[..i], applied), Pending(files[..i], applied));
      ValidGoose(t') && marked < Pending(files, applied) && exists k :: MarkedFirst(files, k, t, t', marked)
  {
    hide AppliedIds, Seed, Ids, Pending, MarkPending, Grown;
    MarkPendingIs(t, files[..i]);
    PendingMore(files, AppliedIds(Seed(t)), i);
    assert MarkedFirst(files, i, t, MarkPending(Seed(t), files[..i], AppliedIds(Seed(t))), Pending(files[..i], AppliedIds(Seed(t))));
  }

  lemma AllMarked(files: seq<MigrationFile>, t: GooseTable)
    requires ValidGoose(t)
    ensures var applied := AppliedIds(Seed(t));
      var t' := MarkPending(Seed(t), files, applied);
      && ValidGoose(t') && AppliedIds(t') == applied + Ids(files) && Pending(files, AppliedIds(t')) == 0
      && Grown(t, t', Pending(files, applied))
  {
    hide AppliedIds, Seed, Pending, MarkPending, Grown, Ids;
    MarkPendingIs(t, files);
    IdsHold(files);
    NonePending(files, AppliedIds(MarkPending(Seed(t), files, AppliedIds(Seed(t)))));
  }

  /** Baseline: seeds the table, then marks every file that was not applied; `walked` is what WalkMigrationFiles answers. */
  method Baseline(walked: Option<seq<MigrationFile>>, t: GooseTable, fails: Option<Failing>) returns (marked: nat, ok: bool, t': GooseTable)
    requires ValidGoose(t)
    ensures ValidGoose(t')
    ensures ok <==> walked.Some? && Passes(fails, Pending(walked.value, AppliedIds(Seed(t))))
    ensures ok ==> marked == Pending(walked.value, AppliedIds(Seed(t))) && Grown(t, t', marked)
    ensures ok ==> Pending(walked.value, AppliedIds(t')) == 0
    ensures ok ==> AppliedIds(t') == AppliedIds(Seed(t)) + Ids(walked.value)
    ensures fails == Some(CreateTable) || fails == Some(SeedRow) ==> marked == 0 && t' == t
    ensures fails == Some(LoadApplied) || (walked.None? && (fails.None? || fails.value.MarkFile?)) ==> marked == 0 && t' == Seed(t)
    ensures !ok && walked.Some? && fails.Some? && fails.value.MarkFile? ==>
      marked == fails.value.marks && exists k :: MarkedFirst(walked.value, k, t, t', marked)
  {
    hide AppliedIds, Seed, MarkApplied, ValidGoose, Ids, Grown, MarkedFirst;
    if fails.Some? && (fails.value.CreateTable? || fails.value.SeedRow?) { return 0, false, t; }
    t' := Seed(t);
    SeedIds(t);
    if walked.None? || (fails.Some? && fails.value.LoadApplied?) { return 0, false, t'; }
    var files := walked.value;
    var known := AppliedIds(t');
    var stop: Option<nat> := if fails.Some? then Some(fails.value.marks) else None;
    AllMarked(files, t);
    marked := 0;
    var i := 0;
    while i < |files|
      invariant 0 <= i <= |files| && known == AppliedIds(Seed(t))
      invariant t' == MarkPending(Seed(t), files[..i], known) && marked == Pending(files[..i], known)
      invariant stop.Some? ==> marked <= stop.value
    {
      MarkPendingSnoc(Seed(t), files, known, i);
      var f := files[i];
      if f.versionId !in known {
        if stop == Some(marked) {
          StoppedAt(files, i, t);
          return marked, false, t';
        }
        t' := MarkApplied(t', f.versionId);
        marked := marked + 1;
      }
      i := i + 1;
    }
    assert files[..i] == files;
    ok := true;
  }

  function Ids(files: seq<MigrationFile>): set<nat> {
    set f | f in files :: f.versionId
  }

  lemma NoIds(files: seq<MigrationFile>, ids: set<nat>)
    ensures ids + Ids(files[..0]) == ids
  {
  }

  lemma UnionMore(a: set<nat>, b: set<nat>, v: nat)
    ensures a + b + {v} == a + (b + {v})
    ensures v in a ==> a + b == a + (b + {v})
  {
  }

  lemma IdsHold(files: seq<MigrationFile>)
    ensures forall f :: f in files ==> f.versionId in Ids(files)
  {
  }

  lemma IdsSnoc(files: seq<MigrationFile>, f: MigrationFile)
    ensures Ids(files + [f]) == Ids(files) + {f.versionId}
  {
    assert f in files + [f];
    forall g | g in files
      ensures g.versionId in Ids(files + [f])
    {
      assert g in files + [f];
    }
  }

  lemma {:induction false} PendingMore(files: seq<MigrationFile>, applied: set<nat>, i: nat)
    requires i < |files| && files[i].versionId !in applied
    ensures Pending(files[..i], applied) < Pending(files, applied)
    decreases |files|
  {
    if i < |files| - 1 {
      assert files[..|files| - 1][..i] == files[..i];
      PendingMore(files[..|files| - 1], applied, i);
    }
  }

  lemma {:induction false} NonePending(files: seq<MigrationFile>, applied: set<nat>)
    requires forall f :: f in files ==> f.versionId in applied
    ensures Pending(files, applied) == 0
  {
    if files != [] { NonePending(files[..|files| - 1], applied); }
  }

  lemma {:induction false} PendingLess(files: seq<MigrationFile>, applied: set<nat>)
    ensures Pending(files, applied + {0}) <= Pending(files, applied)
    ensures Pending(files, applied + {0}) == Pending(files, applied) <==> 0 in applied || forall f :: f in files ==> f.versionId != 0
  {
    if files != [] {
      var front, last := files[..|files| - 1], files[|files| - 1];
      PendingLess(front, applied);
      assert files == front + [last];
    }
  }

  /**
   * Baseline's count against what was pending before it: they are equal if and only if seeding marks no
   * file, that is, the table already had a row 1, or version 0 was applied, or no file has id 0. A second
   * run marks nothing.
   */
  lemma BaselineCount(files: seq<MigrationFile>, t: GooseTable)
    requires ValidGoose(t)
    ensures Pending(files, AppliedIds(Seed(t))) == Pending(files, AppliedIds(t)) <==>
      1 in t.rows || 0 in AppliedIds(t) || forall f :: f in files ==> f.versionId != 0
  {
    SeedIds(t);
    PendingLess(files, AppliedIds(t));
  }

  /** The failing input: a pending file stamped with fourteen zeros is marked by seeding, and not counted. */
  lemma ZeroStampNotCounted()
    ensures var name, t := "00000000000000_ann_init.sql", GooseTable(map[], 1);
      && Stamped(name) && ValidGoose(t)
      && var files := [FileOf("", name)];
      Pending(files, AppliedIds(t)) == 1 && Pending(files, AppliedIds(Seed(t))) == 0
  {
    var name, t := "00000000000000_ann_init.sql", GooseTable(map[], 1);
    ZeroValue(name[..14]);
    var files := [FileOf("", name)];
    assert files[..0] == [] && files[0].versionId == 0;
    assert Seed(t).rows[1] == Mark(0, true);
    assert 0 in AppliedIds(Seed(t)) && 0 !in AppliedIds(t);
  }

  lemma {:induction false} ZeroValue(s: string)
    requires forall i :: 0 <= i < |s| ==> s[i] == '0'
    ensures AllDigits(s) && Value(s) == 0
  {
    if s != [] { ZeroValue(s[..|s| - 1]); }
  }

  lemma SecondRun(files: seq<MigrationFile>, t': GooseTable)
    requires ValidGoose(t') && Pending(files, AppliedIds(t')) == 0
    ensures Pending(files, AppliedIds(Seed(t'))) == 0
  {
    SeedIds(t');
    PendingLess(files, AppliedIds(t'));
  }
}
