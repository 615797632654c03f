/**
 Names and manifests of a backup archive (`deploy/encrypted_backup.py`).

 Byte strings and texts are sequences of characters, one character a byte; a non-ASCII name stands
 in its UTF-8 form, in which no byte of a longer character equals an ASCII character.
 */
module Manifest {
  import opened Prelude

  const FORMAT := "nekomari-offhost-v1"
  const MAX_FILES := 10_000
  const MAX_MANIFEST := 2 * 1024 * 1024

  // ---------- path texts ----------

  function Split(s: string): (parts: seq<string>)
    ensures parts != [] && forall k :: 0 <= k < |parts| ==> '/' !in parts[k]
  {
    if s == "" then [""]
    else
      var rest := Split(s[1..]);
      if s[0] == '/' then [""] + rest else [[s[0]] + rest[0]] + rest[1..]
  }

  function Join(parts: seq<string>): string {
    if parts == [] then "" else if |parts| == 1 then parts[0] else parts[0] + "/" + Join(parts[1..])
  }

  lemma {:induction false} JoinSplit(s: string)
    ensures Join(Split(s)) == s
  {
    if s != "" {
      var rest := Split(s[1..]);
      JoinSplit(s[1..]);
      if s[0] == '/' {
        assert ([""] + rest)[1..] == rest;
      } else {
        var parts := [[s[0]] + rest[0]] + rest[1..];
        assert parts[1..] == rest[1..];
        assert Join(parts) == [s[0]] + Join(rest);
      }
    }
  }

  lemma {:induction false} SplitPart(part: string)
    requires '/' !in part
    ensures Split(part) == [part]
  {
    if part != "" {
      SplitPart(part[1..]);
      assert [part[0]] + part[1..] == part;
    }
  }

  lemma {:induction false} SplitAfter(part: string, rest: string)
    requires '/' !in part
    ensures Split(part + "/" + rest) == [part] + Split(rest)
    decreases |part|
  {
    var s := part + "/" + rest;
    if part == "" {
      assert s[1..] == rest;
    } else {
      assert s[1..] == part[1..] + "/" + rest;
      SplitAfter(part[1..], rest);
      assert [s[0]] + part[1..] == part;
    }
  }

  lemma {:induction false} SplitJoin(parts: seq<string>)
    requires parts != [] && forall k :: 0 <= k < |parts| ==> '/' !in parts[k]
    ensures Split(Join(parts)) == parts
    decreases |parts|
  {
    if |parts| == 1 {
      SplitPart(parts[0]);
    } else {
      SplitJoin(parts[1..]);
      SplitAfter(parts[0], Join(parts[1..]));
    }
  }

  /** The components of a relative path: empty and `.` ones do not count. */
  function PathParts(name: string): seq<string> {
    Counting(Split(name))
  }

  function Counting(parts: seq<string>): (r: seq<string>)
    ensures forall k :: 0 <= k < |r| ==> r[k] in parts && r[k] != "" && r[k] != "."
  {
    if parts == [] then []
    else if parts[0] == "" || parts[0] == "." then Counting(parts[1..])
    else [parts[0]] + Counting(parts[1..])
  }

  /** The text of a relative path in normal form. */
  function PathText(name: string): string {
    if PathParts(name) == [] then "." else Join(PathParts(name))
  }

  // ---------- allowed names ----------

  predicate NameChar(c: char) {
    'A' <= c <= 'Z' || 'a' <= c <= 'z' || '0' <= c <= '9' || c == '_' || c == '.' || c == '-'
  }

  /** `upgrade-` and `.zip` around at least one name character. */
  predicate UpgradeArchive(s: string) {
    && |s| > 12 && s[..8] == "upgrade-" && s[|s| - 4..] == ".zip"
    && forall k :: 8 <= k < |s| - 4 ==> NameChar(s[k])
  }

  predicate FixedName(name: string) {
    name == "komari.db" || name == "metrics.db" || name == "docker-compose.yml" || name == "favicon.ico"
        || name == "font.ttf"
  }

  predicate TreeTop(part: string) {
    part == "theme" || part == "plugin" || part == "plugin-data"
  }

  predicate AllowedName(name: string) {
    if name == "" || '\\' in name || ':' in name then false
    else if exists k :: 0 <= k < |name| && (name[k] as int < 32 || name[k] as int == 127) then false
    else
      var parts := PathParts(name);
      if name[0] == '/' || PathText(name) != name || "." in parts || ".." in parts then false
      else if FixedName(name) then true
      else if |parts| > 1 && TreeTop(parts[0]) then true
      else |parts| == 2 && parts[0] == "upgrade-archives" && UpgradeArchive(parts[1])
  }

  predicate PlainChars(name: string) {
    forall k :: 0 <= k < |name| ==>
      name[k] != '\\' && name[k] != ':' && name[k] as int >= 32 && name[k] as int != 127
  }

  /** No part is empty or stands for this or the parent directory. */
  predicate NormalParts(parts: seq<string>) {
    forall k :: 0 <= k < |parts| ==> parts[k] != "" && parts[k] != "." && parts[k] != ".."
  }

  /** The places a name can be in, read off its parts alone. */
  ghost predicate Place(parts: seq<string>) {
    || parts == ["komari.db"] || parts == ["metrics.db"] || parts == ["docker-compose.yml"]
    || parts == ["favicon.ico"] || parts == ["font.ttf"]
    || (|parts| > 1 && (parts[0] == "theme" || parts[0] == "plugin" || parts[0] == "plugin-data"))
    || exists middle :: NameText(middle) && parts == ["upgrade-archives", "upgrade-" + middle + ".zip"]
  }

  predicate NameText(s: string) {
    && s != ""
    && forall k :: 0 <= k < |s| ==>
      'A' <= s[k] <= 'Z' || 'a' <= s[k] <= 'z' || '0' <= s[k] <= '9' || s[k] == '_' || s[k] == '.' || s[k] == '-'
  }

  lemma UpgradeArchiveExactly(s: string)
    ensures UpgradeArchive(s) <==> exists middle :: NameText(middle) && s == "upgrade-" + middle + ".zip"
  {
    if UpgradeArchive(s) {
      var middle := s[8..|s| - 4];
      assert s == s[..8] + middle + s[|s| - 4..];
      assert NameText(middle);
    }
    if middle :| NameText(middle) && s == "upgrade-" + middle + ".zip" {
      forall k | 8 <= k < |s| - 4 ensures NameChar(s[k]) {
        assert s[k] == middle[k - 8];
      }
    }
  }

  /** The source's three cases, on the parts. */
  predicate PlaceByCase(parts: seq<string>) {
    || (|parts| == 1 && FixedName(parts[0]))
    || (|parts| > 1 && TreeTop(parts[0]))
    || (|parts| == 2 && parts[0] == "upgrade-archives" && UpgradeArchive(parts[1]))
  }

  lemma PlaceExactly(parts: seq<string>)
    ensures Place(parts) <==> PlaceByCase(parts)
  {
    if |parts| == 1 {
      assert parts == [parts[0]];
    } else if |parts| == 2 {
      assert parts == [parts[0], parts[1]];
      UpgradeArchiveExactly(parts[1]);
    }
  }

  lemma {:induction false} NormalPartsCount(parts: seq<string>)
    requires NormalParts(parts)
    ensures Counting(parts) == parts
    decreases |parts|
  {
    if parts != [] {
      NormalPartsCount(parts[1..]);
    }
  }

  /** A path in normal form has only components that count. */
  lemma NormalTextExactly(name: string)
    requires PathText(name) == name && name != "."
    ensures PathParts(name) == Split(name)
  {
    SplitJoin(PathParts(name));
  }

  lemma FixedNameIsOnePart(name: string)
    requires FixedName(name)
    ensures Split(name) == [name]
  {
    SplitPart(name);
  }

  lemma FixedPart(name: string)
    requires |Split(name)| == 1 && FixedName(Split(name)[0])
    ensures FixedName(name)
  {
    JoinSplit(name);
  }

  lemma AllowedByCase(name: string)
    ensures AllowedName(name) <==> PlainChars(name) && NormalParts(Split(name)) && PlaceByCase(Split(name))
  {
    JoinSplit(name);
    if AllowedName(name) {
      if name == "." {
        DotHasNoParts();
      } else {
        NormalTextExactly(name);
      }
      if FixedName(name) {
        FixedNameIsOnePart(name);
      }
    }
    if PlainChars(name) && NormalParts(Split(name)) && PlaceByCase(Split(name)) {
      NormalPartsCount(Split(name));
      if name[0] == '/' {
        assert false;
      }
      if |Split(name)| == 1 {
        FixedPart(name);
      }
    }
  }

  /** What the path library's normal form amounts to: exactly which names are accepted. */
  lemma AllowedNameExactly(name: string)
    ensures AllowedName(name) <==> PlainChars(name) && NormalParts(Split(name)) && Place(Split(name))
  {
    AllowedByCase(name);
    PlaceExactly(Split(name));
  }

  lemma DotHasNoParts()
    ensures Split(".") == ["."] && PathParts(".") == []
  {
    SplitPart(".");
  }

  // ---------- parents ----------

  /** The proper ancestors of a path, without the empty one. */
  function Parents(name: string): set<string> {
    var parts := PathParts(name);
    set i | 0 < i < |parts| :: Join(parts[..i])
  }

  predicate Overlap(names: set<string>) {
    exists name, parent :: name in names && parent in Parents(name) && parent in names
  }

  /** Nothing is its own ancestor. */
  lemma NotOwnParent(name: string)
    ensures name !in Parents(name)
  {
    var parts := PathParts(name);
    CountingShrinks(Split(name));
    forall i | 0 < i < |parts| ensures Join(parts[..i]) != name {
      SplitJoin(parts[..i]);
    }
  }

  lemma {:induction false} CountingShrinks(parts: seq<string>)
    ensures |Counting(parts)| <= |parts|
    decreases |parts|
  {
    if parts != [] {
      CountingShrinks(parts[1..]);
    }
  }

  /** The top part of an ancestor is the top part of the path. */
  lemma ParentKeepsTop(name: string, parent: string)
    requires parent in Parents(name)
    ensures PathParts(name) != [] && Split(parent)[0] == PathParts(name)[0]
  {
    var parts := PathParts(name);
    var i :| 0 < i < |parts| && parent == Join(parts[..i]);
    SplitJoin(parts[..i]);
  }

  const MANIFEST_NAME := "manifest.json"

  lemma ManifestNameIsNotAllowed()
    ensures !AllowedName(MANIFEST_NAME) && Split(MANIFEST_NAME) == [MANIFEST_NAME]
  {
    AllowedByCase(MANIFEST_NAME);
    SplitPart(MANIFEST_NAME);
  }

  lemma AllowedParts(name: string)
    requires AllowedName(name)
    ensures PathParts(name) == Split(name) && PlaceByCase(Split(name))
  {
    AllowedByCase(name);
    NormalPartsCount(Split(name));
  }

  /** The name the manifest is written under is neither an accepted file name nor a directory of one. */
  lemma ManifestNameIsFree(name: string)
    requires AllowedName(name)
    ensures name != MANIFEST_NAME && MANIFEST_NAME !in Parents(name)
  {
    ManifestNameIsNotAllowed();
    AllowedParts(name);
    if MANIFEST_NAME in Parents(name) {
      ParentKeepsTop(name, MANIFEST_NAME);
      TopIsADirectory(name);
    }
  }

  lemma TopIsADirectory(name: string)
    requires |PathParts(name)| > 1 && PathParts(name) == Split(name) && PlaceByCase(Split(name))
    ensures PathParts(name)[0] != MANIFEST_NAME
  {
  }

  // ---------- creating files in order ----------

  /** The names of the files and directories under a destination. */
  datatype Tree = Tree(files: set<string>, dirs: set<string>)

  /** Missing parents are made; it fails where a file is in the way. */
  function MakeParents(t: Tree, name: string): Option<Tree> {
    if exists parent :: parent in Parents(name) && parent in t.files then None
    else Some(t.(dirs := t.dirs + Parents(name)))
  }

  /** Exclusive creation. */
  function CreateNew(t: Tree, name: string): Option<Tree> {
    if name in t.files || name in t.dirs then None else Some(t.(files := t.files + {name}))
  }

  function Create(t: Tree, name: string): Option<Tree> {
    match MakeParents(t, name)
    case None => None
    case Some(t') => CreateNew(t', name)
  }

  function CreateAll(names: seq<string>): Option<Tree> {
    if names == [] then Some(Tree({}, {}))
    else
      match CreateAll(names[..|names| - 1])
      case None => None
      case Some(t) => Create(t, names[|names| - 1])
  }

  predicate Distinct(names: seq<string>) {
    forall i, j :: 0 <= i < j < |names| ==> names[i] != names[j]
  }

  function NameSet(names: seq<string>): set<string> {
    set i | 0 <= i < |names| :: names[i]
  }

  function AllParents(names: seq<string>): set<string> {
    set i, parent | 0 <= i < |names| && parent in Parents(names[i]) :: parent
  }

  /**
   Creating the files of a list in order from nothing succeeds exactly when the names are distinct and none is an
   ancestor of another, in whatever order; and then the tree holds these files and their ancestors only.
   */
  lemma {:induction false} CreateAllExactly(names: seq<string>)
    ensures CreateAll(names).Some? <==> Distinct(names) && !Overlap(NameSet(names))
    ensures CreateAll(names).Some? ==> CreateAll(names).value == Tree(NameSet(names), AllParents(names))
    decreases |names|
  {
    if names != [] {
      var n := |names| - 1;
      var before, last := names[..n], names[n];
      assert names == before + [last];
      CreateAllExactly(before);
      if CreateAll(before).Some? {
        CreateOneMore(before, last);
      } else {
        NameSetGrows(before, last);
        DistinctGrows(before, last);
        NotOwnParent(last);
        OverlapGrows(before, last);
      }
    }
  }

  lemma NameSetGrows(names: seq<string>, last: string)
    ensures NameSet(names + [last]) == NameSet(names) + {last}
  {
    var all := names + [last];
    forall i | 0 <= i < |names| ensures names[i] in NameSet(all) {
      assert all[i] == names[i];
    }
    assert all[|names|] == last;
  }

  lemma AllParentsGrows(names: seq<string>, last: string)
    ensures AllParents(names + [last]) == AllParents(names) + Parents(last)
  {
    var all := names + [last];
    forall i, parent | 0 <= i < |names| && parent in Parents(names[i]) ensures parent in AllParents(all) {
      assert all[i] == names[i];
    }
    assert all[|names|] == last;
  }

  lemma CreateOneMore(names: seq<string>, last: string)
    requires Distinct(names) && !Overlap(NameSet(names))
    ensures var t := Create(Tree(NameSet(names), AllParents(names)), last);
      var all := names + [last];
      && (t.Some? <==> Distinct(all) && !Overlap(NameSet(all)))
      && (t.Some? ==> t.value == Tree(NameSet(all), AllParents(all)))
  {
    NotOwnParent(last);
    NameSetGrows(names, last);
    AllParentsGrows(names, last);
    DistinctGrows(names, last);
    OverlapGrows(names, last);
  }

  lemma DistinctGrows(names: seq<string>, last: string)
    ensures Distinct(names + [last]) <==> Distinct(names) && last !in NameSet(names)
  {
    var all := names + [last];
    if Distinct(all) {
      forall i, j | 0 <= i < j < |names| ensures names[i] != names[j] {
        assert all[i] == names[i] && all[j] == names[j];
      }
      forall i | 0 <= i < |names| ensures names[i] != last {
        assert all[i] == names[i] && all[|names|] == last;
      }
    }
  }

  lemma OverlapGrows(names: seq<string>, last: string)
    requires last !in Parents(last)
    ensures Overlap(NameSet(names) + {last}) <==>
            || Overlap(NameSet(names)) || last in AllParents(names)
            || exists parent :: parent in Parents(last) && parent in NameSet(names)
  {
    var all := NameSet(names) + {last};
    if Overlap(NameSet(names)) {
      var name, parent :| name in NameSet(names) && parent in Parents(name) && parent in NameSet(names);
      assert name in all && parent in all;
    }
    if last in AllParents(names) {
      var i :| 0 <= i < |names| && last in Parents(names[i]);
      assert names[i] in all && last in all;
    }
    if parent :| parent in Parents(last) && parent in NameSet(names) {
      assert last in all && parent in all;
    }
  }

  // ---------- the manifest ----------

  datatype Json =
    | Null
    | Bool(b: bool)
    | Integer(n: int)
    | Float
    | Text(text: string)
    | List(items: seq<Json>)
    | Dict(fields: map<string, Json>)

  /** Dictionary lookup with a default. */
  function Get(fields: map<string, Json>, key: string): Json {
    if key in fields then fields[key] else Null
  }

  datatype Entry = Entry(name: string, size: nat, digest: string)

  predicate HexDigit(c: char) {
    'a' <= c <= 'f' || '0' <= c <= '9'
  }

  predicate Digest(s: string) {
    |s| == 64 && forall k :: 0 <= k < 64 ==> HexDigit(s[k])
  }

  function Total(entries: seq<Entry>): (n: nat) {
    if entries == [] then 0 else Total(entries[..|entries| - 1]) + entries[|entries| - 1].size
  }

  function Names(entries: seq<Entry>): seq<string> {
    seq(|entries|, i requires 0 <= i < |entries| => entries[i].name)
  }

  predicate GoodEntry(e: Entry) {
    AllowedName(e.name) && Digest(e.digest)
  }

  /** What the source asks of a list of entries. */
  predicate Acceptable(entries: seq<Entry>, maxBytes: int) {
    && 2 <= |entries| <= MAX_FILES
    && (forall k :: 0 <= k < |entries| ==> GoodEntry(entries[k]))
    && Distinct(Names(entries))
    && Total(entries) <= maxBytes
    && "komari.db" in NameSet(Names(entries)) && "metrics.db" in NameSet(Names(entries))
    && !Overlap(NameSet(Names(entries)))
  }

  function EntryOf(item: Json): Option<Entry> {
    if !item.Dict? then None
    else
      var name, size, digest := Get(item.fields, "name"), Get(item.fields, "size"), Get(item.fields, "sha256");
      if name.Text? && size.Integer? && size.n >= 0 && digest.Text? then Some(Entry(name.text, size.n, digest.text))
      else None
  }

  /** The list of entries that the items are, if each is one. */
  function EntriesOf(items: seq<Json>): (r: Option<seq<Entry>>)
    ensures r.Some? ==> |r.value| == |items| && forall k :: 0 <= k < |items| ==> EntryOf(items[k]) == Some(r.value[k])
    ensures r.None? ==> exists k :: 0 <= k < |items| && EntryOf(items[k]).None?
  {
    if items == [] then Some([])
    else
      var n := |items| - 1;
      match EntriesOf(items[..n])
      case None => None
      case Some(entries) => if EntryOf(items[n]).None? then None else Some(entries + [EntryOf(items[n]).value])
  }

  /** Format and creation time; `utc` says whether a text is an ISO time with offset zero. */
  predicate GoodHead(doc: Json, utc: string -> bool) {
    && doc.Dict? && Get(doc.fields, "format") == Text(FORMAT)
    && Get(doc.fields, "created_at").Text? && |Get(doc.fields, "created_at").text| <= 40
    && utc(Get(doc.fields, "created_at").text)
  }

  /** The entries of an acceptable manifest, and nothing for any other document. */
  function ManifestOf(doc: Json, maxBytes: int, utc: string -> bool): Option<seq<Entry>> {
    if !GoodHead(doc, utc) || !Get(doc.fields, "files").List? then None
    else
      var entries := EntriesOf(Get(doc.fields, "files").items);
      if entries.None? || !Acceptable(entries.value, maxBytes) then None else entries
  }

  lemma {:induction false} TotalGrows(entries: seq<Entry>, n: nat)
    requires n <= |entries|
    ensures Total(entries[..n]) <= Total(entries)
    decreases |entries|
  {
    if n < |entries| {
      var m := |entries| - 1;
      TotalGrows(entries[..m], n);
      assert entries[..m][..n] == entries[..n];
    } else {
      assert entries[..n] == entries;
    }
  }

  lemma {:induction false} EntriesOfPrefix(items: seq<Json>, n: nat)
    requires n <= |items| && EntriesOf(items).Some?
    ensures EntriesOf(items[..n]) == Some(EntriesOf(items).value[..n])
    decreases |items|
  {
    var m := |items| - 1;
    if n < |items| {
      EntriesOfPrefix(items[..m], n);
      assert items[..m][..n] == items[..n];
      assert EntriesOf(items).value[..n] == EntriesOf(items[..m]).value[..n];
    } else {
      assert items[..n] == items && EntriesOf(items).value[..n] == EntriesOf(items).value;
    }
  }

  predicate NextIsGood(list: seq<Entry>, e: Entry, maxBytes: int) {
    GoodEntry(e) && e.name !in NameSet(Names(list)) && Total(list) + e.size <= maxBytes
  }

  /** One bad entry: whatever follows, such a list is not acceptable. */
  lemma RejectedEarly(entries: seq<Entry>, n: nat, maxBytes: int)
    requires n < |entries| && !NextIsGood(entries[..n], entries[n], maxBytes)
    ensures !Acceptable(entries, maxBytes)
  {
    TotalGrows(entries, n + 1);
    assert entries[..n + 1][..n] == entries[..n];
    if entries[n].name in NameSet(Names(entries[..n])) {
      var i :| 0 <= i < n && Names(entries[..n])[i] == entries[n].name;
      assert Names(entries)[i] == Names(entries)[n];
    }
  }

  lemma OneMoreEntry(items: seq<Json>, n: nat)
    requires n < |items| && EntriesOf(items[..n]).Some? && EntryOf(items[n]).Some?
    ensures EntriesOf(items[..n + 1]) == Some(EntriesOf(items[..n]).value + [EntryOf(items[n]).value])
  {
    assert items[..n + 1][..n] == items[..n];
  }

  lemma OneMoreName(entries: seq<Entry>, e: Entry)
    ensures NameSet(Names(entries + [e])) == NameSet(Names(entries)) + {e.name}
    ensures Distinct(Names(entries + [e])) <==> Distinct(Names(entries)) && e.name !in NameSet(Names(entries))
    ensures Total(entries + [e]) == Total(entries) + e.size
  {
    assert Names(entries + [e]) == Names(entries) + [e.name];
    NameSetGrows(Names(entries), e.name);
    DistinctGrows(Names(entries), e.name);
    assert (entries + [e])[..|entries|] == entries;
  }

  /** The first `n` items are entries, and so far nothing is wrong with them. */
  ghost predicate SoFarGood(items: seq<Json>, n: nat, list: seq<Entry>, maxBytes: int)
    requires n <= |items|
  {
    && EntriesOf(items[..n]) == Some(list)
    && (forall k :: 0 <= k < n ==> GoodEntry(list[k]))
    && Distinct(Names(list))
    && (n > 0 ==> Total(list) <= maxBytes)
  }

  lemma GoodNext(items: seq<Json>, n: nat, list: seq<Entry>, maxBytes: int)
    requires n < |items| && SoFarGood(items, n, list, maxBytes) && EntryOf(items[n]).Some?
    requires NextIsGood(list, EntryOf(items[n]).value, maxBytes)
    ensures SoFarGood(items, n + 1, list + [EntryOf(items[n]).value], maxBytes)
  {
    OneMoreEntry(items, n);
    OneMoreName(list, EntryOf(items[n]).value);
  }

  lemma BadNext(items: seq<Json>, n: nat, list: seq<Entry>, maxBytes: int)
    requires n < |items| && EntriesOf(items[..n]) == Some(list)
    requires EntryOf(items[n]).Some? ==> !NextIsGood(list, EntryOf(items[n]).value, maxBytes)
    ensures EntriesOf(items).Some? ==> !Acceptable(EntriesOf(items).value, maxBytes)
  {
    if EntriesOf(items).Some? {
      EntriesOfPrefix(items, n);
      RejectedEarly(EntriesOf(items).value, n, maxBytes);
    }
  }

  /** Checks the entries one by one. */
  method CheckEntries(items: seq<Json>, maxBytes: int) returns (entries: Option<seq<Entry>>)
    requires 2 <= |items| <= MAX_FILES
    ensures entries == if EntriesOf(items).Some?
            && Acceptable(EntriesOf(items).value, maxBytes) then EntriesOf(items) else None
  {
    var seen: set<string>, total, list: seq<Entry> := {}, 0, [];
    var i := 0;
    while i < |items|
      invariant 0 <= i <= |items|
      invariant SoFarGood(items, i, list, maxBytes)
      invariant seen == NameSet(Names(list)) && total == Total(list)
    {
      var entry := EntryOf(items[i]);
      if entry.None? {
        BadNext(items, i, list, maxBytes);
        return None;
      }
      var e := entry.value;
      if !AllowedName(e.name) || e.name in seen || !Digest(e.digest) || total + e.size > maxBytes {
        BadNext(items, i, list, maxBytes);
        return None;
      }
      GoodNext(items, i, list, maxBytes);
      OneMoreName(list, e);
      seen, total, list := seen + {e.name}, total + e.size, list + [e];
      i := i + 1;
    }
    assert items[..i] == items;
    if "komari.db" !in seen || "metrics.db" !in seen || Overlap(seen) {
      return None;
    }
    return Some(list);
  }

  method ParseManifest(doc: Json, maxBytes: int, utc: string -> bool) returns (entries: Option<seq<Entry>>)
    ensures entries == ManifestOf(doc, maxBytes, utc)
  {
    if !doc.Dict? || Get(doc.fields, "format") != Text(FORMAT) {
      return None;
    }
    var list, created := Get(doc.fields, "files"), Get(doc.fields, "created_at");
    if !created.Text? || |created.text| > 40 || !utc(created.text) {
      return None;
    }
    if !list.List? || !(2 <= |list.items| <= MAX_FILES) {
      return None;
    }
    entries := CheckEntries(list.items, maxBytes);
  }

  lemma OverlapGrowsWithNames(some: set<string>, all: set<string>)
    requires some <= all && Overlap(some)
    ensures Overlap(all)
  {
    var name, parent :| name in some && parent in Parents(name) && parent in some;
    assert name in all && parent in all;
  }

  /** The files of an accepted manifest can be created in its order: nothing is ever in the way. */
  lemma ExtractionNeverCollides(entries: seq<Entry>, maxBytes: int, n: nat)
    requires Acceptable(entries, maxBytes) && n <= |entries|
    ensures var names := Names(entries)[..n];
      CreateAll(names) == Some(Tree(NameSet(names), AllParents(names)))
  {
    PrefixCreates(Names(entries), n);
  }

  lemma PrefixCreates(names: seq<string>, n: nat)
    requires n <= |names| && Distinct(names) && !Overlap(NameSet(names))
    ensures CreateAll(names[..n]) == Some(Tree(NameSet(names[..n]), AllParents(names[..n])))
  {
    var some := names[..n];
    forall name | name in NameSet(some) ensures name in NameSet(names) {
      var i :| 0 <= i < n && some[i] == name;
      assert names[i] == name;
    }
    if Overlap(NameSet(some)) {
      OverlapGrowsWithNames(NameSet(some), NameSet(names));
    }
    CreateAllExactly(some);
  }

  /** Unpacking makes no directory where the manifest is to be written. */
  lemma ManifestNameIsNoDirectory(entries: seq<Entry>, maxBytes: int)
    requires Acceptable(entries, maxBytes)
    ensures MANIFEST_NAME !in AllParents(Names(entries)) && MANIFEST_NAME !in NameSet(Names(entries))
  {
    forall i | 0 <= i < |entries| ensures ApartFromManifest(Names(entries)[i]) {
      assert GoodEntry(entries[i]);
      ManifestNameIsFree(entries[i].name);
    }
    ApartFromAll(Names(entries));
  }

  predicate ApartFromManifest(name: string) {
    MANIFEST_NAME !in Parents(name) && MANIFEST_NAME != name
  }

  lemma ApartFromAll(names: seq<string>)
    requires forall i :: 0 <= i < |names| ==> ApartFromManifest(names[i])
    ensures MANIFEST_NAME !in AllParents(names) && MANIFEST_NAME !in NameSet(names)
  {
  }

  // ---------- what a manifest is ----------

  /** The path is below the directory. */
  predicate Below(path: string, dir: string) {
    |dir| < |path| && path[..|dir|] == dir && path[|dir|] == '/'
  }

  lemma {:induction false} SplitTwo(a: string, b: string)
    ensures Split(a + "/" + b) == Split(a) + Split(b)
    decreases |a|
  {
    var s := a + "/" + b;
    if a == "" {
      assert s[1..] == b;
    } else {
      assert s[1..] == a[1..] + "/" + b;
      SplitTwo(a[1..], b);
      if a[0] == '/' {
        assert [""] + (Split(a[1..]) + Split(b)) == [""] + Split(a[1..]) + Split(b);
      } else {
        FirstPartLonger(a[0], Split(a[1..]), Split(b));
      }
    }
  }

  lemma FirstPartLonger(c: char, a: seq<string>, b: seq<string>)
    requires a != []
    ensures [[c] + (a + b)[0]] + (a + b)[1..] == ([[c] + a[0]] + a[1..]) + b
  {
    assert (a + b)[1..] == a[1..] + b;
  }

  lemma {:induction false} JoinTwo(a: seq<string>, b: seq<string>)
    requires a != [] && b != []
    ensures Join(a + b) == Join(a) + "/" + Join(b)
    decreases |a|
  {
    if |a| == 1 {
      assert (a + b)[1..] == b;
    } else {
      assert (a + b)[1..] == a[1..] + b;
      JoinTwo(a[1..], b);
    }
  }

  /** The ancestors of an allowed name are the directories that it is below. */
  lemma ParentsExactly(name: string, dir: string)
    requires AllowedName(name)
    ensures dir in Parents(name) <==> Below(name, dir)
  {
    AllowedParts(name);
    if dir in Parents(name) {
      var i :| 0 < i < |Split(name)| && dir == Join(Split(name)[..i]);
      FrontIsAbove(name, Split(name), i);
    }
    if Below(name, dir) {
      BelowIsParent(name, dir);
    }
  }

  lemma FrontIsAbove(name: string, parts: seq<string>, i: nat)
    requires parts == Split(name) && 0 < i < |parts|
    ensures Below(name, Join(parts[..i]))
  {
    JoinSplit(name);
    assert parts == parts[..i] + parts[i..];
    JoinTwo(parts[..i], parts[i..]);
  }

  lemma BelowIsParent(name: string, dir: string)
    requires Below(name, dir) && PathParts(name) == Split(name)
    ensures dir in Parents(name)
  {
    var rest := name[|dir| + 1..];
    assert name == dir + "/" + rest;
    SplitTwo(dir, rest);
    JoinSplit(dir);
    assert Split(name)[..|Split(dir)|] == Split(dir);
  }

  /** What a list of entries must be, in its own terms. */
  ghost predicate Sound(entries: seq<Entry>, maxBytes: int) {
    && 2 <= |entries| <= 10_000
    && AllAllowed(entries) && AllHexadecimal(entries) && NamesDiffer(entries) && NoneBelow(entries)
    && Total(entries) <= maxBytes && Has(entries, "komari.db") && Has(entries, "metrics.db")
  }

  predicate AllAllowed(entries: seq<Entry>) {
    forall k :: 0 <= k < |entries| ==> AllowedName(entries[k].name)
  }

  predicate AllHexadecimal(entries: seq<Entry>) {
    forall k :: 0 <= k < |entries| ==> Hexadecimal(entries[k].digest)
  }

  predicate NamesDiffer(entries: seq<Entry>) {
    forall i, j :: 0 <= i < j < |entries| ==> entries[i].name != entries[j].name
  }

  predicate NoneBelow(entries: seq<Entry>) {
    forall i, j :: 0 <= i < |entries| && 0 <= j < |entries| ==> !Below(entries[i].name, entries[j].name)
  }

  predicate Has(entries: seq<Entry>, name: string) {
    exists k :: 0 <= k < |entries| && entries[k].name == name
  }

  predicate Hexadecimal(s: string) {
    |s| == 64 && forall c :: c in s ==> '0' <= c <= '9' || 'a' <= c <= 'f'
  }

  lemma DigestExactly(s: string)
    ensures Digest(s) <==> Hexadecimal(s)
  {
    if Hexadecimal(s) {
      forall k | 0 <= k < 64 ensures HexDigit(s[k]) {
        assert s[k] in s;
      }
    }
  }

  lemma NameIn(entries: seq<Entry>, name: string)
    ensures name in NameSet(Names(entries)) <==> Has(entries, name)
  {
    if name in NameSet(Names(entries)) {
      var k :| 0 <= k < |Names(entries)| && Names(entries)[k] == name;
      assert entries[k].name == name;
    }
    if k :| 0 <= k < |entries| && entries[k].name == name {
      assert Names(entries)[k] == name;
    }
  }

  lemma OverlapExactly(entries: seq<Entry>)
    requires AllAllowed(entries)
    ensures Overlap(NameSet(Names(entries))) <==> !NoneBelow(entries)
  {
    if Overlap(NameSet(Names(entries))) {
      var name, dir :| name in NameSet(Names(entries)) && dir in Parents(name) && dir in NameSet(Names(entries));
      NameIn(entries, name);
      NameIn(entries, dir);
      ParentsExactly(name, dir);
    }
    if i, j :| 0 <= i < |entries| && 0 <= j < |entries| && Below(entries[i].name, entries[j].name) {
      NameIn(entries, entries[i].name);
      NameIn(entries, entries[j].name);
      ParentsExactly(entries[i].name, entries[j].name);
    }
  }

  lemma DistinctExactly(entries: seq<Entry>)
    ensures Distinct(Names(entries)) <==> NamesDiffer(entries)
  {
    if Distinct(Names(entries)) {
      forall i, j | 0 <= i < j < |entries| ensures entries[i].name != entries[j].name {
        assert Names(entries)[i] != Names(entries)[j];
      }
    }
  }

  lemma AllowedExactly(entries: seq<Entry>)
    ensures (forall k :: 0 <= k < |entries| ==> GoodEntry(entries[k])) <==>
            AllAllowed(entries) && AllHexadecimal(entries)
  {
    forall k | 0 <= k < |entries|
      ensures GoodEntry(entries[k]) <==> AllowedName(entries[k].name) && Hexadecimal(entries[k].digest)
    {
      DigestExactly(entries[k].digest);
    }
  }

  /** The list is accepted exactly when it is sound. */
  lemma AcceptableExactly(entries: seq<Entry>, maxBytes: int)
    ensures Acceptable(entries, maxBytes) <==> Sound(entries, maxBytes)
  {
    AllowedExactly(entries);
    DistinctExactly(entries);
    NameIn(entries, "komari.db");
    NameIn(entries, "metrics.db");
    if AllAllowed(entries) {
      OverlapExactly(entries);
    }
  }

  /** The item gives name, size and digest of the entry. */
  predicate Gives(item: Json, e: Entry) {
    && item.Dict? && "name" in item.fields && "size" in item.fields && "sha256" in item.fields
    && item.fields["name"] == Text(e.name) && item.fields["size"] == Integer(e.size)
    && item.fields["sha256"] == Text(e.digest)
  }

  /** The document has the format's name, a creation time in UTC, and an item for each of the entries, in order. */
  predicate Describes(doc: Json, entries: seq<Entry>, utc: string -> bool) {
    && doc.Dict? && Headed(doc.fields, utc) && "files" in doc.fields
    && doc.fields["files"].List? && |doc.fields["files"].items| == |entries|
    && forall k :: 0 <= k < |entries| ==> Gives(doc.fields["files"].items[k], entries[k])
  }

  lemma GivesExactly(item: Json, e: Entry)
    ensures EntryOf(item) == Some(e) <==> Gives(item, e)
  {
  }

  lemma {:induction false} EntriesExactly(items: seq<Json>, entries: seq<Entry>)
    ensures EntriesOf(items) == Some(entries) <==>
            |items| == |entries| && forall k :: 0 <= k < |entries| ==> Gives(items[k], entries[k])
    decreases |items|
  {
    if EntriesOf(items) == Some(entries) {
      forall k | 0 <= k < |entries| ensures Gives(items[k], entries[k]) {
        GivesExactly(items[k], entries[k]);
      }
    }
    if items != [] && |items| == |entries| && forall k :: 0 <= k < |entries| ==> Gives(items[k], entries[k]) {
      var n := |items| - 1;
      EntriesExactly(items[..n], entries[..n]);
      GivesExactly(items[n], entries[n]);
      assert entries == entries[..n] + [entries[n]];
    }
  }

  /** The exact condition: a document is accepted with entries exactly when it describes them and they are sound. */
  lemma ManifestExactly(doc: Json, maxBytes: int, utc: string -> bool, entries: seq<Entry>)
    ensures ManifestOf(doc, maxBytes, utc) == Some(entries) <==>
            Describes(doc, entries, utc) && Sound(entries, maxBytes)
  {
    AcceptableExactly(entries, maxBytes);
    if doc.Dict? {
      HeadExactly(doc.fields, utc);
      if Get(doc.fields, "files").List? {
        EntriesExactly(Get(doc.fields, "files").items, entries);
        assert "files" in doc.fields;
      }
    }
  }

  predicate Headed(fields: map<string, Json>, utc: string -> bool) {
    && "format" in fields && "created_at" in fields && fields["format"] == Text("nekomari-offhost-v1")
    && fields["created_at"].Text? && |fields["created_at"].text| <= 40 && utc(fields["created_at"].text)
  }

  lemma HeadExactly(fields: map<string, Json>, utc: string -> bool)
    ensures GoodHead(Dict(fields), utc) <==> Headed(fields, utc)
  {
  }

  /** The document that the writer makes of its files. */
  function Made(entries: seq<Entry>, created: string): Json {
    Dict(map["format" := Text("nekomari-offhost-v1"), "created_at" := Text(created),
             "files" := List(seq(|entries|, k requires 0 <= k < |entries| => MadeItem(entries[k])))])
  }

  function MadeItem(e: Entry): Json {
    Dict(map["name" := Text(e.name), "size" := Integer(e.size), "sha256" := Text(e.digest)])
  }

  /** What the writer makes of a sound list is accepted, and gives the list back. */
  lemma MadeManifestIsAccepted(entries: seq<Entry>, created: string, maxBytes: int, utc: string -> bool)
    requires Sound(entries, maxBytes) && |created| <= 40 && utc(created)
    ensures ManifestOf(Made(entries, created), maxBytes, utc) == Some(entries)
  {
    MadeDescribes(entries, created, utc);
    ManifestExactly(Made(entries, created), maxBytes, utc, entries);
  }

  lemma MadeDescribes(entries: seq<Entry>, created: string, utc: string -> bool)
    requires |created| <= 40 && utc(created)
    ensures Describes(Made(entries, created), entries, utc)
  {
  }
}
