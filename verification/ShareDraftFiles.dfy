/**
 * Share drafts on disk: the names a staging session gives its files, the descriptor it writes, and the checks by which
 * the app loads the draft again. The platform's name normaliser and its stem/extension split are parameters with the
 * laws the proofs use; files are found by normalised path, the coarser of the two kinds of volume.
 */
module ShareDraftFiles {
  import opened Prelude
  import opened Text

  const MAX_ITEM_COUNT := 10_000
  const SCHEMA_VERSION := 2
  const PAYLOAD := "payload"
  const U64_LIMIT := 0x1_0000_0000_0000_0000

  // ---------------------------------------------------------------------------------------------
  // Names
  // ---------------------------------------------------------------------------------------------

  function ReplaceSlashes(s: string): (r: string)
    ensures |r| == |s| && forall i :: 0 <= i < |s| ==> r[i] == if s[i] == '/' then '-' else s[i]
  {
    seq(|s|, i requires 0 <= i < |s| => if s[i] == '/' then '-' else s[i])
  }

  function SafeFileName(candidate: string): string {
    Cleaned(Trim(candidate))
  }

  function Cleaned(trimmed: string): string {
    if trimmed == "" || trimmed == "." || trimmed == ".." then "Shared Item" else ReplaceSlashes(trimmed)
  }

  /** A name that is one path component and survives trimming. */
  predicate IsSafe(name: string) {
    name != "" && name != "." && name != ".." && IsTrimmed(name) && '/' !in name
  }

  lemma ReplacedIsSafe(s: string)
    requires s != "" && s != "." && s != ".." && IsTrimmed(s)
    ensures IsSafe(ReplaceSlashes(s)) && ('/' !in s ==> ReplaceSlashes(s) == s)
  {
    var r := ReplaceSlashes(s);
    assert r[0] == '.' ==> s[0] == '.';
    assert |r| == 2 && r[1] == '.' ==> s[1] == '.';
    assert s != "." ==> |s| != 1 || s[0] != '.';
    assert s != ".." ==> |s| != 2 || s[0] != '.' || s[1] != '.';
  }

  lemma CleanedIsSafe(trimmed: string)
    requires IsTrimmed(trimmed)
    ensures IsSafe(Cleaned(trimmed)) && (IsSafe(trimmed) ==> Cleaned(trimmed) == trimmed)
  {
    if trimmed == "" || trimmed == "." || trimmed == ".." {
      var r := "Shared Item";
      assert r[0] == 'S' && r[10] == 'm' && |r| == 11;
    } else {
      ReplacedIsSafe(trimmed);
    }
  }

  /** The cleaner's results are its fixed points, and those are exactly the safe names. */
  lemma SafeFileNameFixes(name: string)
    ensures IsSafe(SafeFileName(name))
    ensures SafeFileName(name) == name <==> IsSafe(name)
  {
    TrimSettles(name);
    CleanedIsSafe(Trim(name));
  }

  /** What the cleaner makes of a wish: the trimmed text with slashes turned to dashes, or a stock name. */
  lemma SafeFileNameSays(wish: string)
    ensures var trimmed, r := Trim(wish), SafeFileName(wish);
            if trimmed == "" || trimmed == "." || trimmed == ".." then r == "Shared Item"
            else |r| == |trimmed| && forall i :: 0 <= i < |r| ==> r[i] == if trimmed[i] == '/' then '-' else trimmed[i]
  {
  }

  function Decimal(n: nat): string {
    if n < 10 then [('0' as int + n) as char] else Decimal(n / 10) + [('0' as int + n % 10) as char]
  }

  function Suffixed(stem: string, ext: string, n: nat): string {
    stem + (" (" + (Decimal(n) + (")" + if ext == "" then "" else "." + ext)))
  }

  datatype Platform = Platform(norm: string -> string, split: string -> (string, string))

  /** The extension rules cut a name into a non-empty beginning and an end. */
  ghost predicate LawfulSplit(split: string -> (string, string)) {
    forall name: string :: name != "" ==>
      && split(name).0 != "" && split(name).0 <= name
      && |split(name).1| <= |name| && split(name).1 == name[|name| - |split(name).1|..]
  }

  /** Normalising keeps numbered variants of one name apart. */
  ghost predicate KeepsSuffixes(norm: string -> string) {
    forall stem, ext, a: nat, b: nat :: norm(Suffixed(stem, ext, a)) == norm(Suffixed(stem, ext, b)) ==> a == b
  }

  function InDirectory(directory: string, name: string): string {
    directory + ("/" + name)
  }

  /** Files in one directory whose paths normalise alike have names that do. */
  ghost predicate CancelsDirectory(norm: string -> string) {
    forall d, a, b :: norm(InDirectory(d, a)) == norm(InDirectory(d, b)) ==> norm(a) == norm(b)
  }

  ghost predicate Lawful(p: Platform) {
    LawfulSplit(p.split) && KeepsSuffixes(p.norm) && CancelsDirectory(p.norm)
  }

  lemma SuffixedIsSafe(name: string, stem: string, ext: string, n: nat)
    requires IsSafe(name) && stem != "" && stem <= name && |ext| <= |name| && ext == name[|name| - |ext|..]
    ensures IsSafe(Suffixed(stem, ext, n))
  {
    DecimalIsDigits(n);
    var tail := ")" + if ext == "" then "" else "." + ext;
    var r := Suffixed(stem, ext, n);
    assert r == stem + (" (" + (Decimal(n) + tail));
    assert r[0] == stem[0] == name[0];
    assert tail[|tail| - 1] == r[|r| - 1];
    if ext != "" { assert tail[|tail| - 1] == ext[|ext| - 1] == name[|name| - 1]; }
    assert '/' !in stem && '/' !in ext && '/' !in tail;
    assert |r| >= 5;
  }

  predicate IsDigit(c: char) {
    '0' <= c <= '9'
  }

  lemma {:induction false} DecimalIsDigits(n: nat)
    ensures Decimal(n) != [] && forall i :: 0 <= i < |Decimal(n)| ==> IsDigit(Decimal(n)[i])
  {
    if n >= 10 { DecimalIsDigits(n / 10); }
  }

  // ---------------------------------------------------------------------------------------------
  // Unique names
  // ---------------------------------------------------------------------------------------------

  /** The first number from n on whose variant is not in use. */
  function FirstFree(norm: string -> string, used: set<string>, stem: string, ext: string, n: nat): (r: Option<nat>)
    ensures r.Some? ==> n <= r.value <= MAX_ITEM_COUNT + 1 && norm(Suffixed(stem, ext, r.value)) !in used
    ensures r.Some? ==> forall k :: n <= k < r.value ==> norm(Suffixed(stem, ext, k)) in used
    ensures r.None? ==> forall k :: n <= k <= MAX_ITEM_COUNT + 1 ==> norm(Suffixed(stem, ext, k)) in used
    decreases MAX_ITEM_COUNT + 2 - n
  {
    if n > MAX_ITEM_COUNT + 1 then None
    else if norm(Suffixed(stem, ext, n)) !in used then Some(n)
    else FirstFree(norm, used, stem, ext, n + 1)
  }

  /** The name chosen and the names in use afterwards; the last resort is not recorded as used. */
  function UniqueName(p: Platform, used: set<string>, safe: string, uuid: string): (string, set<string>) {
    if p.norm(safe) !in used then (safe, used + {p.norm(safe)})
    else
      var (stem, ext) := p.split(safe);
      match FirstFree(p.norm, used, stem, ext, 2)
      case Some(n) => (Suffixed(stem, ext, n), used + {p.norm(Suffixed(stem, ext, n))})
      case None => (uuid + "-" + safe, used)
  }

  /** The normalised variants numbered from 2 up to, not including, n. */
  function Variants(norm: string -> string, stem: string, ext: string, n: nat): set<string>
    requires n >= 2
  {
    if n == 2 then {} else Variants(norm, stem, ext, n - 1) + {norm(Suffixed(stem, ext, n - 1))}
  }

  lemma {:induction false} VariantsAreMany(norm: string -> string, stem: string, ext: string, n: nat, used: set<string>)
    requires KeepsSuffixes(norm) && n >= 2
    requires forall k :: 2 <= k < n ==> norm(Suffixed(stem, ext, k)) in used
    ensures |Variants(norm, stem, ext, n)| == n - 2 && Variants(norm, stem, ext, n) <= used
    ensures forall k: nat :: k >= n ==> norm(Suffixed(stem, ext, k)) !in Variants(norm, stem, ext, n)
  {
    if n > 2 {
      VariantsAreMany(norm, stem, ext, n - 1, used);
    }
  }

  lemma SubsetSize(a: set<string>, b: set<string>)
    requires a <= b
    ensures |a| <= |b|
  {
    assert b == a + (b - a);
  }

  /** Ten thousand numbered variants cannot all be taken by fewer names: the last resort is out of reach. */
  lemma SomeVariantIsFree(norm: string -> string, used: set<string>, stem: string, ext: string)
    requires KeepsSuffixes(norm) && |used| < MAX_ITEM_COUNT
    ensures FirstFree(norm, used, stem, ext, 2).Some?
  {
    if FirstFree(norm, used, stem, ext, 2).None? {
      VariantsAreMany(norm, stem, ext, MAX_ITEM_COUNT + 2, used);
      SubsetSize(Variants(norm, stem, ext, MAX_ITEM_COUNT + 2), used);
    }
  }

  /** Whatever the safe wish, the chosen name is safe, normalises to something new, and is recorded. */
  lemma UniqueNameIsNew(p: Platform, used: set<string>, safe: string, uuid: string)
    requires Lawful(p) && |used| < MAX_ITEM_COUNT && IsSafe(safe)
    ensures var (name, after) := UniqueName(p, used, safe, uuid);
            IsSafe(name) && p.norm(name) !in used && after == used + {p.norm(name)} && |after| == |used| + 1
  {
    if p.norm(safe) in used {
      var (stem, ext) := p.split(safe);
      assert stem == p.split(safe).0;
      SomeVariantIsFree(p.norm, used, stem, ext);
      SuffixedIsSafe(safe, stem, ext, FirstFree(p.norm, used, stem, ext, 2).value);
    }
  }

  /** The name is the wish itself when that is free, else the wish numbered with the smallest free number from 2 on. */
  lemma UniqueNameSays(p: Platform, used: set<string>, safe: string, uuid: string)
    requires Lawful(p) && |used| < MAX_ITEM_COUNT && IsSafe(safe)
    ensures p.norm(safe) !in used ==> UniqueName(p, used, safe, uuid).0 == safe
    ensures p.norm(safe) in used ==>
              var (stem, ext) := p.split(safe);
              exists n: nat :: && n >= 2 && UniqueName(p, used, safe, uuid).0 == Suffixed(stem, ext, n)
                               && forall k: nat :: 2 <= k < n ==> p.norm(Suffixed(stem, ext, k)) in used
  {
    if p.norm(safe) in used {
      var (stem, ext) := p.split(safe);
      SomeVariantIsFree(p.norm, used, stem, ext);
      var n := FirstFree(p.norm, used, stem, ext, 2).value;
      assert UniqueName(p, used, safe, uuid).0 == Suffixed(stem, ext, n);
    }
  }

  /** A way to choose names: the names in use and the wish give the name and the names in use afterwards. */
  type Chooser = (set<string>, string) -> (string, set<string>)

  /** It chooses as the staging session does. */
  ghost predicate Chooses(choose: Chooser, p: Platform, uuid: string) {
    forall used: set<string>, wish: string {:trigger UniqueName(p, used, SafeFileName(wish), uuid)} ::
      choose(used, wish) == UniqueName(p, used, SafeFileName(wish), uuid)
  }

  function ChooserOf(p: Platform, uuid: string): Chooser {
    (used: set<string>, wish: string) => UniqueName(p, used, SafeFileName(wish), uuid)
  }

  lemma ChooserOfChooses(p: Platform, uuid: string)
    ensures Chooses(ChooserOf(p, uuid), p, uuid)
  {
  }

  lemma ChosenIsNew(p: Platform, choose: Chooser, uuid: string, used: set<string>, wish: string)
    requires Lawful(p) && Chooses(choose, p, uuid) && |used| < MAX_ITEM_COUNT
    ensures var (name, after) := choose(used, wish);
            IsSafe(name) && p.norm(name) !in used && after == used + {p.norm(name)} && |after| == |used| + 1
  {
    SafeFileNameFixes(wish);
    UniqueNameIsNew(p, used, SafeFileName(wish), uuid);
    assert choose(used, wish) == UniqueName(p, used, SafeFileName(wish), uuid);
  }

  /** The laws have a model: plain lower-casing, with no extensions at all. */
  lemma LowercaseIsLawful()
    ensures Lawful(Platform(Lowercase, name => (name, "")))
  {
    forall stem, ext, a: nat, b: nat | Lowercase(Suffixed(stem, ext, a)) == Lowercase(Suffixed(stem, ext, b))
      ensures a == b
    {
      LowercaseSuffixed(stem, ext, a);
      LowercaseSuffixed(stem, ext, b);
      var tail := Lowercase(")" + if ext == "" then "" else "." + ext);
      var head := Lowercase(stem) + " (";
      var x, y := Decimal(a), Decimal(b);
      assert |head + x + tail| == |head + y + tail|;
      assert x == (head + x + tail)[|head|..|head| + |x|];
      assert y == (head + y + tail)[|head|..|head| + |y|];
      DecimalInjective(a, b);
    }
    forall d, a, b | Lowercase(InDirectory(d, a)) == Lowercase(InDirectory(d, b))
      ensures Lowercase(a) == Lowercase(b)
    {
      LowercaseAppend(d, "/" + a);
      LowercaseAppend("/", a);
      LowercaseAppend(d, "/" + b);
      LowercaseAppend("/", b);
      var head := Lowercase(d) + Lowercase("/");
      assert Lowercase(InDirectory(d, a)) == head + Lowercase(a) && Lowercase(InDirectory(d, b)) == head + Lowercase(b);
      assert Lowercase(a) == (head + Lowercase(a))[|head|..];
      assert Lowercase(b) == (head + Lowercase(b))[|head|..];
    }
  }

  lemma LowercaseAppend(s: string, t: string)
    ensures Lowercase(s + t) == Lowercase(s) + Lowercase(t)
  {
  }

  lemma LowercaseSuffixed(stem: string, ext: string, n: nat)
    ensures var tail := ")" + if ext == "" then "" else "." + ext;
            Lowercase(Suffixed(stem, ext, n)) == (Lowercase(stem) + " (") + Decimal(n) + Lowercase(tail)
  {
    var tail := ")" + if ext == "" then "" else "." + ext;
    DecimalIsDigits(n);
    LowercaseAppend(stem, " (" + (Decimal(n) + tail));
    LowercaseAppend(" (", Decimal(n) + tail);
    LowercaseAppend(Decimal(n), tail);
    assert Lowercase(" (") == " (";
    assert Lowercase(Decimal(n)) == Decimal(n);
  }

  lemma {:induction false} DecimalInjective(a: nat, b: nat)
    requires Decimal(a) == Decimal(b)
    ensures a == b
  {
    DecimalIsDigits(a / 10);
    DecimalIsDigits(b / 10);
    var x, y := Decimal(a), Decimal(b);
    assert x[|x| - 1] as int == '0' as int + a % 10 && y[|y| - 1] as int == '0' as int + b % 10;
    if a >= 10 && b >= 10 {
      assert Decimal(a / 10) == x[..|x| - 1] && Decimal(b / 10) == y[..|y| - 1];
      DecimalInjective(a / 10, b / 10);
    }
  }

  // ---------------------------------------------------------------------------------------------
  // Paths
  // ---------------------------------------------------------------------------------------------

  /** Standardising drops empty and dot components and lets dot-dot take one back; above the top there is nothing. */
  function Standardized(done: seq<string>, rest: seq<string>): seq<string>
    decreases |rest|
  {
    if rest == [] then done
    else if rest[0] == "" || rest[0] == "." then Standardized(done, rest[1..])
    else if rest[0] == ".." then Standardized(if done == [] then [] else done[..|done| - 1], rest[1..])
    else Standardized(done + [rest[0]], rest[1..])
  }

  predicate Plain(component: string) {
    component != "" && component != "." && component != ".." && '/' !in component
  }

  /** The file a relative path names, unless it is empty, absolute or leads out of the root. */
  function Contained(root: seq<string>, relative: string): Option<seq<string>> {
    if relative == "" || relative[0] == '/' then None
    else
      var candidate := Standardized([], root + Components(relative));
      if |candidate| > |root| && candidate[..|root|] == root then Some(candidate) else None
  }

  lemma {:induction false} ComponentsOfPlain(a: string)
    requires '/' !in a
    ensures Components(a) == [a]
  {
    if a != "" {
      assert a == [a[0]] + a[1..];
      ComponentsOfPlain(a[1..]);
    }
  }

  lemma {:induction false} ComponentsOfPath(a: string, rest: string)
    requires '/' !in a
    ensures Components(a + ("/" + rest)) == [a] + Components(rest)
  {
    var path := a + ("/" + rest);
    if a == "" {
      assert path == "/" + rest && path[1..] == rest;
    } else {
      assert path[1..] == a[1..] + ("/" + rest);
      ComponentsOfPath(a[1..], rest);
      assert a == [a[0]] + a[1..];
      assert Components(path)[1..] == Components(rest);
    }
  }

  lemma {:induction false} StandardizedPlain(done: seq<string>, rest: seq<string>)
    requires forall i :: 0 <= i < |rest| ==> Plain(rest[i])
    ensures Standardized(done, rest) == done + rest
    decreases |rest|
  {
    if rest != [] {
      StandardizedPlain(done + [rest[0]], rest[1..]);
      assert done + [rest[0]] + rest[1..] == done + rest;
    }
  }

  lemma {:induction false} ComponentsHaveNoSlash(path: string, i: nat)
    requires i < |Components(path)|
    ensures '/' !in Components(path)[i]
  {
    if path != "" {
      var rest := Components(path[1..]);
      if i == 0 { ComponentsHaveNoSlash(path[1..], 0); } else if path[0] == '/' {
        ComponentsHaveNoSlash(path[1..], i - 1);
      } else {
        ComponentsHaveNoSlash(path[1..], i);
      }
    }
  }

  lemma {:induction false} StandardizedIsPlain(done: seq<string>, rest: seq<string>)
    requires (forall i :: 0 <= i < |done| ==> Plain(done[i])) && (forall i :: 0 <= i < |rest| ==> '/' !in rest[i])
    ensures forall i :: 0 <= i < |Standardized(done, rest)| ==> Plain(Standardized(done, rest)[i])
    decreases |rest|
  {
    if rest != [] {
      if rest[0] == "" || rest[0] == "." {
        StandardizedIsPlain(done, rest[1..]);
      } else if rest[0] == ".." {
        StandardizedIsPlain(if done == [] then [] else done[..|done| - 1], rest[1..]);
      } else {
        StandardizedIsPlain(done + [rest[0]], rest[1..]);
      }
    }
  }

  /** A path that is taken as contained names something strictly below the root, with no dots left in it. */
  lemma ContainedStaysInside(root: seq<string>, relative: string)
    requires (forall i :: 0 <= i < |root| ==> Plain(root[i])) && Contained(root, relative).Some?
    ensures var file := Contained(root, relative).value;
            && relative != "" && relative[0] != '/'
            && root < file && forall i :: 0 <= i < |file| ==> Plain(file[i])
  {
    forall i | 0 <= i < |root + Components(relative)|
      ensures '/' !in (root + Components(relative))[i]
    {
      if i >= |root| { ComponentsHaveNoSlash(relative, i - |root|); }
    }
    StandardizedIsPlain([], root + Components(relative));
  }

  function DraftPath(id: string, fileName: string): string {
    InDirectory(InDirectory(id, PAYLOAD), fileName)
  }

  /** A staged path stays inside the root and names exactly the payload file. */
  lemma StagedPathIsContained(root: seq<string>, id: string, fileName: string)
    requires (forall i :: 0 <= i < |root| ==> Plain(root[i])) && Plain(id) && IsSafe(fileName)
    ensures Contained(root, DraftPath(id, fileName)) == Some(root + [id, PAYLOAD, fileName])
  {
    var path := DraftPath(id, fileName);
    assert path == id + ("/" + (PAYLOAD + ("/" + fileName)));
    ComponentsOfPath(id, PAYLOAD + ("/" + fileName));
    ComponentsOfPath(PAYLOAD, fileName);
    ComponentsOfPlain(fileName);
    var all := root + [id, PAYLOAD, fileName];
    assert root + Components(path) == all;
    assert all[..|root|] == root;
    StandardizedPlain([], all);
    assert [] + all == all;
    assert path[0] == id[0];
  }

  // ---------------------------------------------------------------------------------------------
  // Staging
  // ---------------------------------------------------------------------------------------------

  datatype MediaKind = File | Image | Video

  /** What the file system says about a file; a missing size counts as zero, and sizes are 63-bit. */
  datatype FileInfo = FileInfo(regular: bool, symlink: bool, size: FileSize)

  type FileSize = x: int | 0 <= x < 0x8000_0000_0000_0000

  type ByteCount = x: int | 0 <= x < U64_LIMIT

  datatype Item = Item(
    sourceName: string,
    preferredName: Option<string>,
    kind: MediaKind,
    contentType: string,
    source: Option<FileInfo>,
    readable: bool,
    available: Option<int>,
    copied: Result<FileInfo, StoreError>
  )

  datatype StoreError =
    | ItemCountExceeded
    | SourceIsNotRegularFile
    | SourceIsUnreadable
    | InsufficientStorage
    | InvalidDraft
    | DraftNotFound
    | NotActive
    | OtherFailure

  datatype ItemDescriptor =
    ItemDescriptor(kind: MediaKind, contentType: string, fileName: string, byteCount: ByteCount, relativePath: string)

  datatype Descriptor = Descriptor(schemaVersion: int, id: string, createdAt: nat, items: seq<ItemDescriptor>)

  /** `files` are the payload files on disk, by normalised relative path. */
  datatype Staging = Staging(
    id: string,
    expected: nat,
    used: set<string>,
    items: seq<ItemDescriptor>,
    files: map<string, FileInfo>
  )

  predicate Blank(text: string) {
    Trim(text) == ""
  }

  /** The checks before a name is chosen. */
  function Refused(item: Item): Option<StoreError> {
    if Blank(item.contentType) then Some(InvalidDraft)
    else if item.source.None? then Some(SourceIsUnreadable)
    else if !item.source.value.regular || item.source.value.symlink then Some(SourceIsNotRegularFile)
    else if !item.readable then Some(SourceIsUnreadable)
    else if item.available.Some? && 0 <= item.available.value < item.source.value.size then Some(InsufficientStorage)
    else None
  }

  function Wish(item: Item): string {
    if item.preferredName.Some? then item.preferredName.value else item.sourceName
  }

  function Append(p: Platform, choose: Chooser, s: Staging, item: Item): Result<Staging, StoreError> {
    if |s.items| >= s.expected then Err(NotActive)
    else if Refused(item).Some? then Err(Refused(item).value)
    else if item.copied.Err? then Err(item.copied.error)
    else
      var copied := item.copied.value;
      if !copied.regular || copied.symlink || copied.size != item.source.value.size then Err(InvalidDraft)
      else
        var chosen := choose(s.used, Wish(item));
        Ok(Extended(p, s, Describe(s.id, item, chosen.0), chosen.1, copied))
  }

  function Describe(id: string, item: Item, name: string): ItemDescriptor
    requires item.source.Some?
  {
    ItemDescriptor(item.kind, item.contentType, name, item.source.value.size, DraftPath(id, name))
  }

  function Extended(p: Platform, s: Staging, more: ItemDescriptor, used: set<string>, info: FileInfo): Staging {
    s.(used := used, items := s.items + [more], files := s.files[p.norm(more.relativePath) := info])
  }

  /** What loading demands of one item's description. */
  predicate WellDescribed(root: seq<string>, id: string, item: ItemDescriptor) {
    && SafeFileName(item.fileName) == item.fileName
    && !Blank(item.contentType)
    && item.relativePath == DraftPath(id, item.fileName)
    && Contained(root, item.relativePath).Some?
  }

  /** And of the file it describes. */
  predicate OnDisk(p: Platform, files: map<string, FileInfo>, item: ItemDescriptor) {
    && p.norm(item.relativePath) in files
    && var info := files[p.norm(item.relativePath)];
       info.regular && !info.symlink && info.size == item.byteCount
  }

  predicate ItemLoads(p: Platform, root: seq<string>, files: map<string, FileInfo>, id: string, item: ItemDescriptor) {
    WellDescribed(root, id, item) && OnDisk(p, files, item)
  }

  ghost predicate DistinctPaths(p: Platform, items: seq<ItemDescriptor>) {
    forall i, j :: 0 <= i < j < |items| ==> p.norm(items[i].relativePath) != p.norm(items[j].relativePath)
  }

  ghost predicate DistinctNames(p: Platform, items: seq<ItemDescriptor>) {
    forall i, j :: 0 <= i < j < |items| ==> p.norm(items[i].fileName) != p.norm(items[j].fileName)
  }

  predicate AllLoad(
    p: Platform, root: seq<string>, files: map<string, FileInfo>, id: string, items: seq<ItemDescriptor>)
  {
    items == []
    || (AllLoad(p, root, files, id, items[..|items| - 1]) && ItemLoads(p, root, files, id, items[|items| - 1]))
  }

  lemma {:induction false} AllLoadAt(
    p: Platform, root: seq<string>, files: map<string, FileInfo>, id: string, items: seq<ItemDescriptor>, i: nat)
    requires AllLoad(p, root, files, id, items) && i < |items|
    ensures ItemLoads(p, root, files, id, items[i])
  {
    if i < |items| - 1 { AllLoadAt(p, root, files, id, items[..|items| - 1], i); }
  }

  /** What every successful append keeps: names in use are the staged ones, and each staged item would load. */
  ghost predicate StagingInv(p: Platform, root: seq<string>, s: Staging) {
    BooksInv(p, s) && AllLoad(p, root, s.files, s.id, s.items)
  }

  ghost predicate BooksInv(p: Platform, s: Staging) {
    && 1 <= s.expected <= MAX_ITEM_COUNT && |s.items| <= s.expected && |s.used| == |s.items|
    && (forall i :: 0 <= i < |s.items| ==> p.norm(s.items[i].fileName) in s.used)
    && DistinctPaths(p, s.items) && DistinctNames(p, s.items)
  }

  ghost predicate Rooted(root: seq<string>, id: string) {
    (forall i :: 0 <= i < |root| ==> Plain(root[i])) && Plain(id)
  }

  /** A new name gives a new path: no file is overwritten and the new item loads. */
  lemma NewNameNewPath(p: Platform, root: seq<string>, s: Staging, name: string, i: nat)
    requires Lawful(p) && StagingInv(p, root, s) && p.norm(name) !in s.used && i < |s.items|
    ensures p.norm(s.items[i].relativePath) != p.norm(DraftPath(s.id, name))
  {
    var item := s.items[i];
    AllLoadAt(p, root, s.files, s.id, s.items, i);
    assert p.norm(item.fileName) in s.used;
    assert p.norm(InDirectory(InDirectory(s.id, PAYLOAD), item.fileName)) == p.norm(item.relativePath);
    assert CancelsDirectory(p.norm);
    assert p.norm(InDirectory(InDirectory(s.id, PAYLOAD), name)) == p.norm(DraftPath(s.id, name));
  }

  /** A new file under a new path leaves the others as they were. */
  lemma {:induction false} AllLoadWithMore(
    p: Platform, root: seq<string>, files: map<string, FileInfo>, id: string, items: seq<ItemDescriptor>, path: string,
    info: FileInfo)
    requires AllLoad(p, root, files, id, items)
    requires forall i :: 0 <= i < |items| ==> p.norm(items[i].relativePath) != path
    ensures AllLoad(p, root, files[path := info], id, items)
  {
    if items != [] { AllLoadWithMore(p, root, files, id, items[..|items| - 1], path, info); }
  }

  lemma AllLoadExtend(p: Platform, root: seq<string>, s: Staging, more: ItemDescriptor, info: FileInfo)
    requires AllLoad(p, root, s.files, s.id, s.items) && WellDescribed(root, s.id, more)
    requires info.regular && !info.symlink && info.size == more.byteCount
    requires forall i :: 0 <= i < |s.items| ==> p.norm(s.items[i].relativePath) != p.norm(more.relativePath)
    ensures AllLoad(p, root, s.files[p.norm(more.relativePath) := info], s.id, s.items + [more])
  {
    AllLoadWithMore(p, root, s.files, s.id, s.items, p.norm(more.relativePath), info);
    assert (s.items + [more])[..|s.items|] == s.items;
  }

  /** The bookkeeping of one append, for any item with a new name and path. */
  lemma ExtendKeepsBooks(p: Platform, s: Staging, more: ItemDescriptor, info: FileInfo)
    requires BooksInv(p, s) && |s.items| < s.expected && p.norm(more.fileName) !in s.used
    requires forall i :: 0 <= i < |s.items| ==> p.norm(s.items[i].relativePath) != p.norm(more.relativePath)
    ensures BooksInv(p, Extended(p, s, more, s.used + {p.norm(more.fileName)}, info))
  {
  }

  /** Every accepted item keeps the invariant, whatever name it asks for. */
  lemma AppendKeepsInv(p: Platform, choose: Chooser, uuid: string, root: seq<string>, s: Staging, item: Item)
    requires Lawful(p) && Chooses(choose, p, uuid) && Rooted(root, s.id) && StagingInv(p, root, s)
    requires Append(p, choose, s, item).Ok?
    ensures StagingInv(p, root, Append(p, choose, s, item).value)
  {
    ChosenIsNew(p, choose, uuid, s.used, Wish(item));
    var name := choose(s.used, Wish(item)).0;
    NewItemIsWellDescribed(root, s.id, item, name);
    ExtendKeepsInv(p, root, s, item, name);
  }

  lemma NewItemIsWellDescribed(root: seq<string>, id: string, item: Item, name: string)
    requires Rooted(root, id) && IsSafe(name) && Refused(item).None?
    ensures WellDescribed(root, id, Describe(id, item, name))
  {
    StagedPathIsContained(root, id, name);
    SafeFileNameFixes(name);
  }

  lemma ExtendKeepsInv(p: Platform, root: seq<string>, s: Staging, item: Item, name: string)
    requires Lawful(p) && StagingInv(p, root, s) && |s.items| < s.expected && Refused(item).None? && item.copied.Ok?
    requires item.copied.value.regular && !item.copied.value.symlink && item.copied.value.size == item.source.value.size
    requires p.norm(name) !in s.used && WellDescribed(root, s.id, Describe(s.id, item, name))
    ensures StagingInv(p, root, Extended(p, s, Describe(s.id, item, name), s.used + {p.norm(name)}, item.copied.value))
  {
    var more := Describe(s.id, item, name);
    forall i | 0 <= i < |s.items|
      ensures p.norm(s.items[i].relativePath) != p.norm(more.relativePath)
    {
      NewNameNewPath(p, root, s, name, i);
    }
    AllLoadExtend(p, root, s, more, item.copied.value);
    ExtendKeepsBooks(p, s, more, item.copied.value);
  }

  // ---------------------------------------------------------------------------------------------
  // Loading
  // ---------------------------------------------------------------------------------------------

  function TotalBytes(items: seq<ItemDescriptor>): nat {
    if items == [] then 0 else TotalBytes(items[..|items| - 1]) + items[|items| - 1].byteCount
  }

  lemma {:induction false} TotalGrows(items: seq<ItemDescriptor>, k: nat)
    requires k <= |items|
    ensures TotalBytes(items[..k]) <= TotalBytes(items)
    decreases |items| - k
  {
    if k < |items| {
      assert items[..k + 1][..k] == items[..k];
      TotalGrows(items, k + 1);
    } else {
      assert items[..k] == items;
    }
  }

  /** The checked sum: nothing exactly when the total does not fit in 64 bits. */
  method CheckedByteCount(items: seq<ItemDescriptor>) returns (r: Option<nat>)
    ensures r == if TotalBytes(items) < U64_LIMIT then Some(TotalBytes(items)) else None
  {
    var total := 0;
    for k := 0 to |items|
      invariant total == TotalBytes(items[..k]) && total < U64_LIMIT
    {
      assert items[..k + 1][..k] == items[..k];
      var next := total + items[k].byteCount;
      if next >= U64_LIMIT {
        TotalGrows(items, k + 1);
        return None;
      }
      total := next;
    }
    assert items[..|items|] == items;
    return Some(total);
  }

  /** A draft on disk: no descriptor file, one that does not decode, or one that does; and the payload files. */
  datatype Stored = Stored(descriptor: Option<Option<Descriptor>>, files: map<string, FileInfo>)

  datatype Draft = Draft(descriptor: Descriptor, payload: seq<seq<string>>)

  predicate HeaderLoads(d: Descriptor, id: string) {
    && d.schemaVersion == SCHEMA_VERSION && d.id == id
    && 0 < |d.items| <= MAX_ITEM_COUNT && TotalBytes(d.items) < U64_LIMIT
  }

  /** Loading accepts exactly the drafts whose header, items and files are all in order, with paths told apart. */
  ghost predicate Loads(p: Platform, root: seq<string>, stored: Stored, id: string) {
    && stored.descriptor.Some? && stored.descriptor.value.Some?
    && var d := stored.descriptor.value.value;
       HeaderLoads(d, id) && AllLoad(p, root, stored.files, id, d.items) && DistinctPaths(p, d.items)
  }

  /** The guards of one turn of the loop, other than the path being new. */
  method CheckItem(p: Platform, root: seq<string>, files: map<string, FileInfo>, id: string, item: ItemDescriptor)
    returns (file: Option<seq<string>>)
    ensures file.Some? <==> ItemLoads(p, root, files, id, item)
    ensures file.Some? ==> file == Contained(root, item.relativePath)
  {
    file := Contained(root, item.relativePath);
    if SafeFileName(item.fileName) != item.fileName || Blank(item.contentType)
       || item.relativePath != DraftPath(id, item.fileName) || file.None?
    {
      return None;
    }
    var path := p.norm(item.relativePath);
    if path !in files {
      return None;
    }
    var info := files[path];
    if !info.regular || info.symlink || info.size != item.byteCount {
      return None;
    }
  }

  /** The paths are told apart so far, and seen is what they normalise to. */
  ghost predicate SeenSo(p: Platform, items: seq<ItemDescriptor>, seen: set<string>) {
    && (forall i :: 0 <= i < |items| ==> p.norm(items[i].relativePath) in seen)
    && (forall path <- seen :: exists i :: 0 <= i < |items| && p.norm(items[i].relativePath) == path)
    && DistinctPaths(p, items)
  }

  lemma SeenStep(p: Platform, items: seq<ItemDescriptor>, seen: set<string>, k: nat)
    requires k < |items| && SeenSo(p, items[..k], seen)
    ensures p.norm(items[k].relativePath) in seen ==> !DistinctPaths(p, items)
    ensures p.norm(items[k].relativePath) !in seen ==> SeenSo(p, items[..k + 1], seen + {p.norm(items[k].relativePath)})
  {
    var path := p.norm(items[k].relativePath);
    var before, after := items[..k], items[..k + 1];
    assert after[k] == items[k] && forall i :: 0 <= i < k ==> after[i] == before[i] == items[i];
    if path in seen {
      var i :| 0 <= i < |before| && p.norm(before[i].relativePath) == path;
      assert before[i] == items[i];
    } else {
      forall other <- seen
        ensures exists i :: 0 <= i < |after| && p.norm(after[i].relativePath) == other
      {
        var i :| 0 <= i < |before| && p.norm(before[i].relativePath) == other;
        assert after[i] == before[i];
      }
    }
  }

  lemma AllLoadStep(
    p: Platform, root: seq<string>, files: map<string, FileInfo>, id: string, items: seq<ItemDescriptor>, k: nat)
    requires k < |items|
    ensures AllLoad(p, root, files, id, items[..k + 1])
       <==> AllLoad(p, root, files, id, items[..k]) && ItemLoads(p, root, files, id, items[k])
  {
    assert items[..k + 1][..k] == items[..k];
  }

  /** The files found so far. */
  ghost predicate FoundSo(root: seq<string>, items: seq<ItemDescriptor>, found: seq<seq<string>>) {
    |found| == |items| && forall i :: 0 <= i < |items| ==> Some(found[i]) == Contained(root, items[i].relativePath)
  }

  lemma FoundStep(root: seq<string>, items: seq<ItemDescriptor>, found: seq<seq<string>>, k: nat, file: seq<string>)
    requires k < |items| && FoundSo(root, items[..k], found) && Some(file) == Contained(root, items[k].relativePath)
    ensures FoundSo(root, items[..k + 1], found + [file])
  {
    var before, after := items[..k], items[..k + 1];
    assert after[k] == items[k] && forall i :: 0 <= i < k ==> after[i] == before[i];
  }

  /** The loop over the items. */
  method LoadItems(p: Platform, root: seq<string>, files: map<string, FileInfo>, id: string, items: seq<ItemDescriptor>)
    returns (payload: Option<seq<seq<string>>>)
    ensures payload.Some? <==> AllLoad(p, root, files, id, items) && DistinctPaths(p, items)
    ensures payload.Some? ==> FoundSo(root, items, payload.value)
  {
    var found: seq<seq<string>> := [];
    var seen: set<string> := {};
    for k := 0 to |items|
      invariant FoundSo(root, items[..k], found)
      invariant AllLoad(p, root, files, id, items[..k]) && SeenSo(p, items[..k], seen)
    {
      var file := CheckItem(p, root, files, id, items[k]);
      if file.None? {
        if AllLoad(p, root, files, id, items) { AllLoadAt(p, root, files, id, items, k); }
        return None;
      }
      AllLoadStep(p, root, files, id, items, k);
      FoundStep(root, items, found, k, file.value);
      SeenStep(p, items, seen, k);
      var path := p.norm(items[k].relativePath);
      if path in seen {
        return None;
      }
      seen, found := seen + {path}, found + [file.value];
    }
    assert items[..|items|] == items;
    return Some(found);
  }

  method Load(p: Platform, root: seq<string>, stored: Stored, id: string) returns (r: Result<Draft, StoreError>)
    ensures r.Ok? <==> Loads(p, root, stored, id)
    ensures r.Ok? ==> && r.value.descriptor == stored.descriptor.value.value
                      && FoundSo(root, r.value.descriptor.items, r.value.payload)
    ensures r.Err? ==> r.error == if stored.descriptor.None? then DraftNotFound else InvalidDraft
  {
    if stored.descriptor.None? {
      return Err(DraftNotFound);
    }
    if stored.descriptor.value.None? {
      return Err(InvalidDraft);
    }
    var d := stored.descriptor.value.value;
    var total := CheckedByteCount(d.items);
    if d.schemaVersion != SCHEMA_VERSION || d.id != id || d.items == [] || |d.items| > MAX_ITEM_COUNT || total.None? {
      return Err(InvalidDraft);
    }
    var payload := LoadItems(p, root, stored.files, id, d.items);
    if payload.None? {
      return Err(InvalidDraft);
    }
    return Ok(Draft(d, payload.value));
  }

  // ---------------------------------------------------------------------------------------------
  // Stage, then load
  // ---------------------------------------------------------------------------------------------

  function Begin(id: string, expected: nat): Staging {
    Staging(id, expected, {}, [], map[])
  }

  /** Append the items one after the other. */
  function AppendAll(p: Platform, choose: Chooser, s: Staging, items: seq<Item>): Result<Staging, StoreError>
    decreases |items|
  {
    if items == [] then Ok(s)
    else
      match Append(p, choose, s, items[0])
      case Ok(next) => AppendAll(p, choose, next, items[1..])
      case Err(error) => Err(error)
  }

  function Finalize(s: Staging, createdAt: nat): Result<Stored, StoreError> {
    if |s.items| != s.expected then Err(InvalidDraft)
    else Ok(Stored(Some(Some(Descriptor(SCHEMA_VERSION, s.id, createdAt, s.items))), s.files))
  }

  /** What a staged item keeps of what was shared. */
  predicate Same(item: Item, staged: ItemDescriptor) {
    && staged.kind == item.kind && staged.contentType == item.contentType
    && item.source.Some? && staged.byteCount == item.source.value.size
  }

  lemma AppendAddsOne(p: Platform, choose: Chooser, s: Staging, item: Item)
    requires Append(p, choose, s, item).Ok?
    ensures var next := Append(p, choose, s, item).value;
            && next.id == s.id && next.expected == s.expected
            && |next.items| == |s.items| + 1 && next.items[..|s.items|] == s.items && Same(item, next.items[|s.items|])
  {
    var chosen := choose(s.used, Wish(item));
    ExtendedAddsOne(p, s, Describe(s.id, item, chosen.0), chosen.1, item.copied.value);
  }

  lemma ExtendedAddsOne(p: Platform, s: Staging, more: ItemDescriptor, used: set<string>, info: FileInfo)
    ensures var next := Extended(p, s, more, used, info);
            && next.id == s.id && next.expected == s.expected && |next.items| == |s.items| + 1
            && next.items[..|s.items|] == s.items && next.items[|s.items|] == more
  {
  }

  /** Each item is staged in its place with what it brought. */
  predicate AllSame(items: seq<Item>, staged: seq<ItemDescriptor>) {
    |items| == |staged| && forall i :: 0 <= i < |items| ==> Same(items[i], staged[i])
  }

  lemma AllSameFrom(items: seq<Item>, staged: seq<ItemDescriptor>)
    requires items != [] && staged != [] && Same(items[0], staged[0]) && AllSame(items[1..], staged[1..])
    ensures AllSame(items, staged)
  {
    forall i | 0 <= i < |items|
      ensures Same(items[i], staged[i])
    {
      if i > 0 { assert items[1..][i - 1] == items[i] && staged[1..][i - 1] == staged[i]; }
    }
  }

  lemma {:induction false} AppendAllStages(p: Platform, choose: Chooser, s: Staging, items: seq<Item>)
    requires AppendAll(p, choose, s, items).Ok?
    ensures var t := AppendAll(p, choose, s, items).value;
            && t.id == s.id && t.expected == s.expected && |t.items| == |s.items| + |items|
            && t.items[..|s.items|] == s.items && AllSame(items, t.items[|s.items|..])
    decreases |items|
  {
    if items == [] {
      assert s.items[..|s.items|] == s.items;
    } else {
      AppendAddsOne(p, choose, s, items[0]);
      var next := Append(p, choose, s, items[0]).value;
      AppendAllStages(p, choose, next, items[1..]);
      PrefixOfPrefix(s.items, next.items, AppendAll(p, choose, next, items[1..]).value.items, items);
    }
  }

  lemma PrefixOfPrefix(a: seq<ItemDescriptor>, b: seq<ItemDescriptor>, c: seq<ItemDescriptor>, items: seq<Item>)
    requires items != [] && |b| == |a| + 1 && |c| == |a| + |items| && b[..|a|] == a && c[..|b|] == b
    requires Same(items[0], b[|a|]) && AllSame(items[1..], c[|b|..])
    ensures c[..|a|] == a && AllSame(items, c[|a|..])
  {
    assert c[..|b|][..|a|] == c[..|a|];
    assert c[|a|..][1..] == c[|b|..];
    assert c[|a|..][0] == c[|a|] == c[..|b|][|a|];
    AllSameFrom(items, c[|a|..]);
  }

  /** Every run of accepted items keeps the invariant. */
  lemma {:induction false} AppendAllKeepsInv(
    p: Platform, choose: Chooser, uuid: string, root: seq<string>, s: Staging, items: seq<Item>)
    requires Lawful(p) && Chooses(choose, p, uuid) && Rooted(root, s.id) && StagingInv(p, root, s)
    requires AppendAll(p, choose, s, items).Ok?
    ensures StagingInv(p, root, AppendAll(p, choose, s, items).value)
    decreases |items|
  {
    if items != [] {
      AppendKeepsInv(p, choose, uuid, root, s, items[0]);
      AppendAddsOne(p, choose, s, items[0]);
      AppendAllKeepsInv(p, choose, uuid, root, Append(p, choose, s, items[0]).value, items[1..]);
    }
  }

  /** A full staging session's draft loads if and only if its byte total fits. */
  lemma FullDraftLoadsIff(p: Platform, root: seq<string>, s: Staging, createdAt: nat)
    requires StagingInv(p, root, s) && |s.items| == s.expected
    ensures Finalize(s, createdAt).Ok?
    ensures Loads(p, root, Finalize(s, createdAt).value, s.id) <==> TotalBytes(s.items) < U64_LIMIT
  {
  }

  ghost predicate NamesInOrder(p: Platform, items: seq<ItemDescriptor>) {
    (forall i :: 0 <= i < |items| ==> SafeFileName(items[i].fileName) == items[i].fileName) && DistinctNames(p, items)
  }

  lemma NamesAreInOrder(p: Platform, root: seq<string>, s: Staging)
    requires StagingInv(p, root, s)
    ensures NamesInOrder(p, s.items)
  {
    forall i | 0 <= i < |s.items|
      ensures SafeFileName(s.items[i].fileName) == s.items[i].fileName
    {
      AllLoadAt(p, root, s.files, s.id, s.items, i);
    }
  }

  /**
   * Stage then load: for every list of accepted items the finalised draft loads, with the same descriptor, if and only
   * if its byte total fits in 64 bits; its names are fixed by the cleaner and pairwise distinct after normalising.
   */
  lemma StageThenLoad(
    p: Platform, choose: Chooser, uuid: string, root: seq<string>, id: string, items: seq<Item>, createdAt: nat)
    requires Lawful(p) && Chooses(choose, p, uuid) && Rooted(root, id) && 1 <= |items| <= MAX_ITEM_COUNT
    requires AppendAll(p, choose, Begin(id, |items|), items).Ok?
    ensures var s := AppendAll(p, choose, Begin(id, |items|), items).value;
            && AllSame(items, s.items) && NamesInOrder(p, s.items)
            && Finalize(s, createdAt).Ok?
            && (Loads(p, root, Finalize(s, createdAt).value, id) <==> TotalBytes(s.items) < U64_LIMIT)
  {
    var begin := Begin(id, |items|);
    AppendAllKeepsInv(p, choose, uuid, root, begin, items);
    AppendAllStages(p, choose, begin, items);
    var s := AppendAll(p, choose, begin, items).value;
    assert s.items[0..] == s.items;
    NamesAreInOrder(p, root, s);
    FullDraftLoadsIff(p, root, s, createdAt);
  }

  /** The same for the session as written, which chooses its names itself. */
  lemma SessionStagesAndLoads(
    p: Platform, uuid: string, root: seq<string>, id: string, items: seq<Item>, createdAt: nat)
    requires Lawful(p) && Rooted(root, id) && 1 <= |items| <= MAX_ITEM_COUNT
    requires AppendAll(p, ChooserOf(p, uuid), Begin(id, |items|), items).Ok?
    ensures var s := AppendAll(p, ChooserOf(p, uuid), Begin(id, |items|), items).value;
            && AllSame(items, s.items) && NamesInOrder(p, s.items)
            && Finalize(s, createdAt).Ok?
            && (Loads(p, root, Finalize(s, createdAt).value, id) <==> TotalBytes(s.items) < U64_LIMIT)
  {
    ChooserOfChooses(p, uuid);
    StageThenLoad(p, ChooserOf(p, uuid), uuid, root, id, items, createdAt);
  }

  /** What a caller can see of an item that staging will take. */
  predicate Acceptable(item: Item) {
    && Refused(item).None? && item.copied.Ok?
    && item.copied.value.regular && !item.copied.value.symlink && item.copied.value.size == item.source.value.size
  }

  /** In terms of the item's own attributes. */
  lemma AcceptableIff(item: Item)
    ensures Acceptable(item)
       <==> && Trim(item.contentType) != "" && item.readable && item.source.Some?
            && item.source.value.regular && !item.source.value.symlink
            && (item.available.Some? && item.available.value >= 0 ==> item.available.value >= item.source.value.size)
            && item.copied == Ok(FileInfo(true, false, item.source.value.size))
  {
  }

  /** Which error a refused item gives, in the order of the checks. */
  lemma RefusalSays(p: Platform, choose: Chooser, s: Staging, item: Item)
    requires |s.items| < s.expected
    ensures var r := Append(p, choose, s, item);
            && (Trim(item.contentType) == "" ==> r == Err(InvalidDraft))
            && (Trim(item.contentType) != "" && item.source.None? ==> r == Err(SourceIsUnreadable))
            && (Trim(item.contentType) != "" && item.source.Some? ==>
                  var info := item.source.value;
                  && (!info.regular || info.symlink ==> r == Err(SourceIsNotRegularFile))
                  && (info.regular && !info.symlink && !item.readable ==> r == Err(SourceIsUnreadable))
                  && (info.regular && !info.symlink && item.readable ==>
                        (item.available.Some? && 0 <= item.available.value < info.size ==>
                           r == Err(InsufficientStorage))))
  {
  }

  lemma AppendOkIff(p: Platform, choose: Chooser, s: Staging, item: Item)
    requires |s.items| < s.expected
    ensures Append(p, choose, s, item).Ok? <==> Acceptable(item)
  {
  }

  predicate AllAcceptable(items: seq<Item>) {
    items == [] || (Acceptable(items[0]) && AllAcceptable(items[1..]))
  }

  /** A list of items is staged if and only if each of them is acceptable by itself: names never stand in the way. */
  lemma {:induction false} AppendAllOkIff(p: Platform, choose: Chooser, s: Staging, items: seq<Item>)
    requires |s.items| + |items| <= s.expected
    ensures AppendAll(p, choose, s, items).Ok? <==> AllAcceptable(items)
    decreases |items|
  {
    if items != [] {
      AppendOkIff(p, choose, s, items[0]);
      if Acceptable(items[0]) {
        AppendAddsOne(p, choose, s, items[0]);
        AppendAllOkIff(p, choose, Append(p, choose, s, items[0]).value, items[1..]);
      }
    }
  }

  /** The other side is inhabited: three acceptable files of the largest size are staged and then do not load. */
  lemma HugeDraftDoesNotLoad(
    p: Platform, choose: Chooser, uuid: string, root: seq<string>, id: string, items: seq<Item>, createdAt: nat)
    requires Lawful(p) && Chooses(choose, p, uuid) && Rooted(root, id) && |items| == 3
    requires AllAcceptable(items)
    requires forall i :: 0 <= i < 3 ==> items[i].source.Some? && items[i].source.value.size == 0x7FFF_FFFF_FFFF_FFFF
    ensures AppendAll(p, choose, Begin(id, 3), items).Ok?
    ensures var s := AppendAll(p, choose, Begin(id, 3), items).value;
            Finalize(s, createdAt).Ok? && !Loads(p, root, Finalize(s, createdAt).value, id)
  {
    AppendAllOkIff(p, choose, Begin(id, 3), items);
    StageThenLoad(p, choose, uuid, root, id, items, createdAt);
    var staged := AppendAll(p, choose, Begin(id, 3), items).value.items;
    ThreeTotal(staged);
    assert Same(items[0], staged[0]) && Same(items[1], staged[1]) && Same(items[2], staged[2]);
  }

  lemma ThreeTotal(items: seq<ItemDescriptor>)
    requires |items| == 3
    ensures TotalBytes(items) == items[0].byteCount + items[1].byteCount + items[2].byteCount
  {
    assert items[..2][..1] == items[..1] && items[..1][..0] == [];
    assert TotalBytes(items[..1]) == items[0].byteCount;
    assert TotalBytes(items[..2]) == TotalBytes(items[..1]) + items[1].byteCount;
  }

  // ---------------------------------------------------------------------------------------------
  // The session object
  // ---------------------------------------------------------------------------------------------

  class Session {
    const platform: Platform
    const id: string
    const expected: nat
    var used: set<string>
    var items: seq<ItemDescriptor>
    var files: map<string, FileInfo>

    ghost function View(): Staging
      reads this
    {
      Staging(id, expected, used, items, files)
    }

    constructor (platform: Platform, id: string, expected: nat)
      ensures View() == Begin(id, expected) && this.platform == platform
    {
      this.platform, this.id, this.expected := platform, id, expected;
      used, items, files := {}, [], map[];
    }

    /** Tries the cleaned name, then its numbered variants, then the name of last resort. */
    method UniqueFileName(candidate: string, uuid: string) returns (name: string)
      modifies this`used
      ensures (name, used) == UniqueName(platform, old(used), SafeFileName(candidate), uuid)
    {
      var safe := SafeFileName(candidate);
      if platform.norm(safe) !in used {
        used := used + {platform.norm(safe)};
        return safe;
      }
      var (stem, ext) := platform.split(safe);
      for n := 2 to MAX_ITEM_COUNT + 2
        invariant used == old(used)
        invariant FirstFree(platform.norm, used, stem, ext, n) == FirstFree(platform.norm, used, stem, ext, 2)
      {
        var variant := platform.norm(Suffixed(stem, ext, n));
        if variant !in used {
          used := used + {variant};
          return Suffixed(stem, ext, n);
        }
      }
      return uuid + "-" + safe;
    }

    /** On an error the session is cancelled, so only the state after a success matters. */
    method AppendItem(item: Item, uuid: string) returns (r: Result<(), StoreError>)
      modifies this
      ensures match Append(platform, ChooserOf(platform, uuid), old(View()), item)
              case Ok(next) => r == Ok(()) && View() == next
              case Err(error) => r == Err(error) && items == old(items)
    {
      if |items| >= expected {
        return Err(NotActive);
      }
      var refused := Refused(item);
      if refused.Some? {
        return Err(refused.value);
      }
      var size := item.source.value.size;
      var name := UniqueFileName(Wish(item), uuid);
      if item.copied.Err? {
        return Err(item.copied.error);
      }
      var copied, path := item.copied.value, DraftPath(id, name);
      files := files[platform.norm(path) := copied];
      if !copied.regular || copied.symlink || copied.size != size {
        return Err(InvalidDraft);
      }
      items := items + [ItemDescriptor(item.kind, item.contentType, name, size, path)];
      return Ok(());
    }
  }
}
