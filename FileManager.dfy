/**
 * The file manager screen: the entries of `/sdcard`, directories first,
 * and which of the offered downloads are already there. The file system is
 * an untyped JavaScript value handed in from outside.
 */
module FileManager {
  import opened Lists

  /** A JavaScript value, as far as the screen inspects it. Arrays are
      objects too. */
  datatype Value =
    | Undefined
    | Null
    | Bool(b: bool)
    | Num(n: real)
    | NaN
    | Str(s: string)
    | Obj(fields: map<string, Value>)

  /** `!!v`. */
  predicate Truthy(v: Value)
  {
    match v
    case Undefined => false
    case Null => false
    case Bool(b) => b
    case Num(n) => n != 0.0
    case NaN => false
    case Str(s) => s != ""
    case Obj(_) => true
  }

  const AvailableDownloads: seq<string> := [
    "PixelExperience_Plus_v13.0.zip",
    "LineageOS_20.0_Official.zip",
    "Magisk_v25.2.zip",
    "Disable_Dm-Verity_ForceEncrypt_v8.zip"]

  /** `filesystem.sdcard || {}`: the entries of the SD card, none when it is
      missing or falsy. */
  function SdcardFiles(filesystem: map<string, Value>): (entries: map<string, Value>)
    ensures "sdcard" !in filesystem ==> entries == map[]
    ensures "sdcard" in filesystem && !Truthy(filesystem["sdcard"]) ==> entries == map[]
    ensures "sdcard" in filesystem && filesystem["sdcard"].Obj? ==> entries == filesystem["sdcard"].fields
  {
    if "sdcard" in filesystem && filesystem["sdcard"].Obj? then filesystem["sdcard"].fields else map[]
  }

  /** An entry is a directory when its value is an object other than
      `null`. */
  predicate IsDir(entries: map<string, Value>, name: string)
  {
    name in entries && entries[name].Obj?
  }

  /** A download is done when the SD card holds a truthy value under its
      name; its button is then disabled. */
  predicate IsDownloaded(entries: map<string, Value>, name: string)
  {
    name in entries && Truthy(entries[name])
  }

  /** Every file (not directory) entry with an empty string or a zero
      number as its value does not count as downloaded, every directory
      does. */
  lemma DirectoriesCountAsDownloaded(entries: map<string, Value>, name: string)
    ensures IsDir(entries, name) ==> IsDownloaded(entries, name)
    ensures name in entries && entries[name] in {Str(""), Num(0.0), Null, Undefined} ==> !IsDownloaded(entries, name)
  {
  }

  /** `before(a, b)` stands for `a.localeCompare(b) <= 0`: a total
      preorder on names. */
  ghost predicate IsTotalPreorder(before: (string, string) -> bool)
  {
    && (forall a, b :: before(a, b) || before(b, a))
    && (forall a, b, c :: before(a, b) && before(b, c) ==> before(a, c))
  }

  /** The comparator of the listing: a directory before a file, otherwise
      by name. */
  predicate EntryBefore(entries: map<string, Value>, before: (string, string) -> bool, a: string, b: string)
  {
    (IsDir(entries, a) && !IsDir(entries, b))
    || (IsDir(entries, a) == IsDir(entries, b) && before(a, b))
  }

  predicate Sorted(entries: map<string, Value>, before: (string, string) -> bool, s: seq<string>)
  {
    forall i, j :: 0 <= i < j < |s| ==> EntryBefore(entries, before, s[i], s[j])
  }

  /** The listing's comparator is a total preorder when the name order
      is. */
  lemma EntryBeforePreorder(entries: map<string, Value>, before: (string, string) -> bool, a: string, b: string, c: string)
    requires IsTotalPreorder(before)
    ensures EntryBefore(entries, before, a, b) || EntryBefore(entries, before, b, a)
    ensures EntryBefore(entries, before, a, b) && EntryBefore(entries, before, b, c) ==> EntryBefore(entries, before, a, c)
  {
  }

  /** Inserts `x` before the first name it may precede. */
  function Insert(entries: map<string, Value>, before: (string, string) -> bool, x: string, s: seq<string>)
    : (r: seq<string>)
    ensures multiset(r) == multiset(s) + multiset{x}
  {
    if s == [] then [x]
    else if EntryBefore(entries, before, x, s[0]) then [x] + s
    else
      assert s == [s[0]] + s[1..];
      [s[0]] + Insert(entries, before, x, s[1..])
  }

  /** Inserting into a sorted list keeps it sorted. */
  lemma {:induction false} InsertSorted(entries: map<string, Value>, before: (string, string) -> bool, x: string, s: seq<string>)
    requires IsTotalPreorder(before)
    requires Sorted(entries, before, s)
    ensures Sorted(entries, before, Insert(entries, before, x, s))
  {
    if s == [] {
    } else if EntryBefore(entries, before, x, s[0]) {
      forall j | 0 <= j < |s|
        ensures EntryBefore(entries, before, x, s[j])
      {
        EntryBeforePreorder(entries, before, x, s[0], s[j]);
      }
    } else {
      var rest := Insert(entries, before, x, s[1..]);
      assert Sorted(entries, before, s[1..]);
      InsertSorted(entries, before, x, s[1..]);
      EntryBeforePreorder(entries, before, x, s[0], x);
      forall j | 0 <= j < |rest|
        ensures EntryBefore(entries, before, s[0], rest[j])
      {
        assert rest[j] in multiset(rest);
        assert rest[j] == x || rest[j] in s[1..];
      }
      var r := [s[0]] + rest;
      forall i, j | 0 <= i < j < |r|
        ensures EntryBefore(entries, before, r[i], r[j])
      {
        if i > 0 {
          assert r[i] == rest[i - 1] && r[j] == rest[j - 1];
        }
      }
    }
  }

  /** The names of `keys`, sorted by the listing's comparator. */
  function SortByKind(entries: map<string, Value>, before: (string, string) -> bool, keys: seq<string>)
    : (r: seq<string>)
    ensures multiset(r) == multiset(keys)
  {
    if keys == [] then []
    else
      assert keys == [keys[0]] + keys[1..];
      Insert(entries, before, keys[0], SortByKind(entries, before, keys[1..]))
  }

  /** Sorting yields a sorted list. */
  lemma {:induction false} SortByKindSorted(entries: map<string, Value>, before: (string, string) -> bool, keys: seq<string>)
    requires IsTotalPreorder(before)
    ensures Sorted(entries, before, SortByKind(entries, before, keys))
  {
    if keys != [] {
      SortByKindSorted(entries, before, keys[1..]);
      InsertSorted(entries, before, keys[0], SortByKind(entries, before, keys[1..]));
    }
  }

  /** `sortedSdcardFiles`: the names of the SD card entries, in the order
      `Object.keys` gives them, sorted. */
  function SortedSdcardFiles(filesystem: map<string, Value>, keys: seq<string>,
                             before: (string, string) -> bool): (r: seq<string>)
    requires IsTotalPreorder(before)
    requires forall k :: k in keys <==> k in SdcardFiles(filesystem)
    ensures multiset(r) == multiset(keys)
    ensures Sorted(SdcardFiles(filesystem), before, r)
  {
    SortByKindSorted(SdcardFiles(filesystem), before, keys);
    SortByKind(SdcardFiles(filesystem), before, keys)
  }

  /** The listing shows every directory before every file, and entries of
      the same kind in name order. */
  lemma ListingOrder(filesystem: map<string, Value>, keys: seq<string>, before: (string, string) -> bool)
    requires IsTotalPreorder(before)
    requires forall k :: k in keys <==> k in SdcardFiles(filesystem)
    ensures var r := SortedSdcardFiles(filesystem, keys, before);
      var entries := SdcardFiles(filesystem);
      && (forall i, j :: 0 <= i < j < |r| && IsDir(entries, r[j]) ==> IsDir(entries, r[i]))
      && (forall i, j :: 0 <= i < j < |r| && IsDir(entries, r[i]) == IsDir(entries, r[j]) ==> before(r[i], r[j]))
  {
  }

  /** When the SD card is an object, the listing names exactly its own
      entries, and an entry is shown as a directory exactly when its value
      is an object. */
  lemma SdcardObjectListed(filesystem: map<string, Value>, keys: seq<string>, before: (string, string) -> bool)
    requires IsTotalPreorder(before)
    requires forall k :: k in keys <==> k in SdcardFiles(filesystem)
    requires "sdcard" in filesystem && filesystem["sdcard"].Obj?
    ensures var r := SortedSdcardFiles(filesystem, keys, before);
      var fields := filesystem["sdcard"].fields;
      && (forall k :: k in r <==> k in fields)
      && (forall k :: k in fields ==> (IsDir(SdcardFiles(filesystem), k) <==> fields[k].Obj?))
  {
    var r := SortedSdcardFiles(filesystem, keys, before);
    forall k
      ensures k in r <==> k in keys
    {
      assert k in r <==> k in multiset(r);
      assert k in keys <==> k in multiset(keys);
    }
  }

  /** Without an SD card the listing is empty. */
  lemma MissingSdcardIsEmpty(filesystem: map<string, Value>, keys: seq<string>, before: (string, string) -> bool)
    requires IsTotalPreorder(before)
    requires "sdcard" !in filesystem
    requires forall k :: k in keys <==> k in SdcardFiles(filesystem)
    ensures SortedSdcardFiles(filesystem, keys, before) == []
  {
    assert SdcardFiles(filesystem) == map[];
    forall k
      ensures k !in multiset(keys)
    {
      assert k in multiset(keys) <==> k in keys;
      assert k !in SdcardFiles(filesystem);
    }
    assert multiset(keys) == multiset{};
  }
}
