/** The metadata cache: one JSON document of string keys, read from its file
    the first time it is used and written back in full after every change. */
module CacheUtil {
  import opened Wrappers

  /** A cached Toolkit list item: its title and its invoice account. */
  datatype ListEntry = ListEntry(title: Option<string>, invoiceAccount: Option<string>)

  /** The payloads the program stores. Their JSON encoding is not modelled:
      what is stored is what is read back. */
  datatype CacheValue =
    | DateValue(day: int)
    | FlagValue(flag: bool)
    | IssueIdsValue(issues: map<string, map<string, Option<string>>>)
    | AccountKeysValue(accounts: map<int, string>)
    | ListEntriesValue(items: map<int, ListEntry>)
    | DefaultIdsValue(ids: map<string, int>)

  /** A JSON object: a missing key and a key holding JSON null both read as null. */
  type Document = map<string, Option<CacheValue>>

  function Lookup(doc: Document, key: string): Option<CacheValue> {
    if key in doc then doc[key] else None
  }

  /** The document after `_cacheRoot[key] = value`: a null value is stored as
      JSON null, the key stays. */
  function Store(doc: Document, key: string, value: Option<CacheValue>): (r: Document)
    ensures Lookup(r, key) == value
    ensures forall k :: k != key ==> Lookup(r, k) == Lookup(doc, k)
    ensures r.Keys == doc.Keys + {key}
  {
    doc[key := value]
  }

  /** `after` reads like `before` under every key but `key`. */
  ghost predicate SameOutside(after: Document, before: Document, key: string) {
    forall k :: k != key ==> Lookup(after, k) == Lookup(before, k)
  }

  /** A second store under the same key replaces the first. */
  lemma StoreOverwrites(doc: Document, key: string, first: Option<CacheValue>, second: Option<CacheValue>)
    ensures Store(Store(doc, key, first), key, second) == Store(doc, key, second)
  {
  }

  class Cache {
    /** `_cacheRoot`: None until the file has been read. */
    var root: Option<Document>
    /** The cache file; None while it does not exist. */
    var disk: Option<Document>

    /** Once loaded, the file always holds what is in memory. */
    ghost predicate Valid()
      reads this
    {
      root.Some? ==> disk == root
    }

    /** What a `Get` would see: the loaded document, or what loading would give. */
    ghost function Contents(): Document
      reads this
    {
      if root.Some? then root.value else if disk.Some? then disk.value else map[]
    }

    /** A fresh process: nothing read yet, the file as it is on disk. */
    constructor (file: Option<Document>)
      ensures Valid() && root == None && disk == file
    {
      root := None;
      disk := file;
    }

    /** `EnsureRead`: loads the file once, creating it as `{}` when missing. */
    method EnsureRead()
      requires Valid()
      modifies this
      ensures Valid() && root.Some?
      ensures Contents() == old(Contents())
      ensures old(root).Some? ==> root == old(root) && disk == old(disk)
      ensures old(root).None? && old(disk).None? ==> disk == Some(map[])
    {
      if root.Some? {
        return;
      }
      if disk.None? {
        disk := Some(map[]);
      }
      root := disk;
    }

    method Get(key: string) returns (v: Option<CacheValue>)
      requires Valid()
      modifies this
      ensures Valid() && root.Some?
      ensures v == Lookup(old(Contents()), key)
      ensures Contents() == old(Contents())
    {
      EnsureRead();
      v := Lookup(root.value, key);
    }

    /** `Set`: updates the document and writes it through to the file. */
    method Set(key: string, value: Option<CacheValue>)
      requires Valid()
      modifies this
      ensures Valid() && root.Some?
      ensures Contents() == Store(old(Contents()), key, value)
    {
      EnsureRead();
      root := Some(Store(root.value, key, value));
      disk := root;
    }

    /** `Clear`: an empty document, in memory and on disk. */
    method Clear()
      requires Valid()
      modifies this
      ensures Valid() && root == Some(map[])
      ensures forall k :: Lookup(Contents(), k) == None
    {
      root := Some(map[]);
      disk := root;
    }
  }

  // Typed readers: `CacheUtil.Get<T>` for the payload types the program uses.
  // A payload of another shape reads as null.

  function AsDay(v: Option<CacheValue>): Option<int> {
    if v.Some? && v.value.DateValue? then Some(v.value.day) else None
  }

  function AsFlag(v: Option<CacheValue>): Option<bool> {
    if v.Some? && v.value.FlagValue? then Some(v.value.flag) else None
  }

  function AsIssueIds(v: Option<CacheValue>): Option<map<string, map<string, Option<string>>>> {
    if v.Some? && v.value.IssueIdsValue? then Some(v.value.issues) else None
  }

  function AsAccountKeys(v: Option<CacheValue>): Option<map<int, string>> {
    if v.Some? && v.value.AccountKeysValue? then Some(v.value.accounts) else None
  }

  function AsListEntries(v: Option<CacheValue>): Option<map<int, ListEntry>> {
    if v.Some? && v.value.ListEntriesValue? then Some(v.value.items) else None
  }

  function AsDefaultIds(v: Option<CacheValue>): Option<map<string, int>> {
    if v.Some? && v.value.DefaultIdsValue? then Some(v.value.ids) else None
  }
}
