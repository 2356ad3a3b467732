/** configuration.ts: the key/value configuration database. The table is held
    as the sequence of its rows in the order the store's query returns them. */
module Configuration {
  import opened Types
  import Data

  /** A row: its Key title, and the plain text of each rich-text segment of
      its Value and its Description. */
  datatype ConfigRow = ConfigRow(key: string, value: seq<string>, description: seq<string>)

  /** The position of the first row whose Key equals `name`. */
  function IndexOfKey(rows: seq<ConfigRow>, name: string): (r: Option<nat>)
    ensures r.Some? ==> r.value < |rows| && rows[r.value].key == name
  {
    if rows == [] then None
    else if rows[0].key == name then Some(0)
    else match IndexOfKey(rows[1..], name)
      case None => None
      case Some(i) => Some(i + 1)
  }

  /** The position found is the first with that Key, and none is found
      only when no row has it. */
  lemma {:induction false} IndexOfKeyFirst(rows: seq<ConfigRow>, name: string)
    ensures IndexOfKey(rows, name).Some? ==> forall j :: 0 <= j < IndexOfKey(rows, name).value ==> rows[j].key != name
    ensures IndexOfKey(rows, name).None? ==> forall j :: 0 <= j < |rows| ==> rows[j].key != name
  {
    if rows != [] && rows[0].key != name {
      IndexOfKeyFirst(rows[1..], name);
    }
  }

  /** `getConfigurationItemPage`: the first row whose Key is the key. */
  function ItemPage(rows: seq<ConfigRow>, k: ConfigItem): Option<ConfigRow>
  {
    match IndexOfKey(rows, KeyName(k))
    case None => None
    case Some(i) => Some(rows[i])
  }

  /** `getConfigurationItemValue`: the plain text of the first Value segment
      of the key's row; nothing when there is no row or no segment. */
  function ItemValue(rows: seq<ConfigRow>, k: ConfigItem): (r: Option<string>)
    ensures r.Some? ==> ItemPage(rows, k).Some?
  {
    match ItemPage(rows, k)
    case None => None
    case Some(row) => if |row.value| > 0 then Some(row.value[0]) else None
  }

  /** The table after the key's row (if any) has had its Value replaced by
      the single segment `value`. */
  function WithValue(rows: seq<ConfigRow>, k: ConfigItem, value: string): (r: seq<ConfigRow>)
    ensures |r| == |rows|
    ensures ItemPage(rows, k).None? ==> r == rows
  {
    match IndexOfKey(rows, KeyName(k))
    case None => rows
    case Some(i) => rows[i := rows[i].(value := [value])]
  }

  /** The row a `configurationInitData` entry is created as. */
  function RowFor(e: ConfigEntry): ConfigRow
  {
    ConfigRow(KeyName(e.key), [e.value], [e.description])
  }

  /** The rows created from the first `n` entries, leaving out the positions
      in `lost` (creations that failed unobserved). */
  function SeededRows(entries: seq<ConfigEntry>, n: nat, lost: set<nat>): seq<ConfigRow>
    requires n <= |entries|
  {
    if n == 0 then []
    else SeededRows(entries, n - 1, lost)
         + (if n - 1 in lost then [] else [RowFor(entries[n - 1])])
  }

  /** The rows a freshly initialised configuration database holds. */
  function InitialRows(lost: set<nat>): seq<ConfigRow>
  {
    SeededRows(Data.ConfigurationInitData, |Data.ConfigurationInitData|, lost)
  }

  class ConfigurationDatabase {
    var rows: seq<ConfigRow>

    /** `createConfigurationDatabase`: a new, empty table. */
    constructor ()
      ensures rows == []
    {
      rows := [];
    }

    /** `updateConfigurationItemValue`: replace the Value of the key's row by
        the single segment `value`. Without a row, or when the store rejects
        the update (`updateFails`), nothing changes and the answer is false. */
    method UpdateItemValue(k: ConfigItem, value: string, updateFails: bool) returns (ok: bool)
      modifies this
      ensures ok <==> ItemPage(old(rows), k).Some? && !updateFails
      ensures rows == if ok then WithValue(old(rows), k, value) else old(rows)
    {
      var page := IndexOfKey(rows, KeyName(k));
      if page.Some? {
        if updateFails {
          return false;
        }
        rows := rows[page.value := rows[page.value].(value := [value])];
        return true;
      } else {
        return false;
      }
    }

    /** `initConfigurationDatabase`: create one row per initial entry. The
        creations are not awaited, so one that fails (`lost`) is silently
        missing and the answer is true all the same. */
    method InitConfigurationDatabase(lost: set<nat>) returns (ok: bool)
      modifies this
      ensures ok
      ensures rows == old(rows) + InitialRows(lost)
    {
      Seed(Data.ConfigurationInitData, lost);
      return true;
    }

    /** The creation loop: one row per entry, in order, except those lost. */
    method Seed(entries: seq<ConfigEntry>, lost: set<nat>)
      modifies this
      ensures rows == old(rows) + SeededRows(entries, |entries|, lost)
    {
      for i := 0 to |entries|
        invariant rows == old(rows) + SeededRows(entries, i, lost)
      {
        if i !in lost {
          rows := rows + [RowFor(entries[i])];
        }
      }
    }
  }

  /** A write changes the Value of the key's row and nothing else: the keys,
      the descriptions and every other row stay as they were. */
  lemma WithValueFrame(rows: seq<ConfigRow>, k: ConfigItem, value: string)
    ensures |WithValue(rows, k, value)| == |rows|
    ensures forall j :: 0 <= j < |rows| ==>
      WithValue(rows, k, value)[j].key == rows[j].key
      && WithValue(rows, k, value)[j].description == rows[j].description
    ensures forall j :: 0 <= j < |rows| && Some(j) != IndexOfKey(rows, KeyName(k)) ==>
      WithValue(rows, k, value)[j] == rows[j]
  {
  }

  /** Only the Key column decides which row a key finds. */
  lemma {:induction false} IndexOfKeyUnchanged(rows: seq<ConfigRow>, rows': seq<ConfigRow>, name: string)
    requires |rows'| == |rows|
    requires forall j :: 0 <= j < |rows| ==> rows'[j].key == rows[j].key
    ensures IndexOfKey(rows', name) == IndexOfKey(rows, name)
  {
    if rows != [] {
      IndexOfKeyUnchanged(rows[1..], rows'[1..], name);
    }
  }

  /** Writing a key and then reading it gives the written string back. */
  lemma ReadAfterWrite(rows: seq<ConfigRow>, k: ConfigItem, value: string)
    requires ItemPage(rows, k).Some?
    ensures ItemValue(WithValue(rows, k, value), k) == Some(value)
  {
    WithValueFrame(rows, k, value);
    IndexOfKeyUnchanged(rows, WithValue(rows, k, value), KeyName(k));
  }

  /** Writing one key leaves what every other key reads unchanged. */
  lemma WriteLeavesOtherKeys(rows: seq<ConfigRow>, k: ConfigItem, value: string, other: ConfigItem)
    requires other != k
    ensures ItemValue(WithValue(rows, k, value), other) == ItemValue(rows, other)
    ensures ItemPage(WithValue(rows, k, value), other).Some? == ItemPage(rows, other).Some?
  {
    WithValueFrame(rows, k, value);
    IndexOfKeyUnchanged(rows, WithValue(rows, k, value), KeyName(other));
    Data.KeyNameInjective(k, other);
  }

  /** A write never adds or removes a row, so whether a key has a row is
      unchanged by it. */
  lemma WriteKeepsPages(rows: seq<ConfigRow>, k: ConfigItem, value: string, other: ConfigItem)
    ensures ItemPage(WithValue(rows, k, value), other).Some? == ItemPage(rows, other).Some?
  {
    WithValueFrame(rows, k, value);
    IndexOfKeyUnchanged(rows, WithValue(rows, k, value), KeyName(other));
  }

  lemma {:induction false} IndexOfKeyAppend(rows: seq<ConfigRow>, r: ConfigRow, name: string)
    ensures IndexOfKey(rows + [r], name) ==
      if IndexOfKey(rows, name).Some? then IndexOfKey(rows, name)
      else if r.key == name then Some(|rows|) else None
  {
    if rows != [] {
      assert (rows + [r])[1..] == rows[1..] + [r];
      IndexOfKeyAppend(rows[1..], r, name);
    }
  }

  /** The row seeded from entry `j` carries the Key of `k` exactly when `j`
      is the position of `k` in the initial data. */
  lemma InitRowKey(j: nat, k: ConfigItem)
    requires j < |Data.ConfigurationInitData|
    ensures Data.ConfigurationInitData[j].key == k <==> j == Data.InitIndex(k)
  {
    Data.InitDataCoversEachKeyOnce();
  }

  /** The row made from an entry carries the Key of `k` exactly when the
      entry is for `k`. */
  lemma RowForKey(e: ConfigEntry, k: ConfigItem)
    ensures RowFor(e).key == KeyName(k) <==> e.key == k
  {
    Data.KeyNameInjective(e.key, k);
  }

  /** Appending the row of an entry leaves the row of `k` where it was, or
      makes it the new row when the entry is for `k`. */
  lemma PageAfterAppend(rows: seq<ConfigRow>, e: ConfigEntry, k: ConfigItem)
    ensures ItemPage(rows + [RowFor(e)], k) ==
      if ItemPage(rows, k).Some? then ItemPage(rows, k)
      else if e.key == k then Some(RowFor(e)) else None
  {
    IndexOfKeyAppend(rows, RowFor(e), KeyName(k));
    RowForKey(e, k);
  }

  /** Among rows seeded from entries in which `k` sits at position `at` only,
      the row of `k` is the one seeded from that entry, when it is among the
      first `n` and was not lost. */
  lemma {:induction false} SeededRowsLookup(entries: seq<ConfigEntry>, n: nat, lost: set<nat>, k: ConfigItem, at: nat)
    requires n <= |entries| && at < |entries|
    requires forall j :: 0 <= j < |entries| ==> (entries[j].key == k <==> j == at)
    ensures ItemPage(SeededRows(entries, n, lost), k) ==
      if at < n && at !in lost then Some(RowFor(entries[at])) else None
  {
    if n > 0 {
      var prev := SeededRows(entries, n - 1, lost);
      var e := entries[n - 1];
      SeededRowsLookup(entries, n - 1, lost, k, at);
      assert e.key == k <==> n - 1 == at;
      if n - 1 in lost {
        assert SeededRows(entries, n, lost) == prev;
      } else {
        assert SeededRows(entries, n, lost) == prev + [RowFor(e)];
        PageAfterAppend(prev, e, k);
        if at < n - 1 {
          assert ItemPage(prev, k) == if at !in lost then Some(RowFor(entries[at])) else None;
        } else if at == n - 1 {
          assert ItemPage(prev, k) == None;
        } else {
          assert ItemPage(prev, k) == None && e.key != k;
        }
      }
    }
  }

  /** After initialisation every key reads as its initial value, unless the
      creation of its row was lost, in which case it has no row at all. */
  lemma InitialValue(lost: set<nat>, k: ConfigItem)
    ensures ItemValue(InitialRows(lost), k) ==
      if Data.InitIndex(k) in lost then None
      else Some(Data.ConfigurationInitData[Data.InitIndex(k)].value)
    ensures ItemPage(InitialRows(lost), k).Some? <==> Data.InitIndex(k) !in lost
  {
    var data := Data.ConfigurationInitData;
    forall j | 0 <= j < |data| ensures data[j].key == k <==> j == Data.InitIndex(k) {
      InitRowKey(j, k);
    }
    SeededRowsLookup(data, |data|, lost, k, Data.InitIndex(k));
  }

  /** Seeding with no lost creation yields exactly one row per entry, in
      order, with Key, Value and Description copied. */
  lemma {:induction false} SeededRowsComplete(entries: seq<ConfigEntry>, n: nat)
    requires n <= |entries|
    ensures |SeededRows(entries, n, {})| == n
    ensures forall j :: 0 <= j < n ==> SeededRows(entries, n, {})[j] == RowFor(entries[j])
  {
    if n > 0 {
      SeededRowsComplete(entries, n - 1);
    }
  }
}
