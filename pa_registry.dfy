/**
 * The device registry of the PulseAudio manager: maps from a device index
 * to its record, the exact lookups, the case-insensitive name search and
 * the list callbacks that fill the maps.
 */
module PaRegistry {
  import opened Wrappers
  import opened Strings
  import opened PaDevice

  /** pa_dev_list: a std::map keyed by the device index, so indices are unique. */
  type DeviceList = map<u32, Device>

  /** `(uint32_t)-1`, what getSink and getSource return when nothing matches. */
  const NOT_FOUND: u32 := 0xFFFF_FFFF

  /** Sink(idx) / Source(idx): the stored record, or NULL when idx is no key. */
  function Lookup(m: DeviceList, idx: u32): (r: Option<Device>)
    ensures r.Some? <==> idx in m
    ensures r.Some? ==> r.value == m[idx]
  {
    if idx in m then Some(m[idx]) else None
  }

  /** The search test: the lower-cased query is a substring of the lower-cased name. */
  predicate NameMatches(d: Device, query: string) {
    Contains(ToLower(d.name), ToLower(query))
  }

  /** A finite non-empty set of indices has a least element. */
  lemma {:induction false} LeastKey(keys: set<u32>) returns (least: u32)
    requires keys != {}
    ensures least in keys && forall k :: k in keys ==> least <= k
    decreases |keys|
  {
    var x :| x in keys;
    var others := keys - {x};
    if others == {} {
      least := x;
      assert keys == {x};
    } else {
      var m := LeastKey(others);
      least := if x < m then x else m;
      forall k | k in keys ensures least <= k {
        if k != x {
          assert k in others;
        }
      }
    }
  }

  lemma MinKeyExists(keys: set<u32>)
    requires keys != {}
    ensures exists m :: m in keys && forall k :: k in keys ==> m <= k
  {
    var least := LeastKey(keys);
  }

  function MinKey(keys: set<u32>): (m: u32)
    requires keys != {}
    ensures m in keys && forall k :: k in keys ==> m <= k
  {
    MinKeyExists(keys);
    var m :| m in keys && forall k :: k in keys ==> m <= k;
    m
  }

  /** The keys of a std::map in iteration order: ascending, each once. */
  function SortedKeys(keys: set<u32>): (s: seq<u32>)
    ensures forall k :: k in keys <==> k in s
    ensures forall i, j :: 0 <= i < j < |s| ==> s[i] < s[j]
    decreases |keys|
  {
    if keys == {} then []
    else
      var m := MinKey(keys);
      [m] + SortedKeys(keys - {m})
  }

  /**
   * The loop of getSink/getSource over the keys `ks`: the position of the
   * first key whose device matches, or |ks| when none does.
   */
  function FirstMatchAt(ks: seq<u32>, m: DeviceList, query: string): (i: nat)
    requires forall i :: 0 <= i < |ks| ==> ks[i] in m
    ensures i <= |ks|
    ensures i < |ks| ==> NameMatches(m[ks[i]], query)
    ensures forall j :: 0 <= j < i ==> !NameMatches(m[ks[j]], query)
  {
    if ks == [] then 0
    else if NameMatches(m[ks[0]], query) then 0
    else 1 + FirstMatchAt(ks[1..], m, query)
  }

  /**
   * getSink(name) / getSource(name): the smallest index whose name contains
   * the query, ignoring ASCII case, or NOT_FOUND when no name does.
   */
  function FindFirst(m: DeviceList, query: string): (r: u32)
    ensures r != NOT_FOUND ==> r in m && NameMatches(m[r], query)
    ensures forall k :: k in m && NameMatches(m[k], query) ==> r <= k
    ensures (forall k :: k in m ==> !NameMatches(m[k], query)) ==> r == NOT_FOUND
  {
    var ks := SortedKeys(m.Keys);
    var i := FirstMatchAt(ks, m, query);
    FirstMatchIsLeast(ks, m, query);
    if i < |ks| then ks[i] else NOT_FOUND
  }

  /** On ascending keys the first match of the scan is the least matching key. */
  lemma FirstMatchIsLeast(ks: seq<u32>, m: DeviceList, query: string)
    requires forall i :: 0 <= i < |ks| ==> ks[i] in m
    requires forall k :: k in m ==> k in ks
    requires forall i, j :: 0 <= i < j < |ks| ==> ks[i] < ks[j]
    ensures var i := FirstMatchAt(ks, m, query);
      forall k :: k in m && NameMatches(m[k], query) ==> i < |ks| && ks[i] <= k
  {
    var i := FirstMatchAt(ks, m, query);
    forall k | k in m && NameMatches(m[k], query) ensures i < |ks| && ks[i] <= k {
      var j :| 0 <= j < |ks| && ks[j] == k;
      assert i <= j;
    }
  }

  /** The search ignores ASCII case in the query: "USB" and "usb" find the same device. */
  lemma FindFirstIgnoresCase(m: DeviceList, q1: string, q2: string)
    requires ToLower(q1) == ToLower(q2)
    ensures FindFirst(m, q1) == FindFirst(m, q2)
  {
    forall k | k in m ensures NameMatches(m[k], q1) == NameMatches(m[k], q2) { }
    var ks := SortedKeys(m.Keys);
    FirstMatchAtCongruent(ks, m, q1, q2);
  }

  lemma {:induction false} FirstMatchAtCongruent(ks: seq<u32>, m: DeviceList, q1: string, q2: string)
    requires forall i :: 0 <= i < |ks| ==> ks[i] in m
    requires forall k :: k in m ==> NameMatches(m[k], q1) == NameMatches(m[k], q2)
    ensures FirstMatchAt(ks, m, q1) == FirstMatchAt(ks, m, q2)
  {
    if ks != [] {
      FirstMatchAtCongruent(ks[1..], m, q1, q2);
    }
  }

  /**
   * pa_sinklist_cb / pa_sourcelist_cb exactly as written: an entry with
   * eol > 0 is ignored, every other one is dereferenced and stored under its
   * index. PulseAudio reports a failed list with eol < 0 and a NULL entry;
   * `None` is the undefined behaviour of dereferencing it.
   */
  function ListCallbackAsWritten(m: DeviceList, entry: Option<Device>, eol: int): (r: Option<DeviceList>)
    ensures eol > 0 ==> r == Some(m)
    ensures eol <= 0 ==> (r.None? <==> entry.None?)
  {
    if eol > 0 then Some(m)
    else if entry.None? then None
    else Some(m[entry.value.index := entry.value])
  }

  /**
   * The list callbacks with the error report handled: only an ordinary entry
   * (eol == 0, non-NULL) is stored, overwriting any device with its index;
   * every other key keeps its device.
   */
  function ListCallback(m: DeviceList, entry: Option<Device>, eol: int): (r: DeviceList)
    ensures eol != 0 || entry.None? ==> r == m
    ensures eol == 0 && entry.Some? ==>
      && r.Keys == m.Keys + {entry.value.index}
      && r[entry.value.index] == entry.value
      && forall k :: k in m && k != entry.value.index ==> r[k] == m[k]
  {
    if eol != 0 || entry.None? then m else m[entry.value.index := entry.value]
  }

  /** Wherever PulseAudio keeps its contract (a non-NULL entry when eol == 0, never eol < 0), both agree. */
  lemma ListCallbackAgrees(m: DeviceList, entry: Option<Device>, eol: int)
    requires eol >= 0 && (eol == 0 ==> entry.Some?)
    ensures ListCallbackAsWritten(m, entry, eol) == Some(ListCallback(m, entry, eol))
  {
  }

  /** The error report (eol = -1, NULL entry) makes the code as written dereference NULL. */
  lemma ListCallbackErrorReport(m: DeviceList)
    ensures ListCallbackAsWritten(m, None, -1).None?
    ensures ListCallback(m, None, -1) == m
  {
  }
}
