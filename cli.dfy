/**
 * CMain: the integer scanning behind `--card` and `--channels`, the
 * comma-separated list parser, and the decisions of processArgs (which
 * device a selector names, what is listed, which sinks get the volume
 * change), with printing and PulseAudio calls as abstract actions.
 */
module Cli {
  import opened Wrappers
  import opened Decimal
  import opened Strings
  import opened PaDevice
  import opened PaRegistry

  /** The white space `sscanf` skips before a number (C locale). */
  predicate IsSpace(c: char) {
    c == ' ' || c == '\t' || c == '\n' || c == '\r' || c == 11 as char || c == 12 as char
  }

  /** Position of the first character that is not white space. */
  function SkipSpaces(s: string): (i: nat)
    ensures i <= |s|
    ensures i < |s| ==> !IsSpace(s[i])
  {
    if s == [] || !IsSpace(s[0]) then 0 else 1 + SkipSpaces(s[1..])
  }

  /** End of the run of digits that starts at `i`. */
  function DigitRunEnd(s: string, i: nat): (k: nat)
    requires i <= |s|
    ensures i <= k <= |s|
    ensures AllDigits(s[i..k])
    ensures k < |s| ==> !IsDigit(s[k])
    decreases |s| - i
  {
    if i == |s| || !IsDigit(s[i]) then i else DigitRunEnd(s, i + 1)
  }

  /** Where the digits start: after the white space and an optional sign. */
  function DigitsStart(s: string): (j: nat)
    ensures j <= |s|
  {
    var i := SkipSpaces(s);
    if i < |s| && (s[i] == '+' || s[i] == '-') then i + 1 else i
  }

  /**
   * `sscanf(s, "%i", &val) == 1`, decimal numbers only: white space, an
   * optional sign and at least one digit; reading stops at the first
   * character that is not a digit.
   */
  function ScanInt(s: string): (r: Option<int>)
    ensures r.Some? <==> DigitsStart(s) < |s| && IsDigit(s[DigitsStart(s)])
  {
    var j := DigitsStart(s);
    ReadDigits(s, SkipSpaces(s), j, DigitRunEnd(s, j))
  }

  /** The number whose digits are s[j..k], negated when a '-' stands at i before them. */
  function ReadDigits(s: string, i: nat, j: nat, k: nat): (r: Option<int>)
    requires i <= j <= k <= |s| && AllDigits(s[j..k])
    ensures r.Some? <==> j < k
  {
    if k == j then None
    else
      var v: int := DigitsValue(s[j..k]);
      Some(if i < j && s[i] == '-' then -v else v)
  }

  lemma {:induction false} SkipSpacesAppend(a: string, b: string)
    requires b != [] && !IsSpace(b[0])
    ensures SkipSpaces(a + b) == SkipSpaces(a)
  {
    if a != [] {
      assert (a + b)[1..] == a[1..] + b;
      SkipSpacesAppend(a[1..], b);
    } else {
      assert a + b == b;
    }
  }

  lemma {:induction false} DigitRunEndAppend(a: string, b: string, i: nat)
    requires i <= |a| && b != [] && !IsDigit(b[0])
    ensures DigitRunEnd(a + b, i) == DigitRunEnd(a, i)
    decreases |a| - i
  {
    if i < |a| && IsDigit(a[i]) {
      DigitRunEndAppend(a, b, i + 1);
    }
  }

  /** Scanning stops at a comma: whatever follows it is never read. */
  lemma ScanIntStopsAtComma(a: string, b: string)
    requires b != [] && b[0] == ','
    ensures ScanInt(a + b) == ScanInt(a)
  {
    SkipSpacesAppend(a, b);
    var i := SkipSpaces(a);
    assert DigitsStart(a + b) == DigitsStart(a);
    var j := DigitsStart(a);
    DigitRunEndAppend(a, b, j);
    var k := DigitRunEnd(a, j);
    assert (a + b)[j..k] == a[j..k];
  }

  /** Scanning what `ostream << n` writes, up to a non-digit, reads n back. */
  lemma ScanIntRoundTrip(n: int, rest: string)
    requires rest == [] || (!IsDigit(rest[0]))
    ensures ScanInt(IntToString(n) + rest) == Some(n)
  {
    var t := IntToString(n);
    var s := t + rest;
    var digits := if n < 0 then NatToString(-n) else NatToString(n);
    var j := if n < 0 then 1 else 0;
    assert t[j..] == digits;
    assert SkipSpaces(s) == 0;
    assert DigitsStart(s) == j;
    DigitRunEndFrom(s, j, |t|);
    assert s[j..|t|] == digits;
    NatToStringRoundTrip(if n < 0 then -n else n);
  }

  /** White space before a character that is not white space is skipped entirely. */
  lemma {:induction false} SkipSpacesPrefix(ws: string, b: string)
    requires forall i :: 0 <= i < |ws| ==> IsSpace(ws[i])
    requires b != [] && !IsSpace(b[0])
    ensures SkipSpaces(ws + b) == |ws|
  {
    if ws != [] {
      assert (ws + b)[1..] == ws[1..] + b;
      SkipSpacesPrefix(ws[1..], b);
    } else {
      assert ws + b == b;
    }
  }

  /** Once the digit run is known to end at k, ScanInt is ReadDigits over it. */
  lemma ScanIntAt(s: string, k: nat)
    requires DigitsStart(s) < k <= |s|
    requires AllDigits(s[DigitsStart(s)..k]) && (k < |s| ==> !IsDigit(s[k]))
    ensures ScanInt(s) == ReadDigits(s, SkipSpaces(s), DigitsStart(s), k)
  {
    DigitRunEndFrom(s, DigitsStart(s), k);
  }

  /** ReadDigits over the digit text t standing at j. */
  lemma ReadDigitsValue(s: string, i: nat, j: nat, t: string)
    requires i <= j && t != [] && AllDigits(t) && j + |t| <= |s| && s[j..j + |t|] == t
    ensures ReadDigits(s, i, j, j + |t|) ==
      Some(if i < j && s[i] == '-' then -(DigitsValue(t) as int) else DigitsValue(t) as int)
  {
  }

  /**
   * The value read: white space, an optional sign and the digits of n,
   * followed by anything that is not a digit, read as n, or as -n after '-'.
   */
  lemma ScanIntReads(ws: string, sign: string, n: nat, rest: string)
    requires forall i :: 0 <= i < |ws| ==> IsSpace(ws[i])
    requires sign == "" || sign == "+" || sign == "-"
    requires rest == [] || !IsDigit(rest[0])
    ensures ScanInt(ws + (sign + (NatToString(n) + rest))) == Some(if sign == "-" then -(n as int) else n as int)
  {
    ScanIntReadsDigits(ws, sign, NatToString(n), rest);
    NatToStringRoundTrip(n);
  }

  /** ScanIntReads for any non-empty digit text t in place of the digits of n. */
  lemma ScanIntReadsDigits(ws: string, sign: string, t: string, rest: string)
    requires forall i :: 0 <= i < |ws| ==> IsSpace(ws[i])
    requires sign == "" || sign == "+" || sign == "-"
    requires t != [] && AllDigits(t) && (rest == [] || !IsDigit(rest[0]))
    ensures ScanInt(ws + (sign + (t + rest))) == Some(if sign == "-" then -(DigitsValue(t) as int) else DigitsValue(t) as int)
  {
    SignedStart(ws, sign, t + rest);
    DigitsFollow(ws, sign, t, rest);
    ScanIntOf(ws + (sign + (t + rest)), |ws|, |ws| + |sign|, t, sign == "-");
  }

  /** The digit text t stands right after the white space and the sign, and a non-digit follows it. */
  lemma DigitsFollow(ws: string, sign: string, t: string, rest: string)
    requires rest == [] || !IsDigit(rest[0])
    ensures var s, j := ws + (sign + (t + rest)), |ws| + |sign|;
      && s[j..j + |t|] == t
      && (j + |t| < |s| ==> !IsDigit(s[j + |t|]))
  {
    var s := ws + (sign + (t + rest));
    assert s[|ws|..] == sign + (t + rest);
    assert s[|ws| + |sign|..] == (sign + (t + rest))[|sign|..] == t + rest;
  }

  /** ScanInt once the white space, the sign and the digit text have been located. */
  lemma ScanIntOf(s: string, i: nat, j: nat, t: string, neg: bool)
    requires SkipSpaces(s) == i && DigitsStart(s) == j && t != [] && AllDigits(t)
    requires j + |t| <= |s| && s[j..j + |t|] == t && (j + |t| < |s| ==> !IsDigit(s[j + |t|]))
    requires (i < j && s[i] == '-') == neg
    ensures ScanInt(s) == Some(if neg then -(DigitsValue(t) as int) else DigitsValue(t) as int)
  {
    ScanIntAt(s, j + |t|);
    ReadDigitsValue(s, i, j, t);
  }

  /** White space and an optional sign before a digit: where the digits start and whether negated. */
  lemma SignedStart(ws: string, sign: string, c: string)
    requires forall i :: 0 <= i < |ws| ==> IsSpace(ws[i])
    requires sign == "" || sign == "+" || sign == "-"
    requires c != [] && IsDigit(c[0])
    ensures var s := ws + (sign + c);
      && SkipSpaces(s) == |ws|
      && DigitsStart(s) == |ws| + |sign|
      && ((SkipSpaces(s) < DigitsStart(s) && s[SkipSpaces(s)] == '-') <==> sign == "-")
  {
    var b := sign + c;
    assert b[0] == (if sign == "" then c[0] else sign[0]);
    SkipSpacesPrefix(ws, b);
    assert (ws + b)[|ws|] == b[0];
  }

  lemma {:induction false} DigitRunEndFrom(s: string, i: nat, k: nat)
    requires i <= k <= |s|
    requires AllDigits(s[i..k]) && (k < |s| ==> !IsDigit(s[k]))
    ensures DigitRunEnd(s, i) == k
    decreases k - i
  {
    if i < k {
      assert IsDigit(s[i..k][0]);
      assert s[i + 1..k] == s[i..k][1..];
      DigitRunEndFrom(s, i + 1, k);
    }
  }

  /** What one segment contributes to the list: its number, or nothing. */
  function SegmentValues(seg: string): (r: seq<int>)
    ensures |r| <= 1
    ensures r == [] <==> ScanInt(seg).None?
  {
    match ScanInt(seg)
    case Some(v) => [v]
    case None => []
  }

  predicate EndsWithComma(s: string) {
    s == [] || s[|s| - 1] == ','
  }

  /**
   * The values parseIntList appends for the remaining text `s`: scan s,
   * keep the number if one was read, continue after the first comma.
   */
  function ParsedList(s: string): seq<int>
    requires EndsWithComma(s)
    decreases |s|
  {
    if s == [] then []
    else SegmentValues(s) + ParsedList(s[IndexOf(s, ',') + 1..])
  }

  /** The text after the first comma of `s` again ends with a comma. */
  lemma RestEndsWithComma(s: string)
    requires s != [] && EndsWithComma(s)
    ensures EndsWithComma(s[IndexOf(s, ',') + 1..])
  {
    var next := s[IndexOf(s, ',') + 1..];
    if next != [] {
      assert next[|next| - 1] == s[|s| - 1];
    }
  }

  /** One pass of the parseIntList loop keeps `v + what is still to be parsed` fixed. */
  lemma ParseStep(s: string, acc: seq<int>)
    requires s != [] && EndsWithComma(s)
    ensures var next := s[IndexOf(s, ',') + 1..];
      && EndsWithComma(next)
      && (acc + SegmentValues(s)) + ParsedList(next) == acc + ParsedList(s)
  {
    RestEndsWithComma(s);
    var next := s[IndexOf(s, ',') + 1..];
    var here, later := SegmentValues(s), ParsedList(next);
    assert ParsedList(s) == here + later;
    assert (acc + here) + later == acc + (here + later);
  }

  /**
   * CMain::parseIntList: appends, in input order, the number each
   * comma-separated segment starts with; segments without one are skipped.
   */
  method ParseIntList(str: string, v: seq<int>) returns (v': seq<int>)
    ensures v' == v + ParsedList(str + ",")
  {
    var s := str + ",";
    v' := v;
    while |s| > 0
      invariant EndsWithComma(s)
      invariant v' + ParsedList(s) == v + ParsedList(str + ",")
      decreases |s|
    {
      ParseStep(s, v');
      var val := ScanInt(s);
      if val.Some? {
        v' := v' + [val.value];
      } else {
        assert v' + SegmentValues(s) == v';
      }
      s := s[IndexOf(s, ',') + 1..];
    }
  }

  /** Each segment up to a comma contributes on its own: the list is segment-wise. */
  lemma ParsedListSegment(seg: string, rest: string)
    requires ',' !in seg && EndsWithComma(rest)
    ensures ParsedList(seg + "," + rest) == SegmentValues(seg) + ParsedList(rest)
  {
    var s := seg + "," + rest;
    assert s == seg + ([','] + rest);
    ScanIntStopsAtComma(seg, [','] + rest);
    IndexOfAfter(seg, [','] + rest, ',');
    assert s[|seg| + 1..] == rest;
  }

  /** `ostream` text of a list of numbers, separated by commas. */
  function Join(xs: seq<int>): string {
    if xs == [] then ""
    else if |xs| == 1 then IntToString(xs[0])
    else IntToString(xs[0]) + "," + Join(xs[1..])
  }

  /** The decimal text of a number holds no comma. */
  lemma IntToStringHasNoComma(n: int)
    ensures ',' !in IntToString(n)
  {
    var t := IntToString(n);
    if n < 0 {
      forall i | 1 <= i < |t| ensures t[i] != ',' {
        assert t[i] == t[1..][i - 1];
      }
    }
  }

  /** Parsing a comma-joined list of numbers gives the list back. */
  lemma {:induction false} ParseJoinRoundTrip(xs: seq<int>)
    ensures ParsedList(Join(xs) + ",") == xs
  {
    if xs != [] {
      var t := IntToString(xs[0]);
      var tail := xs[1..];
      assert xs == [xs[0]] + tail;
      var rest := if tail == [] then "" else Join(tail) + ",";
      assert Join(xs) + "," == t + "," + rest;
      assert ParsedList(t + "," + rest) == SegmentValues(t) + ParsedList(rest) by {
        IntToStringHasNoComma(xs[0]);
        ParsedListSegment(t, rest);
      }
      assert SegmentValues(t) == [xs[0]] by {
        ScanIntRoundTrip(xs[0], []);
        assert t + [] == t;
      }
      assert ParsedList(rest) == tail by {
        if tail != [] {
          ParseJoinRoundTrip(tail);
        }
      }
    }
  }


  // ---------------------------------------------------------------------
  // CMain::processArgs

  /** The uint32_t sentinels processArgs keeps in its two selectors. */
  const NO_SELECTOR: u32 := 0xFFFF_FFFF         // (uint32_t)-1: neither --card nor --card-name
  const SELECTOR_NOT_FOUND: u32 := 0xFFFF_FFFE  // (uint32_t)-2: the named device does not exist

  /** The conversion of an int to uint32_t: reduction modulo 2^32. */
  function ToU32(n: int): (r: u32)
    ensures 0 <= n < 0x1_0000_0000 ==> r as int == n
    ensures -0x1_0000_0000 <= n < 0 ==> r as int == n + 0x1_0000_0000
  {
    (n % 0x1_0000_0000) as u32
  }

  /** The command-line parameters processArgs consults. */
  datatype Params = Params(
    card: Option<string>,        // -c, --card <idx>
    cardName: Option<string>,    // -C, --card-name <name>
    list: bool,                  // -l, --list
    listSink: bool,              // --list-sink
    listSource: bool,            // --list-source
    setVolume: Option<string>,   // -s, --set-volume <volume>
    channels: Option<string>)    // -n, --channels <channels>

  /** sink_card_idx and source_card_idx. */
  datatype Selectors = Selectors(sink: u32, source: u32)

  /** A selector is a sentinel or names a device of its kind. */
  predicate Selects(m: DeviceList, sel: u32) {
    sel == NO_SELECTOR || sel == SELECTOR_NOT_FOUND || sel in m
  }

  /** The --card branch for one kind: the index when a device has it, otherwise "not found". */
  function SelectByIndex(m: DeviceList, idx: u32): (sel: u32)
    ensures Selects(m, sel)
    ensures idx in m ==> sel == idx
    ensures idx !in m ==> sel == SELECTOR_NOT_FOUND
  {
    if Lookup(m, idx).Some? then idx else SELECTOR_NOT_FOUND
  }

  /**
   * The --card-name branch for one kind: the least index whose name
   * contains the text (ignoring case), or "not found" when none does.
   */
  function SelectByName(m: DeviceList, name: string): (sel: u32)
    ensures Selects(m, sel) && sel != NO_SELECTOR
    ensures sel != SELECTOR_NOT_FOUND ==>
      && NameMatches(m[sel], name)
      && forall k :: k in m && NameMatches(m[k], name) ==> sel <= k
    ensures (forall k :: k in m ==> !NameMatches(m[k], name)) ==> sel == SELECTOR_NOT_FOUND
  {
    var found := FindFirst(m, name);
    if found == NOT_FOUND then SELECTOR_NOT_FOUND else found
  }

  /**
   * The selector part of processArgs: --card wins over --card-name; a
   * --card value without a number throws EINVALID_PARAMETER; sinks and
   * sources are resolved independently; without either option both
   * selectors stay "no selector".
   */
  function ResolveSelectors(sinks: DeviceList, sources: DeviceList, p: Params): (r: Result<Selectors>)
    ensures r.Err? <==> p.card.Some? && ScanInt(p.card.value).None?
    ensures r.Err? ==> r.error == InvalidParameter
    ensures r.Ok? ==> Selects(sinks, r.value.sink) && Selects(sources, r.value.source)
    ensures r.Ok? && p.card.Some? ==>
      var idx := ToU32(ScanInt(p.card.value).value);
      r.value == Selectors(SelectByIndex(sinks, idx), SelectByIndex(sources, idx))
    ensures p.card.None? && p.cardName.Some? ==>
      r == Ok(Selectors(SelectByName(sinks, p.cardName.value), SelectByName(sources, p.cardName.value)))
    ensures p.card.None? && p.cardName.None? ==> r == Ok(Selectors(NO_SELECTOR, NO_SELECTOR))
  {
    if p.card.Some? then
      match ScanInt(p.card.value)
      case None => Err(InvalidParameter)
      case Some(n) =>
        var idx := ToU32(n);
        Ok(Selectors(SelectByIndex(sinks, idx), SelectByIndex(sources, idx)))
    else if p.cardName.Some? then
      Ok(Selectors(SelectByName(sinks, p.cardName.value), SelectByName(sources, p.cardName.value)))
    else
      Ok(Selectors(NO_SELECTOR, NO_SELECTOR))
  }

  /** --card-name "USB" and --card-name "usb" select the same devices. */
  lemma ResolveIgnoresNameCase(sinks: DeviceList, sources: DeviceList, p: Params, name: string)
    requires p.card.None? && p.cardName.Some? && ToLower(p.cardName.value) == ToLower(name)
    ensures ResolveSelectors(sinks, sources, p) == ResolveSelectors(sinks, sources, p.(cardName := Some(name)))
  {
    FindFirstIgnoresCase(sinks, p.cardName.value, name);
    FindFirstIgnoresCase(sources, p.cardName.value, name);
  }

  /** What processArgs prints and asks PulseAudio to do, in order. */
  datatype Action =
    | PrintHeading(text: string)
    | PrintDevice(device: Device)   // the device's Info() block
    | SetSinkVolume(index: u32, volume: string, channels: seq<int>)

  /** What processArgs did before it returned or threw. */
  datatype Report = Report(actions: seq<Action>, error: Option<Error>)

  /** (bPrint_sinks, bPrint_sources): --list turns on both, otherwise each option its own kind. */
  function ListFlags(p: Params): (r: (bool, bool))
    ensures r.0 <==> p.list || p.listSink
    ensures r.1 <==> p.list || p.listSource
  {
    if p.list then (true, true) else (p.listSink, p.listSource)
  }

  /** The Info() blocks of the devices at `ks`, in that order. */
  function PrintAll(m: DeviceList, ks: seq<u32>): (r: seq<Action>)
    requires forall k | k in ks :: k in m
    ensures |r| == |ks|
  {
    if ks == [] then [] else PrintAll(m, ks[..|ks| - 1]) + [PrintDevice(m[ks[|ks| - 1]])]
  }

  /** PrintAll prints the device at each position of `ks`, and nothing else. */
  lemma {:induction false} PrintAllElements(m: DeviceList, ks: seq<u32>)
    requires forall k | k in ks :: k in m
    ensures forall i :: 0 <= i < |ks| ==> PrintAll(m, ks)[i] == PrintDevice(m[ks[i]])
  {
    if ks != [] {
      PrintAllElements(m, ks[..|ks| - 1]);
    }
  }

  /**
   * The listing of one kind: "not found" throws EINVALID_PARAMETER, no
   * selector prints every device in index order, a found selector prints
   * that device.
   */
  function ListKind(m: DeviceList, sel: u32): (r: Result<seq<Action>>)
    requires Selects(m, sel)
    ensures r.Err? <==> sel == SELECTOR_NOT_FOUND
    ensures r.Err? ==> r.error == InvalidParameter
    ensures sel == NO_SELECTOR ==> r == Ok(PrintAll(m, SortedKeys(m.Keys)))
    ensures sel != NO_SELECTOR && sel != SELECTOR_NOT_FOUND ==> r == Ok([PrintDevice(m[sel])])
  {
    if sel == SELECTOR_NOT_FOUND then Err(InvalidParameter)
    else if sel == NO_SELECTOR then Ok(PrintAll(m, SortedKeys(m.Keys)))
    else Ok([PrintDevice(m[sel])])
  }

  /** One volume change per target sink, in order. */
  function VolumeActions(ts: seq<u32>, volume: string, channels: seq<int>): (r: seq<Action>)
    ensures |r| == |ts|
    ensures forall i :: 0 <= i < |ts| ==> r[i] == SetSinkVolume(ts[i], volume, channels)
  {
    if ts == [] then []
    else VolumeActions(ts[..|ts| - 1], volume, channels) + [SetSinkVolume(ts[|ts| - 1], volume, channels)]
  }

  /**
   * The sinks --set-volume changes: every sink once, in index order, when no
   * selector was given; exactly the selected sink when one was found;
   * EINVALID_PARAMETER when it was not found.
   */
  function VolumeTargets(sinks: DeviceList, sel: u32): (r: Result<seq<u32>>)
    requires Selects(sinks, sel)
    ensures r.Err? <==> sel == SELECTOR_NOT_FOUND
    ensures r.Err? ==> r.error == InvalidParameter
    ensures sel == NO_SELECTOR ==>
      && (forall k :: k in sinks <==> k in r.value)
      && (forall i, j :: 0 <= i < j < |r.value| ==> r.value[i] < r.value[j])
    ensures sel != NO_SELECTOR && sel != SELECTOR_NOT_FOUND ==> r == Ok([sel]) && sel in sinks
  {
    if sel == SELECTOR_NOT_FOUND then Err(InvalidParameter)
    else if sel == NO_SELECTOR then Ok(SortedKeys(sinks.Keys))
    else Ok([sel])
  }

  /** The channel list passed along with a volume change. */
  function Channels(p: Params): (r: seq<int>)
    ensures p.channels.None? ==> r == []
  {
    if p.channels.Some? then ParsedList(p.channels.value + ",") else []
  }

  /** `--channels 0,1` passes the channels 0 and 1, in that order. */
  lemma ChannelsOfList(p: Params, xs: seq<int>)
    requires p.channels == Some(Join(xs))
    ensures Channels(p) == xs
  {
    ParseJoinRoundTrip(xs);
  }

  /**
   * One kind's part of the listing: nothing when the kind is not listed;
   * otherwise its heading (when both kinds are listed) and then its
   * devices, or the heading and EINVALID_PARAMETER when the selector was
   * not found.
   */
  function Section(m: DeviceList, sel: u32, shown: bool, headed: bool, heading: string): (r: Report)
    requires Selects(m, sel)
    ensures r.error.Some? <==> shown && sel == SELECTOR_NOT_FOUND
    ensures r.error.Some? ==> r.error.value == InvalidParameter
    ensures !shown ==> r.actions == []
    ensures shown && headed ==> |r.actions| > 0 && r.actions[0] == PrintHeading(heading)
    ensures shown && sel == SELECTOR_NOT_FOUND ==>
      r.actions == (if headed then [PrintHeading(heading)] else [])
    ensures shown && sel != SELECTOR_NOT_FOUND ==>
      r.actions == (if headed then [PrintHeading(heading)] else []) + ListKind(m, sel).value
  {
    if !shown then Report([], None)
    else
      var h := if headed then [PrintHeading(heading)] else [];
      match ListKind(m, sel)
      case Err(e) => Report(h, Some(e))
      case Ok(listed) => Report(h + listed, None)
  }

  /**
   * The listing stage of processArgs: sinks first, then sources, each kind
   * under a heading when both are listed. A selector that was not found
   * throws; the headings and devices printed before the throw stay printed.
   */
  function ListingSpec(sinks: DeviceList, sources: DeviceList, p: Params, sel: Selectors): (r: Report)
    requires Selects(sinks, sel.sink) && Selects(sources, sel.source)
    ensures r.error.Some? <==>
      (ListFlags(p).0 && sel.sink == SELECTOR_NOT_FOUND) || (ListFlags(p).1 && sel.source == SELECTOR_NOT_FOUND)
    ensures r.error.Some? ==> r.error.value == InvalidParameter
    ensures !ListFlags(p).0 && !ListFlags(p).1 ==> r == Report([], None)
  {
    var (printSinks, printSources) := ListFlags(p);
    var both := printSinks && printSources;
    var sinkPart := Section(sinks, sel.sink, printSinks, both, "sinks:\n\n");
    if sinkPart.error.Some? then sinkPart
    else
      var sourcePart := Section(sources, sel.source, printSources, both, "sources:\n\n");
      Report(sinkPart.actions + sourcePart.actions, sourcePart.error)
  }

  /**
   * The volume stage of processArgs, after the listing: nothing more when
   * the listing threw or no volume was given; otherwise the target sinks'
   * volume changes, or EINVALID_PARAMETER when the selected sink was not
   * found.
   */
  function VolumeStage(sinks: DeviceList, sel: u32, p: Params, listing: Report): (r: Report)
    requires Selects(sinks, sel)
    ensures listing.error.Some? || p.setVolume.None? ==> r == listing
    ensures |listing.actions| <= |r.actions| && r.actions[..|listing.actions|] == listing.actions
    ensures r.error.None? <==> listing.error.None? && (p.setVolume.None? || sel != SELECTOR_NOT_FOUND)
    ensures listing.error.None? && p.setVolume.Some? && sel == SELECTOR_NOT_FOUND ==>
      r == Report(listing.actions, Some(InvalidParameter))
    ensures listing.error.None? && p.setVolume.Some? && sel == NO_SELECTOR ==>
      r.actions == listing.actions + VolumeActions(SortedKeys(sinks.Keys), p.setVolume.value, Channels(p))
    ensures listing.error.None? && p.setVolume.Some? && sel != NO_SELECTOR && sel != SELECTOR_NOT_FOUND ==>
      r.actions == listing.actions + [SetSinkVolume(sel, p.setVolume.value, Channels(p))]
  {
    if listing.error.Some? || p.setVolume.None? then listing
    else
      match VolumeTargets(sinks, sel)
      case Err(e) => Report(listing.actions, Some(e))
      case Ok(ts) => Report(listing.actions + VolumeActions(ts, p.setVolume.value, Channels(p)), None)
  }

  /**
   * processArgs after Init: resolve the selectors, list what was asked
   * for, parse the channel list, then change the volume of the target
   * sinks. A throw ends the run; whatever was printed before it stays
   * printed.
   */
  function ProcessSpec(sinks: DeviceList, sources: DeviceList, p: Params): (r: Report)
    ensures r.error.Some? ==> r.error.value == InvalidParameter
    ensures r.error.None? <==>
      && ResolveSelectors(sinks, sources, p).Ok?
      && var sel := ResolveSelectors(sinks, sources, p).value;
      && !(ListFlags(p).0 && sel.sink == SELECTOR_NOT_FOUND)
      && !(ListFlags(p).1 && sel.source == SELECTOR_NOT_FOUND)
      && !(p.setVolume.Some? && sel.sink == SELECTOR_NOT_FOUND)
  {
    match ResolveSelectors(sinks, sources, p)
    case Err(e) => Report([], Some(e))
    case Ok(sel) => VolumeStage(sinks, sel.sink, p, ListingSpec(sinks, sources, p, sel))
  }

  /**
   * Without a selector and without listing, --set-volume alone changes the
   * sinks in ascending index order and prints nothing.
   */
  lemma SetVolumeWithoutSelector(sinks: DeviceList, sources: DeviceList, p: Params)
    requires p.card.None? && p.cardName.None? && !p.list && !p.listSink && !p.listSource
    requires p.setVolume.Some?
    ensures ProcessSpec(sinks, sources, p) ==
      Report(VolumeActions(SortedKeys(sinks.Keys), p.setVolume.value, Channels(p)), None)
  {
    var sel := Selectors(NO_SELECTOR, NO_SELECTOR);
    assert ResolveSelectors(sinks, sources, p) == Ok(sel);
    assert ListingSpec(sinks, sources, p, sel) == Report([], None);
    var acts := VolumeActions(SortedKeys(sinks.Keys), p.setVolume.value, Channels(p));
    assert [] + acts == acts;
  }

  /** --card <idx> naming an existing sink, with --set-volume alone, changes exactly that sink. */
  lemma SetVolumeOnSelectedSink(sinks: DeviceList, sources: DeviceList, p: Params)
    requires p.card.Some? && ScanInt(p.card.value).Some? && ToU32(ScanInt(p.card.value).value) in sinks
    // a sink at index 0xFFFFFFFF or 0xFFFFFFFE would read as a sentinel
    requires ToU32(ScanInt(p.card.value).value) != NO_SELECTOR
    requires ToU32(ScanInt(p.card.value).value) != SELECTOR_NOT_FOUND
    requires !p.list && !p.listSink && !p.listSource && p.setVolume.Some?
    ensures ProcessSpec(sinks, sources, p) ==
      Report([SetSinkVolume(ToU32(ScanInt(p.card.value).value), p.setVolume.value, Channels(p))], None)
  {
    var idx := ToU32(ScanInt(p.card.value).value);
    var sel := Selectors(idx, SelectByIndex(sources, idx));
    assert ResolveSelectors(sinks, sources, p) == Ok(sel);
    assert ListingSpec(sinks, sources, p, sel) == Report([], None);
    var act := [SetSinkVolume(idx, p.setVolume.value, Channels(p))];
    assert [] + act == act;
  }

  /**
   * --list without a selector prints the "sinks:" heading, every sink in
   * index order, the "sources:" heading and every source in index order,
   * and throws nothing; any volume change comes after that.
   */
  lemma ListEverything(sinks: DeviceList, sources: DeviceList, p: Params)
    requires p.card.None? && p.cardName.None? && p.list
    ensures var listed :=
        [PrintHeading("sinks:\n\n")] + PrintAll(sinks, SortedKeys(sinks.Keys))
        + [PrintHeading("sources:\n\n")] + PrintAll(sources, SortedKeys(sources.Keys));
      var r := ProcessSpec(sinks, sources, p);
      && r.error.None?
      && |listed| <= |r.actions| && r.actions[..|listed|] == listed
      && (p.setVolume.None? ==> r.actions == listed)
  {
    var sel := Selectors(NO_SELECTOR, NO_SELECTOR);
    assert ResolveSelectors(sinks, sources, p) == Ok(sel);
    ListBothKinds(sinks, sources, p);
  }

  /** The listing stage of --list without a selector, on its own. */
  lemma ListBothKinds(sinks: DeviceList, sources: DeviceList, p: Params)
    requires p.list
    ensures ListingSpec(sinks, sources, p, Selectors(NO_SELECTOR, NO_SELECTOR)) ==
      Report([PrintHeading("sinks:\n\n")] + PrintAll(sinks, SortedKeys(sinks.Keys))
        + [PrintHeading("sources:\n\n")] + PrintAll(sources, SortedKeys(sources.Keys)), None)
  {
    var h1, h2 := [PrintHeading("sinks:\n\n")], [PrintHeading("sources:\n\n")];
    var a := PrintAll(sinks, SortedKeys(sinks.Keys));
    var b := PrintAll(sources, SortedKeys(sources.Keys));
    SectionOfAll(sinks, "sinks:\n\n");
    SectionOfAll(sources, "sources:\n\n");
    ConcatRegroup(h1, a, h2, b);
  }

  lemma ConcatRegroup<T>(a: seq<T>, b: seq<T>, c: seq<T>, d: seq<T>)
    ensures (a + b) + (c + d) == a + b + c + d
  {
  }

  /** A headed section without a selector: the heading, then every device in index order. */
  lemma SectionOfAll(m: DeviceList, heading: string)
    ensures Section(m, NO_SELECTOR, true, true, heading) ==
      Report([PrintHeading(heading)] + PrintAll(m, SortedKeys(m.Keys)), None)
  {
  }



  /** Changing every sink in index order touches each sink exactly once and nothing else. */
  lemma EverySinkOnce(sinks: DeviceList, volume: string, channels: seq<int>)
    ensures var acts := VolumeActions(SortedKeys(sinks.Keys), volume, channels);
      && (forall i :: 0 <= i < |acts| ==>
            acts[i] == SetSinkVolume(acts[i].index, volume, channels) && acts[i].index in sinks)
      && (forall i, j :: 0 <= i < j < |acts| ==> acts[i].index < acts[j].index)
      && (forall k :: k in sinks ==> exists i :: 0 <= i < |acts| && acts[i].index == k)
  {
    var ts := SortedKeys(sinks.Keys);
    var acts := VolumeActions(ts, volume, channels);
    forall k | k in sinks
      ensures exists i :: 0 <= i < |acts| && acts[i].index == k
    {
      var i :| 0 <= i < |ts| && ts[i] == k;
      assert acts[i].index == k;
    }
  }

  /** A listed kind whose selector was not found makes processArgs throw EINVALID_PARAMETER. */
  lemma ListingUnknownDeviceThrows(sinks: DeviceList, sources: DeviceList, p: Params)
    requires ResolveSelectors(sinks, sources, p).Ok?
    requires var sel := ResolveSelectors(sinks, sources, p).value;
      (ListFlags(p).0 && sel.sink == SELECTOR_NOT_FOUND)
      || (ListFlags(p).1 && sel.source == SELECTOR_NOT_FOUND)
    ensures ProcessSpec(sinks, sources, p).error == Some(InvalidParameter)
    ensures ProcessSpec(sinks, sources, p) == ListingSpec(sinks, sources, p, ResolveSelectors(sinks, sources, p).value)
  {
  }

  /** One more key prints one more device block at the end. */
  lemma PrintAllSnoc(m: DeviceList, ks: seq<u32>, i: nat)
    requires i < |ks| && forall k | k in ks :: k in m
    ensures PrintAll(m, ks[..i + 1]) == PrintAll(m, ks[..i]) + [PrintDevice(m[ks[i]])]
  {
    assert ks[..i + 1][..i] == ks[..i];
  }

  /** The Info() blocks of every device of `m`, in index order (the std::map iteration). */
  method PrintDevices(m: DeviceList) returns (out: seq<Action>)
    ensures out == PrintAll(m, SortedKeys(m.Keys))
  {
    var ks := SortedKeys(m.Keys);
    out := [];
    for i := 0 to |ks|
      invariant out == PrintAll(m, ks[..i])
    {
      PrintAllSnoc(m, ks, i);
      out := out + [PrintDevice(m[ks[i]])];
    }
    assert ks[..|ks|] == ks;
  }

  /** The "get card" part of processArgs. */
  method GetCard(sinks: DeviceList, sources: DeviceList, p: Params) returns (r: Result<Selectors>)
    ensures r == ResolveSelectors(sinks, sources, p)
  {
    var sinkSel, sourceSel := NO_SELECTOR, NO_SELECTOR;
    if p.card.Some? {
      var cardIdx := ScanInt(p.card.value);
      if cardIdx.None? {
        return Err(InvalidParameter);
      }
      var idx := ToU32(cardIdx.value);
      sinkSel := if Lookup(sinks, idx).Some? then idx else SELECTOR_NOT_FOUND;
      sourceSel := if Lookup(sources, idx).Some? then idx else SELECTOR_NOT_FOUND;
    } else if p.cardName.Some? {
      sinkSel := FindFirst(sinks, p.cardName.value);
      if sinkSel == NOT_FOUND {
        sinkSel := SELECTOR_NOT_FOUND;
      }
      sourceSel := FindFirst(sources, p.cardName.value);
      if sourceSel == NOT_FOUND {
        sourceSel := SELECTOR_NOT_FOUND;
      }
    }
    r := Ok(Selectors(sinkSel, sourceSel));
  }

  /** One kind's part of the "list devices" step of processArgs. */
  method ListSection(m: DeviceList, sel: u32, shown: bool, headed: bool, heading: string) returns (r: Report)
    requires Selects(m, sel)
    ensures r == Section(m, sel, shown, headed, heading)
  {
    if !shown {
      return Report([], None);
    }
    var out := if headed then [PrintHeading(heading)] else [];
    if sel == SELECTOR_NOT_FOUND {
      return Report(out, Some(InvalidParameter));
    } else if sel == NO_SELECTOR {
      var all := PrintDevices(m);
      out := out + all;
    } else {
      out := out + [PrintDevice(m[sel])];
    }
    r := Report(out, None);
  }

  /** One more target adds one more volume change at the end. */
  lemma VolumeActionsSnoc(ts: seq<u32>, i: nat, volume: string, channels: seq<int>)
    requires i < |ts|
    ensures VolumeActions(ts[..i + 1], volume, channels) ==
      VolumeActions(ts[..i], volume, channels) + [SetSinkVolume(ts[i], volume, channels)]
  {
    assert ts[..i + 1][..i] == ts[..i];
  }

  /** The "change volume" part of processArgs. */
  method ChangeVolume(sinks: DeviceList, sel: u32, volume: string, channels: seq<int>)
    returns (r: Result<seq<Action>>)
    requires Selects(sinks, sel)
    ensures r.Err? <==> VolumeTargets(sinks, sel).Err?
    ensures r.Err? ==> r.error == VolumeTargets(sinks, sel).error
    ensures r.Ok? ==> r.value == VolumeActions(VolumeTargets(sinks, sel).value, volume, channels)
  {
    if sel == SELECTOR_NOT_FOUND {
      return Err(InvalidParameter);
    } else if sel == NO_SELECTOR {
      var ks := SortedKeys(sinks.Keys);
      var out := [];
      for i := 0 to |ks|
        invariant out == VolumeActions(ks[..i], volume, channels)
      {
        VolumeActionsSnoc(ks, i, volume, channels);
        out := out + [SetSinkVolume(ks[i], volume, channels)];
      }
      assert ks[..|ks|] == ks;
      r := Ok(out);
    } else {
      r := Ok([SetSinkVolume(sel, volume, channels)]);
    }
  }

  /** The "list devices" step of processArgs. */
  method ListArgs(sinks: DeviceList, sources: DeviceList, p: Params, sel: Selectors) returns (r: Report)
    requires Selects(sinks, sel.sink) && Selects(sources, sel.source)
    ensures r == ListingSpec(sinks, sources, p, sel)
  {
    var (printSinks, printSources) := ListFlags(p);
    var both := printSinks && printSources;
    r := ListSection(sinks, sel.sink, printSinks, both, "sinks:\n\n");
    if r.error.None? {
      var sourcePart := ListSection(sources, sel.source, printSources, both, "sources:\n\n");
      r := Report(r.actions + sourcePart.actions, sourcePart.error);
    }
  }

  /** The "parse channels" and "change volume" steps of processArgs. */
  method VolumeStep(sinks: DeviceList, sel: u32, p: Params, listing: Report) returns (r: Report)
    requires Selects(sinks, sel)
    ensures r == VolumeStage(sinks, sel, p, listing)
  {
    r := listing;
    if listing.error.Some? {
      return;
    }
    var channels := [];
    if p.channels.Some? {
      channels := ParseIntList(p.channels.value, channels);
      assert channels == Channels(p);
    }
    if p.setVolume.Some? {
      var changed := ChangeVolume(sinks, sel, p.setVolume.value, channels);
      if changed.Err? {
        return Report(listing.actions, Some(changed.error));
      }
      r := Report(listing.actions + changed.value, None);
    }
  }

  /** CMain::processArgs, from the point where PulseAudio is initialised. */
  method ProcessArgs(sinks: DeviceList, sources: DeviceList, p: Params)
    returns (out: seq<Action>, err: Option<Error>)
    ensures Report(out, err) == ProcessSpec(sinks, sources, p)
  {
    var resolved := GetCard(sinks, sources, p);
    if resolved.Err? {
      return [], Some(resolved.error);
    }
    var sel := resolved.value;
    var listing := ListArgs(sinks, sources, p, sel);
    var r := VolumeStep(sinks, sel.sink, p, listing);
    out, err := r.actions, r.error;
  }
}
