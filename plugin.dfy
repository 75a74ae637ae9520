/**
 * The XTRX input plugin object: the serial-number parser, the enumeration of
 * the discovered devices as sampling sources, and the two factories that
 * accept only the plugin's own device type. The SDK's discovery call is an
 * input: the device buffer it fills and the count it returns.
 */
module XtrxInputPlugin {
  import opened Base
  import opened XtrxInputSettings
  import opened XtrxPanel
  import opened XtrxInputGui

  /** `m_hardwareID`. */
  const HARDWARE_ID: string := "XTRX"

  /** Size of the device buffer handed to the discovery call. */
  const MAX_DISCOVERED: nat := 32

  // ---------------------------------------------------------------------------
  // C strings

  /** The string a `const char *` denotes: the characters before the first NUL. */
  function CString(chars: seq<char>): (s: string)
    ensures |s| <= |chars| && s == chars[..|s|]
    ensures |s| == |chars| || chars[|s|] == '\0'
    ensures forall k :: 0 <= k < |s| ==> s[k] != '\0'
  {
    if chars == [] || chars[0] == '\0' then [] else [chars[0]] + CString(chars[1..])
  }

  /** A prefix without NUL is kept whole, and the C string goes on with what follows it. */
  lemma {:induction false} CStringPrefix(a: seq<char>, b: seq<char>)
    requires forall k :: 0 <= k < |a| ==> a[k] != '\0'
    ensures CString(a + b) == a + CString(b)
    decreases |a|
  {
    if a == [] {
      assert a + b == b;
    } else {
      assert (a + b)[1..] == a[1..] + b;
      CStringPrefix(a[1..], b);
      assert [a[0]] + (a[1..] + CString(b)) == a + CString(b);
    }
  }

  // ---------------------------------------------------------------------------
  // findSerial: a leftmost match of `serial=([0-9,A-F]+)`

  const SERIAL_KEY: string := "serial="

  /** The bracket class of the pattern: decimal digits, the comma, and `A` to `F`. */
  predicate IsSerialChar(c: char)
  {
    ('0' <= c <= '9') || c == ',' || ('A' <= c <= 'F')
  }

  /** The whole pattern matches from position `i`: the key, then at least one class character. */
  predicate QualifiesAt(s: string, i: int)
  {
    0 <= i && i + |SERIAL_KEY| < |s| && s[i..i + |SERIAL_KEY|] == SERIAL_KEY && IsSerialChar(s[i + |SERIAL_KEY|])
  }

  /** The end of the maximal run of class characters starting at `j` (the greedy `+`). */
  function RunEnd(s: string, j: nat): (e: nat)
    requires j <= |s|
    ensures j <= e <= |s|
    ensures forall k :: j <= k < e ==> IsSerialChar(s[k])
    ensures e == |s| || !IsSerialChar(s[e])
    decreases |s| - j
  {
    if j < |s| && IsSerialChar(s[j]) then RunEnd(s, j + 1) else j
  }

  /** The first position from `i` on where the pattern matches, as the regex search tries them. */
  function LeftmostMatch(s: string, i: nat): (r: Option<nat>)
    requires i <= |s|
    ensures r.Some? ==> i <= r.value < |s| && QualifiesAt(s, r.value)
    ensures r.Some? ==> forall k :: i <= k < r.value ==> !QualifiesAt(s, k)
    ensures r.None? ==> forall k :: i <= k < |s| ==> !QualifiesAt(s, k)
    decreases |s| - i
  {
    if i + |SERIAL_KEY| >= |s| then None
    else if QualifiesAt(s, i) then Some(i)
    else LeftmostMatch(s, i + 1)
  }

  /** `i` is the first position where the pattern matches. */
  predicate IsLeftmostMatch(s: string, i: int)
  {
    QualifiesAt(s, i) && forall h :: 0 <= h < i ==> !QualifiesAt(s, h)
  }

  /** `run` is the whole run of class characters that starts at `start` in `s`. */
  predicate IsMaximalRun(s: string, start: int, run: string)
  {
    && 0 <= start && start + |run| <= |s| && s[start..start + |run|] == run
    && (forall k :: 0 <= k < |run| ==> IsSerialChar(run[k]))
    && (start + |run| == |s| || !IsSerialChar(s[start + |run|]))
  }

  /**
   * `findSerial(lmsInfoStr, serial)`: the returned pair is the function's
   * result and the new value of the `serial` out-parameter. It finds a
   * serial iff the pattern matches somewhere; the serial is then the whole
   * run of class characters after the leftmost matching key, so it is never
   * empty; otherwise `serial` keeps its value.
   */
  function FindSerial(lmsInfoStr: seq<char>, serial: string): (r: (bool, string))
    ensures r.0 ==> exists i :: 0 <= i < |CString(lmsInfoStr)| && QualifiesAt(CString(lmsInfoStr), i)
    ensures (exists i :: 0 <= i < |CString(lmsInfoStr)| && QualifiesAt(CString(lmsInfoStr), i)) ==> r.0
    ensures !r.0 ==> r.1 == serial
    ensures r.0 ==> |r.1| > 0
    ensures r.0 ==> exists i :: IsLeftmostMatch(CString(lmsInfoStr), i)
                               && IsMaximalRun(CString(lmsInfoStr), i + |SERIAL_KEY|, r.1)
  {
    var s := CString(lmsInfoStr);
    var m := LeftmostMatch(s, 0);
    if m.Some? then
      var start := m.value + |SERIAL_KEY|;
      var e := RunEnd(s, start);
      var run := s[start..e];
      assert 0 <= m.value < |s| && QualifiesAt(s, m.value);
      assert IsLeftmostMatch(s, m.value);
      assert IsMaximalRun(s, start, run) by {
        assert start + |run| == e;
        forall k | 0 <= k < |run|
          ensures IsSerialChar(run[k])
        {
          assert run[k] == s[start + k];
        }
      }
      (true, run)
    else
      (false, serial)
  }

  /**
   * Text that starts with the key and a run of class characters yields that
   * run, whatever follows the first character outside the class (a NUL,
   * another key, anything).
   */
  lemma FindSerialAtFront(info: seq<char>, run: string, rest: seq<char>, serial: string)
    requires |run| > 0 && forall k :: 0 <= k < |run| ==> IsSerialChar(run[k])
    requires rest == [] || !IsSerialChar(rest[0])
    requires info == SERIAL_KEY + run + rest
    ensures FindSerial(info, serial) == (true, run)
  {
    var a := SERIAL_KEY + run;
    assert info == a + rest;
    forall k | 0 <= k < |a|
      ensures a[k] != '\0'
    {
      if k >= |SERIAL_KEY| {
        assert a[k] == run[k - |SERIAL_KEY|];
      }
    }
    CStringPrefix(a, rest);
    var tail := CString(rest);
    assert tail == [] || tail[0] == rest[0];
    MatchAtFront(a + tail, run, tail);
  }

  lemma MatchAtFront(s: string, run: string, tail: string)
    requires |run| > 0 && forall k :: 0 <= k < |run| ==> IsSerialChar(run[k])
    requires tail == [] || !IsSerialChar(tail[0])
    requires s == SERIAL_KEY + run + tail
    ensures LeftmostMatch(s, 0) == Some(0)
    ensures RunEnd(s, |SERIAL_KEY|) == |SERIAL_KEY| + |run|
    ensures s[|SERIAL_KEY|..|SERIAL_KEY| + |run|] == run
  {
    var n := |SERIAL_KEY|;
    assert s[0..n] == SERIAL_KEY && s[n] == run[0];
    assert QualifiesAt(s, 0);
    forall k | n <= k < n + |run|
      ensures IsSerialChar(s[k])
    {
      assert s[k] == run[k - n];
    }
    if n + |run| < |s| {
      assert s[n + |run|] == tail[0];
    }
    RunTo(s, n, n + |run|);
    assert s[n..n + |run|] == run;
  }

  /**
   * Text in which every occurrence of the key is followed by a character
   * outside the class, or by the end, has no match, and `serial` is kept.
   */
  lemma FindSerialNeedsOneClassChar(info: seq<char>, serial: string)
    requires forall i :: KeyAt(CString(info), i) && i + |SERIAL_KEY| < |CString(info)|
                     ==> !IsSerialChar(CString(info)[i + |SERIAL_KEY|])
    ensures FindSerial(info, serial) == (false, serial)
  {
    var s := CString(info);
    forall i | 0 <= i < |s|
      ensures !QualifiesAt(s, i)
    {
      assert QualifiesAt(s, i) ==> KeyAt(s, i);
    }
  }

  /** The key occurs in `s` at position `i`. */
  predicate KeyAt(s: string, i: int)
  {
    0 <= i && i + |SERIAL_KEY| <= |s| && s[i..i + |SERIAL_KEY|] == SERIAL_KEY
  }

  lemma {:induction false} RunTo(s: string, j: nat, e: nat)
    requires j <= e <= |s|
    requires forall k :: j <= k < e ==> IsSerialChar(s[k])
    requires e == |s| || !IsSerialChar(s[e])
    ensures RunEnd(s, j) == e
    decreases e - j
  {
    if j < e {
      RunTo(s, j + 1, e);
    }
  }

  // ---------------------------------------------------------------------------
  // Displayed names

  predicate IsDigit(c: char)
  {
    '0' <= c <= '9'
  }

  predicate AllDigits(s: string)
  {
    forall k :: 0 <= k < |s| ==> IsDigit(s[k])
  }

  function DigitChar(d: nat): (c: char)
    requires d < 10
    ensures IsDigit(c)
  {
    ('0' as int + d) as char
  }

  /** The decimal representation of `n`, as `QString::arg` writes an integer. */
  function Decimal(n: nat): (s: string)
    ensures |s| >= 1 && AllDigits(s)
  {
    if n < 10 then [DigitChar(n)] else Decimal(n / 10) + [DigitChar(n % 10)]
  }

  /** The value of a digit string (the reference against which `Decimal` is proved). */
  function DecimalValue(s: string): nat
    requires AllDigits(s)
  {
    if s == [] then 0 else DecimalValue(s[..|s| - 1]) * 10 + (s[|s| - 1] as int - '0' as int)
  }

  lemma {:induction false} DecimalRoundTrip(n: nat)
    ensures DecimalValue(Decimal(n)) == n
  {
    if n < 10 {
      assert Decimal(n)[..0] == [];
    } else {
      var d := Decimal(n / 10);
      assert (d + [DigitChar(n % 10)])[..|d|] == d;
      DecimalRoundTrip(n / 10);
    }
  }

  lemma DecimalInjective(a: nat, b: nat)
    requires Decimal(a) == Decimal(b)
    ensures a == b
  {
    DecimalRoundTrip(a);
    DecimalRoundTrip(b);
  }

  /** `QString("XTRX[%1:%2] %3").arg(i).arg(j).arg(uniqname)`. */
  function DisplayedName(i: nat, j: nat, uniqname: string): (r: string)
  {
    "XTRX[" + (Decimal(i) + [':'] + (Decimal(j) + [']'] + (" " + uniqname)))
  }

  /** A displayed name starts with `XTRX[` and ends with the device's unique name. */
  lemma DisplayedNameShape(i: nat, j: nat, uniqname: string)
    ensures var r := DisplayedName(i, j, uniqname);
      |r| > 8 + |uniqname| && r[..5] == "XTRX[" && r[|r| - |uniqname|..] == uniqname
  {
    var r := DisplayedName(i, j, uniqname);
    var x := Decimal(i) + [':'] + (Decimal(j) + [']'] + (" " + uniqname));
    assert r == "XTRX[" + x;
    assert r[|r| - |uniqname|..] == (" " + uniqname)[1..];
  }

  /** The number of digits at the front of `s`. */
  function LeadingDigits(s: string): (n: nat)
    ensures n <= |s|
  {
    if s != [] && IsDigit(s[0]) then 1 + LeadingDigits(s[1..]) else 0
  }

  lemma {:induction false} LeadingDigitsOf(a: string, c: char, x: string)
    requires AllDigits(a) && !IsDigit(c)
    ensures LeadingDigits(a + [c] + x) == |a|
  {
    if a != [] {
      assert (a + [c] + x)[1..] == a[1..] + [c] + x;
      LeadingDigitsOf(a[1..], c, x);
    }
  }

  /** A digit string ended by a non-digit is recovered from the front of any text it starts. */
  lemma SplitAtNonDigit(a: string, b: string, c: char, x: string, y: string)
    requires AllDigits(a) && AllDigits(b) && !IsDigit(c)
    requires a + [c] + x == b + [c] + y
    ensures a == b && x == y
  {
    var u := a + [c] + x;
    LeadingDigitsOf(a, c, x);
    LeadingDigitsOf(b, c, y);
    assert a == u[..|a|];
    assert b == (b + [c] + y)[..|b|];
    assert x == u[|a| + 1..];
    assert y == (b + [c] + y)[|b| + 1..];
  }

  /** Two devices or two channels never share a displayed name. */
  lemma DisplayedNameInjective(i: nat, j: nat, u: string, i': nat, j': nat, u': string)
    requires DisplayedName(i, j, u) == DisplayedName(i', j', u')
    ensures i == i' && j == j' && u == u'
  {
    var x := Decimal(i) + [':'] + (Decimal(j) + [']'] + (" " + u));
    var x' := Decimal(i') + [':'] + (Decimal(j') + [']'] + (" " + u'));
    assert x == ("XTRX[" + x)[5..] && x' == ("XTRX[" + x')[5..];
    FieldsInjective(Decimal(i), Decimal(j), " " + u, Decimal(i'), Decimal(j'), " " + u');
    assert u == (" " + u)[1..] && u' == (" " + u')[1..];
    DecimalInjective(i, i');
    DecimalInjective(j, j');
  }

  /** Two digit strings separated by `:` and ended by `]` are recovered from the text they start. */
  lemma FieldsInjective(a: string, b: string, x: string, a': string, b': string, x': string)
    requires AllDigits(a) && AllDigits(b) && AllDigits(a') && AllDigits(b')
    requires a + [':'] + (b + [']'] + x) == a' + [':'] + (b' + [']'] + x')
    ensures a == a' && b == b' && x == x'
  {
    SplitAtNonDigit(a, a', ':', b + [']'] + x, b' + [']'] + x');
    SplitAtNonDigit(b, b', ']', x, x');
  }

  // ---------------------------------------------------------------------------
  // enumSampleSources

  /** One entry of the discovery buffer (`xtrx_device_info_t`): its NUL-terminated unique name. */
  datatype DiscoveredDevice = DiscoveredDevice(uniqname: seq<char>)

  datatype SamplingDeviceType = PhysicalDevice | BuiltInDevice

  /** `PluginInterface::SamplingDevice`. */
  datatype SamplingDevice = SamplingDevice(
    displayedName: string,
    hardwareId: string,
    id: string,
    serial: string,
    sequence: int,
    deviceType: SamplingDeviceType,
    rxElseTx: bool,
    deviceNbItems: int,
    deviceItemIndex: int)

  /** The entry for channel `j` of discovered device `i`. */
  function Entry(deviceTypeId: string, nbRxChannels: uint32, devs: seq<DiscoveredDevice>, i: nat, j: nat): (e: SamplingDevice)
    requires i < |devs|
  {
    var name := CString(devs[i].uniqname);
    SamplingDevice(DisplayedName(i, j, name), HARDWARE_ID, deviceTypeId, name, i,
                   PhysicalDevice, true, nbRxChannels, j)
  }

  /** The entries for the first `m` channels of device `i`. */
  function Row(deviceTypeId: string, nbRxChannels: uint32, devs: seq<DiscoveredDevice>, i: nat, m: nat): (r: seq<SamplingDevice>)
    requires i < |devs|
    ensures |r| == m
  {
    if m == 0 then [] else Row(deviceTypeId, nbRxChannels, devs, i, m - 1) + [Entry(deviceTypeId, nbRxChannels, devs, i, m - 1)]
  }

  /** Every channel of the first `n` devices, device-major and channel-minor. */
  function Listing(deviceTypeId: string, nbRxChannels: uint32, devs: seq<DiscoveredDevice>, n: nat): seq<SamplingDevice>
    requires n <= |devs|
  {
    if n == 0 then [] else Listing(deviceTypeId, nbRxChannels, devs, n - 1) + Row(deviceTypeId, nbRxChannels, devs, n - 1, nbRxChannels)
  }

  /**
   * `enumSampleSources`, with the discovery call's buffer and result given
   * as `devs` and `res` (a negative `res` is an error and lists nothing).
   * The number of channels per device is a parameter.
   */
  method EnumSampleSources(deviceTypeId: string, nbRxChannels: uint32, devs: seq<DiscoveredDevice>, res: int)
    returns (result: seq<SamplingDevice>)
    requires |devs| == MAX_DISCOVERED && res <= MAX_DISCOVERED
    ensures result == Listing(deviceTypeId, nbRxChannels, devs, if res > 0 then res else 0)
    ensures |result| == (if res > 0 then res else 0) * nbRxChannels
    ensures res <= 0 ==> result == []
  {
    result := [];
    var i: int := 0;
    while i < res
      invariant 0 <= i <= (if res > 0 then res else 0)
      invariant result == Listing(deviceTypeId, nbRxChannels, devs, i)
    {
      var j: int := 0;
      while j < nbRxChannels
        invariant 0 <= j <= nbRxChannels
        invariant result == Listing(deviceTypeId, nbRxChannels, devs, i) + Row(deviceTypeId, nbRxChannels, devs, i, j)
      {
        var name := CString(devs[i].uniqname);
        result := result + [SamplingDevice(DisplayedName(i, j, name), HARDWARE_ID, deviceTypeId, name, i,
                                           PhysicalDevice, true, nbRxChannels, j)];
        j := j + 1;
      }
      i := i + 1;
    }
    ListingLength(deviceTypeId, nbRxChannels, devs, i);
  }

  lemma {:induction false} RowAt(deviceTypeId: string, nbRxChannels: uint32, devs: seq<DiscoveredDevice>, i: nat, m: nat, j: nat)
    requires i < |devs| && j < m
    ensures Row(deviceTypeId, nbRxChannels, devs, i, m)[j] == Entry(deviceTypeId, nbRxChannels, devs, i, j)
  {
    if j < m - 1 {
      RowAt(deviceTypeId, nbRxChannels, devs, i, m - 1, j);
    }
  }

  /** `n` devices give `n` times the channel count entries. */
  lemma {:induction false} ListingLength(deviceTypeId: string, nbRxChannels: uint32, devs: seq<DiscoveredDevice>, n: nat)
    requires n <= |devs|
    ensures |Listing(deviceTypeId, nbRxChannels, devs, n)| == n * nbRxChannels
  {
    if n > 0 {
      ListingLength(deviceTypeId, nbRxChannels, devs, n - 1);
      assert n * nbRxChannels == (n - 1) * nbRxChannels + nbRxChannels;
    }
  }

  /** The listing of fewer devices is a prefix of the listing of more. */
  lemma {:induction false} ListingPrefix(deviceTypeId: string, nbRxChannels: uint32, devs: seq<DiscoveredDevice>, m: nat, n: nat)
    requires m <= n <= |devs|
    ensures |Listing(deviceTypeId, nbRxChannels, devs, m)| <= |Listing(deviceTypeId, nbRxChannels, devs, n)|
    ensures Listing(deviceTypeId, nbRxChannels, devs, n)[..|Listing(deviceTypeId, nbRxChannels, devs, m)|]
         == Listing(deviceTypeId, nbRxChannels, devs, m)
    decreases n - m
  {
    var lm := Listing(deviceTypeId, nbRxChannels, devs, m);
    if m < n {
      ListingPrefix(deviceTypeId, nbRxChannels, devs, m, n - 1);
      var prev := Listing(deviceTypeId, nbRxChannels, devs, n - 1);
      var row := Row(deviceTypeId, nbRxChannels, devs, n - 1, nbRxChannels);
      assert (prev + row)[..|lm|] == prev[..|lm|];
    } else {
      assert lm[..|lm|] == lm;
    }
  }

  /** Entry `i * nbRxChannels + j` of the listing is channel `j` of device `i`. */
  lemma ListingAt(deviceTypeId: string, nbRxChannels: uint32, devs: seq<DiscoveredDevice>, n: nat, i: nat, j: nat)
    requires n <= |devs| && i < n && j < nbRxChannels
    ensures i * nbRxChannels + j < |Listing(deviceTypeId, nbRxChannels, devs, n)|
    ensures Listing(deviceTypeId, nbRxChannels, devs, n)[i * nbRxChannels + j] == Entry(deviceTypeId, nbRxChannels, devs, i, j)
  {
    var li := Listing(deviceTypeId, nbRxChannels, devs, i);
    var row := Row(deviceTypeId, nbRxChannels, devs, i, nbRxChannels);
    var ln := Listing(deviceTypeId, nbRxChannels, devs, n);
    assert Listing(deviceTypeId, nbRxChannels, devs, i + 1) == li + row;
    RowAt(deviceTypeId, nbRxChannels, devs, i, nbRxChannels, j);
    ListingLength(deviceTypeId, nbRxChannels, devs, i);
    ListingPrefix(deviceTypeId, nbRxChannels, devs, i + 1, n);
    var k := |li| + j;
    assert k < |li + row| && (li + row)[k] == row[j];
    assert ln[..|li + row|][k] == ln[k];
    assert k == i * nbRxChannels + j;
  }

  /** `e` is the sampling device for channel `j` of device `i`, field by field. */
  predicate DescribesChannel(e: SamplingDevice, deviceTypeId: string, nbRxChannels: uint32, devs: seq<DiscoveredDevice>, i: nat, j: nat)
    requires i < |devs|
  {
    && e.sequence == i && e.deviceItemIndex == j && e.deviceNbItems == nbRxChannels
    && e.serial == CString(devs[i].uniqname)
    && e.displayedName == DisplayedName(i, j, CString(devs[i].uniqname))
    && e.hardwareId == HARDWARE_ID && e.id == deviceTypeId
    && e.deviceType == PhysicalDevice && e.rxElseTx
  }

  /**
   * The listing's entry for channel `j` of device `i` carries sequence `i`,
   * channel `j`, the device's unique name, the displayed name and the
   * plugin's identifiers.
   */
  lemma ListingEntryFields(deviceTypeId: string, nbRxChannels: uint32, devs: seq<DiscoveredDevice>, n: nat, i: nat, j: nat)
    requires n <= |devs| && i < n && j < nbRxChannels
    ensures i * nbRxChannels + j < |Listing(deviceTypeId, nbRxChannels, devs, n)|
    ensures DescribesChannel(Listing(deviceTypeId, nbRxChannels, devs, n)[i * nbRxChannels + j],
                             deviceTypeId, nbRxChannels, devs, i, j)
  {
    ListingAt(deviceTypeId, nbRxChannels, devs, n, i, j);
  }

  lemma MulMonotone(a: nat, b: nat, c: nat)
    requires a <= b
    ensures a * c <= b * c
  {
  }

  /** Entries of two different channels never share a displayed name. */
  lemma ListingEntries(deviceTypeId: string, nbRxChannels: uint32, devs: seq<DiscoveredDevice>, i: nat, j: nat, i': nat, j': nat)
    requires i < |devs| && i' < |devs|
    requires Entry(deviceTypeId, nbRxChannels, devs, i, j).displayedName
          == Entry(deviceTypeId, nbRxChannels, devs, i', j').displayedName
    ensures i == i' && j == j'
  {
    DisplayedNameInjective(i, j, CString(devs[i].uniqname), i', j', CString(devs[i'].uniqname));
  }

  /** No two positions of a listing carry the same displayed name. */
  lemma ListingNamesDistinct(deviceTypeId: string, nbRxChannels: uint32, devs: seq<DiscoveredDevice>, n: nat, k: nat, k': nat)
    requires n <= |devs| && k < |Listing(deviceTypeId, nbRxChannels, devs, n)|
    requires k' < |Listing(deviceTypeId, nbRxChannels, devs, n)| && k != k'
    ensures Listing(deviceTypeId, nbRxChannels, devs, n)[k].displayedName
         != Listing(deviceTypeId, nbRxChannels, devs, n)[k'].displayedName
  {
    ListingLength(deviceTypeId, nbRxChannels, devs, n);
    var i, j := PositionOf(n, nbRxChannels, k);
    var i', j' := PositionOf(n, nbRxChannels, k');
    ListingAt(deviceTypeId, nbRxChannels, devs, n, i, j);
    ListingAt(deviceTypeId, nbRxChannels, devs, n, i', j');
    if Entry(deviceTypeId, nbRxChannels, devs, i, j).displayedName
       == Entry(deviceTypeId, nbRxChannels, devs, i', j').displayedName {
      ListingEntries(deviceTypeId, nbRxChannels, devs, i, j, i', j');
    }
  }

  /** A position below `n * nb` is channel `j` of device `i` for some `i < n` and `j < nb`. */
  lemma PositionOf(n: nat, nb: nat, k: nat) returns (i: nat, j: nat)
    requires k < n * nb
    ensures i < n && j < nb && k == i * nb + j
  {
    i := k / nb;
    j := k % nb;
    if i >= n {
      MulMonotone(n, i, nb);
    }
  }

  // ---------------------------------------------------------------------------
  // Factories

  /** A device source instance, bound to the device API it was created for. */
  datatype InputInstance = XtrxInput(deviceApi: nat)

  /** `createSampleSourcePluginInstanceInput`: an input device only for the plugin's own type. */
  function CreateSampleSourcePluginInstanceInput(deviceTypeId: string, sourceId: string, deviceApi: nat): (r: Option<InputInstance>)
    ensures r.Some? <==> sourceId == deviceTypeId
    ensures r.Some? ==> r.value.deviceApi == deviceApi
  {
    if sourceId == deviceTypeId then Some(XtrxInput(deviceApi)) else None
  }

  /**
   * `createSampleSourcePluginInstanceGUI`: a new settings panel only for the
   * plugin's own type; the same panel is stored in the `widget`
   * out-parameter, which is left as it was otherwise.
   */
  method CreateSampleSourcePluginInstanceGui(deviceTypeId: string, sourceId: string, initialSettings: Settings, widgetIn: InputGui?)
    returns (gui: InputGui?, widget: InputGui?)
    ensures gui != null <==> sourceId == deviceTypeId
    ensures gui != null ==> fresh(gui) && widget == gui && gui.inbox == []
    ensures gui != null ==> gui.Snapshot() == Panel(initialSettings, true, true, false, 0, 0, UNKNOWN_ENGINE_STATE, 0, gui.deviceCenterFrequency, [])
    ensures gui == null ==> widget == widgetIn
  {
    if sourceId == deviceTypeId {
      gui := new InputGui(initialSettings);
      widget := gui;
    } else {
      gui := null;
      widget := widgetIn;
    }
  }
}
