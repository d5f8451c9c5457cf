/** How the legacy front end reads its configuration back into the form:
    the normalisers for the frequency unit, the trigger mode, the
    connection mode and the LAN address, and the column choice of the
    result export. */
module UiConfig {
  import opened Wrappers
  import opened Text
  import DeviceMng

  // ---------------------------------------------------------------------
  // Frequency unit.

  const Hz: string := "Hz"
  const KHz: string := "KHz"
  const MHz: string := "MHz"
  const GHz: string := "GHz"

  /** The unit text with blanks removed and lower-cased; a 'g' anywhere
      means GHz, else an 'm' MHz, else a 'k' KHz, and anything else Hz. */
  function FreqUnitOf(text: string): (u: string)
    ensures u in {Hz, KHz, MHz, GHz}
    ensures var t := Lower(RemoveSpaces(text));
      && (u == GHz <==> 'g' in t)
      && (u == MHz <==> 'g' !in t && 'm' in t)
      && (u == KHz <==> 'g' !in t && 'm' !in t && 'k' in t)
  {
    var t := Lower(RemoveSpaces(text));
    if 'g' in t then GHz
    else if 'm' in t then MHz
    else if 'k' in t then KHz
    else Hz
  }

  /** Each unit label reads back as itself, so normalising twice is
      normalising once. */
  lemma FreqUnitIdempotent(text: string)
    ensures FreqUnitOf(FreqUnitOf(text)) == FreqUnitOf(text)
  {
    var u := FreqUnitOf(text);
    if u == GHz {
      GHzReads();
    } else if u == MHz {
      MHzReads();
    } else if u == KHz {
      KHzReads();
    } else {
      HzReads();
    }
  }

  lemma GHzReads()
    ensures FreqUnitOf(GHz) == GHz
  {
    UnitReads(GHz, "ghz");
    assert "ghz"[0] == 'g';
  }

  lemma MHzReads()
    ensures FreqUnitOf(MHz) == MHz
  {
    UnitReads(MHz, "mhz");
    assert "mhz"[0] == 'm' && forall i :: 0 <= i < 3 ==> "mhz"[i] != 'g';
  }

  lemma KHzReads()
    ensures FreqUnitOf(KHz) == KHz
  {
    UnitReads(KHz, "khz");
    assert "khz"[0] == 'k' && forall i :: 0 <= i < 3 ==> "khz"[i] != 'g' && "khz"[i] != 'm';
  }

  lemma HzReads()
    ensures FreqUnitOf(Hz) == Hz
  {
    UnitReads(Hz, "hz");
    assert forall i :: 0 <= i < 2 ==> "hz"[i] != 'g' && "hz"[i] != 'm' && "hz"[i] != 'k';
  }

  /** A unit label as `FreqUnitOf` sees it: blanks removed, lower-cased. */
  lemma UnitReads(u: string, t: string)
    requires u in {Hz, KHz, MHz, GHz} && t == Lower(u)
    ensures Lower(RemoveSpaces(u)) == t
  {
    assert NoSpace(u) by {
      assert u == Hz || u == KHz || u == MHz || u == GHz;
    }
    assert RemoveSpaces(u) == u;
  }

  // ---------------------------------------------------------------------
  // Trigger mode.

  const FreeRun: string := "free run"
  const Triggered: string := "triggered"

  /** The labels as the comparison sees them: lower-cased, blanks removed. */
  const FreeRunKey: string := "freerun"
  const TriggeredKey: string := "triggered"

  /** Blanks and case are ignored; "triggered" selects triggered mode and
      everything else, "free run" included, selects free run. */
  function TrigModeOf(text: string): (m: string)
    ensures m == FreeRun || m == Triggered
    ensures m == Triggered <==> Lower(RemoveSpaces(text)) == "triggered"
  {
    var t := Lower(RemoveSpaces(text));
    if t == FreeRunKey then FreeRun
    else if t == TriggeredKey then Triggered
    else FreeRun
  }

  lemma TrigModeIdempotent(text: string)
    ensures TrigModeOf(TrigModeOf(text)) == TrigModeOf(text)
  {
    var m := TrigModeOf(text);
    if m == FreeRun {
      assert RemoveSpaces(FreeRun) == [FreeRun[0]] + RemoveSpaces(FreeRun[1..]);
      assert Lower(RemoveSpaces(FreeRun))[0] == 'f';
    } else {
      AllLowerKept(Triggered);
    }
  }

  /** A word of lower-case letters is its own lower-case form and has no
      blanks. */
  lemma AllLowerKept(w: string)
    requires forall i :: 0 <= i < |w| ==> 'a' <= w[i] <= 'z'
    ensures RemoveSpaces(w) == w && Lower(w) == w
  {
    assert NoSpace(w);
    assert forall i :: 0 <= i < |w| ==> Lower(w)[i] == w[i];
  }

  // ---------------------------------------------------------------------
  // Connection mode.

  const AutoLabel: string := "Auto"
  const LanLabel: string := "LAN"

  /** The labels lower-cased, as the comparison sees them. */
  const AutoKey: string := "auto"
  const LanKey: string := "lan"

  /** The letters of `s`, in order. */
  function Letters(s: string): (r: string)
    ensures forall i :: 0 <= i < |r| ==> IsLetter(r[i])
    ensures forall c :: c in s && IsLetter(c) ==> c in r
    ensures (forall i :: 0 <= i < |s| ==> IsLetter(s[i])) ==> r == s
  {
    if s == [] then []
    else if IsLetter(s[0]) then [s[0]] + Letters(s[1..])
    else Letters(s[1..])
  }

  /** Only the letters count, in any case: "lan" selects LAN and
      everything else, "auto" included, selects Auto. */
  function ConnectModeOf(text: string): (m: string)
    ensures m == AutoLabel || m == LanLabel
    ensures m == LanLabel <==> Lower(Letters(text)) == "lan"
  {
    var t := Lower(Letters(text));
    if t == AutoKey then AutoLabel
    else if t == LanKey then LanLabel
    else AutoLabel
  }

  lemma ConnectModeIdempotent(text: string)
    ensures ConnectModeOf(ConnectModeOf(text)) == ConnectModeOf(text)
  {
    if ConnectModeOf(text) == LanLabel {
      LanLabelReads();
    } else {
      AutoLabelReads();
    }
  }

  lemma LanLabelReads()
    ensures ConnectModeOf(LanLabel) == LanLabel
  {
    var m := LanLabel;
    assert forall i :: 0 <= i < |m| ==> IsLetter(m[i]);
    assert Lower(Letters(m)) == Lower(m);
    assert forall i :: 0 <= i < 3 ==> Lower(m)[i] == LanKey[i];
  }

  lemma AutoLabelReads()
    ensures ConnectModeOf(AutoLabel) == AutoLabel
  {
    var m := AutoLabel;
    assert Lower(m)[0] == 'a';
  }

  // ---------------------------------------------------------------------
  // LAN address: `re.search(r"(\d{1,3})\.?(\d{1,3})\.?(\d{1,3})\.?(\d{1,3})", ip)`.

  /** A group of the pattern: one to three ASCII digits. */
  predicate IsOctet(g: string) {
    1 <= |g| <= 3 && AllDigits(g)
  }

  /** `n` groups matched at the start of `t`, the first one at most `len`
      digits long, in the order the backtracking matcher tries them:
      longer groups first, then shorter. */
  function Groups(t: string, n: nat, len: nat): (r: Option<seq<string>>)
    requires 1 <= n && len <= 3
    ensures r.Some? ==> |r.value| == n && forall k :: 0 <= k < n ==> IsOctet(r.value[k])
    decreases n, 1, len
  {
    if len == 0 then None
    else if len <= |t| && AllDigits(t[..len]) then
      if n == 1 then Some([t[..len]])
      else
        match AfterGroup(t[len..], n - 1)
        case Some(rest) => Some([t[..len]] + rest)
        case None => Groups(t, n, len - 1)
    else Groups(t, n, len - 1)
  }

  /** The optional dot before the next group: taken if present, and
      given back if the groups after it fail. */
  function AfterGroup(t: string, n: nat): (r: Option<seq<string>>)
    requires 1 <= n
    ensures r.Some? ==> |r.value| == n && forall k :: 0 <= k < n ==> IsOctet(r.value[k])
    decreases n, 2, 0
  {
    if t != [] && t[0] == '.' then
      match Groups(t[1..], n, 3)
      case Some(g) => Some(g)
      case None => Groups(t, n, 3)
    else Groups(t, n, 3)
  }

  /** `re.search`: the match at the leftmost position where one exists. */
  function Search(s: string): (r: Option<seq<string>>)
    ensures r.Some? ==> |r.value| == 4 && forall k :: 0 <= k < 4 ==> IsOctet(r.value[k])
  {
    match Groups(s, 4, 3)
    case Some(g) => Some(g)
    case None => if s == [] then None else Search(s[1..])
  }

  /** The search answers with the match at the first position of `s`
      where the pattern matches, and finds none exactly when it matches
      nowhere. */
  lemma {:induction false} SearchIsLeftmost(s: string)
    ensures Search(s).None? <==> forall p :: 0 <= p <= |s| ==> Groups(s[p..], 4, 3).None?
    ensures Search(s).Some? ==> exists p ::
      && 0 <= p <= |s| && Groups(s[p..], 4, 3) == Search(s)
      && forall q :: 0 <= q < p ==> Groups(s[q..], 4, 3).None?
  {
    assert s[0..] == s;
    if Groups(s, 4, 3).None? && s != [] {
      SearchIsLeftmost(s[1..]);
      assert forall p :: 1 <= p <= |s| ==> s[p..] == s[1..][p - 1..];
      if Search(s).Some? {
        var p :| 0 <= p <= |s[1..]| && Groups(s[1..][p..], 4, 3) == Search(s)
          && forall q :: 0 <= q < p ==> Groups(s[1..][q..], 4, 3).None?;
        assert s[p + 1..] == s[1..][p..];
        forall q | 1 <= q < p + 1
          ensures Groups(s[q..], 4, 3).None?
        {
          assert s[q..] == s[1..][q - 1..];
        }
      }
    }
  }

  /** The four octet fields after the address is read from the
      configuration: the groups of the first match in the text without
      blanks, or "0" four times when nothing matches. */
  function IpOctets(text: string): (o: DeviceMng.Octets)
    ensures var m := Search(RemoveSpaces(text));
      && (m.None? ==> o == DeviceMng.Octets("0", "0", "0", "0"))
      && (m.Some? ==> o == DeviceMng.Octets(m.value[0], m.value[1], m.value[2], m.value[3]))
    ensures IsOctet(o.a) && IsOctet(o.b) && IsOctet(o.c) && IsOctet(o.d)
  {
    match Search(RemoveSpaces(text))
    case Some(g) => DeviceMng.Octets(g[0], g[1], g[2], g[3])
    case None =>
      assert IsOctet("0");
      DeviceMng.Octets("0", "0", "0", "0")
  }

  /** A group `g` followed by a non-digit is matched whole, whatever
      longer length is tried first. */
  lemma {:induction false} GroupFirst(t: string, g: string, after: string, n: nat, len: nat, rest: seq<string>)
    requires IsOctet(g) && |g| <= len <= 3 && 1 <= n
    requires t == g + after && (after == [] || !IsDigit(after[0]))
    requires n == 1 ==> rest == []
    requires n > 1 ==> AfterGroup(after, n - 1) == Some(rest)
    ensures Groups(t, n, len) == Some([g] + rest)
    decreases len
  {
    if len > |g| {
      assert !(len <= |t| && AllDigits(t[..len])) by {
        if len <= |t| {
          assert t[..len][|g|] == after[0];
        }
      }
      GroupFirst(t, g, after, n, len - 1, rest);
    } else {
      assert t[..len] == g && t[len..] == after;
      assert [g] + [] == [g];
    }
  }

  /** `"." + rest` gives the optional dot to the groups of `rest`. */
  lemma DotThen(rest: string, n: nat, gs: seq<string>)
    requires 1 <= n && Groups(rest, n, 3) == Some(gs)
    ensures AfterGroup("." + rest, n) == Some(gs)
  {
    assert ("." + rest)[1..] == rest;
  }

  /** An octet and a dot put in front of matched groups add one group. */
  lemma PrefixGroup(g: string, tail: string, n: nat, gs: seq<string>)
    requires IsOctet(g) && 1 <= n && Groups(tail, n, 3) == Some(gs)
    ensures Groups(g + ("." + tail), n + 1, 3) == Some([g] + gs)
  {
    DotThen(tail, n, gs);
    GroupFirst(g + ("." + tail), g, "." + tail, n + 1, 3, gs);
  }

  lemma LastGroup(d: string)
    requires IsOctet(d)
    ensures Groups(d, 1, 3) == Some([d])
  {
    assert d + [] == d;
    GroupFirst(d, d, [], 1, 3, []);
  }

  /** Dotted octets read back as themselves. */
  lemma DottedRoundTrip(a: string, b: string, c: string, d: string)
    requires IsOctet(a) && IsOctet(b) && IsOctet(c) && IsOctet(d)
    ensures Search(a + "." + b + "." + c + "." + d) == Some([a, b, c, d])
  {
    var tc := c + ("." + d);
    var tb := b + ("." + tc);
    var ta := a + ("." + tb);
    LastGroup(d);
    PrefixGroup(c, d, 1, [d]);
    assert [c] + [d] == [c, d];
    PrefixGroup(b, tc, 2, [c, d]);
    assert [b] + [c, d] == [b, c, d];
    PrefixGroup(a, tb, 3, [b, c, d]);
    assert [a] + [b, c, d] == [a, b, c, d];
    DottedAssoc(a, b, c, d);
  }

  lemma DottedAssoc(a: string, b: string, c: string, d: string)
    ensures a + "." + b + "." + c + "." + d == a + ("." + (b + ("." + (c + ("." + d)))))
  {
  }

  lemma NoSpaceDotted(a: string, b: string, c: string, d: string)
    requires IsOctet(a) && IsOctet(b) && IsOctet(c) && IsOctet(d)
    ensures NoSpace(a + "." + b + "." + c + "." + d)
  {
    var s := a + "." + b + "." + c + "." + d;
    forall i | 0 <= i < |s| ensures s[i] != ' ' {
      assert s[i] in s;
      assert forall ch :: ch in s ==> ch == '.' || ch in a || ch in b || ch in c || ch in d;
    }
  }

  /** A configured address `a.b.c.d` fills the octet fields with `a`, `b`,
      `c` and `d`. */
  lemma ConfiguredOctets(a: string, b: string, c: string, d: string)
    requires IsOctet(a) && IsOctet(b) && IsOctet(c) && IsOctet(d)
    ensures IpOctets(a + "." + b + "." + c + "." + d) == DeviceMng.Octets(a, b, c, d)
  {
    NoSpaceDotted(a, b, c, d);
    DottedRoundTrip(a, b, c, d);
  }

  /** Octet fields filled from a configured `a.b.c.d` count as typed and
      spell the same address again. */
  lemma OctetsSpellAddress(a: string, b: string, c: string, d: string)
    requires IsOctet(a) && IsOctet(b) && IsOctet(c) && IsOctet(d)
    ensures DeviceMng.OctetsTyped(DeviceMng.Octets(a, b, c, d))
    ensures DeviceMng.LanAddress(DeviceMng.Octets(a, b, c, d)) == a + "." + b + "." + c + "." + d
  {
    OctetUnchanged(a);
    OctetUnchanged(b);
    OctetUnchanged(c);
    OctetUnchanged(d);
  }

  /** A device in LAN mode whose address was configured as `a.b.c.d`
      opens `TCPIP0::a.b.c.d::INSTR`. */
  lemma ConfiguredAddressReachesDevice(a: string, b: string, c: string, d: string, dev: DeviceMng.Device)
    requires IsOctet(a) && IsOctet(b) && IsOctet(c) && IsOctet(d)
    requires dev.switchAutoLan == DeviceMng.LanLabel
    ensures var text := a + "." + b + "." + c + "." + d;
      DeviceMng.TraceVisaAddress(dev.(lan := IpOctets(text))).dev.visaAddress
        == DeviceMng.LanPrefix + text + DeviceMng.LanSuffix
  {
    ConfiguredOctets(a, b, c, d);
    OctetsSpellAddress(a, b, c, d);
  }

  /** An octet has no blank and no trailing newline, so the address uses
      it as typed, and it counts as filled in. */
  lemma OctetUnchanged(g: string)
    requires IsOctet(g)
    ensures DeviceMng.OctetText(g) == g && DeviceMng.RStripNewlines(g) == g && g != []
  {
    assert NoSpace(g) by {
      forall i | 0 <= i < |g| ensures g[i] != ' ' {
        assert IsDigit(g[i]);
      }
    }
    assert IsDigit(g[|g| - 1]);
  }

  // ---------------------------------------------------------------------
  // Export columns.

  /** The result arrays an export can draw on. */
  datatype Column = Freq | GainDbRaw | GainDbCorr | PhaseRaw | PhaseCorr

  /** The result key each column comes from. */
  function KeyOf(c: Column): string {
    match c
    case Freq => "freq"
    case GainDbRaw => "gain_db_raw"
    case GainDbCorr => "gain_db_corr"
    case PhaseRaw => "phase"
    case PhaseCorr => "phase_corr"
  }

  /** The columns of the .mat, .txt and .csv exports, in order: frequency,
      the dB gain (corrected when calibration is on), and, in dual-channel
      or triggered mode, the phase (corrected when calibration is on). */
  function ExportColumns(correctEnabled: bool, complexMode: bool): (cols: seq<Column>)
    ensures |cols| == (if complexMode then 3 else 2)
    ensures cols[0] == Freq
    ensures cols[1] == (if correctEnabled then GainDbCorr else GainDbRaw)
    ensures complexMode ==> cols[2] == (if correctEnabled then PhaseCorr else PhaseRaw)
  {
    var gain := if correctEnabled then GainDbCorr else GainDbRaw;
    if complexMode then [Freq, gain, if correctEnabled then PhaseCorr else PhaseRaw]
    else [Freq, gain]
  }

  /** The header row: the result keys, except that the .csv export writes
      the frequency as `freq(Hz)`. */
  function ExportHeader(cols: seq<Column>, csv: bool): (h: seq<string>)
    ensures |h| == |cols|
    ensures forall k :: 0 <= k < |cols| ==> h[k] == (if csv && cols[k] == Freq then "freq(Hz)" else KeyOf(cols[k]))
  {
    seq(|cols|, (k: int) requires 0 <= k < |cols| => if csv && cols[k] == Freq then "freq(Hz)" else KeyOf(cols[k]))
  }

  /** The exports name distinct columns, so reading a header back finds
      each column once: the .txt header and the .mat keys agree, and a
      column is corrected exactly when calibration is on. */
  lemma ExportColumnsDistinct(correctEnabled: bool, complexMode: bool, csv: bool)
    ensures var cols := ExportColumns(correctEnabled, complexMode);
      var h := ExportHeader(cols, csv);
      && (forall i, j :: 0 <= i < j < |h| ==> h[i] != h[j])
      && (forall k :: 0 <= k < |cols| ==> (cols[k] in {GainDbCorr, PhaseCorr} <==> correctEnabled && k > 0))
  {
    var cols := ExportColumns(correctEnabled, complexMode);
    var h := ExportHeader(cols, csv);
    forall i, j | 0 <= i < j < |h| ensures h[i] != h[j] {
      assert h[i] == (if csv && cols[i] == Freq then "freq(Hz)" else KeyOf(cols[i]));
      assert h[j] == KeyOf(cols[j]);
    }
  }
}
