/** The SCPI helpers of the legacy instrument layer: the `x_write` command
    batch, definite-length block framing (section 7.7.6 and section 8.7.9
    of IEEE 488.2), impedance text normalisation, and the signal
    generator's channel list and waveform-mode commands. The VISA
    transport itself is an oracle. */
module Equips {
  import opened Wrappers
  import opened Text
  import opened PyNumbers
  import opened CvtTools

  // ---------------------------------------------------------------- x_write

  /** What one line of a batch makes the transport do. */
  datatype Action = Write(cmd: string) | Query(cmd: string) | Delay(ms: nat)

  /** `x_write` takes either one script, split into lines, or a list of lines. */
  datatype Batch = Script(text: string) | Lines(lines: seq<string>)

  function BatchLines(b: Batch): seq<string> {
    match b
    case Script(text) => SplitLines(text)
    case Lines(lines) => lines
  }

  /** The placeholder `x_write` replaces by the channel text. */
  const ChannelMarker: string := "$CHX$"

  /** Length of the run of blanks (U+0020, what ` *` matches) from `i`. */
  function BlankRun(s: string, i: nat): (n: nat)
    requires i <= |s|
    ensures i + n <= |s|
    decreases |s| - i
  {
    if i < |s| && s[i] == ' ' then 1 + BlankRun(s, i + 1) else 0
  }

  /** The run found by `BlankRun` is all blanks and cannot be extended. */
  lemma {:induction false} BlankRunSpec(s: string, i: nat)
    requires i <= |s|
    ensures forall j :: i <= j < i + BlankRun(s, i) ==> s[j] == ' '
    ensures i + BlankRun(s, i) == |s| || s[i + BlankRun(s, i)] != ' '
    decreases |s| - i
  {
    if i < |s| && s[i] == ' ' {
      BlankRunSpec(s, i + 1);
    }
  }

  /** `re.match(r"\$WAIT *= *(\d+) *\$", c)`: anchored at the start only,
      giving the captured milliseconds. Every part of the pattern is
      followed by a character its repetition cannot consume, so the
      greedy scan never has to backtrack. */
  function WaitMillis(c: string): (r: Option<nat>)
    ensures r.Some? ==> "$WAIT" <= c
  {
    if "$WAIT" <= c then WaitEquals(c, 5) else None
  }

  /** ` *=` from `i`, then the rest of the directive. */
  function WaitEquals(c: string, i: nat): Option<nat>
    requires i <= |c|
  {
    var e := i + BlankRun(c, i);
    if e < |c| && c[e] == '=' then WaitDigits(c, e + 1) else None
  }

  /** ` *(\d+)` from `i`, then the rest of the directive. */
  function WaitDigits(c: string, i: nat): Option<nat>
    requires i <= |c|
  {
    var j := i + BlankRun(c, i);
    var d := DigitRun(c, j);
    if d == 0 then None
    else
      DigitRunSpec(c, j);
      WaitClose(c, j, d)
  }

  /** ` *\$` after the digits `c[j..j + d]`. */
  function WaitClose(c: string, j: nat, d: nat): Option<nat>
    requires j + d <= |c| && AllDigits(c[j..j + d])
  {
    var k := j + d + BlankRun(c, j + d);
    if k < |c| && c[k] == '$' then Some(DigitsValue(c[j..j + d])) else None
  }

  /** The directive as the pattern describes it, at given cut points:
      `$WAIT`, blanks up to the `=` at `i`, blanks up to the digits
      `s[j..j + d]`, blanks up to the `$` at `k`; whatever follows is
      ignored. */
  predicate WaitShape(s: string, i: nat, j: nat, d: nat, k: nat) {
    && "$WAIT" <= s && 5 <= i < j && 0 < d && j + d <= k < |s|
    && BlanksBetween(s, 5, i)
    && s[i] == '='
    && BlanksBetween(s, i + 1, j)
    && DigitsBetween(s, j, j + d)
    && BlanksBetween(s, j + d, k)
    && s[k] == '$'
  }

  /** `s[lo..hi]` is all blanks. */
  predicate BlanksBetween(s: string, lo: nat, hi: nat)
    requires lo <= hi <= |s|
  {
    forall x :: lo <= x < hi ==> s[x] == ' '
  }

  /** `s[lo..hi]` is all ASCII digits. */
  predicate DigitsBetween(s: string, lo: nat, hi: nat)
    requires lo <= hi <= |s|
  {
    forall x :: lo <= x < hi ==> IsDigit(s[x])
  }

  /** One line of a batch: stripped, skipped when blank, the channel
      placeholder replaced, then a delay, a query (it asks something) or
      a plain write. */
  function LineAction(raw: string, chx: string): (a: Option<Action>)
    ensures a.None? <==> Strip(raw) == []
    ensures a.Some? && a.value.Query? ==> '?' in a.value.cmd
    ensures a.Some? && a.value.Write? ==> '?' !in a.value.cmd && WaitMillis(a.value.cmd).None?
  {
    var cc := Strip(raw);
    if cc == [] then None
    else
      var c := ReplaceAll(cc, ChannelMarker, chx);
      match WaitMillis(c)
      case Some(ms) => Some(Delay(ms))
      case None => if '?' in c then Some(Query(c)) else Some(Write(c))
  }

  /** The actions a batch of lines turns into, in order. */
  function Plan(lines: seq<string>, chx: string): (p: seq<Action>)
    ensures |p| <= |lines|
  {
    Collect(lines, raw => LineAction(raw, chx))
  }

  /** The actions a per-line translation yields, skipping the lines it drops. */
  function Collect(lines: seq<string>, f: string -> Option<Action>): (p: seq<Action>)
    ensures |p| <= |lines|
  {
    if lines == [] then []
    else (match f(lines[0]) case Some(a) => [a] case None => []) + Collect(lines[1..], f)
  }

  /** The transport: given the actions already carried out and the next
      one, the reply it gives (read back for a query) or the exception the
      driver raises. */
  type Transport = (seq<Action>, Action) -> Result<string>

  /** The actions in `done` all went through: a delay always does, a write
      or a query when the transport did not raise. */
  predicate AllWentThrough(done: seq<Action>, io: Transport) {
    forall k :: 0 <= k < |done| ==> done[k].Delay? || io(done[..k], done[k]).Ok?
  }

  /** The replies to the queries among `done`, in order. */
  function Replies(done: seq<Action>, io: Transport): seq<string> {
    if done == [] then []
    else
      var k := |done| - 1;
      Replies(done[..k], io)
        + (if done[k].Query? then match io(done[..k], done[k]) case Ok(v) => [v] case Err(_) => [] else [])
  }

  datatype Transcript = Transcript(done: seq<Action>, replies: seq<string>, failure: Option<Exc>)

  /** `x_write`: the batch's actions are carried out in order until the
      transport raises; the replies of the queries are collected in order.
      Without a failure every action of the plan was carried out; with
      one, the first action the transport refused is where it stopped. */
  method XWrite(batch: Batch, chx: string, io: Transport) returns (t: Transcript)
    ensures t.done <= Plan(BatchLines(batch), chx)
    ensures AllWentThrough(t.done, io)
    ensures t.replies == Replies(t.done, io)
    ensures t.failure.None? <==> t.done == Plan(BatchLines(batch), chx)
    ensures t.failure.Some? ==>
      var plan := Plan(BatchLines(batch), chx);
      |t.done| < |plan| && !plan[|t.done|].Delay? && io(t.done, plan[|t.done|]) == Err(t.failure.value)
  {
    t := Perform(Plan(BatchLines(batch), chx), io);
  }

  /** Carries out planned actions in order until the transport raises. */
  method Perform(plan: seq<Action>, io: Transport) returns (t: Transcript)
    ensures t.done <= plan
    ensures AllWentThrough(t.done, io)
    ensures t.replies == Replies(t.done, io)
    ensures t.failure.None? <==> t.done == plan
    ensures t.failure.Some? ==>
      |t.done| < |plan| && !plan[|t.done|].Delay? && io(t.done, plan[|t.done|]) == Err(t.failure.value)
  {
    var replies: seq<string> := [];
    var i := 0;
    while i < |plan|
      invariant 0 <= i <= |plan|
      invariant AllWentThrough(plan[..i], io)
      invariant replies == Replies(plan[..i], io)
    {
      var a := plan[i];
      assert plan[..i + 1] == plan[..i] + [a];
      if !a.Delay? {
        var reply := io(plan[..i], a);
        if reply.Err? {
          return Transcript(plan[..i], replies, Some(reply.error));
        }
        if a.Query? {
          replies := replies + [reply.value];
        }
      }
      WentThroughSnoc(plan[..i], a, io);
      RepliesSnoc(plan[..i], a, io);
      i := i + 1;
    }
    assert plan[..i] == plan;
    t := Transcript(plan, replies, None);
  }

  lemma WentThroughSnoc(done: seq<Action>, a: Action, io: Transport)
    requires AllWentThrough(done, io) && (a.Delay? || io(done, a).Ok?)
    ensures AllWentThrough(done + [a], io)
  {
    var d := done + [a];
    assert d[..|done|] == done;
    forall k | 0 <= k < |done| ensures d[..k] == done[..k] && d[k] == done[k] {
    }
  }

  lemma RepliesSnoc(done: seq<Action>, a: Action, io: Transport)
    ensures Replies(done + [a], io) == Replies(done, io)
      + (if a.Query? then match io(done, a) case Ok(v) => [v] case Err(_) => [] else [])
  {
    assert (done + [a])[..|done|] == done;
  }

  /** Planning distributes over concatenation of batches. */
  lemma PlanAppend(xs: seq<string>, ys: seq<string>, chx: string)
    ensures Plan(xs + ys, chx) == Plan(xs, chx) + Plan(ys, chx)
  {
    CollectAppend(xs, ys, raw => LineAction(raw, chx));
  }

  lemma {:induction false} CollectAppend(xs: seq<string>, ys: seq<string>, f: string -> Option<Action>)
    ensures Collect(xs + ys, f) == Collect(xs, f) + Collect(ys, f)
  {
    if xs == [] {
      assert xs + ys == ys;
    } else {
      assert (xs + ys)[1..] == xs[1..] + ys;
      CollectAppend(xs[1..], ys, f);
    }
  }

  /** Where the text `strip` keeps starts in the original. */
  function StripStart(s: string): (i: nat)
    ensures i <= |s| - |Strip(s)|
  {
    |s| - |TrimLeft(s)|
  }

  /** The text `strip` keeps lies inside the original, and everything it
      cut is whitespace. */
  lemma StripInside(s: string)
    ensures Strip(s) == s[StripStart(s)..StripStart(s) + |Strip(s)|]
    ensures forall j :: 0 <= j < StripStart(s) ==> IsSpace(s[j])
    ensures forall j :: StripStart(s) + |Strip(s)| <= j < |s| ==> IsSpace(s[j])
  {
  }

  /** A character that is not whitespace is in a string iff it survives `strip`. */
  lemma StripKeepsVisible(s: string, c: char)
    requires !IsSpace(c)
    ensures c in s <==> c in Strip(s)
  {
    StripInside(s);
    SliceKeepsVisible(s, StripStart(s), Strip(s), c);
  }

  /** Cutting only whitespace from both ends keeps every other character. */
  lemma SliceKeepsVisible(s: string, i: nat, t: string, c: char)
    requires i + |t| <= |s| && t == s[i..i + |t|]
    requires forall j :: 0 <= j < i ==> IsSpace(s[j])
    requires forall j :: i + |t| <= j < |s| ==> IsSpace(s[j])
    requires !IsSpace(c)
    ensures c in s <==> c in t
  {
    if c in s {
      var j :| 0 <= j < |s| && s[j] == c;
      assert t[j - i] == s[j];
    }
    if c in t {
      var j :| 0 <= j < |t| && t[j] == c;
      assert s[i + j] == t[j];
    }
  }

  lemma {:induction false} ContainsHead(s: string, sub: string)
    requires sub != [] && Contains(s, sub)
    ensures sub[0] in s
  {
    if !(sub <= s) {
      ContainsHead(s[1..], sub);
    }
  }

  /** A line with no `$` in it is sent as it stands once stripped: as a
      query when it asks something, as a write otherwise, whatever the
      channel text. */
  lemma PlainLine(raw: string, chx: string)
    requires Strip(raw) != [] && '$' !in raw
    ensures LineAction(raw, chx) == Some(if '?' in raw then Query(Strip(raw)) else Write(Strip(raw)))
  {
    var cc := Strip(raw);
    StripKeepsVisible(raw, '$');
    StripKeepsVisible(raw, '?');
    if Contains(cc, ChannelMarker) {
      ContainsHead(cc, ChannelMarker);
    }
    assert ReplaceAll(cc, ChannelMarker, chx) == cc;
  }

  lemma {:induction false} BlankRunExact(s: string, i: nat, n: nat)
    requires i + n <= |s|
    requires forall j :: i <= j < i + n ==> s[j] == ' '
    requires i + n == |s| || s[i + n] != ' '
    ensures BlankRun(s, i) == n
    decreases n
  {
    if n > 0 {
      BlankRunExact(s, i + 1, n - 1);
    }
  }

  lemma {:induction false} DigitRunExact(s: string, i: nat, n: nat)
    requires i + n <= |s|
    requires forall j :: i <= j < i + n ==> IsDigit(s[j])
    requires i + n == |s| || !IsDigit(s[i + n])
    ensures DigitRun(s, i) == n
    decreases n
  {
    if n > 0 {
      DigitRunExact(s, i + 1, n - 1);
    }
  }

  /** The scan of `WaitMillis` once its four cut points are known. */
  lemma WaitMillisAt(s: string, i: nat, j: nat, d: nat, k: nat)
    requires "$WAIT" <= s && 5 <= i < j <= j + d <= k < |s|
    requires BlankRun(s, 5) == i - 5 && s[i] == '='
    requires BlankRun(s, i + 1) == j - i - 1
    requires DigitRun(s, j) == d && d > 0
    requires BlankRun(s, j + d) == k - j - d && s[k] == '$'
    ensures AllDigits(s[j..j + d])
    ensures WaitMillis(s) == Some(DigitsValue(s[j..j + d]))
  {
    DigitRunSpec(s, j);
    assert WaitClose(s, j, d) == Some(DigitsValue(s[j..j + d]));
    assert WaitDigits(s, i + 1) == WaitClose(s, j, d);
    assert WaitEquals(s, 5) == WaitDigits(s, i + 1);
  }

  /** Every line of the directive's shape is recognised, and waits for
      the milliseconds its digits spell. */
  lemma WaitShapeMatches(s: string, i: nat, j: nat, d: nat, k: nat)
    requires WaitShape(s, i, j, d, k)
    ensures AllDigits(s[j..j + d])
    ensures WaitMillis(s) == Some(DigitsValue(s[j..j + d]))
  {
    BlankRunExact(s, 5, i - 5);
    BlankRunExact(s, i + 1, j - i - 1);
    DigitRunExact(s, j, d);
    BlankRunExact(s, j + d, k - j - d);
    WaitMillisAt(s, i, j, d, k);
  }

  /** Conversely, every recognised line has the directive's shape. */
  lemma WaitMatchShape(s: string)
    requires WaitMillis(s).Some?
    ensures exists i: nat, j: nat, d: nat, k: nat :: WaitShape(s, i, j, d, k)
  {
    assert "$WAIT" <= s && WaitEquals(s, 5).Some?;
    var i, j, d, k := EqualsShape(s, 5);
    assert WaitShape(s, i, j, d, k);
  }

  /** The cut points of an accepted ` *= *(\d+) *\$` from `i0`. */
  lemma EqualsShape(s: string, i0: nat) returns (i: nat, j: nat, d: nat, k: nat)
    requires i0 <= |s| && WaitEquals(s, i0).Some?
    ensures i0 <= i < j && 0 < d && j + d <= k < |s|
    ensures BlanksBetween(s, i0, i) && s[i] == '='
    ensures BlanksBetween(s, i + 1, j) && DigitsBetween(s, j, j + d)
    ensures BlanksBetween(s, j + d, k) && s[k] == '$'
  {
    EqualsCut(s, i0);
    i := i0 + BlankRun(s, i0);
    BlanksAt(s, i0, i - i0);
    j, d, k := DigitsShape(s, i + 1);
  }

  /** The cut points of an accepted ` *(\d+) *\$` from `i`. */
  lemma DigitsShape(s: string, i: nat) returns (j: nat, d: nat, k: nat)
    requires i <= |s| && WaitDigits(s, i).Some?
    ensures i <= j && 0 < d && j + d <= k < |s|
    ensures BlanksBetween(s, i, j) && DigitsBetween(s, j, j + d)
    ensures BlanksBetween(s, j + d, k) && s[k] == '$'
  {
    DigitsCut(s, i);
    j := i + BlankRun(s, i);
    BlanksAt(s, i, j - i);
    d := DigitRun(s, j);
    DigitsAt(s, j, d);
    k := CloseShape(s, j, d);
  }

  /** The cut point of an accepted ` *\$` after the digits. */
  lemma CloseShape(s: string, j: nat, d: nat) returns (k: nat)
    requires j + d <= |s| && AllDigits(s[j..j + d]) && WaitClose(s, j, d).Some?
    ensures j + d <= k < |s| && BlanksBetween(s, j + d, k) && s[k] == '$'
  {
    CloseCut(s, j, d);
    k := j + d + BlankRun(s, j + d);
    BlanksAt(s, j + d, k - j - d);
  }

  lemma BlanksAt(s: string, i: nat, n: nat)
    requires i <= |s| && n == BlankRun(s, i)
    ensures i + n <= |s| && BlanksBetween(s, i, i + n)
  {
    BlankRunSpec(s, i);
  }

  lemma DigitsAt(s: string, j: nat, d: nat)
    requires j + d <= |s| && AllDigits(s[j..j + d])
    ensures DigitsBetween(s, j, j + d)
  {
    forall x | j <= x < j + d ensures IsDigit(s[x]) {
      assert s[x] == s[j..j + d][x - j];
    }
  }

  lemma EqualsCut(c: string, i: nat)
    requires i <= |c| && WaitEquals(c, i).Some?
    ensures var e := i + BlankRun(c, i); e < |c| && c[e] == '=' && WaitDigits(c, e + 1).Some?
  {
  }

  lemma DigitsCut(c: string, i: nat)
    requires i <= |c| && WaitDigits(c, i).Some?
    ensures var j := i + BlankRun(c, i);
      && DigitRun(c, j) > 0 && AllDigits(c[j..j + DigitRun(c, j)]) && WaitClose(c, j, DigitRun(c, j)).Some?
  {
    DigitRunSpec(c, i + BlankRun(c, i));
  }

  lemma CloseCut(c: string, j: nat, d: nat)
    requires j + d <= |c| && AllDigits(c[j..j + d]) && WaitClose(c, j, d).Some?
    ensures var k := j + d + BlankRun(c, j + d); k < |c| && c[k] == '$'
  {
  }

  // ---------------------------------------------------- definite-length blocks

  type Byte = b: int | 0 <= b < 256

  /** The bytes of an ASCII text. */
  function Ascii(s: string): (b: seq<Byte>)
    requires forall i :: 0 <= i < |s| ==> s[i] as int < 128
    ensures |b| == |s| && forall i :: 0 <= i < |s| ==> b[i] == s[i] as int
  {
    seq(|s|, i requires 0 <= i < |s| => s[i] as int as Byte)
  }

  /** `bytes.decode()` of bytes that are all ASCII; anything else is not
      decoded here. */
  function DecodeAscii(b: seq<Byte>): (s: Option<string>)
    ensures s.Some? <==> forall i :: 0 <= i < |b| ==> b[i] < 128
    ensures s.Some? ==> |s.value| == |b| && forall i :: 0 <= i < |b| ==> s.value[i] as int == b[i]
  {
    if forall i :: 0 <= i < |b| ==> b[i] < 128 then Some(seq(|b|, i requires 0 <= i < |b| => b[i] as char))
    else None
  }

  lemma DecodeAsciiOfAscii(s: string)
    requires forall i :: 0 <= i < |s| ==> s[i] as int < 128
    ensures DecodeAscii(Ascii(s)) == Some(s)
  {
    var d := DecodeAscii(Ascii(s));
    assert d.value == s;
  }

  /** `write_block`: `#8`, the payload length as eight zero-padded digits,
      then the payload. */
  function WriteBlock(v: seq<Byte>): (frame: seq<Byte>)
  {
    var header := "#8" + ZeroPadded(|v|, 8);
    assert forall i :: 0 <= i < |header| ==> header[i] as int < 128 by {
      forall i | 2 <= i < |header| ensures IsDigit(header[i]) {
        assert header[i] == ZeroPadded(|v|, 8)[i - 2];
      }
    }
    Ascii(header) + v
  }

  /** What a read of the stream hands back: the bytes and what follows them. */
  datatype Chunk = Chunk(bytes: seq<Byte>, rest: seq<Byte>)

  /** `read_bytes(n)`: a count that is not positive reads nothing; a
      stream that ends before `n` bytes times out. */
  function ReadBytes(stream: seq<Byte>, n: int): (r: Result<Chunk>)
    ensures r.Ok? ==> stream == r.value.bytes + r.value.rest
    ensures r.Ok? ==> |r.value.bytes| == if n <= 0 then 0 else n
    ensures r.Err? <==> n > |stream|
  {
    if n <= 0 then Ok(Chunk([], stream))
    else if n > |stream| then Raise(InstrumentError, "VI_ERROR_TMO: Timeout expired before operation completed.")
    else Ok(Chunk(stream[..n], stream[n..]))
  }

  const Hash: Byte := 35
  const Zero: Byte := 48

  /** `t` is what `s` ends with. */
  predicate EndOf(t: seq<Byte>, s: seq<Byte>) {
    |t| <= |s| && s[|s| - |t|..] == t
  }

  lemma EndOfChain(a: seq<Byte>, b: seq<Byte>, s: seq<Byte>)
    requires EndOf(a, s) && EndOf(b, a)
    ensures EndOf(b, s)
  {
    assert s[|s| - |b|..] == s[|s| - |a|..][|a| - |b|..];
  }

  lemma EndOfAppend(a: seq<Byte>, b: seq<Byte>)
    ensures EndOf(b, a + b)
  {
    assert (a + b)[|a|..] == b;
  }

  /** The length digits of a block: `int(bytes(sz).decode())`. */
  function LengthField(field: seq<Byte>): (r: Result<int>)
    ensures r.Ok? <==> DecodeAscii(field).Some? && ParsePyInt(DecodeAscii(field).value).Some?
    ensures r.Ok? ==> r.value == ParsePyInt(DecodeAscii(field).value).value
    ensures r.Err? ==> r.error.kind == ValueError
  {
    match DecodeAscii(field)
    case None => Raise(ValueError, "invalid length field")
    case Some(text) =>
      match ParsePyInt(text)
      case None => Raise(ValueError, "invalid literal for int() with base 10: '" + text + "'")
      case Some(n) => Ok(n)
  }

  /** `read_block`: the first byte must be `#`, the second gives the
      number of length digits, those digits give the payload length, and
      exactly that many bytes are the payload. */
  function ReadBlock(name: string, stream: seq<Byte>): (r: Result<Chunk>)
    ensures r.Ok? ==> |stream| >= 2 && stream[0] == Hash
    ensures r.Ok? ==> EndOf(r.value.bytes + r.value.rest, stream)
    ensures |stream| < 2 ==> r.Err? && r.error.kind == InstrumentError
    ensures |stream| >= 2 && stream[0] != Hash ==>
      r == Raise(InstrumentError, "Equip " + name + " error:\nEquip read block error")
  {
    var lead :- ReadBytes(stream, 2);
    if lead.bytes[0] != Hash then Raise(InstrumentError, "Equip " + name + " error:\nEquip read block error")
    else
      var r := ReadSized(lead.rest, lead.bytes[1] - Zero);
      if r.Ok? then
        EndOfAppend(lead.bytes, lead.rest);
        EndOfChain(lead.rest, r.value.bytes + r.value.rest, stream);
        r
      else r
  }

  /** The part of `read_block` after the `#`: `count` length digits, then
      that many payload bytes. */
  function ReadSized(stream: seq<Byte>, count: int): (r: Result<Chunk>)
    ensures r.Ok? ==> EndOf(r.value.bytes + r.value.rest, stream)
  {
    var field :- ReadBytes(stream, count);
    var n :- LengthField(field.bytes);
    var payload :- ReadBytes(field.rest, n);
    EndOfAppend(field.bytes, field.rest);
    EndOfChain(field.rest, payload.bytes + payload.rest, stream);
    Ok(payload)
  }

  /** `int` of a run of decimal digits is the number they spell. */
  lemma ParseDigits(s: string)
    requires s != [] && AllDigits(s)
    ensures ParsePyInt(s) == Some(DigitsValue(s) as int)
  {
    StripOfStripped(s);
    assert IsIntBody(s);
  }

  lemma {:induction false} DigitsValueBound(s: string)
    requires AllDigits(s)
    ensures DigitsValue(s) < Power10(|s|)
  {
    if s != [] {
      DigitsValueBound(s[..|s| - 1]);
    }
  }

  lemma {:induction false} NatToStringLong(n: nat, k: nat)
    requires n >= Power10(k)
    ensures |NatToString(n)| > k
  {
    if k > 0 {
      assert n >= 10;
      assert NatToString(n) == NatToString(n / 10) + [DigitChar(n % 10)];
      NatToStringLong(n / 10, k - 1);
    }
  }

  lemma Power10Eight()
    ensures Power10(8) == 100000000
  {
    assert Power10(2) == 100;
    assert Power10(4) == 10000;
    assert Power10(6) == 1000000;
  }

  /** Once the `#`, the digit count and the length digits are read, the
      block is the next `n` bytes. */
  lemma ReadBlockSteps(name: string, stream: seq<Byte>, count: nat, text: string, n: int)
    requires |stream| >= 2 + count && stream[0] == Hash && stream[1] == Zero + count
    requires DecodeAscii(stream[2..][..count]) == Some(text) && ParsePyInt(text) == Some(n)
    ensures ReadBlock(name, stream) == ReadBytes(stream[2..][count..], n)
  {
    ReadBlockLead(name, stream);
    ReadSizedSteps(stream[2..], count, text, n);
  }

  lemma ReadBlockLead(name: string, stream: seq<Byte>)
    requires |stream| >= 2 && stream[0] == Hash
    ensures ReadBlock(name, stream) == ReadSized(stream[2..], stream[1] - Zero)
  {
    assert ReadBytes(stream, 2) == Ok(Chunk(stream[..2], stream[2..]));
  }

  lemma ReadSizedSteps(stream: seq<Byte>, count: nat, text: string, n: int)
    requires |stream| >= count
    requires DecodeAscii(stream[..count]) == Some(text) && ParsePyInt(text) == Some(n)
    ensures ReadSized(stream, count) == ReadBytes(stream[count..], n)
  {
    var field := Chunk(stream[..count], stream[count..]);
    assert ReadBytes(stream, count) == Ok(field);
    LengthFieldOf(field.bytes, text, n);
    ReadSizedUnfold(stream, count, field, n);
  }

  lemma LengthFieldOf(b: seq<Byte>, text: string, n: int)
    requires DecodeAscii(b) == Some(text) && ParsePyInt(text) == Some(n)
    ensures LengthField(b) == Ok(n)
  {
  }

  lemma ReadSizedUnfold(stream: seq<Byte>, count: int, field: Chunk, n: int)
    requires ReadBytes(stream, count) == Ok(field) && LengthField(field.bytes) == Ok(n)
    ensures ReadSized(stream, count) == ReadBytes(field.rest, n)
  {
  }

  lemma AsciiAppend(x: string, y: string)
    requires forall i :: 0 <= i < |x| ==> x[i] as int < 128
    requires forall i :: 0 <= i < |y| ==> y[i] as int < 128
    ensures Ascii(x + y) == Ascii(x) + Ascii(y)
  {
  }

  lemma AsciiPrefix(x: string, n: nat)
    requires n <= |x| && forall i :: 0 <= i < |x| ==> x[i] as int < 128
    ensures Ascii(x)[..n] == Ascii(x[..n])
  {
  }

  /** The frame's first ten bytes when the length has at least eight digits. */
  lemma FrameLayout(v: seq<Byte>, rest: seq<Byte>)
    requires |ZeroPadded(|v|, 8)| >= 8
    ensures var stream := WriteBlock(v) + rest;
      var digits := ZeroPadded(|v|, 8);
      && |stream| >= 10 && stream[0] == Hash && stream[1] == Zero + 8
      && stream[2..][..8] == Ascii(digits[..8])
      && (|digits| == 8 ==> stream[2..][8..] == v + rest)
  {
    var digits := ZeroPadded(|v|, 8);
    var stream := WriteBlock(v) + rest;
    var ad := Ascii(digits);
    AsciiAppend("#8", digits);
    assert Ascii("#8") == [Hash, Zero + 8];
    assert stream == [Hash, Zero + 8] + ad + v + rest;
    assert stream[2..][..8] == ad[..8];
    AsciiPrefix(digits, 8);
    if |digits| == 8 {
      assert stream[2..][8..] == v + rest;
    }
  }

  /** Framing then reading gives the payload back, and leaves what follows
      the frame alone, exactly when the payload is shorter than 10^8
      bytes: a longer one needs a ninth length digit that the `#8` header
      does not announce. */
  lemma BlockRoundTrip(name: string, v: seq<Byte>, rest: seq<Byte>)
    ensures ReadBlock(name, WriteBlock(v) + rest) == Ok(Chunk(v, rest)) <==> |v| < 100000000
  {
    var digits := ZeroPadded(|v|, 8);
    var stream := WriteBlock(v) + rest;
    Power10Eight();
    if |v| < 100000000 {
      NatToStringLength(|v|, 8);
      FrameLayout(v, rest);
      assert digits[..8] == digits;
      DecodeAsciiOfAscii(digits);
      ZeroPaddedValue(|v|, 8);
      ParseDigits(digits);
      ReadBlockSteps(name, stream, 8, digits, |v|);
      assert (v + rest)[..|v|] == v && (v + rest)[|v|..] == rest;
    } else {
      NatToStringLong(|v|, 8);
      FrameLayout(v, rest);
      var field := digits[..8];
      assert AllDigits(field);
      DecodeAsciiOfAscii(field);
      ParseDigits(field);
      DigitsValueBound(field);
      ReadBlockSteps(name, stream, 8, field, DigitsValue(field));
    }
  }

  // ------------------------------------------------------------- impedance

  /** The canonical high-impedance text. */
  const HighZ: string := "INF"

  /** The spellings of high impedance, compared in lower case. */
  predicate IsHighZSpelling(s: string) {
    s == "hiz" || s == "hi-z" || s == "hi_z"
  }

  /** `normalize_imp_str`, for `None` or a text. */
  function NormalizeImpStr(imp: Option<string>): (r: Option<string>)
    ensures r.None? <==> imp.None?
    ensures r.Some? ==> r.value == HighZ || r.value == Strip(imp.value)
    ensures r.Some? ==> (r.value == HighZ <==> IsHighZSpelling(Lower(Strip(imp.value))) || Strip(imp.value) == HighZ)
  {
    match imp
    case None => None
    case Some(text) =>
      var s := Strip(text);
      if IsHighZSpelling(Lower(s)) then Some(HighZ) else Some(s)
  }

  /** The canonical text is its own normal form. */
  lemma HighZCanonical()
    ensures Strip(HighZ) == HighZ && !IsHighZSpelling(Lower(HighZ))
  {
    StripOfStripped(HighZ);
    assert Lower(HighZ)[0] == 'i';
    assert |Lower(HighZ)| == 3;
    assert Lower(HighZ)[2] == 'f';
  }

  /** Normalising twice is normalising once. */
  lemma NormalizeIdempotent(imp: Option<string>)
    ensures NormalizeImpStr(NormalizeImpStr(imp)) == NormalizeImpStr(imp)
  {
    if imp.Some? {
      var s := Strip(imp.value);
      if IsHighZSpelling(Lower(s)) {
        assert NormalizeImpStr(imp) == Some(HighZ);
        HighZCanonical();
      } else {
        assert NormalizeImpStr(imp) == Some(s);
        StripOfStripped(s);
      }
    }
  }

  // ------------------------------------------------ generator channels, mode

  /** What a channel argument can be: `None`, one channel number, or a list. */
  datatype ChannelArg = NoChannel | OneChannel(ch: int) | ChannelList(chs: seq<int>)

  function Somes(xs: seq<int>): (r: seq<Option<int>>)
    ensures |r| == |xs| && forall i :: 0 <= i < |xs| ==> r[i] == Some(xs[i])
  {
    seq(|xs|, i requires 0 <= i < |xs| => Some(xs[i]))
  }

  /** `ch2chs`: the argument, or the generator's own selection when it is
      `None`, as a list; an empty list means both channels. A `None` that
      survives stays in the list. */
  function Ch2Chs(ch: ChannelArg, own: ChannelArg): (chs: seq<Option<int>>)
    ensures chs != []
    ensures None in chs <==> ch.NoChannel? && own.NoChannel?
    ensures ch.OneChannel? ==> chs == [Some(ch.ch)]
    ensures ch.ChannelList? && ch.chs != [] ==> chs == Somes(ch.chs)
  {
    var arg := if ch.NoChannel? then own else ch;
    match arg
    case NoChannel => [None]
    case OneChannel(c) => [Some(c)]
    case ChannelList(xs) => if xs == [] then [Some(1), Some(2)] else Somes(xs)
  }

  /** A channel list that `ch2chs` produced is kept as it is. */
  lemma Ch2ChsIdempotent(ch: ChannelArg, own: ChannelArg, xs: seq<int>, other: ChannelArg)
    requires Somes(xs) == Ch2Chs(ch, own)
    ensures Ch2Chs(ChannelList(xs), other) == Ch2Chs(ch, own)
  {
  }

  /** The waveform argument: a mode name, or one of the generator's mode codes. */
  datatype ModeArg = ModeText(text: string) | ModeCode(code: int)

  function ModeName(code: int): string {
    if code == 2 then "PULSE" else if code == 0 then "DC" else if code == 3 then "SQU" else "SIN"
  }

  function ModeWord(mode: ModeArg): string {
    match mode
    case ModeText(text) => text
    case ModeCode(code) => ModeName(code)
  }

  predicate PlainWord(w: string) {
    w != [] && forall i :: 0 <= i < |w| ==> IsLetter(w[i])
  }

  function ApplyLine(ch: int, word: string): string {
    ":SOUR" + IntToString(ch) + ":APPL:" + word
  }

  const OpcQuery: string := "*OPC?"

  /** The commands for each listed channel in turn; `"%d" % None` raises. */
  function ModeCommands(chs: seq<Option<int>>, word: string): (r: Result<seq<Action>>)
    ensures r.Err? <==> None in chs
    ensures r.Err? ==> r.error.kind == TypeError
  {
    if chs == [] then Ok([])
    else
      match chs[0]
      case None => Raise(TypeError, "%d format: a real number is required, not NoneType")
      case Some(c) =>
        var rest :- ModeCommands(chs[1..], word);
        Ok(Plan([ApplyLine(c, word), OpcQuery], "") + rest)
  }

  /** `set_mode`: one apply command and one completion query per channel. */
  function SetMode(mode: ModeArg, ch: ChannelArg, own: ChannelArg): (r: Result<seq<Action>>)
    ensures r.Err? <==> ch.NoChannel? && own.NoChannel?
    ensures r.Err? ==> r.error.kind == TypeError
    ensures r.Ok? && PlainWord(ModeWord(mode)) ==> ModeShape(r.value, Ch2Chs(ch, own), ModeWord(mode))
  {
    var chs := Ch2Chs(ch, own);
    var r := ModeCommands(chs, ModeWord(mode));
    if r.Ok? && PlainWord(ModeWord(mode)) then
      ModeCommandsShape(chs, ModeWord(mode));
      r
    else r
  }

  /** Two lines that each yield an action plan to those two actions. */
  lemma PlanTwo(x: string, y: string, chx: string, ax: Action, ay: Action)
    requires LineAction(x, chx) == Some(ax) && LineAction(y, chx) == Some(ay)
    ensures Plan([x, y], chx) == [ax, ay]
  {
    var f := raw => LineAction(raw, chx);
    assert f(x) == Some(ax) && f(y) == Some(ay);
    CollectTwo(x, y, f, ax, ay);
  }

  lemma CollectTwo(x: string, y: string, f: string -> Option<Action>, ax: Action, ay: Action)
    requires f(x) == Some(ax) && f(y) == Some(ay)
    ensures Collect([x, y], f) == [ax, ay]
  {
    assert [x, y][1..] == [y];
    assert [y][1..] == [];
    assert Collect([y], f) == [ay] + Collect([], f);
  }

  /** The decimal text of an integer: an optional minus, then digits. */
  lemma SignedDigits(c: int)
    ensures forall i :: 0 <= i < |IntToString(c)| ==> IntToString(c)[i] == '-' || IsDigit(IntToString(c)[i])
  {
    var n := IntToString(c);
    if c < 0 {
      var m := NatToString(-c);
      assert n == "-" + m;
      assert forall i :: 1 <= i < |n| ==> n[i] == m[i - 1];
    }
  }

  /** The apply command holds no `$` and no `?`, and has nothing to strip. */
  lemma ApplyLineVisible(c: int, word: string)
    requires PlainWord(word)
    ensures '$' !in ApplyLine(c, word) && '?' !in ApplyLine(c, word)
    ensures Strip(ApplyLine(c, word)) == ApplyLine(c, word) != []
  {
    SignedDigits(c);
    ApplyTextVisible(IntToString(c), word);
    StripOfStripped(ApplyLine(c, word));
  }

  lemma ApplyTextVisible(n: string, word: string)
    requires forall i :: 0 <= i < |n| ==> n[i] == '-' || IsDigit(n[i])
    requires PlainWord(word)
    ensures var line := ":SOUR" + n + ":APPL:" + word;
      && (forall i :: 0 <= i < |line| ==> line[i] != '$' && line[i] != '?')
      && line[0] == ':' && line[|line| - 1] == word[|word| - 1]
  {
    var line := ":SOUR" + n + ":APPL:" + word;
    assert forall i :: 5 <= i < 5 + |n| ==> line[i] == n[i - 5];
    assert forall i :: 11 + |n| <= i < |line| ==> line[i] == word[i - 11 - |n|];
  }

  lemma OpcLine()
    ensures LineAction(OpcQuery, "") == Some(Query(OpcQuery))
  {
    OpcText();
    StripOfStripped(OpcQuery);
    StrippedQuery(OpcQuery, "");
  }

  lemma OpcText()
    ensures OpcQuery != [] && OpcQuery[0] == '*' && OpcQuery[|OpcQuery| - 1] == '?'
    ensures '$' !in OpcQuery && '?' in OpcQuery
  {
    assert OpcQuery == ['*', 'O', 'P', 'C', '?'];
  }

  /** A stripped line with a `?` and no `$` is sent as a query. */
  lemma StrippedQuery(raw: string, chx: string)
    requires Strip(raw) == raw != [] && '$' !in raw && '?' in raw
    ensures LineAction(raw, chx) == Some(Query(raw))
  {
    PlainLine(raw, chx);
  }

  /** The two lines of one channel are sent as they are. */
  lemma ChannelLines(c: int, word: string)
    requires PlainWord(word)
    ensures Plan([ApplyLine(c, word), OpcQuery], "") == [Write(ApplyLine(c, word)), Query(OpcQuery)]
  {
    ApplyLineVisible(c, word);
    PlainLine(ApplyLine(c, word), "");
    OpcLine();
    PlanTwo(ApplyLine(c, word), OpcQuery, "", Write(ApplyLine(c, word)), Query(OpcQuery));
  }

  /** `actions` holds, for each channel in turn, its apply command and
      then the completion query. */
  predicate ModeShape(actions: seq<Action>, chs: seq<Option<int>>, word: string) {
    && (forall i :: 0 <= i < |chs| ==> chs[i].Some?)
    && Interleaved(actions, ApplyWrites(chs, word), Query(OpcQuery))
  }

  /** The apply command of each channel, in order. */
  function ApplyWrites(chs: seq<Option<int>>, word: string): (ws: seq<Action>)
    requires forall i :: 0 <= i < |chs| ==> chs[i].Some?
    ensures |ws| == |chs|
  {
    if chs == [] then [] else [Write(ApplyLine(chs[0].value, word))] + ApplyWrites(chs[1..], word)
  }

  lemma {:induction false} ApplyWritesAt(chs: seq<Option<int>>, word: string, k: nat)
    requires (forall i :: 0 <= i < |chs| ==> chs[i].Some?) && k < |chs|
    ensures ApplyWrites(chs, word)[k] == Write(ApplyLine(chs[k].value, word))
    decreases k
  {
    if k > 0 {
      ApplyWritesAt(chs[1..], word, k - 1);
    }
  }

  /** `firsts[i]` at every even place `2i` of `actions`, and `second` right after it. */
  predicate Interleaved(actions: seq<Action>, firsts: seq<Action>, second: Action) {
    && |actions| == 2 * |firsts|
    && forall i :: 0 <= i < |firsts| ==> actions[2 * i] == firsts[i] && actions[2 * i + 1] == second
  }

  lemma InterleavedCons(a: Action, firsts: seq<Action>, second: Action, rest: seq<Action>)
    requires Interleaved(rest, firsts, second)
    ensures Interleaved([a, second] + rest, [a] + firsts, second)
  {
    var r := [a, second] + rest;
    var all := [a] + firsts;
    forall i | 0 <= i < |all|
      ensures r[2 * i] == all[i] && r[2 * i + 1] == second
    {
      if i > 0 {
        assert r[2 * i] == rest[2 * (i - 1)];
      }
    }
  }

  lemma ModeShapeCons(c: int, chs: seq<Option<int>>, rest: seq<Action>, word: string)
    requires ModeShape(rest, chs, word)
    ensures ModeShape([Write(ApplyLine(c, word)), Query(OpcQuery)] + rest, [Some(c)] + chs, word)
  {
    var all := [Some(c)] + chs;
    assert all[1..] == chs;
    assert ApplyWrites(all, word) == [Write(ApplyLine(c, word))] + ApplyWrites(chs, word);
    InterleavedCons(Write(ApplyLine(c, word)), ApplyWrites(chs, word), Query(OpcQuery), rest);
  }

  lemma {:induction false} ModeCommandsShape(chs: seq<Option<int>>, word: string)
    requires PlainWord(word) && ModeCommands(chs, word).Ok?
    ensures ModeShape(ModeCommands(chs, word).value, chs, word)
  {
    if chs != [] {
      ModeCommandsShape(chs[1..], word);
      ChannelLines(chs[0].value, word);
      var rest := ModeCommands(chs[1..], word).value;
      assert ModeCommands(chs, word).value == [Write(ApplyLine(chs[0].value, word)), Query(OpcQuery)] + rest;
      ModeShapeCons(chs[0].value, chs[1..], rest, word);
      assert [Some(chs[0].value)] + chs[1..] == chs;
    }
  }
}
