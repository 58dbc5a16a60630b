/**
 * The charon logger: a level mask deciding which records are written, the
 * "[tc] [name]" prefix of every record, and the hex dump of log_bytes.
 *
 * Output goes to syslog or a FILE; here every record written is appended to
 * the sequence `records` of the logger.
 */
module Logger {
  import opened Octets

  /** log_level_t: a set of flag bits. */
  type LogLevel = bv32

  // The flags are defined in logger.h, which is not part of this model, so
  // their values are left abstract.
  const Control: LogLevel
  const Error: LogLevel
  const Raw: LogLevel
  const Private: LogLevel
  const Audit: LogLevel
  const Level1: LogLevel
  const Level2: LogLevel
  const Level3: LogLevel

  // ---------------------------------------------------------------------
  // The level filter of logg and log_bytes
  // ---------------------------------------------------------------------

  /**
   * Whether a logger at `level` writes a record requested at `loglevel`:
   * exactly when no requested bit is missing from the mask.
   */
  function Emits(level: LogLevel, loglevel: LogLevel): (b: bool)
    ensures b <==> loglevel & !level == 0
  {
    level & loglevel == loglevel
  }

  /** Enabling bits keeps every record that was written and adds those at exactly these bits. */
  lemma EnableWidensEmits(level: LogLevel, enabled: LogLevel, loglevel: LogLevel)
    ensures Emits(level | enabled, enabled)
    ensures Emits(level, loglevel) ==> Emits(level | enabled, loglevel)
  {
  }

  /** enable_level sets exactly the given bits and keeps every other bit. */
  lemma EnableSetsExactly(level: LogLevel, enabled: LogLevel)
    ensures (level | enabled) & enabled == enabled
    ensures (level | enabled) & !enabled == level & !enabled
  {
  }

  /** disable_level clears exactly the given bits and keeps every other bit. */
  lemma DisableClearsExactly(level: LogLevel, disabled: LogLevel)
    ensures (level & !disabled) & disabled == 0
    ensures (level & !disabled) & !disabled == level & !disabled
  {
  }

  /** After disabling bits, no record that requests any of them is written. */
  lemma DisableSilences(level: LogLevel, disabled: LogLevel, loglevel: LogLevel)
    ensures loglevel & disabled != 0 ==> !Emits(level & !disabled, loglevel)
    ensures Emits(level & !disabled, loglevel) ==> Emits(level, loglevel)
  {
  }

  // ---------------------------------------------------------------------
  // prepend_prefix
  // ---------------------------------------------------------------------

  /** The type character: the first of CONTROL, ERROR, RAW, PRIVATE, AUDIT present. */
  function TypeChar(loglevel: LogLevel): (c: char)
    ensures c in "~!#?>-"
  {
    if loglevel & Control != 0 then '~'
    else if loglevel & Error != 0 then '!'
    else if loglevel & Raw != 0 then '#'
    else if loglevel & Private != 0 then '?'
    else if loglevel & Audit != 0 then '>'
    else '-'
  }

  /** The detail character: the highest of the three detail levels present. */
  function DetailChar(loglevel: LogLevel): (c: char)
    ensures '0' <= c <= '3'
  {
    if loglevel & (Level3 - Level2) != 0 then '3'
    else if loglevel & (Level2 - Level1) != 0 then '2'
    else if loglevel & Level1 != 0 then '1'
    else '0'
  }

  /** The character of the first entry of `table` whose flag is met, else `otherwise`. */
  function FirstSet(table: seq<(bool, char)>, otherwise: char): char
  {
    if table == [] then otherwise
    else if table[0].0 then table[0].1
    else FirstSet(table[1..], otherwise)
  }

  /** A priority lookup picks the first entry met, whatever follows it. */
  lemma {:induction false} FirstSetPicksFirst(table: seq<(bool, char)>, otherwise: char, k: nat)
    requires k < |table| && table[k].0
    requires forall j :: 0 <= j < k ==> !table[j].0
    ensures FirstSet(table, otherwise) == table[k].1
  {
    if k > 0 {
      FirstSetPicksFirst(table[1..], otherwise, k - 1);
    }
  }

  /** A priority lookup that meets no entry gives the fallback. */
  lemma {:induction false} FirstSetFallback(table: seq<(bool, char)>, otherwise: char)
    requires forall j :: 0 <= j < |table| ==> !table[j].0
    ensures FirstSet(table, otherwise) == otherwise
  {
    if table != [] {
      FirstSetFallback(table[1..], otherwise);
    }
  }

  /** The type flags of `loglevel` in priority order, with their characters. */
  function TypeTable(loglevel: LogLevel): seq<(bool, char)>
  {
    [(loglevel & Control != 0, '~'), (loglevel & Error != 0, '!'), (loglevel & Raw != 0, '#'),
     (loglevel & Private != 0, '?'), (loglevel & Audit != 0, '>')]
  }

  /** The detail masks `loglevel` meets, highest first, with their characters. */
  function DetailTable(loglevel: LogLevel): seq<(bool, char)>
  {
    [(loglevel & (Level3 - Level2) != 0, '3'), (loglevel & (Level2 - Level1) != 0, '2'), (loglevel & Level1 != 0, '1')]
  }

  /** The type character is that of the first type flag set in priority order, '-' if none is. */
  lemma TypeCharByPriority(loglevel: LogLevel)
    ensures TypeChar(loglevel) == FirstSet(TypeTable(loglevel), '-')
  {
    var t := TypeTable(loglevel);
    if t[0].0 {
      FirstSetPicksFirst(t, '-', 0);
    } else if t[1].0 {
      FirstSetPicksFirst(t, '-', 1);
    } else if t[2].0 {
      FirstSetPicksFirst(t, '-', 2);
    } else if t[3].0 {
      FirstSetPicksFirst(t, '-', 3);
    } else if t[4].0 {
      FirstSetPicksFirst(t, '-', 4);
    } else {
      FirstSetFallback(t, '-');
    }
  }

  /** The detail character is that of the highest detail mask met, '0' if none is. */
  lemma DetailCharByPriority(loglevel: LogLevel)
    ensures DetailChar(loglevel) == FirstSet(DetailTable(loglevel), '0')
  {
    var t := DetailTable(loglevel);
    if t[0].0 {
      FirstSetPicksFirst(t, '0', 0);
    } else if t[1].0 {
      FirstSetPicksFirst(t, '0', 1);
    } else if t[2].0 {
      FirstSetPicksFirst(t, '0', 2);
    } else {
      FirstSetFallback(t, '0');
    }
  }

  // ---------------------------------------------------------------------
  // The hex dump of log_bytes
  // ---------------------------------------------------------------------

  /** hexdig. */
  const HexDigits: string := "0123456789ABCDEF"

  /** A byte as two upper-case hex digits, high nibble first. */
  function HexPair(b: byte): string
  {
    [HexDigits[b / 16], HexDigits[b % 16]]
  }

  /** The ascii column's character for a byte: itself when printable, '*' otherwise. */
  function AsciiChar(b: byte): char
  {
    if 32 <= b <= 126 then b as char else '*'
  }

  /** The ascii column's characters for a run of bytes. */
  function AsciiOf(s: seq<byte>): (a: string)
    ensures |a| == |s|
  {
    seq(|s|, j requires 0 <= j < |s| => AsciiChar(s[j]))
  }

  /** The value of a C `char` holding byte `b` where `char` is signed. */
  function SignedChar(b: byte): int
  {
    if b < 128 then b else b - 256
  }

  /**
   * What log_bytes computes from a `char` value `c`, shifted right
   * arithmetically and masked, is the unsigned nibble, and its printable
   * test is that of the byte, whether `char` is signed or unsigned.
   */
  lemma CharNibbles(b: byte, c: int)
    requires c == b || c == SignedChar(b)
    ensures (c / 16) % 16 == b / 16 && c % 16 == b % 16
    ensures (31 < c < 127) <==> (32 <= b <= 126)
  {
  }

  /** The hex buffer after a run of bytes in one line, none of them the 16th: each pair then a space. */
  function HexRun(s: seq<byte>): string
  {
    if s == [] then [] else HexRun(s[..|s| - 1]) + HexPair(s[|s| - 1]) + " "
  }

  lemma {:induction false} HexRunLength(s: seq<byte>)
    ensures |HexRun(s)| == 3 * |s|
  {
    if s != [] {
      HexRunLength(s[..|s| - 1]);
    }
  }

  /** The string a NUL-terminated char array holds: everything before the first '\0'. */
  function CString(a: seq<char>): (s: string)
    ensures |s| <= |a| && '\0' !in s
  {
    if a == [] || a[0] == '\0' then [] else [a[0]] + CString(a[1..])
  }

  lemma {:induction false} CStringUpTo(a: seq<char>, k: nat)
    requires k < |a| && a[k] == '\0'
    requires forall j :: 0 <= j < k ==> a[j] != '\0'
    ensures CString(a) == a[..k]
  {
    if k > 0 {
      CStringUpTo(a[1..], k - 1);
      assert a[..k] == [a[0]] + a[1..][..k - 1];
    }
  }

  /** One hex line as log_bytes writes it. */
  datatype DumpLine = DumpLine(lineStart: int, hex: string, ascii: string)

  /**
   * The ascii column of line `k` with `r` of its bytes copied, as the code
   * prints it. Slot 0 is written only by the 16th byte of the previous line,
   * so it is '\0' on the first line, which hides the whole column.
   */
  function AsciiShown(bytes: seq<byte>, k: nat, r: nat): string
    requires 16 * k + r <= |bytes|
  {
    if k == 0 then "" else [AsciiChar(bytes[16 * k - 1])] + AsciiOf(bytes[16 * k..16 * k + r])
  }

  /** Line `k` of a dump when it holds 16 bytes: no space after the 16th pair. */
  function FullLine(bytes: seq<byte>, k: nat): DumpLine
    requires 16 * k + 16 <= |bytes|
  {
    DumpLine(16 * k, HexRun(bytes[16 * k..16 * k + 15]) + HexPair(bytes[16 * k + 15]), AsciiShown(bytes, k, 15))
  }

  function FullLines(bytes: seq<byte>, n: nat): (lines: seq<DumpLine>)
    requires 16 * n <= |bytes|
    ensures |lines| == n
  {
    seq(n, k requires 0 <= k < n => FullLine(bytes, k))
  }

  /** The last line of a dump whose length is not a multiple of 16. */
  function TailLine(bytes: seq<byte>): DumpLine
    requires |bytes| % 16 != 0
  {
    var k := |bytes| / 16;
    DumpLine(16 * k, HexRun(bytes[16 * k..]), AsciiShown(bytes, k, |bytes| % 16))
  }

  /** The hex lines log_bytes writes for `bytes`: one per 16 bytes and one for a remainder. */
  function DumpLines(bytes: seq<byte>): (lines: seq<DumpLine>)
    ensures |lines| == (|bytes| + 15) / 16
    ensures forall k :: 0 <= k < |lines| ==> lines[k].lineStart == 16 * k
  {
    FullLines(bytes, |bytes| / 16) + (if |bytes| % 16 == 0 then [] else [TailLine(bytes)])
  }

  /** The content of ascii_buffer with `r` bytes of line `k` copied. */
  function Slots(bytes: seq<byte>, k: nat, r: nat): (a: seq<char>)
    requires 16 * k + r <= |bytes| && r < 16
    ensures |a| == 17
  {
    [if k == 0 then '\0' else AsciiChar(bytes[16 * k - 1])] + AsciiOf(bytes[16 * k..16 * k + r]) + seq(16 - r, _ => '\0')
  }

  /** What `%s` prints of ascii_buffer is the ascii column as the code shows it. */
  lemma SlotsShow(bytes: seq<byte>, k: nat, r: nat)
    requires 16 * k + r <= |bytes| && r < 16
    ensures CString(Slots(bytes, k, r)) == AsciiShown(bytes, k, r)
  {
    var a := Slots(bytes, k, r);
    if k == 0 {
      CStringUpTo(a, 0);
    } else {
      assert forall j :: 1 <= j <= r ==> a[j] == AsciiChar(bytes[16 * k + j - 1]);
      CStringUpTo(a, r + 1);
      assert a[..r + 1] == [AsciiChar(bytes[16 * k - 1])] + AsciiOf(bytes[16 * k..16 * k + r]);
    }
  }

  /** A byte that is not the 16th of its line goes to the next free slot. */
  lemma SlotsAppend(bytes: seq<byte>, k: nat, r: nat)
    requires 16 * k + r < |bytes| && r < 15
    ensures Slots(bytes, k, r)[r + 1 := AsciiChar(bytes[16 * k + r])] == Slots(bytes, k, r + 1)
  {
    var a := Slots(bytes, k, r)[r + 1 := AsciiChar(bytes[16 * k + r])];
    var b := Slots(bytes, k, r + 1);
    assert forall j :: 0 <= j < 17 ==> a[j] == b[j];
  }

  /** After a flush the first 16 slots are cleared and the 16th byte lands in slot 0. */
  lemma SlotsAfterFlush(bytes: seq<byte>, k: nat)
    requires 16 * k + 16 <= |bytes|
    ensures (seq(16, _ => '\0') + Slots(bytes, k, 15)[16..])[0 := AsciiChar(bytes[16 * k + 15])] == Slots(bytes, k + 1, 0)
  {
    var a := (seq(16, _ => '\0') + Slots(bytes, k, 15)[16..])[0 := AsciiChar(bytes[16 * k + 15])];
    var b := Slots(bytes, k + 1, 0);
    assert forall j :: 0 <= j < 17 ==> a[j] == b[j];
  }

  lemma HexRunStep(bytes: seq<byte>, from: nat, to: nat)
    requires from <= to < |bytes|
    ensures HexRun(bytes[from..to + 1]) == HexRun(bytes[from..to]) + HexPair(bytes[to]) + " "
  {
    assert bytes[from..to + 1][..to - from] == bytes[from..to];
  }

  lemma FullLinesStep(bytes: seq<byte>, n: nat)
    requires 16 * n + 16 <= |bytes|
    ensures FullLines(bytes, n + 1) == FullLines(bytes, n) + [FullLine(bytes, n)]
  {
  }

  /** Where byte number i of the dump (counting from 1) falls: i % 16 is its slot. */
  lemma CounterSlot(k: nat, r: nat)
    requires r < 16
    ensures (16 * k + r + 1) % 16 == if r == 15 then 0 else r + 1
  {
  }

  /** memset(ascii_buffer, 0, 16): the first sixteen slots are cleared, the terminator kept. */
  method ClearSlots(ascii: array<char>)
    requires ascii.Length == 17
    modifies ascii
    ensures ascii[..] == seq(16, _ => '\0') + old(ascii[..])[16..]
  {
    forall s | 0 <= s < 16 {
      ascii[s] := '\0';
    }
  }

  /** ascii_buffer[slot] gets the byte's printable form. */
  method PutSlot(ascii: array<char>, slot: nat, c: int)
    requires slot < ascii.Length && -128 <= c < 128
    modifies ascii
    ensures ascii[..] == old(ascii[..])[slot := if 31 < c < 127 then c as char else '*']
  {
    ascii[slot] := if 31 < c < 127 then c as char else '*';
  }

  /**
   * The state of log_bytes inside line `k` with `r` of its bytes done: the
   * finished lines, the line's hex text so far and the content of
   * ascii_buffer.
   */
  ghost predicate LineState(bytes: seq<byte>, k: nat, r: nat, lines: seq<DumpLine>, hex: string, ascii: seq<char>)
  {
    && 16 * k + r <= |bytes| && r < 16
    && |lines| == k && lines == FullLines(bytes, k)
    && hex == HexRun(bytes[16 * k..16 * k + r])
    && ascii == Slots(bytes, k, r)
  }

  /** The same state seen from the loop's variables: byte number `i` is next and its line starts at `lineStart`. */
  ghost predicate DumpState(bytes: seq<byte>, i: int, lines: seq<DumpLine>, lineStart: int, hex: string, ascii: seq<char>)
  {
    && 1 <= i <= |bytes| + 1
    && lineStart == 16 * |lines| && lineStart <= i - 1 < lineStart + 16
    && LineState(bytes, |lines|, i - 1 - lineStart, lines, hex, ascii)
  }

  /** Byte number `i`, inside the line starting at `lineStart`, goes to slot i - lineStart, or 0 when it is the 16th. */
  lemma SlotOf(lineStart: int, i: int)
    requires 0 <= lineStart && lineStart % 16 == 0 && lineStart < i <= lineStart + 16
    ensures i % 16 == 0 <==> i == lineStart + 16
    ensures i % 16 != 0 ==> i % 16 == i - lineStart
  {
    CounterSlot(lineStart / 16, i - 1 - lineStart);
  }

  /** The 16th byte of line `k` ends it: the line is flushed and the buffers restart. */
  lemma FlushStep(bytes: seq<byte>, k: nat, lines: seq<DumpLine>, hex: string, ascii: seq<char>)
    requires 16 * k + 15 < |bytes| && LineState(bytes, k, 15, lines, hex, ascii)
    ensures LineState(bytes, k + 1, 0, lines + [DumpLine(16 * k, hex + HexPair(bytes[16 * k + 15]), CString(ascii))],
      [], (seq(16, _ => '\0') + ascii[16..])[0 := AsciiChar(bytes[16 * k + 15])])
  {
    SlotsShow(bytes, k, 15);
    FullLinesStep(bytes, k);
    SlotsAfterFlush(bytes, k);
    assert bytes[16 * (k + 1)..16 * (k + 1) + 0] == [];
  }

  /** Any other byte of line `k` adds its pair and a space, and its character to the next slot. */
  lemma AppendStep(bytes: seq<byte>, k: nat, r: nat, lines: seq<DumpLine>, hex: string, ascii: seq<char>)
    requires 16 * k + r < |bytes| && r < 15 && LineState(bytes, k, r, lines, hex, ascii)
    ensures LineState(bytes, k, r + 1, lines, hex + HexPair(bytes[16 * k + r]) + " ",
      ascii[r + 1 := AsciiChar(bytes[16 * k + r])])
  {
    HexRunStep(bytes, 16 * k, 16 * k + r);
    SlotsAppend(bytes, k, r);
  }

  /**
   * One pass of the hex-dump loop for byte number `i`: two hex digits, then
   * either the end of the line (every 16th byte) or a space, then the byte's
   * ascii character at slot i % 16.
   */
  method DumpByte(bytes: seq<byte>, i: int, ascii: array<char>, lines: seq<DumpLine>, lineStart: int, hex: string)
    returns (lines': seq<DumpLine>, lineStart': int, hex': string)
    requires i <= |bytes| && DumpState(bytes, i, lines, lineStart, hex, ascii[..])
    modifies ascii
    ensures DumpState(bytes, i + 1, lines', lineStart', hex', ascii[..])
  {
    ghost var k, r := |lines|, i - 1 - lineStart;
    ghost var b := bytes[16 * k + r];
    assert bytes[i - 1] == b;
    SlotOf(lineStart, i);
    var c := SignedChar(bytes[i - 1]);
    CharNibbles(b, c);
    hex' := hex + [HexDigits[(c / 16) % 16], HexDigits[c % 16]];
    assert hex' == hex + HexPair(b);
    ghost var next: seq<char>;
    if i % 16 == 0 {
      assert r == 15;
      FlushStep(bytes, k, lines, hex, ascii[..]);
      next := (seq(16, _ => '\0') + ascii[..][16..])[0 := AsciiChar(b)];
      lines' := lines + [DumpLine(lineStart, hex', CString(ascii[..]))];
      hex' := [];
      ClearSlots(ascii);
      lineStart' := lineStart + 16;
      assert LineState(bytes, k + 1, 0, lines', hex', next);
      assert |lines'| == k + 1 && (i + 1) - 1 - lineStart' == 0;
    } else {
      // every fourth byte once got a second space; that line is commented
      // out, so the `i % 4 == 0` branch and the last one both add one
      assert i % 16 == r + 1;
      AppendStep(bytes, k, r, lines, hex, ascii[..]);
      next := ascii[..][r + 1 := AsciiChar(b)];
      hex' := hex' + " ";
      lines', lineStart' := lines, lineStart;
      assert LineState(bytes, k, r + 1, lines', hex', next);
      assert |lines'| == k && (i + 1) - 1 - lineStart' == r + 1;
    }
    PutSlot(ascii, i % 16, c);
    assert ascii[..] == next;
  }

  /** When the loop has consumed every byte, the last line is flushed exactly when bytes remain. */
  lemma FinishDump(bytes: seq<byte>, lines: seq<DumpLine>, lineStart: int, hex: string, ascii: seq<char>)
    requires DumpState(bytes, |bytes| + 1, lines, lineStart, hex, ascii)
    ensures |hex| > 0 <==> |bytes| % 16 != 0
    ensures |hex| == 0 ==> lines == DumpLines(bytes)
    ensures |hex| > 0 ==> lines + [DumpLine(lineStart, hex, CString(ascii))] == DumpLines(bytes)
  {
    assert |bytes| / 16 == |lines| && |bytes| % 16 == |bytes| - lineStart;
    assert bytes[lineStart..|bytes|] == bytes[lineStart..];
    HexRunLength(bytes[lineStart..]);
    if |hex| > 0 {
      SlotsShow(bytes, |lines|, |bytes| - lineStart);
    }
  }

  /** The hex-dump loop of log_bytes, over all the bytes, and its last partial line. */
  method HexDump(bytes: seq<byte>) returns (lines: seq<DumpLine>)
    ensures lines == DumpLines(bytes)
  {
    var ascii := new char[17](_ => '\0');
    var hex: string := [];
    var lineStart := 0;
    lines := [];
    var i := 1;
    while i <= |bytes|
      invariant DumpState(bytes, i, lines, lineStart, hex, ascii[..])
    {
      lines, lineStart, hex := DumpByte(bytes, i, ascii, lines, lineStart, hex);
      i := i + 1;
    }
    FinishDump(bytes, lines, lineStart, hex, ascii[..]);
    if |hex| > 0 {
      lines := lines + [DumpLine(lineStart, hex, CString(ascii[..]))];
    }
  }

  // ---------------------------------------------------------------------
  // Reading a dump back
  // ---------------------------------------------------------------------

  /** The value of an upper-case hex digit; anything else reads as 0. */
  function DigitValue(c: char): (v: nat)
    ensures v < 16
  {
    if '0' <= c <= '9' then c as int - '0' as int
    else if 'A' <= c <= 'F' then c as int - 'A' as int + 10
    else 0
  }

  /** The bytes a hex text spells: pairs of digits, spaces between them skipped. */
  function ParseHex(s: string): seq<byte>
    decreases |s|
  {
    if |s| < 2 then []
    else if s[0] == ' ' then ParseHex(s[1..])
    else [16 * DigitValue(s[0]) + DigitValue(s[1])] + ParseHex(s[2..])
  }

  /** Each hex digit reads back as its own value, and none is a space. */
  lemma DigitInverts(n: nat)
    requires n < 16
    ensures DigitValue(HexDigits[n]) == n && HexDigits[n] != ' '
  {
  }

  lemma PairThenParse(b: byte, t: string)
    ensures ParseHex(HexPair(b) + t) == [b] + ParseHex(t)
  {
    var s := HexPair(b) + t;
    assert s[0] == HexDigits[b / 16] && s[1] == HexDigits[b % 16];
    DigitInverts(b / 16);
    DigitInverts(b % 16);
    assert s[2..] == t;
  }

  lemma SpaceThenParse(t: string)
    ensures ParseHex(" " + t) == ParseHex(t)
  {
    if t != [] {
      assert (" " + t)[1..] == t;
    }
  }

  lemma SliceJoin<T>(s: seq<T>, i: nat, j: nat, k: nat)
    requires i <= j <= k <= |s|
    ensures s[i..j] + s[j..k] == s[i..k]
    ensures i == 0 ==> s[..j] + s[j..k] == s[..k]
    ensures i == 0 && k == |s| ==> s[..j] + s[j..] == s
  {
  }

  lemma Regroup<T>(a: seq<T>, b: seq<T>, c: seq<T>, d: seq<T>)
    ensures a + b + c + d == a + (b + (c + d))
  {
  }

  /** The hex text of a run of bytes reads back as those bytes, whatever follows it. */
  lemma {:induction false} HexRunParses(s: seq<byte>, t: string)
    ensures ParseHex(HexRun(s) + t) == s + ParseHex(t)
  {
    if s == [] {
      assert HexRun(s) + t == t;
    } else {
      var init, last := s[..|s| - 1], s[|s| - 1];
      calc {
        ParseHex(HexRun(s) + t);
        { assert HexRun(s) == HexRun(init) + HexPair(last) + " ";
          Regroup(HexRun(init), HexPair(last), " ", t); }
        ParseHex(HexRun(init) + (HexPair(last) + (" " + t)));
        { HexRunParses(init, HexPair(last) + (" " + t)); }
        init + ParseHex(HexPair(last) + (" " + t));
        { PairThenParse(last, " " + t); }
        init + ([last] + ParseHex(" " + t));
        { SpaceThenParse(t); }
        init + ([last] + ParseHex(t));
        { assert init + [last] == s; }
        s + ParseHex(t);
      }
    }
  }

  /** The bytes of line `k`: sixteen, or what is left for the last line. */
  function Chunk(bytes: seq<byte>, k: nat): (c: seq<byte>)
    requires 16 * k < |bytes|
    ensures 0 < |c| <= 16
  {
    if 16 * k + 16 <= |bytes| then bytes[16 * k..16 * k + 16] else bytes[16 * k..]
  }

  /** A full line's hex text reads back as its sixteen bytes. */
  lemma FullLineParses(bytes: seq<byte>, k: nat)
    requires 16 * k + 16 <= |bytes|
    ensures ParseHex(FullLine(bytes, k).hex) == Chunk(bytes, k)
  {
    var run := bytes[16 * k..16 * k + 15];
    HexRunParses(run, HexPair(bytes[16 * k + 15]));
    PairThenParse(bytes[16 * k + 15], []);
    assert HexPair(bytes[16 * k + 15]) + [] == HexPair(bytes[16 * k + 15]);
    assert run + [bytes[16 * k + 15]] == Chunk(bytes, k);
  }

  /** The last, partial line's hex text reads back as the bytes left over. */
  lemma TailLineParses(bytes: seq<byte>)
    requires |bytes| % 16 != 0
    ensures ParseHex(TailLine(bytes).hex) == Chunk(bytes, |bytes| / 16)
  {
    var run := bytes[16 * (|bytes| / 16)..];
    HexRunParses(run, []);
    assert HexRun(run) + [] == HexRun(run);
    assert run + [] == run;
  }

  /** Every byte spelled by a sequence of lines, in order. */
  function DumpedBytes(lines: seq<DumpLine>): seq<byte>
  {
    if lines == [] then [] else DumpedBytes(lines[..|lines| - 1]) + ParseHex(lines[|lines| - 1].hex)
  }

  lemma {:induction false} FullLinesParse(bytes: seq<byte>, n: nat)
    requires 16 * n <= |bytes|
    ensures DumpedBytes(FullLines(bytes, n)) == bytes[..16 * n]
  {
    if n > 0 {
      FullLinesStep(bytes, n - 1);
      DumpedBytesAppend(FullLines(bytes, n - 1), FullLine(bytes, n - 1));
      FullLinesParse(bytes, n - 1);
      FullLineParses(bytes, n - 1);
      SliceJoin(bytes, 0, 16 * (n - 1), 16 * n);
    }
  }

  /**
   * The hex column of a dump holds every byte once, in order: reading the
   * lines back gives the bytes that were dumped.
   */
  lemma DumpRoundTrip(bytes: seq<byte>)
    ensures DumpedBytes(DumpLines(bytes)) == bytes
  {
    var n := |bytes| / 16;
    var full := FullLines(bytes, n);
    FullLinesParse(bytes, n);
    if |bytes| % 16 == 0 {
      assert DumpLines(bytes) == full;
      assert bytes[..16 * n] == bytes;
    } else {
      assert DumpLines(bytes) == full + [TailLine(bytes)];
      DumpedBytesAppend(full, TailLine(bytes));
      TailLineParses(bytes);
      SliceJoin(bytes, 0, 16 * n, |bytes|);
    }
  }

  lemma DumpedBytesAppend(lines: seq<DumpLine>, line: DumpLine)
    ensures DumpedBytes(lines + [line]) == DumpedBytes(lines) + ParseHex(line.hex)
  {
    assert (lines + [line])[..|lines|] == lines;
  }

  /**
   * Line `k` of a dump starts at offset 16 * k and its hex column spells
   * exactly the bytes from there: sixteen, or those left for the last line.
   */
  lemma DumpLineSpellsChunk(bytes: seq<byte>, k: nat)
    requires k < |DumpLines(bytes)|
    ensures 16 * k < |bytes|
    ensures DumpLines(bytes)[k].lineStart == 16 * k
    ensures ParseHex(DumpLines(bytes)[k].hex) == Chunk(bytes, k)
  {
    var lines := DumpLines(bytes);
    if 16 * k + 16 <= |bytes| {
      assert lines[k] == FullLine(bytes, k);
      FullLineParses(bytes, k);
    } else {
      assert k == |bytes| / 16;
      assert lines[k] == TailLine(bytes);
      TailLineParses(bytes);
    }
  }

  // ---------------------------------------------------------------------
  // The ascii column: as written and as intended
  // ---------------------------------------------------------------------

  /**
   * As written, the ascii column never shows a line's own 16th byte: the first
   * line's column is empty, and every later line's column starts with the
   * last byte of the line before.
   */
  lemma AsciiColumnShifted(bytes: seq<byte>)
    requires |bytes| > 0
    ensures DumpLines(bytes)[0].ascii == ""
    ensures forall k :: 1 <= k < |DumpLines(bytes)| ==> DumpLines(bytes)[k].ascii[0] == AsciiChar(bytes[16 * k - 1])
  {
    var lines := DumpLines(bytes);
    var n := |bytes| / 16;
    forall k | 0 <= k < |lines|
      ensures lines[k].ascii == if k < n then AsciiShown(bytes, k, 15) else AsciiShown(bytes, k, |bytes| % 16)
    {
      if k < n {
        assert lines[k] == FullLine(bytes, k);
      } else {
        assert lines[k] == TailLine(bytes);
      }
    }
  }

  /** A one-byte dump of "A": the hex column shows 41, the ascii column nothing. */
  lemma OneByteDumpHidesAscii()
    ensures DumpLines([0x41]) == [DumpLine(0, "41 ", "")]
  {
    var bytes: seq<byte> := [0x41];
    assert bytes[0..] == bytes && bytes[..0] == [];
    assert HexPair(0x41) == "41";
    assert HexRun(bytes) == "41 ";
    assert FullLines(bytes, 0) == [];
    assert TailLine(bytes) == DumpLine(0, "41 ", "");
  }

  /** Line `k` as intended: its ascii column shows its own bytes. */
  function IntendedLine(bytes: seq<byte>, k: nat): DumpLine
    requires 16 * k < |bytes|
  {
    var line := if 16 * k + 16 <= |bytes| then FullLine(bytes, k) else TailLine(bytes);
    DumpLine(line.lineStart, line.hex, AsciiOf(Chunk(bytes, k)))
  }

  /** The dump with the ascii column each line was meant to carry. */
  function IntendedDumpLines(bytes: seq<byte>): (lines: seq<DumpLine>)
    ensures |lines| == (|bytes| + 15) / 16
  {
    seq((|bytes| + 15) / 16, k requires 0 <= k < (|bytes| + 15) / 16 => IntendedLine(bytes, k))
  }

  /**
   * In the intended dump each line's ascii column shows exactly the bytes its
   * hex column spells, and the hex column is that of the code.
   */
  lemma IntendedAsciiMatchesHex(bytes: seq<byte>)
    ensures forall k :: 0 <= k < |IntendedDumpLines(bytes)| ==>
      IntendedDumpLines(bytes)[k].ascii == AsciiOf(ParseHex(IntendedDumpLines(bytes)[k].hex))
    ensures forall k :: 0 <= k < |IntendedDumpLines(bytes)| ==>
      IntendedDumpLines(bytes)[k].hex == DumpLines(bytes)[k].hex &&
      IntendedDumpLines(bytes)[k].lineStart == DumpLines(bytes)[k].lineStart
  {
    var lines, code := IntendedDumpLines(bytes), DumpLines(bytes);
    forall k | 0 <= k < |lines|
      ensures lines[k].ascii == AsciiOf(ParseHex(lines[k].hex))
      ensures lines[k].hex == code[k].hex && lines[k].lineStart == code[k].lineStart
    {
      DumpLineSpellsChunk(bytes, k);
      if 16 * k + 16 <= |bytes| {
        assert code[k] == FullLine(bytes, k);
      } else {
        assert code[k] == TailLine(bytes);
      }
    }
  }

  // ---------------------------------------------------------------------
  // Records and the logger object
  // ---------------------------------------------------------------------

  /** "[tc] [name] " before a record, with the thread's id when the logger shows it. */
  datatype Prefix = Prefix(logType: char, details: char, name: string, thread: Option<nat>)

  /** A record written to syslog or the output file. */
  datatype Record =
    | Message(prefix: Prefix, format: string)
    | BytesLabel(prefix: Prefix, title: string, len: nat)
    | Dump(line: DumpLine)

  /** Where a logger writes: syslog, or a stream opened by the caller. */
  datatype Output = Syslog | Stream(handle: nat)

  function DumpRecords(lines: seq<DumpLine>): (rs: seq<Record>)
    ensures |rs| == |lines|
  {
    seq(|lines|, k requires 0 <= k < |lines| => Dump(lines[k]))
  }

  /** private_logger_t. */
  class Logger {
    /** Flags of the records this logger writes. */
    var level: LogLevel
    const name: string
    const logThreadId: bool
    const output: Output
    /** Everything written so far, in order. */
    var records: seq<Record>

    /** logger_create: a NULL name is stored as "". */
    constructor (loggerName: Option<string>, logLevel: LogLevel, logThreadId: bool, output: Output)
      ensures level == logLevel
      ensures name == (if loggerName.Some? then loggerName.value else "")
      ensures this.logThreadId == logThreadId && this.output == output
      ensures records == []
    {
      level := logLevel;
      name := if loggerName.Some? then loggerName.value else "";
      this.logThreadId := logThreadId;
      this.output := output;
      records := [];
    }

    /** prepend_prefix; `thread` is what pthread_self returns. */
    function PrefixFor(loglevel: LogLevel, thread: nat): (p: Prefix)
      reads this
      ensures p.logType == FirstSet(TypeTable(loglevel), '-')
      ensures p.details == FirstSet(DetailTable(loglevel), '0')
      ensures p.name == name
      ensures p.thread == (if logThreadId then Some(thread) else None)
    {
      TypeCharByPriority(loglevel);
      DetailCharByPriority(loglevel);
      Prefix(TypeChar(loglevel), DetailChar(loglevel), name, if logThreadId then Some(thread) else None)
    }

    /** logg: one record, written only when every requested bit is enabled. */
    method Log(loglevel: LogLevel, format: string, thread: nat)
      modifies this`records
      ensures records == old(records) + (if Emits(level, loglevel) then [Message(PrefixFor(loglevel, thread), format)] else [])
    {
      if level & loglevel == loglevel {
        records := records + [Message(PrefixFor(loglevel, thread), format)];
      }
    }

    /** log_bytes: a label record and the hex dump, written only when every requested bit is enabled. */
    method LogBytes(loglevel: LogLevel, title: string, bytes: seq<byte>, thread: nat)
      modifies this`records
      ensures records == old(records) +
        (if Emits(level, loglevel)
         then [BytesLabel(PrefixFor(loglevel, thread), title, |bytes|)] + DumpRecords(DumpLines(bytes))
         else [])
    {
      if level & loglevel == loglevel {
        var lines := HexDump(bytes);
        records := records + ([BytesLabel(PrefixFor(loglevel, thread), title, |bytes|)] + DumpRecords(lines));
      }
    }

    /** log_chunk: log_bytes on the chunk's bytes. */
    method LogChunk(loglevel: LogLevel, title: string, chunk: seq<byte>, thread: nat)
      modifies this`records
      ensures records == old(records) +
        (if Emits(level, loglevel)
         then [BytesLabel(PrefixFor(loglevel, thread), title, |chunk|)] + DumpRecords(DumpLines(chunk))
         else [])
    {
      LogBytes(loglevel, title, chunk, thread);
    }

    /** enable_level: the given bits become set, the others keep their value. */
    method EnableLevel(enabled: LogLevel)
      modifies this`level
      ensures level == old(level) | enabled
    {
      level := level | enabled;
    }

    /** disable_level: the given bits become clear, the others keep their value. */
    method DisableLevel(disabled: LogLevel)
      modifies this`level
      ensures level == old(level) & !disabled
    {
      level := level & !disabled;
    }

    /** get_level: the current mask. */
    function GetLevel(): (l: LogLevel)
      reads this
      ensures l == level
    {
      level
    }
  }
}
